# TGen in Dafny

TGen generates network traffic from an action graph. A driver walks the graph and starts traffic, flow
and stream generators; streams are carried between a commander and a server by a hand-written protocol
with partial reads and writes, pauses, and a seeded Markov model at both ends. This project models that
machinery and proves what holds over whole runs.

The stream protocol comes in three layers. `Receiver` and `Sender` describe one endpoint as values: a byte
automaton for reading, stages for writing. `StreamObject` carries it out on mutable fields with a read
buffer, a send buffer and offset, and loops, and is proved to be the value endpoint. `Session` lets two
endpoints and two byte pipes take steps in any order, and `Sending`, `Script` and `Agreement` prove what
they can rely on; `Progress` and `Stuck` say when they can always go on, `Completion` when they can always
finish. `Refusals` says what a receiver accepts and refuses of arbitrary bytes. `Packets`, `Markov` and
`MarkovObject` are the packet loop and the model it walks, `WalkSafety` which graphs are safe to walk,
`Headers`, `CStrings` and `Decimals` the codec of command and response.

`Timers` and `Deferral` are the timer descriptors and the deferral of writes in the I/O loop, `Lifetimes`
its reference counts. `Generators` and `Lifecycle` are the generator tree as values, `GeneratorObject` the
same on heap objects, `Notices` what it tells the driver. `ActionGraph` and `Driver` choose and walk actions,
start their generators and keep the counters. `Socks` is the SOCKS5 client of RFC 1928
(sections 3, 4 and 6) and RFC 1929 (section 2).

Some things the code does not do, and the proofs say when it does:

- A request to send zero bytes is dropped unless a receive size is given too (`ZeroSendNeedsReceiveSize`).
- A NUL behind a partly drained read buffer cuts the buffer (`DrainKeeps`), in the worst case to an empty one
  that fails an assertion (`DrainLeavesEmpty`); framing is proved for bytes without NUL.
- The footer is gated on a received checksum, so an end that expects none waits forever. Streams can always
  be finished exactly when both sizes are positive or none is given (`FinishesExactly`); within bounded pipes
  they can always go on exactly when, without sizes, the walk also makes the server send (`GoesOnExactly`).
  For all others there is a run that gets stuck (`MixedGetsStuck`, `ZeroSizesGetStuck`,
  `UnansweredGetsStuck`). Safety holds for all sizes.
- Validation of a Markov model does not check that observation vertices are typed as such, nor that a state
  has a transition and an emission behind it. `AbortsExactly` and `RunsAbortExactly` say which accepted graphs
  can fail an assertion, `DeadEndsExactly` which report ends that are not the model's, `CanEndExactly` which
  can end at all.
- A weighted choice between edges of total weight zero runs out of weights (`ChoiceExists`).
- A protocol version is compared in 32 bits, so 4294967298.0 is accepted; the byte behind the authentication
  token may be any (`VersionExact`, `TokenExact`).
- The later pieces of a SOCKS reply are read within the event that completed the one before. If they are not
  there yet, nothing is asked for any more and what was gathered is lost (`OnEvent`: a call that moves nothing
  is answered by nothing); the handshake opens when every call moves something (`Drive`).
- A SOCKS credential or name with multi-byte characters is cut to its length in characters
  (`CredentialExact`, `NameExact`), and an empty credential does not have the form of the standard
  (`CredentialLoses`).

Reals are exact, MD5 and the random stream of a seed are parameters, and the kernel is nondeterministic.

## Model

| member | source | states |
|---|---|---|
| Agreement.FinMeansDelivered | src/tgen-stream.c:1054-1156 | in every interleaved run over a lossless pipe with both sizes known (positive or explicit zero), an end in success implies that its peer waits at most for the footer, has read every payload byte that was sent and matched the checksum; and the end itself has all of the peer's payload |
| Agreement.NoErrors | src/tgen-stream.c:1000-1088 | whatever the sizes and the interleaving, no end meets a checksum, footer or any other error over a lossless pipe |
| Stuck.GoesOnExactly | src/tgen-stream.c:1497-1517 | on a walk that finds its end and, across restarts, keeps giving packets of both directions: in every reachable state, for every pipe capacity, both ends are done or one can step, conclude its receive or meet the end of file, if and only if both sizes are positive, or no size is given and the walk makes the server send at least one packet |
| Completion.FinishesExactly | src/tgen-stream.c:1808-1875 | on such a walk: from every state that wanted events reach, further wanted events bring both ends to success, if and only if both sizes are positive or no size is given |
| Completion.FinishPositive | src/tgen-stream.c:1497-1609 | the run that finishes from any state between positive sizes: pending writes in whatever state, checksum lines, gated footers |
| Completion.FinishUnset | src/tgen-stream.c:1840-1850 | the run that finishes from any state without sizes, by conclusion or end of file |
| Completion.StuckForever | src/tgen-stream.c:1858-1870 | where nothing can go on, no further wanted events change anything |
| Progress.MatchedGoesOn | src/tgen-stream.c:1808-1875 | the first half, over every run: a wanted byte is there, a wanted write has room, a pause runs out, a receive concludes, or the end of file is there |
| Stuck.MixedGetsStuck | src/tgen-stream.c:1497-1517 | the second half: for each of the seven other combinations of positive, zero and unknown sizes a run, made only of events that an end asks for and of complete batches, into a state where no end can do anything although both are not done |
| Stuck.ZeroSizesGetStuck | src/tgen-stream.c:1858-1870 | such a run for zero bytes in both directions, whatever the model: nobody asks for anything any more and the commander is not done |
| Stuck.UnansweredGetsStuck | src/tgen-stream.c:1840-1850 | without sizes and without a packet for the commander: it concludes at once and nobody reads the response that the server has begun |
| Stuck.SilenceIsStuck | src/tgen-stream.c:1858-1870 | an end that has heard everything, is to receive no checksum and waits to send its footer, while its peer has sent everything: nothing can go on, whatever the capacity |
| Agreement.DeadlockFree | src/tgen-stream.c:1808-1875 | between positive sizes, with no assumption about the walk, one of the ends can read, write or wait for a pause of its own until both are done |
| Agreement.TwoWalksAgree | src/tgen-stream.c:1383-1438 | with no sizes and one seeded model, an end that concluded has read exactly 1434 times the packets the whole walk gives its peer; the peer sent exactly that; the end's own finished walk expected exactly that |
| Agreement.CountersFollowWalk | src/tgen-stream.c:1393-1409 | however the walk was batched, expected bytes are 1434 times the per-direction counts of the observations consumed |
| Agreement.PayloadAccounting | src/tgen-stream.c:1332-1459 | known size: accepted plus buffered bytes are the bytes fed to the checksum, at most the request; both payload states are left at equality only, the receiver counts strictly below before |
| Agreement.Position | src/tgen-stream.c:1466-1537 | how many bytes are written bounds the send state from both sides, segment by segment |
| Agreement.Reading | src/tgen-stream.c:1090-1145 | how many bytes are read decides the receive phase exactly: early, payload, checksum, footer, success |
| Agreement.RunEnded | src/tgen-stream.c:1844-1848 | a receive of unknown size ends only by its own finished sender with all expected payload, or at the end of everything the peer sent |
| Session.RunInv | src/tgen-stream.c:1539-1609 | over every run from the start, both ends satisfy the alignment invariant: written plus buffered bytes are the beginning of one script, and each reader is the automaton on the bytes it has read |
| Session.StepKeeps | src/tgen-stream.c:1902-1952 | each step (writable event with any partial writes, read of any length, end of file, conclusion) keeps that invariant |
| Session.Aligned | src/tgen-stream.c:1090-1145 | the phase of a reader is determined by its position in the peer's script |
| Session.OnScript | src/tgen-stream.c:1332-1537 | what a sender has written and buffered is always the beginning of command or response, payload, checksum line and footer |
| Session.ReadHalf | src/tgen-stream.c:1090-1145 | reading on hands the send machine its response exactly once, when command and model are complete |
| Session.ConcludeHalf | src/tgen-stream.c:1840-1850 | the conclusion of a receive of unknown size keeps the invariant |
| Sending.WriteKeeps | src/tgen-stream.c:1539-1609 | a whole writable event keeps the sender's invariant under arbitrary partial writes; of the receive machine it changes only the commander's step from none to authenticate |
| Sending.LoadKeeps | src/tgen-stream.c:1383-1459 | a new batch never exceeds the requested size and extends checksummed and expected bytes alike |
| Sending.FlushKeeps | src/tgen-stream.c:1171-1212 | one write moves bytes from the buffer to the wire, in order, and changes nothing else |
| Sending.FooterKeeps | src/tgen-stream.c:1497-1537 | a footer is begun only when everything expected from the peer has come |
| Sending.ChecksumKeeps | src/tgen-stream.c:1466-1495 | the checksum line covers exactly the payload that was written |
| Sending.BatchExact | src/tgen-stream.c:1371-1459 | an emptied buffer is refilled with 1434 letters for each packet to the server that a commander observes, or to the origin for a server, cut at the requested size and checksummed; the peer's packets are expected; a pause of the delay since the last own packet is set exactly when that exceeds 10000 microseconds |
| Packets.DelayExact | src/tgen-stream.c:1393-1438 | that delay is the last own packet's plus those of the peer's packets behind it |
| Sending.PauseDefers | src/tgen-stream.c:1539-1551 | a stream with a deferral barrier asks for a deferral or is done, one without asks for none; every writable event keeps this, whatever the socket answers |
| Script.CommandTrack | src/tgen-stream.c:1214-1299 | any beginning of a written command leaves the server waiting without an error; the whole command leaves it with name, seed, mode, model and swapped sizes installed, at the payload |
| Script.ResponseTrack | src/tgen-stream.c:1301-1330 | any beginning of a written response leaves the commander waiting; the whole one leaves it at the payload with its sizes untouched |
| Script.BodyTrack | src/tgen-stream.c:941-1088 | any beginning of payload, checksum line and footer leaves the reader in the phase, with the count and the checksummed bytes, that its length says |
| Script.HeaderTrack | src/tgen-stream.c:591-660 | token and header line: nothing is judged before the newline |
| Script.OwnChecksumMatches | src/tgen-stream.c:1022-1036 | the written checksum line passes the reader's check of the same payload |
| Headers.CommandRoundTrip | src/tgen-stream.c:1214-1287 | parsing a rendered command recovers every announced value, sizes swapped and the tilde kept |
| Headers.CommandAccepted | src/tgen-stream.c:796-879 | the parsed command is accepted and its path model loaded |
| Headers.ResponseAccepted | src/tgen-stream.c:631-795 | the response parses without touching the sizes; it is accepted exactly when its code is NONE |
| Headers.SizesSwapped | src/tgen-stream.c:702-724 | the server's sizes are the commander's with the directions swapped, twice swapped they are the same |
| Headers.AcceptedGivesAll | src/tgen-stream.c:796-879 | a header is accepted only if its line gives every required key, a path or a size of the model included |
| Headers.LineSplits | src/tgen-stream.c:651-656 | a rendered line has no newline and splits back into its fields |
| Headers.OnlyNoErrorSaysNone | src/tgen-stream.c:281-342 | only the absence of an error is written as NONE |
| Headers.KeyOfText | src/tgen-stream.c:661-763 | every written key is read as itself, although keys are compared without case |
| Headers.CommandFormat | src/tgen-stream.c:1214-1287 | the bytes of a command: token, protocol version, host, transfer, sizes with a tilde for zero requests, model name, seed, mode, and path or size and text |
| Headers.ResponseFormat | src/tgen-stream.c:1301-1330 | the bytes of a response: token, protocol version, host and the code of the error |
| Headers.ErrorTextsDiffer | src/tgen-stream.c:281-342 | different errors have different codes |
| CStrings.SplitJoin | src/tgen-stream.c:651-655 | splitting a joined line gives the pieces back |
| CStrings.Find | src/tgen-stream.c:506-514 | the first newline, or none |
| Decimals.PrintReads | src/tgen-stream.c:1231-1246 | a printed number is read back as itself by strtoull and strtol |
| Decimals.OutOfRange | src/tgen-stream.c:702-728 | numbers that do not fit saturate; a minus sign negates modulo 2 to the 64th in sizes, and gives negative numbers elsewhere |
| Receiver.RunAppend | src/tgen-stream.c:426-460 | reading a string in two pieces is reading it at once |
| Receiver.RunModel | src/tgen-stream.c:881-939 | model bytes are gathered until the announced size and then loaded at once |
| Receiver.RunPayload | src/tgen-stream.c:941-998 | payload bytes are counted, checksummed when the size is known, and complete at the exact size |
| Refusals.ChecksumExact | src/tgen-stream.c:1000-1052 | for every line after the payload: the stream goes on to the footer if the second space-separated word begins, apart from case, with the digest of exactly the bytes counted, otherwise it has failed with a checksum error |
| Refusals.FooterExact | src/tgen-stream.c:1054-1088 | for every line: success if it begins with FIN apart from case, otherwise a footer error |
| Refusals.ReceiptExact | src/tgen-stream.c:941-1088 | for all bytes behind a header that asks for a payload: the receiver waits for the footer or succeeds exactly when they begin with a payload of the requested size and a line that carries its digest, and succeeds exactly when a footer line follows |
| Refusals.EndOfFileExact | src/tgen-stream.c:462-504 | for all bytes followed by an end of file: success exactly when they are intact, that is payload, digest and footer for a known size, a footer for zero bytes, anything for an unknown size; otherwise an error |
| Refusals.EndOfFileEarly | src/tgen-stream.c:462-504 | an end of file before the payload is an error |
| Refusals.ReadIsDigested | src/tgen-stream.c:1022-1050 | over every two-party run: an end with a requested size that waits for the footer or has succeeded has read the whole command or response of its peer, exactly the requested bytes, and a line with the digest of these very bytes; it has succeeded exactly when a footer line followed |
| Refusals.TokenExact | src/tgen-stream.c:591-629 | for all bytes at the start: a beginning of the token waits, the token and any one byte lead to the header, everything else fails with an authentication error |
| Refusals.VersionExact | src/tgen-stream.c:661-686 | a version is accepted exactly when the number before its first dot is 2 modulo 2 to the 32nd, is refused otherwise, and is ignored without a dot |
| Refusals.ModelSizeExact | src/tgen-stream.c:742-757 | a model size is accepted exactly from 1 to 10485760 |
| Refusals.ModelModeExact | src/tgen-stream.c:730-738 | path and grap, apart from case and as prefixes, are the modes; everything else is refused |
| Refusals.PathExact | src/tgen-stream.c:811-843 | a whole command with a path: the model is the one loaded from that path with the announced seed, or the built-in text for the built-in name; no model, and only that, is a path error, and the server responds either way |
| Refusals.ModelExact | src/tgen-stream.c:881-939 | model text of the announced size is loaded with the announced seed; no model, and only that, is a model error, and the server responds either way |
| Refusals.ErrorResponseRefused | src/tgen-stream.c:631-879 | a response that carries the code of any error fails the commander, whose sending ends too |
| Refusals.RefusalAnswered | src/tgen-stream.c:1301-1330 | a server with an error writes the response with that error's code, in as many writes as it takes, and then nothing |
| StreamObject.Stream.constructor | src/tgen-stream.c:2034-2141 | a new stream is the value endpoint that the session starts from, sizes and zero flags included |
| StreamObject.Stream.OnReadable | src/tgen-stream.c:1090-1156 | one readable event on buffers and fields is the byte automaton on the bytes it consumed; afterwards no complete line and no payload byte is left behind, and at most an unfinished line is buffered |
| StreamObject.Stream.SettledView | src/tgen-stream.c:1090-1156 | between events the fields determine the automaton state and the left-over line |
| StreamObject.Stream.ReadBuffered | src/tgen-stream.c:426-460 | draining takes the buffer or its first part; the rest is copied as a C string |
| StreamObject.Stream.Read | src/tgen-stream.c:462-504 | buffered bytes before socket bytes; end of file is an error unless the payload may end there |
| StreamObject.Stream.GetLine | src/tgen-stream.c:516-589 | a whole line, or every byte is kept; after a line the rest fits one read |
| StreamObject.Stream.CheckToken | src/tgen-stream.c:609-629 | the password byte by byte, the byte after it is not compared |
| StreamObject.Stream.ParseFields | src/tgen-stream.c:660-795 | the key=value loop is the fold of the field rules, stopping at the first error |
| StreamObject.Stream.JudgeHeader | src/tgen-stream.c:796-879 | the verdict, the installed values and the response of a header line |
| StreamObject.Stream.ReadModel | src/tgen-stream.c:881-939 | one read of model text; a bad model is refused with a response |
| StreamObject.Stream.ReadPayload | src/tgen-stream.c:941-998 | at most one read, never past the requested size; end of file only for an unknown size |
| StreamObject.Stream.ReadChecksum | src/tgen-stream.c:1000-1052 | skipped without a size, else the line is judged as `Refusals.ChecksumExact` says |
| StreamObject.Stream.ReadFooter | src/tgen-stream.c:1054-1088 | skipped for an unknown size, else the line is judged as `Refusals.FooterExact` says |
| StreamObject.Stream.FlushOut | src/tgen-stream.c:1171-1212 | buffer and offset implement the unwritten rest |
| StreamObject.Stream.GatherPackets | src/tgen-stream.c:1383-1438 | the packet loop, its counters and its barrier are the value batch |
| StreamObject.Stream.WritePayload | src/tgen-stream.c:1332-1464 | flush, end conditions and the next batch are the payload stage |
| StreamObject.Stream.WriteChecksum | src/tgen-stream.c:1466-1495 | the checksum stage on buffer and offset |
| StreamObject.Stream.WriteFooter | src/tgen-stream.c:1497-1537 | the footer stage with its gate |
| StreamObject.Stream.OnWritable | src/tgen-stream.c:1539-1609 | a writable event not before the barrier is the value event, byte for byte on the wire |
| StreamObject.Stream.ComputeWantedEvents | src/tgen-stream.c:1808-1875 | wanted events, and the conclusion of a receive of unknown size |
| StreamObject.ReadOn | src/tgen-stream.c:1090-1156 | over any number of readable events, whatever each of them reads, the state is the automaton's on all consumed bytes together, and nothing is lost or reordered |
| StreamObject.SameBytesSameState | src/tgen-stream.c:426-504 | two streams in equal states before equal bytes, with reads of any sizes: having consumed the same number of bytes they agree on state, error, header, model text, payload, checksummed bytes and left-over line; the one behind reaches the state of the other by reading the rest |
| StreamObject.FreshServersAgree | src/tgen-stream.c:426-504 | two new server streams fed the same bytes in different pieces |
| StreamObject.DrainKeeps | src/tgen-stream.c:446-458 | draining loses nothing exactly when the rest of the buffer holds no NUL |
| StreamObject.DrainLeavesEmpty | src/tgen-stream.c:446-458 | a drain leaves an empty buffer, on which the next read fails an assertion, exactly when the first byte of the rest is NUL |
| StreamObject.DrainLoses | src/tgen-stream.c:451-451 | an input: four kept bytes of which the last is lost and the rest becomes such an empty buffer |
| StreamObject.ZeroSendNeedsReceiveSize | src/tgen-stream.c:2065-2089 | a new commander asks for the sizes it was given; a request to send zero bytes is kept exactly when a receive size is given as well |
| StreamObject.WholeLine | src/tgen-stream.c:516-589 | a line found in buffered and new bytes is judged as the automaton judges it |
| StreamObject.RestIsShort | src/tgen-stream.c:560-580 | the bytes behind a line found after a read are fewer than were read |
| Packets.PacketLoop | src/tgen-stream.c:1383-1438 | a walk whose windows all hold an own packet (or the end, without a size) ends the packet loop, and the batch counts the consumed observations |
| Packets.GatherExact | src/tgen-stream.c:1386-1438 | the packet loop stops exactly where it has to: as soon as the delay exceeds 10000 microseconds, the packets reach the limit, or without a size an end is observed, and not before |
| Packets.GatherStops | src/tgen-stream.c:1386-1438 | termination of that loop by the missing bytes, window by window |
| Packets.GatherTallies | src/tgen-stream.c:1386-1438 | sizes, expected packets and walk of a batch; the delay is the summed delay since the last own packet of this call |
| Packets.BatchBounds | src/tgen-stream.c:1371-1438 | a batch is at most 34201 bytes and its delay at most 600010000 microseconds |
| Packets.WalksAgree | src/tgen-markovmodel.c:1385-1494 | two walks of one model and seed that both found the end agree on every direction's count |
| Packets.FoundStays | src/tgen-markovmodel.c:1385-1397 | after the end was emitted nothing more is observed |
| Packets.SilenceNeverEnds | src/tgen-markovmodel.c:1399-1448 | among states whose choosable transitions stay among them and lead to no emission, every observation is an end that never sets the end flag, forever; a state without a transition is the smallest such set |
| Sender.GatherStable | src/tgen-stream.c:1386-1438 | the packet loop's result does not depend on how long it may run |
| Markov.Validate | src/tgen-markovmodel.c:417-461 | accepted exactly when every vertex and edge passes and a start exists; the last start is kept |
| Markov.WalkNeverAborts | src/tgen-markovmodel.c:1385-1494 | on an accepted graph with typed observations, no assertion fails in any sequence of next and reset calls, and the current state stays a state vertex |
| Markov.NextNeverAborts | src/tgen-markovmodel.c:1385-1485 | one call: an observation, a delay of at most 600000000, the end flag set by an end only |
| WalkSafety.AbortsExactly | src/tgen-markovmodel.c:1385-1485 | on an accepted graph, for every random stream: no call from a vertex fails an assertion, if and only if every choosable emission behind every choosable transition leads to a vertex typed as an observation; choosable is a positive weight, or being the first of its type at its source |
| WalkSafety.RunsAbortExactly | src/tgen-markovmodel.c:1385-1494 | the same over every sequence of next and reset calls, for the states reachable from the start |
| Markov.AcceptedCanAbort | src/tgen-markovmodel.c:645-858 | an input: a graph that both validators accept and on which the first call aborts for every random stream |
| WalkSafety.DeadEndsExactly | src/tgen-markovmodel.c:1399-1448 | every end reported from a vertex sets the end flag, if and only if a transition leaves it and behind every choosable transition there is an emission |
| WalkSafety.CanEndExactly | src/tgen-markovmodel.c:1385-1485 | some random stream and calls bring the model to its own end, if and only if a reachable state has a choosable transition to a choosable emission of an end |
| WalkSafety.LoneStartIsDeadEnd | src/tgen-markovmodel.c:645-858 | an input: a start vertex alone is accepted and reports ends that are not the model's |
| Markov.NextMeans | src/tgen-markovmodel.c:1356-1485 | the same of one call on values, for every accepted model with typed observations, every random stream and every state of the walk: stated on the vertex names and on the edges whose intervals the two draws fall into |
| Markov.AcceptedExact | src/tgen-markovmodel.c:340-858 | acceptance spelled out: one start at least; vertices that are starts, states or observations; transitions between states, emissions to observations, weights that are not negative, and parameters that each distribution is defined for |
| Markov.EndAbsorbs | src/tgen-markovmodel.c:1385-1397 | an emitted end is absorbing and draws nothing until reset |
| Markov.ChoiceProportional | src/tgen-markovmodel.c:1085-1149 | an edge is chosen exactly for draws in (S(i-1), S(i)], zero goes to the first match; the interval is as long as the weight |
| Markov.ChoiceExists | src/tgen-markovmodel.c:1085-1183 | a choice is made exactly when an edge of the wanted type exists |
| Markov.SelectedUnique | src/tgen-markovmodel.c:1118-1149 | a draw chooses one edge only |
| Markov.PickedEdge | src/tgen-markovmodel.c:1050-1183 | the chosen edge leaves the vertex and has the wanted type |
| Markov.ClampDelay | src/tgen-markovmodel.c:1459-1465 | rounded to the nearest microsecond and clamped to ten minutes |
| MarkovObject.MarkovModel.SumWeights | src/tgen-markovmodel.c:1085-1112 | the first loop is the total of the matching weights |
| MarkovObject.MarkovModel.SelectEdge | src/tgen-markovmodel.c:1118-1149 | the second loop selects the first running total that reaches the draw |
| MarkovObject.MarkovModel.GetNextObservation | src/tgen-markovmodel.c:1385-1485 | the direction is the one named by the vertex that the chosen emission leads to, plus to the server and minus to the origin; the delay is the sample for that edge to the nearest microsecond, from 0 to 600000000; the next state is the target of the chosen transition; without a choice, or once ended, it is an end |
| MarkovObject.MarkovModel.Reset | src/tgen-markovmodel.c:1487-1494 | back to the start, the random stream goes on |
| Labels.FirstLetterDecides | src/tgen-markovmodel.c:244-260 | names are compared by prefix without case, and their first letter already decides |
| Timers.Timer.constructor | src/tgen-timer.c:114-179 | armed at once; a zero delay becomes one nanosecond |
| Timers.Timer.SetExpireTimeMicros | src/tgen-timer.c:50-72 | set anew, unread expirations forgotten, zero disarms |
| Timers.Timer.ReadExpirations | src/tgen-timer.c:82-92 | a one-shot expiry is read once, a persistent timer is next due at the following multiple |
| Deferral.Watch.LoopOnce | src/tgen-io.c:358-408 | over a batch in any order, with time passing: the stream is given exactly its socket's entries, every write at or after the barrier; it stays registered unless the socket failed or it is done; reads are watched for exactly as it asked, writes exactly when it asked, its deferral had passed, or the timer has expired since; a pending deferral is watched for or its timer expires at the barrier |
| Deferral.Watch.HandleSocket | src/tgen-io.c:299-356 | the stream gets the event and is deregistered exactly on a failure or when it is done; the interest mask is what its response asks for, with a deferral that has not passed masking writes and setting the timer to its end |
| Deferral.Watch.HandleTimer | src/tgen-timer.c:74-112 | writes are unmasked exactly by an expiry that is read, and reads stay as they were; a timer set again since then has nothing to read |
| Deferral.Watch.SetDeferTimer | src/tgen-io.c:260-297 | one timer per child, armed for the pause |
| Deferral.Watch.Deregister | src/tgen-io.c:149-179 | the timer is cancelled with its child |
| Lifetimes.DestroyFreesAll | src/tgen-io.c:89-135 | destroying the table in whatever order frees every child and timer and destroys every payload object exactly once, with no use after free |
| Lifetimes.DeregisterExact | src/tgen-io.c:149-179 | deregistering removes the child, its defer timer and the timer's watcher, destroys its payload object, and nothing else |
| Lifetimes.RemoveCounted | src/tgen-io.c:89-102 | whichever entry leaves the table, reference counts stay the numbers of holders |
| Lifetimes.RemoveOnce | src/tgen-io.c:59-102 | no payload object is lost or destroyed twice |
| Lifetimes.TimedComplete | src/tgen-io.c:260-297 | a new defer timer and its mutual references leave all counts right |
| Lifetimes.AddedComplete | src/tgen-io.c:181-212 | so does a registration |
| Lifetimes.NothingLeft | src/tgen-io.c:125-135 | an empty table holds nothing in memory |
| Lifetimes.Io.DeregisterDescriptor | src/tgen-io.c:149-179 | a child goes with its defer timer and that timer's watcher, its payload object is destroyed once, nothing else is touched, and all counts stay right |
| Lifetimes.Io.Register | src/tgen-io.c:181-212 | an old child on the descriptor makes room |
| Lifetimes.Io.SetDeferTimer | src/tgen-io.c:260-297 | a child gets one timer |
| Lifetimes.Io.Destroy | src/tgen-io.c:125-135 | the destroying loop leaves nothing behind |
| Lifecycle.TreeCounts | src/tgen-generator.c:274-380 | over every interleaving of timers, completions, synchronous completions and failures: generated minus completed are the live children, references are holders, one timer is pending exactly while neither end nor error was met, nothing freed is touched |
| Lifecycle.AnnouncedWhenDone | src/tgen-generator.c:274-318 | completion is announced exactly when end or error was met and no child is live |
| Lifecycle.TotalsAddUp | src/tgen-driver.c:65-121 | created is succeeded plus failed plus pending, for streams (passive ones included), flows and traffics: forwarded flags are counted once |
| Lifecycle.AnnouncedOnce | src/tgen-generator.c:274-318 | over any run each generator is announced at most once; one in memory has been announced exactly if it is not live |
| Lifecycle.NeverAgain | src/tgen-generator.c:274-318 | a generator that is not live is never announced again, whatever events follow |
| Notices.DoTells | src/tgen-generator.c:274-342 | of all that one event tells the driver only the last notification can announce the generator of an action, and it is the one started by the event or one started before; a generator that has set its timer or made its one stream is not announced within its own start |
| Notices.HelperNote | src/tgen-generator.c:274-318 | one completion check sends at most one notification to the driver, however far it travels; it carries an action only when the top generator has ended or failed |
| Lifecycle.GeneratorsCounted | src/tgen-generator.c:274-318 | over every run, for flows and traffics each: succeeded is the number of generators announced without an error, failed the number announced with one, by the error flag recorded when each was announced |
| Lifecycle.NoteSaysSuccess | src/tgen-generator.c:283-303 | over every run: the notification that carries a generator's completion has been sent, and it has the Success flag of the generator's kind exactly when that had no error |
| Lifecycle.SimplestFlows | src/tgen-generator.c:544-563 | in any state: a flow whose model ends at once is one more success, a stream without a model that cannot be created is one more failed flow |
| Lifecycle.FirstChoice | src/tgen-generator.c:485-542 | in any state: a started flow counts its stream, and has an error exactly when its timer could not be set |
| Lifecycle.CreationsCounted | src/tgen-driver.c:65-121 | each event raises the counters of created streams, flows and traffics by exactly what it makes |
| Lifecycle.DriverToldInOrder | src/tgen-generator.c:300-303 | over every run, the driver is told to go on from an action for exactly the generators of actions that were announced as complete, in the same order |
| Lifecycle.PassiveEndCounted | src/tgen-driver.c:65-121 | a stream of the server side that ends is counted once, as a success exactly when it was one |
| Lifecycle.StreamEndCounted | src/tgen-stream.c:1764-1779 | a stream that ends is counted exactly once, as a success exactly when it was one, through however many generators the flags travel |
| Lifecycle.HelperReports | src/tgen-generator.c:274-318 | the stream in flags combined on their way up is counted exactly once; for the generators in them see `GeneratorsCounted` |
| Lifecycle.TimerFindsGenerator | src/tgen-generator.c:485-500 | a firing timer finds a live generator with a model that has neither ended nor failed |
| Lifecycle.NothingLeaks | src/tgen-generator.c:43-89 | once all have announced and all streams are freed, no generator is in memory |
| Lifecycle.RunQuiet | src/tgen-generator.c:485-563 | the invariant over every run |
| Lifecycle.UnrefKeeps | src/tgen-generator.c:84-89 | the surplus reference frees exactly what nothing refers to, and then the parent's reference |
| Lifecycle.CompleteKeeps | src/tgen-generator.c:274-318 | completion up the tree, with combined flags, keeps the invariant |
| Lifecycle.CloseKeeps | src/tgen-generator.c:283-303 | a generator that announces itself has no live child and no timer |
| Lifecycle.CreateStreamKeeps | src/tgen-generator.c:382-442 | a new stream is referred to, announced and counted |
| Lifecycle.CreateFlowKeeps | src/tgen-generator.c:352-380 | a new flow, even one that completes while it starts, leaves the tree right |
| Lifecycle.SetTimerKeeps | src/tgen-generator.c:456-483 | a timer, or the error that stops the generator |
| Lifecycle.FireKeeps | src/tgen-generator.c:444-454 | a firing timer and its freeing |
| GeneratorObject.Forest.Launch | src/tgen-generator.c:544-563 | on heap objects with counters, reference counts and parent pointers: creating, announcing and starting a generator is the event on values, keeps every invariant of the tree, and moves or reuses no object |
| GeneratorObject.Forest.OnTimerExpired | src/tgen-generator.c:444-454 | the same for a timer that fires and is freed afterwards |
| GeneratorObject.Forest.OnStreamComplete | src/tgen-stream.c:1764-1779 | the same for a stream that completes, through up to two generators |
| GeneratorObject.Forest.FreeStream | src/tgen-generator.c:84-89 | the same for a stream that is freed: its generator, and that one's parent, go exactly with their last reference |
| ActionGraph.GetNextActions | src/tgen-graph.c:1322-1432 | all unweighted successors and exactly one weighted one for the draw; not ok exactly when the weights run out |
| ActionGraph.ChosenInterval | src/tgen-graph.c:1400-1420 | a position is chosen exactly for draws in [S(k), S(k+1)), as long as its weight |
| ActionGraph.ChoiceExists | src/tgen-graph.c:1404-1416 | the queue of weights never runs empty exactly when the draw is below the total; a total of zero fails |
| ActionGraph.FollowersKnown | src/tgen-graph.c:1360-1395 | only successors with an action follow |
| ActionGraph.FollowersExact | src/tgen-graph.c:1360-1432 | how often each action follows: once for each edge without a weight that leads to it, once more for the chosen weighted edge; one is chosen exactly if an edge to an action has a weight |
| ActionGraph.ChoosePosition | src/tgen-graph.c:1404-1416 | the selecting loop |
| ActionGraph.SortSuccessors | src/tgen-graph.c:1360-1398 | weighted and unweighted successors in order |
| Driver.VisitsFloor | src/tgen-graph.c:1648-1667 | after n visits a pause with k incoming edges has been released floor(n/k) times |
| Driver.TrafficDriver.BarrierFloor | src/tgen-driver.c:455-474 | at every moment of the walk: while the client has not ended, the walk has gone on from a synchronising pause exactly floor(visits / incoming edges) times; after that never more often |
| Driver.TrafficDriver.ContinueNextActions | src/tgen-driver.c:571-591 | every chosen successor is processed exactly once, and an ended client continues nothing; the mutual recursion terminates when actions that complete within their own start form no cycle |
| Driver.TrafficDriver.ProcessAction | src/tgen-driver.c:534-569 | per type of action: a start goes on, a stream, flow or traffic action starts a generator of its kind that is known to belong to it, a timed pause waits for its timer or goes on, an end ends or goes on by its limits, a synchronising pause counts or releases |
| Driver.TrafficDriver.HandleBarrier | src/tgen-driver.c:455-474 | a visit is counted; when all edges have visited, the count restarts and the walk goes on unless the client has ended |
| Driver.TrafficDriver.OnGeneratorEvent | src/tgen-driver.c:65-121 | any event of the generators: all its notifications are counted, and the walk goes on exactly from the action whose generator is announced as complete |
| Driver.TrafficDriver.OnNotify | src/tgen-driver.c:65-121 | totals and heartbeat counters move together with each notification; a completed action continues the walk |
| Driver.TrafficDriver.CountersAddUp | src/tgen-driver.c:132-274 | the counters add up with the streams and generators that exist |
| Driver.TrafficDriver.OnHeartbeat | src/tgen-driver.c:132-274 | reported plus current counters are the totals; the pending numbers, computed by subtraction, never underflow and are the numbers of streams and generators that are not complete |
| Driver.TrafficDriver.OnPauseTimer | src/tgen-driver.c:827-838 | the walk goes on behind a pause whose timer expires |
| Driver.TrafficDriver.CheckEndConditions | src/tgen-driver.c:476-532 | client and server end exactly when bytes written reach the send limit, bytes read the receive limit, completed streams the count, or the elapsed time its limit; otherwise the walk goes on |
| Driver.TrafficDriver.OnBytesTransferred | src/tgen-driver.c:123-130 | byte totals and heartbeat bytes move together |
| Socks.OpenIsExact | src/tgen-transport.c:530-894 | on success exactly greeting, credentials if any and request were written, and exactly the accepting replies and one whole reply read, so the next byte is application data |
| Socks.Determined | src/tgen-transport.c:582-602 | the state, sending states included, depends only on the bytes written and read, not on how calls cut them |
| Socks.AlignedInOrder | src/tgen-transport.c:677-741 | no credentials before the method is agreed, no request before the credentials are accepted |
| Socks.ReplyPrefixFree | src/tgen-transport.c:1027-1060 | no reply is the beginning of another (RFC 1928 section 6) |
| Socks.RequestIsConnect | src/tgen-transport.c:798-858 | the request has the form of RFC 1928 section 4: by name exactly for a name that ends in .onion, otherwise to the four bytes of the address; the port last |
| Socks.OffersExact | src/tgen-transport.c:530-551 | version 5 and one method, by password exactly when there is a credential; credentials that fit go out whole, name first |
| Socks.CredentialExact | src/tgen-transport.c:664-712 | a credential is sent in full exactly when it has 1 to 255 bytes, each a character; what is sent has the form of RFC 1929 section 2 exactly when the credential has a character |
| Socks.CredentialLoses | src/tgen-transport.c:664-712 | inputs: an empty credential is a lone zero byte, which no credential of the standard is; one character in two bytes loses the second |
| Socks.NameExact | src/tgen-transport.c:798-858 | the request carries the whole name exactly when its length in characters is that in bytes and fits a byte; otherwise a beginning of it |
| Socks.NameLoses | src/tgen-transport.c:798-858 | an input: a name that loses the last letter of its suffix |
| Socks.PieceWhole | src/tgen-transport.c:896-1065 | each gathered piece leads on as the formats say |
| Socks.PieceRefused | src/tgen-transport.c:604-662 | a refused piece gives exactly the error of the first rule it breaks |
| Socks.NothingBroken | src/tgen-transport.c:1171-1297 | a handshake that goes on or is open has broken no rule |
| Socks.Handshake.Push | src/tgen-transport.c:552-580 | resumable sending of a message |
| Socks.Handshake.GatherPiece | src/tgen-transport.c:582-602 | resumable gathering of a piece |
| Socks.Handshake.ReceiveChoice | src/tgen-transport.c:604-662 | method reply: as long as the read moves bytes and no rule is broken, the handshake goes on and waits for what its state needs; a read error only from a read that moved nothing |
| Socks.Handshake.ReceiveAuth | src/tgen-transport.c:741-796 | the same for the reply to the credentials |
| Socks.Handshake.ReceiveStatus | src/tgen-transport.c:1027-1169 | the same for version and status of the reply, and what follows in the same event |
| Socks.Handshake.ReceiveType | src/tgen-transport.c:991-1025 | the same for the address type of the reply |
| Socks.Handshake.ReceiveAddress | src/tgen-transport.c:954-989 | the same for the bound IPv4 address |
| Socks.Handshake.ReceiveNameLength | src/tgen-transport.c:937-952 | the same for the length of a bound name |
| Socks.Handshake.ReceiveName | src/tgen-transport.c:896-935 | the same for the bound name |
| Socks.Handshake.OnEvent | src/tgen-transport.c:1171-1297 | dispatch by state: order and alignment are kept on every path; the state is the one of the bytes moved; as long as calls move bytes and no rule is broken the handshake goes on, waits to write in sending states and to read in reading states, and done means open; a failure is that of connecting, of a call that moved nothing, or the rule that the proxy broke; an event that the state does not wait for changes nothing |
| Socks.Handshake.Drive | src/tgen-transport.c:1171-1297 | a proxy that accepts everything is talked to until the connection is open, whatever the pieces, as long as every call moves something; the bytes behind its reply are left unread |

## Left out

- Transport faults in `Session`: two-party runs have no failing writes; one endpoint under failing reads and
  writes is covered by `StreamObject`. Closing a socket with unread bytes is not modelled; the end of file
  comes after the peer has sent and the reader has read everything.
- Stalling and timing out of streams, logging, time stamps, `recv.totalBytes` and the progress times: they
  do not feed back into the protocol. The event-loop glue of a stream (`_tgenstream_runStreamEventLoop`),
  its once-only completion callback and the error override on a hang-up: flat code around the modelled events.
- Known sizes changed by a response header in the middle of a payload: the source asserts that the counters
  still fit, the model treats the remaining room as zero.
- StreamObject.Stream.ReadChecksum: an empty checksum line makes the source read past its pieces; the model
  answers with a checksum error.
- StreamObject.Stream.OnReadable: assumes bytes without NUL, because the source rebuilds its buffer as a C
  string; the exact loss is DrainKeeps.
- Graph parsing and serialisation by igraph: a graph is given as vertices and edges in order; the model that
  is sent is assumed to parse to the same graph. Parallel edges, for which igraph may report another edge's
  weight, infinities and NaN in attributes are not modelled.
- The sampling formulas: a delay is an oracle, rounded and clamped as in the source.
- Deferral.Watch.LoopOnce: one stream and its timer; other descriptors of a batch do not touch them.
  Descriptor reuse within one batch and failing epoll calls are not modelled.
- Lifetimes.Io.Register: a failing epoll_ctl is not modelled; timers registered by the driver or a generator
  are payload objects here.
- The driver starting further actions from inside a completion callback: in `Driver` the walk goes on when the
  generator's event is over. The notification that makes it go on is the last of its event (`DoTells`), and
  all that the source does after it in that event is to give up references.
- Driver.TrafficDriver.ContinueNextActions: actions that complete within their own start are a set given in
  advance that has no cycle; with one the source recurses without end.
- Driver.TrafficDriver.OnHeartbeat: the timeouts that the source checks first are stream completions of their
  own.
- Stuck.GoesOnExactly: the runs into a deadlock move whole messages, so the capacity of the pipes counts in the
  state they reach, not on the way.
- Completion.FinishesExactly: a finishing run exists, fairness of the kernel that would force it does not
  appear. A sender of unknown size among silent states is asked to write forever (`SilenceNeverEnds`).
- Shutdown of a process with running streams: generators are freed here after their streams have completed.
- Driver.TrafficDriver.CheckEndConditions: the elapsed time is arbitrary.
- Deferral.Watch.Notify: which events a stream asks for is arbitrary here, except that a pause is asked for as
  a deferral; what it asks for is `StreamObject.Stream.ComputeWantedEvents`.
- Socks.Handshake.Read: what a proxy sends is a given byte string; name lookup is not modelled.
- Options, pools, peers, configuration defaults, the server socket, main and the Python tools: table lookups
  or thin wrappers that would add easy members only.
