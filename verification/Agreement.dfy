/** What the two ends of a stream can rely on, over every run of module Session. */
module Agreement {
  import opened Options
  import opened CStrings
  import opened Headers
  import opened Receiver
  import opened Sender
  import opened Script
  import opened Sending
  import opened Session
  import opened Packets
  import Markov

  /** The state after any sequence of steps. */
  function After(k: Setup, acts: seq<Act>): Sys {
    Execute(k.env, Start(k), acts)
  }

  /** The peer's payload, completed to its requested size. */
  function PeerBody(k: Setup, c: bool, up: string, down: string): string {
    Whole(SizesFor(k, !c).send, if c then down else up)
  }

  /** Where an end stands that listens: on its peer's script, or concluded early. */
  lemma StandsNow(k: Setup, y: Sys, c: bool, up: string, down: string) returns (r: Rx)
    requires SetupOk(k) && Inv(k, y, up, down) && !Party(y, c).tx.state.Command?
    ensures Stands(k, c, PeerBody(k, c, up, down), |InPipe(y, c).got|, r)
    ensures InPipe(y, c).got <= InPipe(y, c).sent <= Text(k, !c, PeerBody(k, c, up, down))
    ensures BodyOk(SizesFor(k, !c).send, SizesFor(k, !c).sendZero, PeerBody(k, c, up, down))
    ensures var e, z := Party(y, c), SizesFor(k, c);
            e.rx == r || (!Known(z.recv, z.recvZero) && e.rx == r.(phase := Success, line := ""))
    ensures r.error == NoError && r.commander == c && !r.phase.Idle? && !r.phase.Failed?
    ensures r.cue == (if |InPipe(y, c).got| < |Lead(k, !c)| || c then Cue.Nothing else Respond)
  {
    hide Sends, Run, Text, Stands, BodyOk, Lead;
    r := Run(k.env, Begins(k, c), InPipe(y, c).got);
    OnScript(k, Party(y, !c), !c, InPipe(y, c), OutPipe(y, c), if c then down else up);
    Aligned(k, c, PeerBody(k, c, up, down), InPipe(y, c).got);
    StandFacts(k, c, PeerBody(k, c, up, down), |InPipe(y, c).got|, r);
  }

  /** Over a lossless pipe no end ever meets an error: not in the checksum, not in the footer, not
      anywhere else, whatever the sizes and however the bytes are cut. */
  lemma NoErrors(k: Setup, acts: seq<Act>, c: bool)
    requires SetupOk(k)
    ensures var e := Party(After(k, acts), c); e.rx.error == NoError && !e.rx.phase.Failed? && !e.tx.state.Broken?
  {
    hide Sends, Run, Stands, SetupOk;
    var up, down := RunInv(k, acts);
    var y := After(k, acts);
    SendsReady(k, Party(y, c), Lead(k, c), OutPipe(y, c).sent, if c then up else down);
    if !Party(y, c).tx.state.Command? {
      var r := StandsNow(k, y, c, up, down);
    }
  }

  // ---- A footer means delivery ----

  function Marked(k: Setup, c: bool, body: string): nat {
    |Lead(k, c)| + |body| + |Mark(k.env, SizesFor(k, c).send, body)|
  }

  /** How far a sender with a known size is, from what it has written. */
  lemma Position(k: Setup, e: End, c: bool, out: Pipe, inn: Pipe, body: string)
    requires SetupOk(k) && Half(k, e, c, out, inn, body) && Known(SizesFor(k, c).send, SizesFor(k, c).sendZero)
    ensures var w, n := Whole(SizesFor(k, c).send, body), |out.sent|;
            (e.tx.state.Unstarted? ==> n == 0) &&
            (e.tx.state.Unstarted? || e.tx.state.Command? || e.tx.state.Response? ==> n < |Lead(k, c)|) &&
            (e.tx.state.SendPayload? ==> |Lead(k, c)| <= n == |Lead(k, c)| + e.tx.payload <= Marked(k, c, w)) &&
            (e.tx.state.SendChecksum? ==> |Lead(k, c)| <= n <= Marked(k, c, w)) && !e.tx.state.Broken? &&
            (e.tx.state.SendChecksum? && SizesFor(k, c).send > 0 ==> n < Marked(k, c, w)) &&
            (e.tx.state.SendFooter? ==> Marked(k, c, w) <= n < |Text(k, c, w)|) &&
            (e.tx.state.Flush? || e.tx.state.Sent? ==> n == |Text(k, c, w)| && Receipt(e))
    ensures |Text(k, c, Whole(SizesFor(k, c).send, body))| == Marked(k, c, Whole(SizesFor(k, c).send, body)) + |FOOTER|
    ensures |out.sent| >= Marked(k, c, Whole(SizesFor(k, c).send, body)) ==>
            e.tx.payload == |Whole(SizesFor(k, c).send, body)| &&
            (SizesFor(k, c).send > 0 ==> e.tx.digested == Whole(SizesFor(k, c).send, body))
  {
    hide CommandText, ResponseText, Reads, Walked, ChecksumText;
    LeadNotEmpty(k, c);
    ChecksumNotEmpty(k.env, body);
    ChecksumLength(k, Whole(SizesFor(k, c).send, body), body);
    assert e.tx.out != "" ==> |out.sent| < |out.sent + e.tx.out|;
    assert |Lead(k, c) + body + Mark(k.env, SizesFor(k, c).send, body)| == Marked(k, c, body);
  }

  lemma LeadNotEmpty(k: Setup, c: bool)
    ensures Lead(k, c) != ""
  {
    if c { CommandNotEmpty(k.offer); } else { ResponseNotEmpty(k.server.host, NoError); }
  }

  lemma ChecksumLength(k: Setup, a: string, b: string)
    requires SetupOk(k)
    ensures |ChecksumText(k.env, a)| == |ChecksumText(k.env, b)| > 0
  {
  }

  /** One end in success means that its peer, with known sizes in both directions, waits at most for
      the footer: it has read every payload byte that was sent and matched the checksum, and the
      succeeding end itself has read all of the peer's payload. */
  lemma FinMeansDelivered(k: Setup, acts: seq<Act>, c: bool)
    requires SetupOk(k) && Known(k.offer.sizes.send, k.offer.sizes.sendZero) && Known(k.offer.sizes.recv, k.offer.sizes.recvZero)
    requires Party(After(k, acts), c).rx.phase.Success?
    ensures var e, o, z := Party(After(k, acts), c), Party(After(k, acts), !c), SizesFor(k, c);
            (o.rx.phase.Footer? || o.rx.phase.Success?) &&
            o.rx.payload == e.tx.payload == z.send && (z.send > 0 ==> o.rx.digested == e.tx.digested && o.rx.checksumSeen) &&
            e.rx.payload == o.tx.payload == z.recv && (z.recv > 0 ==> e.rx.digested == o.tx.digested && e.rx.checksumSeen)
  {
    hide Inv, Stands, SetupOk, Text, Marked;
    var up, down := RunInv(k, acts);
    FinDelivers(k, After(k, acts), c, up, down);
  }

  /** Where a listening end stands, by the number of bytes it has read: for known sizes. */
  lemma Reading(k: Setup, y: Sys, c: bool, up: string, down: string)
    requires SetupOk(k) && Inv(k, y, up, down) && !Party(y, c).tx.state.Command?
    requires Known(SizesFor(k, !c).send, SizesFor(k, !c).sendZero)
    ensures var e, p, n := Party(y, c), PeerBody(k, c, up, down), |InPipe(y, c).got|;
            |p| == SizesFor(k, c).recv &&
            n <= |InPipe(y, c).sent| <= |Text(k, !c, p)| == Marked(k, !c, p) + |FOOTER| &&
            (e.rx.phase.Success? <==> n == |Text(k, !c, p)|) &&
            (Receipt(e) <==> n >= Marked(k, !c, p)) && (n < |Lead(k, !c)| <==> Early(e.rx.phase)) &&
            (Receipt(e) ==> e.rx.payload == |p| && (SizesFor(k, c).recv > 0 ==> e.rx.digested == p && e.rx.checksumSeen)) &&
            (n < Marked(k, !c, p) && !Early(e.rx.phase) ==> !e.rx.checksumSeen) &&
            (n < |Lead(k, !c)| && !c ==> e.rx.cue == Cue.Nothing) && (n >= |Lead(k, !c)| && !c ==> e.rx.cue == Respond)
    ensures Party(y, c).rx.error == NoError && !Party(y, c).rx.phase.Idle? && !Party(y, c).rx.phase.Failed?
  {
    hide Inv, Run, Lead, ChecksumText;
    var r := StandsNow(k, y, c, up, down);
    BaseSizes(k, c);
    StandFacts(k, c, PeerBody(k, c, up, down), |InPipe(y, c).got|, r);
  }

  lemma FinDelivers(k: Setup, y: Sys, c: bool, up: string, down: string)
    requires SetupOk(k) && Known(k.offer.sizes.send, k.offer.sizes.sendZero) && Known(k.offer.sizes.recv, k.offer.sizes.recvZero)
    requires Inv(k, y, up, down) && Party(y, c).rx.phase.Success?
    ensures var e, o, z := Party(y, c), Party(y, !c), SizesFor(k, c);
            Receipt(o) &&
            o.rx.payload == e.tx.payload == z.send && (z.send > 0 ==> o.rx.digested == e.tx.digested && o.rx.checksumSeen) &&
            e.rx.payload == o.tx.payload == z.recv && (z.recv > 0 ==> e.rx.digested == o.tx.digested && e.rx.checksumSeen)
  {
    hide Sends, Reads, Text, Marked, Lead;
    Position(k, y.c, true, y.up, y.down, up);
    Position(k, y.s, false, y.down, y.up, down);
    SuccessIsNotCommand(k, y, c, up, down);
    Reading(k, y, c, up, down);
    SuccessIsNotCommand(k, y, !c, up, down);
    Reading(k, y, !c, up, down);
  }

  lemma SuccessIsNotCommand(k: Setup, y: Sys, c: bool, up: string, down: string)
    requires Inv(k, y, up, down) && Receipt(Party(y, c))
    ensures !Party(y, c).tx.state.Command?
  {
    hide Sends, Run;
  }

  // ---- No deadlock ----

  predicate Done(e: End) {
    e.tx.state.Sent? && e.rx.phase.Success?
  }

  /** An end that can act: bytes it wants to read are there, there is room for bytes it wants to
      write, or a pause of its own will run out. */
  predicate CanStep(y: Sys, c: bool, capacity: nat) {
    var w, inn, out := WantedEvents(Party(y, c)), InPipe(y, c), OutPipe(y, c);
    (w.read && |inn.got| < |inn.sent|) || (w.write && |out.sent| - |out.got| < capacity) || w.deferred
  }

  /** Between positive sizes one of the ends can always act until both are done, however little
      room the pipes have. */
  lemma DeadlockFree(k: Setup, acts: seq<Act>, capacity: nat)
    requires SetupOk(k) && k.offer.sizes.send > 0 && k.offer.sizes.recv > 0 && capacity > 0
    ensures var y := After(k, acts);
            (Done(y.c) && Done(y.s)) || CanStep(y, true, capacity) || CanStep(y, false, capacity)
  {
    hide Inv, SetupOk, WantedEvents;
    var up, down := RunInv(k, acts);
    var y := After(k, acts);
    if !Done(y.c) { SomeoneCan(k, y, true, up, down, capacity); }
    if !Done(y.s) { SomeoneCan(k, y, false, up, down, capacity); }
  }

  /** What an end without an error wants. */
  lemma Wanting(k: Setup, y: Sys, c: bool, up: string, down: string)
    requires SetupOk(k) && Inv(k, y, up, down) && k.offer.sizes.send > 0 && k.offer.sizes.recv > 0 && !Done(Party(y, c))
    ensures var e, w := Party(y, c), WantedEvents(Party(y, c));
            (!e.tx.state.Command? && !e.rx.phase.Success? ==> w.read) &&
            (!e.tx.state.Unstarted? && !e.tx.state.Sent? && (e.tx.state.SendFooter? ==> e.rx.checksumSeen) ==> w.write || w.deferred)
  {
    hide Sends, Reads, Lead, Text, Marked;
    SendsReady(k, Party(y, c), Lead(k, c), OutPipe(y, c).sent, if c then up else down);
    if !Party(y, c).tx.state.Command? { Reading(k, y, c, up, down); }
  }

  /** An end that has something to write can do so, or its peer can make room. */
  lemma WriterOrReader(k: Setup, y: Sys, c: bool, up: string, down: string, capacity: nat)
    requires SetupOk(k) && Inv(k, y, up, down) && k.offer.sizes.send > 0 && k.offer.sizes.recv > 0 && capacity > 0
    requires WantedEvents(Party(y, c)).write || WantedEvents(Party(y, c)).deferred
    requires |OutPipe(y, c).got| < |OutPipe(y, c).sent| ==> !Party(y, !c).tx.state.Command?
    ensures CanStep(y, c, capacity) || CanStep(y, !c, capacity)
  {
    hide Inv, SetupOk, WantedEvents, Lead, Text, Marked;
    if |OutPipe(y, c).got| < |OutPipe(y, c).sent| {
      Reading(k, y, !c, up, down);
      Wanting(k, y, !c, up, down);
    }
  }

  /** While the commander's command is not out, the server has written nothing. */
  lemma CommandFirst(k: Setup, y: Sys, c: bool, up: string, down: string)
    requires SetupOk(k) && Inv(k, y, up, down) && k.offer.sizes.send > 0 && k.offer.sizes.recv > 0
    requires Party(y, c).tx.state.Command?
    ensures c && OutPipe(y, !c).sent == "" && Party(y, !c).tx.state.Unstarted?
    ensures |OutPipe(y, c).sent| < |Lead(k, c)|
  {
    hide Reads, Lead, Text, Marked;
    SendsReady(k, Party(y, c), Lead(k, c), OutPipe(y, c).sent, if c then up else down);
    Position(k, y.c, true, y.up, y.down, up);
    Position(k, y.s, false, y.down, y.up, down);
    Reading(k, y, false, up, down);
  }

  /** An end that wants to write, or whose peer does. */
  lemma WriterCan(k: Setup, y: Sys, c: bool, up: string, down: string, capacity: nat)
    requires SetupOk(k) && Inv(k, y, up, down) && k.offer.sizes.send > 0 && k.offer.sizes.recv > 0 && capacity > 0
    requires WantedEvents(Party(y, c)).write || WantedEvents(Party(y, c)).deferred
    ensures CanStep(y, c, capacity) || CanStep(y, !c, capacity)
  {
    hide Inv, SetupOk, WantedEvents, Lead, CanStep;
    if Party(y, !c).tx.state.Command? { CommandFirst(k, y, !c, up, down); }
    WriterOrReader(k, y, c, up, down, capacity);
  }

  lemma SomeoneCan(k: Setup, y: Sys, c: bool, up: string, down: string, capacity: nat)
    requires SetupOk(k) && Inv(k, y, up, down) && k.offer.sizes.send > 0 && k.offer.sizes.recv > 0 && capacity > 0
    requires !Done(Party(y, c))
    ensures CanStep(y, c, capacity) || CanStep(y, !c, capacity)
  {
    hide Sends, Reads, WantedEvents, Lead, Text;
    var e, o, w := Party(y, c), Party(y, !c), WantedEvents(Party(y, c));
    Wanting(k, y, c, up, down);
    if w.write || w.deferred {
      WriterCan(k, y, c, up, down, capacity);
    } else {
      Reading(k, y, c, up, down);
      Position(k, y.c, true, y.up, y.down, up);
      Position(k, y.s, false, y.down, y.up, down);
      if |InPipe(y, c).got| == |InPipe(y, c).sent| && !Done(o) {
        Wanting(k, y, !c, up, down);
        var v := WantedEvents(o);
        if v.write || v.deferred {
          WriterCan(k, y, !c, up, down, capacity);
        } else {
          Reading(k, y, !c, up, down);
        }
      }
    }
  }

  // ---- Payload accounting ----

  /** Known size: bytes accepted plus bytes buffered are the bytes fed to the checksum, never more
      than requested, and the payload state is left only at equality; the receiver counts strictly
      below the request until it leaves its payload state, at equality as well. */
  lemma PayloadAccounting(k: Setup, acts: seq<Act>, c: bool)
    requires SetupOk(k) && SizesFor(k, c).send > 0
    ensures var t := Party(After(k, acts), c).tx;
            |t.digested| <= SizesFor(k, c).send && t.payload <= |t.digested| &&
            (t.state.SendPayload? ==> t.payload + |t.out| == |t.digested|) &&
            (t.state.SendChecksum? || t.state.SendFooter? || t.state.Flush? || t.state.Sent? ==>
               t.payload == |t.digested| == SizesFor(k, c).send)
    ensures var rx := Party(After(k, acts), !c).rx;
            (rx.phase.Payload? ==> rx.payload < SizesFor(k, c).send) &&
            (rx.phase.Checksum? || rx.phase.Footer? || rx.phase.Success? ==> rx.payload == SizesFor(k, c).send)
  {
    hide Inv, SetupOk;
    var up, down := RunInv(k, acts);
    SenderAccounts(k, After(k, acts), c, up, down);
    ReceiverAccounts(k, After(k, acts), !c, up, down);
  }

  lemma SenderAccounts(k: Setup, y: Sys, c: bool, up: string, down: string)
    requires Inv(k, y, up, down) && SizesFor(k, c).send > 0
    ensures var t := Party(y, c).tx;
            |t.digested| <= SizesFor(k, c).send && t.payload <= |t.digested| &&
            (t.state.SendPayload? ==> t.payload + |t.out| == |t.digested|) &&
            (t.state.SendChecksum? || t.state.SendFooter? || t.state.Flush? || t.state.Sent? ==>
               t.payload == |t.digested| == SizesFor(k, c).send)
  {
    hide Lead, Walked, Reads, Mark, Rest;
  }

  lemma ReceiverAccounts(k: Setup, y: Sys, c: bool, up: string, down: string)
    requires SetupOk(k) && Inv(k, y, up, down) && SizesFor(k, c).recv > 0
    ensures var rx := Party(y, c).rx;
            (rx.phase.Payload? ==> rx.payload < SizesFor(k, c).recv) &&
            (rx.phase.Checksum? || rx.phase.Footer? || rx.phase.Success? ==> rx.payload == SizesFor(k, c).recv)
  {
    hide Sends, Run, Lead, Mark;
    if !Party(y, c).tx.state.Command? {
      var r := StandsNow(k, y, c, up, down);
      BaseSizes(k, c);
    }
  }

  // ---- Two walks of one model ----

  /** However they were batched, the expected bytes are 1434 times the counts of the observations
      consumed so far. */
  lemma CountersFollowWalk(k: Setup, acts: seq<Act>, c: bool)
    requires SetupOk(k)
    ensures var e := Party(After(k, acts), c);
            !e.tx.state.Unstarted? ==> exists n: nat :: WalkedTo(k.model, e, n)
  {
    hide SendForm, WalkedTo, Run, SetupOk;
    var up, down := RunInv(k, acts);
  }

  /** A receive of unknown size has been concluded by its own finished sender, or by the end of
      everything the peer had to send. */
  ghost predicate Ended(y: Sys, c: bool) {
    var e := Party(y, c);
    e.rx.phase.Success? ==>
      (e.tx.state.Sent? && e.rx.payload >= e.tx.expectRecv) ||
      (Party(y, !c).tx.state.Sent? && InPipe(y, c).got == InPipe(y, c).sent)
  }

  lemma SentStays(env: Env, e: End, r: Replies, d: Draw)
    requires e.tx.state.Sent?
    ensures OnWritable(env, e, r, d) == Still(WithTx(e, e.tx.(barrier := 0)))
  {
    assert "" + "" + "" + "" + "" + "" == "";
  }

  /** Only an end of file or a conclusion ends a receive of unknown size. */
  lemma UnknownReads(k: Setup, y: Sys, c: bool, up: string, down: string)
    requires SetupOk(k) && Inv(k, y, up, down) && !Known(SizesFor(k, c).recv, SizesFor(k, c).recvZero)
    requires Reads(k, Party(y, c), c, InPipe(y, c).got) && !Party(y, c).tx.state.Command?
    ensures !Run(k.env, Begins(k, c), InPipe(y, c).got).phase.Success?
  {
    hide Sends, Run, Lead, Mark;
    OnScript(k, Party(y, !c), !c, InPipe(y, c), OutPipe(y, c), if c then down else up);
    Aligned(k, c, PeerBody(k, c, up, down), InPipe(y, c).got);
    BaseSizes(k, c);
  }

  /** An end that has sent everything stays so while it reads. */
  lemma AbsorbKeepsSent(k: Setup, y: Sys, c: bool, n: nat, up: string, down: string)
    requires SetupOk(k) && Inv(k, y, up, down) && Party(y, c).tx.state.Sent?
    requires !Stopped(Party(y, c).rx.phase) && |InPipe(y, c).got| + n <= |InPipe(y, c).sent|
    ensures Party(DoRead(k.env, y, c, n), c).tx.state.Sent?
  {
    hide Sends, Run, Stands, Lead;
    ReadDone(k, y, c, n, up, down);
    var y' := DoRead(k.env, y, c, n);
    var r := StandsNow(k, y, c, up, down);
    if !Party(y', c).tx.state.Command? { var s := StandsNow(k, y', c, up, down); }
  }

  lemma EndedKept(k: Setup, y: Sys, a: Act, c: bool, up: string, down: string)
    requires SetupOk(k) && Inv(k, y, up, down) && Ended(y, c) && !Known(SizesFor(k, c).recv, SizesFor(k, c).recvZero)
    ensures Ended(Do(k.env, y, a), c)
  {
    hide Inv, SetupOk, Run, OnWritable, Half;
    match a
    case Write(b, r, d) => if Lossless(r) { EndedWrite(k, y, b, r, d, c, up, down); }
    case Read(b, n) =>
      if !(Stopped(Party(y, b).rx.phase) || |InPipe(y, b).got| + n > |InPipe(y, b).sent|) { EndedRead(k, y, b, n, c, up, down); }
    case MeetEnd(b) =>
    case Conclude(b) =>
      SendsReadyOf(k, y, c, up, down);
  }

  lemma SendsReadyOf(k: Setup, y: Sys, c: bool, up: string, down: string)
    requires Inv(k, y, up, down)
    ensures Party(y, c).rx.error == NoError && !Party(y, c).tx.state.Broken?
    ensures Party(y, c).tx.state.Unstarted? ==> Party(y, c).rx.cue == Cue.Nothing
  {
    hide Lead, Reads;
  }

  lemma EndedWrite(k: Setup, y: Sys, b: bool, r: Replies, d: Draw, c: bool, up: string, down: string)
    requires SetupOk(k) && Inv(k, y, up, down) && Ended(y, c) && Lossless(r)
    ensures Ended(DoWrite(k.env, y, b, r, d), c)
  {
    hide OnWritable, Reads, Sends;
    var e := Party(y, b);
    if e.tx.state.Sent? { SentStays(k.env, e, r, d); }
    var more := WriteKeeps(k.env, k.model, e, Lead(k, b), OutPipe(y, b).sent, if b then up else down, r, d);
  }

  lemma EndedRead(k: Setup, y: Sys, b: bool, n: nat, c: bool, up: string, down: string)
    requires SetupOk(k) && Inv(k, y, up, down) && Ended(y, c) && !Known(SizesFor(k, c).recv, SizesFor(k, c).recvZero)
    requires !Stopped(Party(y, b).rx.phase) && |InPipe(y, b).got| + n <= |InPipe(y, b).sent|
    ensures Ended(DoRead(k.env, y, b, n), c)
  {
    hide Sends, Run, Lead;
    ReadDone(k, y, b, n, up, down);
    if b != c {
      if Party(y, b).tx.state.Sent? { AbsorbKeepsSent(k, y, b, n, up, down); }
    } else {
      var y' := DoRead(k.env, y, c, n);
      var p := InPipe(y, c);
      RunAppend(k.env, Begins(k, c), p.got, p.sent[|p.got|..|p.got| + n]);
      if !Party(y', c).tx.state.Command? { UnknownReads(k, y', c, up, down); }
    }
  }

  lemma {:induction false} RunEnded(k: Setup, acts: seq<Act>, c: bool)
    requires SetupOk(k) && !Known(SizesFor(k, c).recv, SizesFor(k, c).recvZero)
    ensures Ended(After(k, acts), c)
  {
    hide Inv, Do, SetupOk, Ended;
    if acts == [] {
      StartEnded(k, c);
    } else {
      var rest := acts[..|acts| - 1];
      RunEnded(k, rest, c);
      var up, down := RunInv(k, rest);
      EndedKept(k, After(k, rest), acts[|acts| - 1], c, up, down);
    }
  }

  lemma StartEnded(k: Setup, c: bool)
    ensures Ended(Start(k), c)
  {
  }

  /** How far a sender of unknown size is. */
  lemma UnknownPosition(k: Setup, e: End, c: bool, out: Pipe, inn: Pipe, body: string)
    requires Half(k, e, c, out, inn, body) && !Known(SizesFor(k, c).send, SizesFor(k, c).sendZero)
    ensures |out.sent| <= |Lead(k, c)| + e.tx.payload && e.tx.payload <= |body| == e.tx.expectSend
    ensures e.tx.state.Sent? ==> out.sent == Text(k, c, body) && e.tx.walk.Some? && e.tx.walk.value.found
    ensures e.tx.state.Unstarted? ==> e.tx.expectSend == 0
  {
    hide Lead, Reads, Walked;
  }

  /** The observation count behind an end's counters. */
  lemma CountOf(k: Setup, y: Sys, c: bool, up: string, down: string) returns (n: nat)
    requires Inv(k, y, up, down) && !Party(y, c).tx.state.Unstarted?
    ensures WalkedTo(k.model, Party(y, c), n)
  {
    hide Lead, Reads, SendForm, WalkedTo;
    n :| WalkedTo(k.model, Party(y, c), n);
  }

  /** With no sizes requested, both ends walk the same model for themselves; when an end concludes
      its receive, it has read exactly the packets that the whole walk gives to its peer, the peer
      has sent exactly these, and the end's own walk, once over, expected exactly these. */
  lemma TwoWalksAgree(k: Setup, acts: seq<Act>, c: bool)
    requires SetupOk(k) && k.offer.sizes == Sizes(0, false, 0, false)
    requires Party(After(k, acts), c).rx.phase.Success?
    ensures var e, o := Party(After(k, acts), c), Party(After(k, acts), !c);
            e.rx.payload == o.tx.payload == o.tx.expectSend && (e.tx.state.Sent? ==> e.tx.expectRecv == e.rx.payload)
    ensures exists n: nat ::
              Packets.After(k.model, false, Markov.Begin(k.model), n).found &&
              Party(After(k, acts), c).rx.payload ==
              PACKET * Count(Trace(k.model, false, Markov.Begin(k.model), n), Other(c))
  {
    hide Inv, SetupOk, Ended, WalkedTo;
    var up, down := RunInv(k, acts);
    RunEnded(k, acts, c);
    var n := WalksMeet(k, After(k, acts), c, up, down);
  }

  lemma WalksMeet(k: Setup, y: Sys, c: bool, up: string, down: string) returns (n: nat)
    requires SetupOk(k) && k.offer.sizes == Sizes(0, false, 0, false) && Inv(k, y, up, down) && Ended(y, c)
    requires Party(y, c).rx.phase.Success?
    ensures var e, o := Party(y, c), Party(y, !c);
            e.rx.payload == o.tx.payload == o.tx.expectSend && (e.tx.state.Sent? ==> e.tx.expectRecv == e.rx.payload)
    ensures Packets.After(k.model, false, Markov.Begin(k.model), n).found &&
            Party(y, c).rx.payload == PACKET * Count(Trace(k.model, false, Markov.Begin(k.model), n), Other(c))
  {
    hide Sends, Run, Lead, Packets.After, Trace, Count, Reads, Stands;
    var e, o := Party(y, c), Party(y, !c);
    var w := Markov.Begin(k.model);
    var body := if c then down else up;
    UnknownPosition(k, e, c, OutPipe(y, c), InPipe(y, c), if c then up else down);
    UnknownPosition(k, o, !c, InPipe(y, c), OutPipe(y, c), body);
    PayloadRead(k, y, c, up, down);
    if e.tx.state.Sent? {
      n := CountOf(k, y, c, up, down);
      if !o.tx.state.Unstarted? {
        var j := CountOf(k, y, !c, up, down);
        WalksAgree(k.model, w, n, j, Other(c));
      }
    } else {
      n := CountOf(k, y, !c, up, down);
    }
  }

  /** The payload read so far, of unknown size. */
  lemma PayloadRead(k: Setup, y: Sys, c: bool, up: string, down: string)
    requires SetupOk(k) && k.offer.sizes == Sizes(0, false, 0, false) && Inv(k, y, up, down) && Party(y, c).rx.phase.Success?
    ensures var p, lead := Party(y, c).rx.payload, |Lead(k, !c)|;
            p == 0 || p == |InPipe(y, c).got| - lead
    ensures |InPipe(y, c).got| == |Text(k, !c, if c then down else up)| ==> Party(y, c).rx.payload == |if c then down else up|
  {
    hide Inv, SetupOk, Run, Lead;
    SuccessIsNotCommand(k, y, c, up, down);
    var r := StandsNow(k, y, c, up, down);
    BaseSizes(k, c);
  }

  /** An end that is to receive no bytes, or an unknown number, never sees a checksum, so once it waits
      to send its footer it asks for no write at all. */
  lemma NoChecksumNoFooter(k: Setup, acts: seq<Act>, c: bool)
    requires SetupOk(k) && SizesFor(k, c).recv == 0
    ensures var e := Party(After(k, acts), c);
            !e.rx.checksumSeen && (e.tx.state.SendFooter? ==> !WantedEvents(e).write && !WantedEvents(e).deferred)
  {
    hide Inv, SetupOk, WantedEvents;
    var up, down := RunInv(k, acts);
    UnseenChecksum(k, After(k, acts), c, up, down);
    if Party(After(k, acts), c).tx.state.SendFooter? { FooterGate(Party(After(k, acts), c)); }
  }

  lemma FooterGate(e: End)
    requires e.tx.state.SendFooter? && !e.rx.checksumSeen
    ensures !WantedEvents(e).write && !WantedEvents(e).deferred
  {
  }

  lemma UnseenChecksum(k: Setup, y: Sys, c: bool, up: string, down: string)
    requires SetupOk(k) && Inv(k, y, up, down) && SizesFor(k, c).recv == 0
    ensures !Party(y, c).rx.checksumSeen
  {
    hide Sends, Run, Lead, Mark;
    if !Party(y, c).tx.state.Command? {
      var r := StandsNow(k, y, c, up, down);
      BaseSizes(k, c);
    }
  }
}
