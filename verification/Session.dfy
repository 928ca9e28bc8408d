/** Two ends of a stream and the two byte pipes between them, as a step system: any interleaving of
    writable events, partial reads, ends of file and conclusions. */
module Session {
  import opened Options
  import opened CStrings
  import opened Headers
  import opened Receiver
  import opened Sender
  import opened Script
  import opened Sending
  import opened Packets
  import Markov

  /** All bytes written so far, and those of them already read. */
  datatype Pipe = Pipe(sent: string, got: string)

  /** The commander, the server, and the pipes from and to the commander. */
  datatype Sys = Sys(c: End, s: End, up: Pipe, down: Pipe)

  /** The acting end is the commander or the server. A write event comes with the socket's answers
      and the packet loop's choices, a read event with how many bytes arrive. */
  datatype Act =
    | Write(commander: bool, replies: Replies, draw: Draw)
    | Read(commander: bool, count: nat)
    | MeetEnd(commander: bool)
    | Conclude(commander: bool)

  function Party(y: Sys, commander: bool): End {
    if commander then y.c else y.s
  }

  function OutPipe(y: Sys, commander: bool): Pipe {
    if commander then y.up else y.down
  }

  function InPipe(y: Sys, commander: bool): Pipe {
    OutPipe(y, !commander)
  }

  function With(y: Sys, commander: bool, e: End, out: Pipe, inn: Pipe): Sys {
    if commander then Sys(e, y.s, out, inn) else Sys(y.c, e, inn, out)
  }

  function DoWrite(env: Env, y: Sys, c: bool, r: Replies, d: Draw): Sys {
    var f := OnWritable(env, Party(y, c), r, d);
    With(y, c, f.end, OutPipe(y, c).(sent := OutPipe(y, c).sent + f.wrote), InPipe(y, c))
  }

  function DoRead(env: Env, y: Sys, c: bool, n: nat): Sys
    requires |InPipe(y, c).got| + n <= |InPipe(y, c).sent|
  {
    var e, p := Party(y, c), InPipe(y, c);
    var chunk := p.sent[|p.got|..|p.got| + n];
    With(y, c, Absorb(e, Run(env, e.rx, chunk)), OutPipe(y, c), p.(got := p.got + chunk))
  }

  function DoEnd(y: Sys, c: bool): Sys {
    With(y, c, Absorb(Party(y, c), Eof(Party(y, c).rx)), OutPipe(y, c), InPipe(y, c))
  }

  function DoConclude(y: Sys, c: bool): Sys {
    With(y, c, FinishReceiving(Party(y, c)), OutPipe(y, c), InPipe(y, c))
  }

  /** One step; an action that is not enabled changes nothing. No write fails, a stopped receiver
      reads nothing, and an end of file is met once the peer has shut down and all is read. */
  function Do(env: Env, y: Sys, a: Act): Sys {
    match a
    case Write(c, r, d) => if Lossless(r) then DoWrite(env, y, c, r, d) else y
    case Read(c, n) =>
      if Stopped(Party(y, c).rx.phase) || |InPipe(y, c).got| + n > |InPipe(y, c).sent| then y else DoRead(env, y, c, n)
    case MeetEnd(c) =>
      if Party(y, !c).tx.state.Sent? && InPipe(y, c).got == InPipe(y, c).sent then DoEnd(y, c) else y
    case Conclude(c) => DoConclude(y, c)
  }

  function Execute(env: Env, y: Sys, acts: seq<Act>): Sys {
    if acts == [] then y else Do(env, Execute(env, y, acts[..|acts| - 1]), acts[|acts| - 1])
  }

  function Start(k: Setup): Sys {
    Sys(Commander(k), Server(k), Pipe("", ""), Pipe("", ""))
  }

  // ---- The invariant ----

  function Lead(k: Setup, commander: bool): string {
    if commander then CommandText(k.offer) else ResponseText(k.server.host, NoError)
  }

  /** The sizes as an end sees them once it knows them. */
  function SizesFor(k: Setup, commander: bool): Sizes {
    if commander then k.offer.sizes else Swap(k.offer.sizes)
  }

  function Begins(k: Setup, commander: bool): Rx {
    if commander then Listening(k) else Server(k).rx
  }

  function Base(k: Setup, commander: bool): Rx {
    if commander then ResponseBase(k) else CommandBase(k)
  }

  /** The automaton on the bytes read, or concluded early where the payload size is unknown. */
  ghost predicate Reads(k: Setup, e: End, c: bool, got: string) {
    var r, z := Run(k.env, Begins(k, c), got), SizesFor(k, c);
    if e.tx.state.Command? then e.rx == Commander(k).rx && got == ""
    else e.rx == r || (!Known(z.recv, z.recvZero) && e.rx == r.(phase := Success, line := ""))
  }

  ghost predicate Half(k: Setup, e: End, c: bool, out: Pipe, inn: Pipe, body: string) {
    e.me == (if c then k.offer else k.server) && e.rx.commander == c &&
    (e.tx.state.Unstarted? <==> !c && e.rx.cue == Nothing) &&
    (if e.tx.state.Unstarted? then e.rx.loaded.None? else e.rx.info.sizes == SizesFor(k, c)) &&
    Sends(k.env, k.model, e, Lead(k, c), out.sent, body) && inn.got <= inn.sent && Reads(k, e, c, inn.got)
  }

  ghost predicate Inv(k: Setup, y: Sys, up: string, down: string) {
    Half(k, y.c, true, y.up, y.down, up) && Half(k, y.s, false, y.down, y.up, down)
  }

  // ---- Where the readers stand ----

  /** Where n bytes of the peer's script leave an end. */
  ghost predicate Stands(k: Setup, c: bool, body: string, n: nat, rx: Rx) {
    var lead := Lead(k, !c);
    if n < |lead| then Waiting(Begins(k, c), rx)
    else SameStanding(Base(k, c), rx) && Placed(k.env, Base(k, c), body, n - |lead|, rx)
  }

  /** The whole script of one end. */
  function Text(k: Setup, c: bool, body: string): string {
    var z := SizesFor(k, c);
    Lead(k, c) + Rest(k.env, z.send, z.sendZero, body)
  }

  lemma BaseSizes(k: Setup, c: bool)
    requires SetupOk(k)
    ensures Base(k, c).info.sizes == SizesFor(k, c) && Fresh(Base(k, c)) && Base(k, c).loaded == Some(k.model)
  {
    hide CommandScan;
    if !c { CommandSizes(k); }
  }

  lemma CommandSizes(k: Setup)
    requires SetupOk(k)
    ensures InfoOfCommand(k).sizes == Swap(k.offer.sizes)
  {
  }

  lemma AlignedEarly(k: Setup, c: bool, body: string, g: string)
    requires SetupOk(k) && g <= Lead(k, !c) && |g| < |Lead(k, !c)|
    ensures Stands(k, c, body, |g|, Run(k.env, Begins(k, c), g))
  {
    hide CommandText, ResponseText, Run, Placed, Waiting, SetupOk, CommandBase, ResponseBase, EnterPayload;
    if c { ResponseTrack(k, g); } else { CommandTrack(k, g); }
  }

  /** The command or response is read whole, and some of what follows it. */
  lemma AlignedLate(k: Setup, c: bool, body: string, x: string)
    requires SetupOk(k) && BodyOk(SizesFor(k, !c).send, SizesFor(k, !c).sendZero, body)
    requires x <= Rest(k.env, SizesFor(k, !c).send, SizesFor(k, !c).sendZero, body)
    ensures Stands(k, c, body, |Lead(k, !c)| + |x|, Run(k.env, Begins(k, c), Lead(k, !c) + x))
  {
    hide CommandText, ResponseText, Rest, Run, Placed, Waiting, CommandBase, ResponseBase, EnterPayload;
    BaseSizes(k, c);
    var lead := Lead(k, !c);
    if c { ResponseTrack(k, lead); } else { CommandTrack(k, lead); }
    RunAppend(k.env, Begins(k, c), lead, x);
    BodyTrack(k.env, Base(k, c), body, x);
  }

  lemma Aligned(k: Setup, c: bool, body: string, g: string)
    requires SetupOk(k) && BodyOk(SizesFor(k, !c).send, SizesFor(k, !c).sendZero, body) && g <= Text(k, !c, body)
    ensures Stands(k, c, body, |g|, Run(k.env, Begins(k, c), g))
  {
    hide Lead, Rest, Run, Stands, SetupOk, BodyOk, Begins;
    var lead, z := Lead(k, !c), SizesFor(k, !c);
    PrefixCases(g, lead, Rest(k.env, z.send, z.sendZero, body));
    if |g| < |lead| {
      AlignedEarly(k, c, body, g);
    } else {
      AlignedLate(k, c, body, g[|lead|..]);
    }
  }

  /** A payload completed to its requested size. */
  function Whole(size: nat, body: string): string {
    if |body| < size then body + Letters('a', size - |body|) else body
  }

  /** Everything written or buffered is the beginning of one script. */
  lemma OnScript(k: Setup, e: End, c: bool, out: Pipe, inn: Pipe, body: string)
    requires SetupOk(k) && Half(k, e, c, out, inn, body)
    ensures BodyOk(SizesFor(k, c).send, SizesFor(k, c).sendZero, Whole(SizesFor(k, c).send, body))
    ensures out.sent + e.tx.out <= Text(k, c, Whole(SizesFor(k, c).send, body))
    ensures out.sent <= Text(k, c, Whole(SizesFor(k, c).send, body))
  {
    hide CommandText, ResponseText, Walked, Reads, ChecksumText;
    var z, lead := SizesFor(k, c), Lead(k, c);
    var w := Whole(z.send, body);
    assert out.sent <= out.sent + e.tx.out;
    assert lead + Rest(k.env, z.send, z.sendZero, w) == lead + w + Mark(k.env, z.send, w) + Fin(z.send, z.sendZero);
  }

  /** A reader's new state changes the sender only when its cue changes. */
  lemma SendsOn(k: Setup, e: End, f: End, lead: string, sent: string, body: string)
    requires Sends(k.env, k.model, e, lead, sent, body)
    requires f.tx == e.tx && f.rx.error == NoError && f.rx.commander == e.rx.commander
    requires !e.tx.state.Unstarted? ==> f.rx.info.sizes == e.rx.info.sizes && f.rx.loaded == e.rx.loaded
    requires Receipt(e) ==> Receipt(f)
    ensures Sends(k.env, k.model, f, lead, sent, body)
  {
    hide WalkedTo, Mark, Rest;
    if !e.tx.state.Unstarted? { WalkKept(k.model, e, f); }
  }

  /** The command is complete: the server starts to respond. */
  lemma SendsFirst(k: Setup, e: End, f: End, lead: string, sent: string, body: string)
    requires Sends(k.env, k.model, e, lead, sent, body) && e.tx.state.Unstarted? && !f.rx.commander && f.rx.error == NoError
    requires f.tx == e.tx.(state := Response, walk := Some(Markov.Begin(k.model))) && f.rx.loaded == Some(k.model)
    requires f.rx.info.sizes.sendZero ==> f.rx.info.sizes.send == 0
    ensures Sends(k.env, k.model, f, lead, sent, body)
  {
    var s := Trace(k.model, f.rx.info.sizes.send > 0, Markov.Begin(k.model), 0);
    assert Count(s, Own(false)) == 0 && Count(s, Other(false)) == 0;
    assert WalkedTo(k.model, f, 0);
  }

  /** What a standing says, whatever the position. */
  lemma StandFacts(k: Setup, c: bool, body: string, n: nat, rx: Rx)
    requires SetupOk(k) && Stands(k, c, body, n, rx)
    ensures rx.error == NoError && rx.commander == c && !rx.phase.Idle? && !rx.phase.Failed?
    ensures rx.cue == (if n < |Lead(k, !c)| || c then Cue.Nothing else Respond)
    ensures n >= |Lead(k, !c)| || c ==> rx.info.sizes == SizesFor(k, c) && rx.loaded == Some(k.model)
    ensures n < |Lead(k, !c)| ==> Early(rx.phase) && rx.payload == 0 && (!c ==> rx.loaded.None?)
  {
    hide Lead, CommandScan;
    BaseSizes(k, c);
  }

  /** Reading on never takes a receipt back. */
  lemma ReceiptStays(k: Setup, c: bool, body: string, n: nat, r: Rx, m: nat, s: Rx)
    requires Stands(k, c, body, n, r) && Stands(k, c, body, m, s) && n <= m
    requires r.phase.Footer? || r.phase.Success?
    ensures s.phase.Footer? || s.phase.Success?
  {
    hide Lead, Mark;
  }

  /** A piece read on: the automaton goes on, and the sender is told of a complete command. */
  lemma ReadHalf(k: Setup, e: End, c: bool, out: Pipe, inn: Pipe, body: string, peer: string, got: string)
    requires SetupOk(k) && Half(k, e, c, out, inn, body) && !Stopped(e.rx.phase)
    requires BodyOk(SizesFor(k, !c).send, SizesFor(k, !c).sendZero, peer) && inn.sent <= Text(k, !c, peer)
    requires inn.got <= got <= inn.sent
    ensures Half(k, Absorb(e, Run(k.env, e.rx, got[|inn.got|..])), c, out, inn.(got := got), body)
  {
    hide Lead, Text, Run, Stands, Base, Begins, Sends;
    var chunk := got[|inn.got|..];
    assert got == inn.got + chunk;
    RunAppend(k.env, Begins(k, c), inn.got, chunk);
    Aligned(k, c, peer, inn.got);
    Aligned(k, c, peer, got);
    var r, s := e.rx, Run(k.env, e.rx, chunk);
    StandFacts(k, c, peer, |inn.got|, r);
    StandFacts(k, c, peer, |got|, s);
    var f := Absorb(e, s);
    if Receipt(e) { ReceiptStays(k, c, peer, |inn.got|, r, |got|, s); }
    if s.cue == r.cue {
      SendsReady(k, e, Lead(k, c), out.sent, body);
      SendsOn(k, e, f, Lead(k, c), out.sent, body);
    } else {
      SendsReady(k, e, Lead(k, c), out.sent, body);
      SendsFirst(k, e, f, Lead(k, c), out.sent, body);
    }
  }

  lemma SendsReady(k: Setup, e: End, lead: string, sent: string, body: string)
    requires Sends(k.env, k.model, e, lead, sent, body)
    ensures Ready(k.model, e) && (e.tx.state.Unstarted? ==> e.tx.walk.None?) && !e.tx.state.Broken?
    ensures e.tx.state.Command? ==> e.rx.commander
  {
  }

  /** All of the peer's script read: a reader that is not done waits for payload of unknown size. */
  lemma AllRead(k: Setup, c: bool, body: string, rx: Rx)
    requires SetupOk(k) && Stands(k, c, body, |Text(k, !c, body)|, rx)
    ensures var z := SizesFor(k, c);
            rx.phase == (if Known(z.recv, z.recvZero) then Success else Payload) && rx.payload == |body|
    ensures var z := SizesFor(k, c); z.recv > 0 ==> rx.digested == body && rx.checksumSeen
  {
    hide Lead;
    BaseSizes(k, c);
  }

  lemma EofOfUnknown(rx: Rx)
    requires rx.phase.Payload? && !Known(rx.info.sizes.recv, rx.info.sizes.recvZero)
    ensures Eof(rx) == rx.(phase := Success, line := "")
  {
  }

  /** An end of file behind the whole script only ends a payload of unknown size. */
  lemma EndHalf(k: Setup, e: End, c: bool, out: Pipe, inn: Pipe, body: string, peer: string)
    requires SetupOk(k) && Half(k, e, c, out, inn, body)
    requires BodyOk(SizesFor(k, !c).send, SizesFor(k, !c).sendZero, peer) && inn.got == Text(k, !c, peer)
    ensures Half(k, Absorb(e, Eof(e.rx)), c, out, inn, body)
  {
    hide Lead, Text, Run, Stands, Base, Begins, Sends;
    SendsReady(k, e, Lead(k, c), out.sent, body);
    if Stopped(e.rx.phase) {
      assert Absorb(e, Eof(e.rx)) == e by { StoppedAbsorbs(k, e, c, out, inn, body); }
    } else {
      Aligned(k, c, peer, inn.got);
      StandFacts(k, c, peer, |inn.got|, e.rx);
      AllRead(k, c, peer, e.rx);
      EofOfUnknown(e.rx);
      SendsOn(k, e, Absorb(e, Eof(e.rx)), Lead(k, c), out.sent, body);
    }
  }

  /** Nothing is handed over twice. */
  lemma StoppedAbsorbs(k: Setup, e: End, c: bool, out: Pipe, inn: Pipe, body: string)
    requires Half(k, e, c, out, inn, body) && Stopped(e.rx.phase)
    ensures Absorb(e, Eof(e.rx)) == e
  {
    hide Lead, Run;
    SendsReady(k, e, Lead(k, c), out.sent, body);
  }

  /** Concluding: a started sender that has nothing left to send and all expected payload. */
  lemma ConcludeHalf(k: Setup, e: End, c: bool, out: Pipe, inn: Pipe, body: string)
    requires Half(k, e, c, out, inn, body)
    ensures Half(k, FinishReceiving(e), c, out, inn, body)
  {
    hide Lead, Run, Sends, Begins;
    SendsReady(k, e, Lead(k, c), out.sent, body);
    var f := FinishReceiving(e);
    if f != e {
      SendsOn(k, e, f, Lead(k, c), out.sent, body);
    }
  }

  lemma WriteHalf(k: Setup, e: End, c: bool, out: Pipe, inn: Pipe, body: string, r: Replies, d: Draw) returns (more: string)
    requires SetupOk(k) && Half(k, e, c, out, inn, body) && Lossless(r)
    ensures var f := OnWritable(k.env, e, r, d); Half(k, f.end, c, out.(sent := out.sent + f.wrote), inn, more)
  {
    hide CommandText, ResponseText, Run, Sends, OnWritable;
    SendsReady(k, e, Lead(k, c), out.sent, body);
    assert !c || OfferOf(e) == k.offer;
    RunNothing(k.env, Listening(k));
    more := WriteKeeps(k.env, k.model, e, Lead(k, c), out.sent, body, r, d);
    var f := OnWritable(k.env, e, r, d);
    SendsReady(k, f.end, Lead(k, c), out.sent + f.wrote, more);
  }

  lemma PeerKept(k: Setup, e: End, c: bool, out: Pipe, inn: Pipe, inn': Pipe, body: string)
    requires Half(k, e, c, out, inn, body) && inn'.got == inn.got && inn.sent <= inn'.sent
    ensures Half(k, e, c, out, inn', body)
  {
    hide Sends, Reads;
  }

  /** One step keeps the invariant. */
  lemma StepKeeps(k: Setup, y: Sys, a: Act, up: string, down: string) returns (up': string, down': string)
    requires SetupOk(k) && Inv(k, y, up, down)
    ensures Inv(k, Do(k.env, y, a), up', down')
  {
    hide Half;
    up', down' := up, down;
    match a
    case Write(c, r, d) =>
      if Lossless(r) {
        var more := WriteHalf(k, Party(y, c), c, OutPipe(y, c), InPipe(y, c), if c then up else down, r, d);
        WriteDone(k, y, c, r, d, up, down, more);
        if c { up' := more; } else { down' := more; }
      }
    case Read(c, n) =>
      if !(Stopped(Party(y, c).rx.phase) || |InPipe(y, c).got| + n > |InPipe(y, c).sent|) { ReadDone(k, y, c, n, up, down); }
    case MeetEnd(c) =>
      if Party(y, !c).tx.state.Sent? && InPipe(y, c).got == InPipe(y, c).sent { EndDone(k, y, c, up, down); }
    case Conclude(c) =>
      ConcludeHalf(k, Party(y, c), c, OutPipe(y, c), InPipe(y, c), if c then up else down);
  }

  lemma WriteDone(k: Setup, y: Sys, c: bool, r: Replies, d: Draw, up: string, down: string, more: string)
    requires Inv(k, y, up, down)
    requires var f := OnWritable(k.env, Party(y, c), r, d);
             Half(k, f.end, c, OutPipe(y, c).(sent := OutPipe(y, c).sent + f.wrote), InPipe(y, c), more)
    ensures Inv(k, DoWrite(k.env, y, c, r, d), if c then more else up, if c then down else more)
  {
    hide Half, OnWritable;
    var out := OutPipe(y, c);
    PeerKept(k, Party(y, !c), !c, InPipe(y, c), out, out.(sent := out.sent + OnWritable(k.env, Party(y, c), r, d).wrote),
             if c then down else up);
  }

  lemma ReadDone(k: Setup, y: Sys, c: bool, n: nat, up: string, down: string)
    requires SetupOk(k) && Inv(k, y, up, down)
    requires !Stopped(Party(y, c).rx.phase) && |InPipe(y, c).got| + n <= |InPipe(y, c).sent|
    ensures Inv(k, DoRead(k.env, y, c, n), up, down)
  {
    hide Sends, Reads, Run, Text, BodyOk, Lead;
    var e, out, inn := Party(y, c), OutPipe(y, c), InPipe(y, c);
    var body, peer := if c then up else down, if c then down else up;
    OnScript(k, Party(y, !c), !c, inn, out, peer);
    var got := inn.got + inn.sent[|inn.got|..|inn.got| + n];
    assert got == inn.sent[..|inn.got| + n];
    assert got[|inn.got|..] == inn.sent[|inn.got|..|inn.got| + n];
    ReadHalf(k, e, c, out, inn, body, Whole(SizesFor(k, !c).send, peer), got);
  }

  lemma EndDone(k: Setup, y: Sys, c: bool, up: string, down: string)
    requires SetupOk(k) && Inv(k, y, up, down) && Party(y, !c).tx.state.Sent? && InPipe(y, c).got == InPipe(y, c).sent
    ensures Inv(k, DoEnd(y, c), up, down)
  {
    hide Reads, Run, Lead, Walked, Rest;
    var e, out, inn := Party(y, c), OutPipe(y, c), InPipe(y, c);
    var peer := if c then down else up;
    EndHalf(k, e, c, out, inn, if c then up else down, peer);
  }

  lemma StartInv(k: Setup)
    requires SetupOk(k)
    ensures Inv(k, Start(k), "", "")
  {
    hide CommandText, ResponseText;
    var s := Trace(k.model, k.offer.sizes.send > 0, Markov.Begin(k.model), 0);
    assert Count(s, Own(true)) == 0 && Count(s, Other(true)) == 0;
    assert WalkedTo(k.model, Commander(k), 0);
  }

  /** The invariant over every run. */
  lemma {:induction false} RunInv(k: Setup, acts: seq<Act>) returns (up: string, down: string)
    requires SetupOk(k)
    ensures Inv(k, Execute(k.env, Start(k), acts), up, down)
  {
    hide Inv, Do, Start, SetupOk;
    if acts == [] {
      up, down := "", "";
      StartInv(k);
    } else {
      up, down := RunInv(k, acts[..|acts| - 1]);
      up, down := StepKeeps(k, Execute(k.env, Start(k), acts[..|acts| - 1]), acts[|acts| - 1], up, down);
    }
  }
}
