/** When exactly the two ends of a stream can always go on until both are done, and the runs that get
    stuck where they cannot. */
module Progress {
  import opened Options
  import opened Headers
  import opened Receiver
  import opened Sender
  import opened Script
  import opened Sending
  import opened Session
  import opened Agreement
  import P = Packets
  import Markov

  // ---- What can still happen ----

  /** The receive of an end is concluded as soon as its wanted events are computed. */
  ghost predicate CanConclude(y: Sys, c: bool) {
    FinishReceiving(Party(y, c)) != Party(y, c)
  }

  /** An end that wants to read finds the end of its peer's bytes. */
  ghost predicate CanMeetEnd(y: Sys, c: bool) {
    WantedEvents(Party(y, c)).read && Party(y, !c).tx.state.Sent? && InPipe(y, c).got == InPipe(y, c).sent
  }

  ghost predicate CanAct(y: Sys, c: bool, capacity: nat) {
    CanStep(y, c, capacity) || CanConclude(y, c) || CanMeetEnd(y, c)
  }

  /** Both ends are done, or one of them can step, conclude or meet the end. */
  ghost predicate GoesOn(y: Sys, capacity: nat) {
    (Done(y.c) && Done(y.s)) || CanAct(y, true, capacity) || CanAct(y, false, capacity)
  }

  // ---- Without sizes ----

  /** Between two events a sender of unknown size is before its payload's end or has sent all. */
  predicate Unsized(e: End) {
    e.tx.state.Unstarted? || e.tx.state.Command? || e.tx.state.Response? || e.tx.state.SendPayload? || e.tx.state.Sent?
  }

  lemma UnsizedPayload(e: End, a: Answer, b: Answer, d: Draw)
    requires e.tx.state.SendPayload? && e.rx.loaded.Some? && e.tx.walk.Some? && Delivers(a) && Delivers(b)
    ensures var f := StagePayload(e, a, b, d).end;
            f.rx == e.rx && (f.tx.state.SendPayload? || (f.tx.state.SendChecksum? && f.tx.out == ""))
  {
    hide Gather, Letters, DoneSending, BatchLimit;
  }

  lemma UnsizedClosing(env: Env, e: End, r: Replies)
    requires !e.tx.state.Unstarted? ==> e.rx.info.sizes.send == 0 && !e.rx.info.sizes.sendZero
    requires Unsized(e) || (e.tx.state.SendChecksum? && e.tx.out == "")
    ensures Unsized(Closing(env, e, r).end)
  {
  }

  lemma UnsizedMiddle(e: End, r: Replies, d: Draw)
    requires Lossless(r) && Unsized(e) && e.rx.error == NoError
    requires e.tx.state.Response? || e.tx.state.SendPayload? ==> e.rx.loaded.Some? && e.tx.walk.Some?
    ensures var f := Middle(e, r, d).end;
            f.rx == e.rx && (Unsized(f) || (f.tx.state.SendChecksum? && f.tx.out == "")) &&
            (e.tx.state.Unstarted? ==> f.tx.state.Unstarted?)
  {
    hide StagePayload, ResponseText, Push, DoneSending;
    UnsizedResponse(e, r.response);
    var f := StageResponse(e, r.response).end;
    if f.tx.state.SendPayload? {
      UnsizedPayload(f, r.leftover, r.batch, d);
    } else {
      assert StagePayload(f, r.leftover, r.batch, d) == Still(f) by { NoPayload(f, r.leftover, r.batch, d); }
    }
  }

  lemma NoPayload(e: End, a: Answer, b: Answer, d: Draw)
    requires !e.tx.state.SendPayload?
    ensures StagePayload(e, a, b, d) == Still(e)
  {
  }

  lemma UnsizedResponse(e: End, a: Answer)
    requires Delivers(a) && Unsized(e) && e.rx.error == NoError
    ensures var f := StageResponse(e, a).end;
            Unsized(f) && f.rx == e.rx && f.tx.walk == e.tx.walk &&
            (f.tx.state.SendPayload? ==> e.tx.state.Response? || e.tx.state.SendPayload?) &&
            (e.tx.state.Unstarted? ==> f.tx.state.Unstarted?)
  {
    hide ResponseText;
  }

  lemma UnsizedCommand(e: End, a: Answer)
    requires Delivers(a) && Unsized(e)
    ensures var f := StageCommand(e, a).end;
            Unsized(f) && f.rx.info == e.rx.info && f.rx.loaded == e.rx.loaded && f.rx.error == e.rx.error && f.tx.walk == e.tx.walk &&
            (e.tx.state.Unstarted? ==> f.tx.state.Unstarted?)
  {
    hide CommandText;
  }

  lemma UnsizedEvent(env: Env, e: End, r: Replies, d: Draw)
    requires Lossless(r) && Unsized(e) && e.rx.error == NoError
    requires !e.tx.state.Unstarted? ==> e.rx.loaded.Some? && e.tx.walk.Some? && e.rx.info.sizes.send == 0 && !e.rx.info.sizes.sendZero
    ensures Unsized(OnWritable(env, e, r, d).end)
  {
    hide StageCommand, Middle, Closing;
    var e0 := WithTx(e, e.tx.(barrier := 0));
    UnsizedCommand(e0, r.command);
    var f := StageCommand(e0, r.command).end;
    UnsizedMiddle(f, r, d);
    UnsizedClosing(env, Middle(f, r, d).end, r);
  }

  lemma UnsizedStep(k: Setup, y: Sys, a: Act, c: bool, up: string, down: string)
    requires SetupOk(k) && Inv(k, y, up, down) && !Known(SizesFor(k, c).send, SizesFor(k, c).sendZero) && Unsized(Party(y, c))
    ensures Unsized(Party(Do(k.env, y, a), c))
  {
    hide OnWritable, Run, Reads, Unsized, Lead;
    var e := Party(y, c);
    SendsReady(k, e, Lead(k, c), OutPipe(y, c).sent, if c then up else down);
    match a
    case Write(b, r, d) => if Lossless(r) && b == c { UnsizedEvent(k.env, e, r, d); }
    case Read(b, n) =>
      if b == c && !(Stopped(e.rx.phase) || |InPipe(y, c).got| + n > |InPipe(y, c).sent|) { UnsizedRead(k, y, c, n, up, down); }
    case MeetEnd(b) => if b == c { UnsizedAbsorb(e, Eof(e.rx)); }
    case Conclude(b) =>
      assert FinishReceiving(e).tx == e.tx;
      UnsizedSame(e, FinishReceiving(e));
  }

  lemma UnsizedSame(e: End, f: End)
    requires Unsized(e) && f.tx.state == e.tx.state
    ensures Unsized(f)
  {
  }

  lemma UnsizedAbsorb(e: End, rx: Rx)
    requires Unsized(e)
    ensures Unsized(Absorb(e, rx))
  {
  }

  lemma UnsizedRead(k: Setup, y: Sys, c: bool, n: nat, up: string, down: string)
    requires Unsized(Party(y, c)) && |InPipe(y, c).got| + n <= |InPipe(y, c).sent|
    ensures Unsized(Party(DoRead(k.env, y, c, n), c))
  {
    hide Unsized, Absorb, Run;
    var p := InPipe(y, c);
    UnsizedAbsorb(Party(y, c), Run(k.env, Party(y, c).rx, p.sent[|p.got|..|p.got| + n]));
  }

  lemma {:induction false} UnsizedRuns(k: Setup, acts: seq<Act>, c: bool)
    requires SetupOk(k) && !Known(SizesFor(k, c).send, SizesFor(k, c).sendZero)
    ensures Unsized(Party(Agreement.After(k, acts), c))
  {
    hide Inv, Do, SetupOk;
    if acts != [] {
      var rest := acts[..|acts| - 1];
      UnsizedRuns(k, rest, c);
      var up, down := RunInv(k, rest);
      UnsizedStep(k, Agreement.After(k, rest), acts[|acts| - 1], c, up, down);
    }
  }

  ghost predicate Unset(k: Setup) {
    k.offer.sizes == Sizes(0, false, 0, false)
  }

  /** Where a listening end stands that is to receive an unknown number of bytes. */
  lemma UnsetReading(k: Setup, y: Sys, c: bool, up: string, down: string)
    requires SetupOk(k) && Inv(k, y, up, down) && !Known(SizesFor(k, !c).send, SizesFor(k, !c).sendZero)
    requires !Party(y, c).tx.state.Command?
    ensures var rx, n, lead := Party(y, c).rx, |InPipe(y, c).got|, |Lead(k, !c)|;
            rx.error == NoError && !rx.phase.Idle? && !rx.phase.Failed? && n <= |InPipe(y, c).sent| &&
            rx.payload == (if n < lead then 0 else n - lead) && (!c ==> (n < lead <==> Party(y, c).tx.state.Unstarted?))
  {
    hide Sends, Run, Lead;
    var r := StandsNow(k, y, c, up, down);
    BaseSizes(k, c);
  }

  /** What an end without sizes wants while it is not done. */
  lemma UnsetWants(k: Setup, y: Sys, c: bool, up: string, down: string)
    requires SetupOk(k) && Inv(k, y, up, down) && Unset(k) && Unsized(Party(y, c)) && !Done(Party(y, c))
    ensures var e, w := Party(y, c), WantedEvents(Party(y, c));
            (!e.tx.state.Command? && !e.rx.phase.Success? ==> w.read) &&
            (!e.tx.state.Unstarted? && !e.tx.state.Sent? ==> w.write || w.deferred)
  {
    hide Sends, Reads, Lead;
    SendsReady(k, Party(y, c), Lead(k, c), OutPipe(y, c).sent, if c then up else down);
    if !Party(y, c).tx.state.Command? { UnsetReading(k, y, c, up, down); }
  }

  /** A commander whose command is not out has been sent nothing. */
  lemma NothingYet(k: Setup, y: Sys, up: string, down: string)
    requires SetupOk(k) && Inv(k, y, up, down) && Unset(k) && y.c.tx.state.Command?
    ensures y.s.tx.state.Unstarted? && y.down.sent == "" && |y.up.sent| < |Lead(k, true)|
  {
    hide Reads, Lead, Walked;
    CommandShort(k, y, up, down);
    assert !Party(y, false).tx.state.Command?;
    UnsetReading(k, y, false, up, down);
  }

  lemma CommandShort(k: Setup, y: Sys, up: string, down: string)
    requires Inv(k, y, up, down) && y.c.tx.state.Command?
    ensures |y.up.sent| < |Lead(k, true)| && !y.s.tx.state.Command? && (y.s.tx.state.Unstarted? ==> y.down.sent == "")
  {
    hide Reads, CommandText, ResponseText, Walked;
    LeadNotEmpty(k, true);
    assert y.c.tx.out != "" ==> |y.up.sent| < |y.up.sent + y.c.tx.out|;
  }

  /** An end of unknown size that has concluded has read all that its peer can ever send, unless
      there is no packet to conclude on and the response is not read. */
  lemma ConcludedHasRead(k: Setup, y: Sys, c: bool, up: string, down: string, N: nat)
    requires SetupOk(k) && Inv(k, y, up, down) && Unset(k) && Ended(y, c) && Party(y, c).rx.phase.Success?
    requires P.After(k.model, false, Markov.Begin(k.model), N).found
    requires c ==> P.Count(P.Trace(k.model, false, Markov.Begin(k.model), N), Markov.ToOrigin) > 0
    ensures InPipe(y, c).got == InPipe(y, c).sent
  {
    hide Sends, Reads, Lead, P.After, P.Trace, P.Count;
    SuccessIsNotCommand(k, y, c, up, down);
    UnsetReading(k, y, c, up, down);
    var e, o, inn, w := Party(y, c), Party(y, !c), InPipe(y, c), Markov.Begin(k.model);
    if e.tx.state.Sent? && !o.tx.state.Unstarted? {
      UnknownPosition(k, e, c, OutPipe(y, c), inn, if c then up else down);
      UnknownPosition(k, o, !c, inn, OutPipe(y, c), if c then down else up);
      var n := CountOf(k, y, c, up, down);
      var j := CountOf(k, y, !c, up, down);
      P.WalksAgree(k.model, w, n, j, Other(c));
      P.WalksAgree(k.model, w, n, N, Other(c));
    }
    if o.tx.state.Unstarted? { UnstartedSilent(k, y, !c, up, down); }
  }

  lemma UnstartedSilent(k: Setup, y: Sys, c: bool, up: string, down: string)
    requires Inv(k, y, up, down) && Party(y, c).tx.state.Unstarted?
    ensures OutPipe(y, c).sent == "" && InPipe(y, !c).got == ""
  {
    hide Reads, Walked, Lead;
    assert OutPipe(y, c).sent + Party(y, c).tx.out == "";
  }

  /** An end without sizes that wants to write can, or its peer can read. */
  lemma UnsetWriter(k: Setup, y: Sys, c: bool, up: string, down: string, N: nat, capacity: nat)
    requires SetupOk(k) && Inv(k, y, up, down) && Unset(k) && Ended(y, !c) && Unsized(Party(y, !c)) && capacity > 0
    requires P.After(k.model, false, Markov.Begin(k.model), N).found
    requires P.Count(P.Trace(k.model, false, Markov.Begin(k.model), N), Markov.ToOrigin) > 0
    requires WantedEvents(Party(y, c)).write || WantedEvents(Party(y, c)).deferred
    ensures CanStep(y, c, capacity) || CanStep(y, !c, capacity)
  {
    hide Inv, SetupOk, WantedEvents, Lead, P.After, P.Trace, P.Count, Ended, Unsized;
    var o, out := Party(y, !c), OutPipe(y, c);
    GotOfSent(k, y, c, up, down);
    if |out.got| < |out.sent| {
      if o.tx.state.Command? {
        NothingYet(k, y, up, down);
      } else if o.rx.phase.Success? {
        ConcludedHasRead(k, y, !c, up, down, N);
      } else {
        UnsetWants(k, y, !c, up, down);
      }
    }
  }

  lemma GotOfSent(k: Setup, y: Sys, c: bool, up: string, down: string)
    requires Inv(k, y, up, down)
    ensures OutPipe(y, c).got <= OutPipe(y, c).sent
    ensures |OutPipe(y, c).got| == |OutPipe(y, c).sent| ==> OutPipe(y, c).got == OutPipe(y, c).sent
    ensures Party(y, c).tx.state.Command? ==> c
    ensures Party(y, !c).tx.state.Command? ==> !c
  {
    hide Sends, Reads;
    SendsReady(k, Party(y, c), Lead(k, c), OutPipe(y, c).sent, if c then up else down);
    SendsReady(k, Party(y, !c), Lead(k, !c), InPipe(y, c).sent, if c then down else up);
  }

  /** While the server has not started, the commander's command is not out or not read. */
  lemma CommandOut(k: Setup, y: Sys, up: string, down: string)
    requires SetupOk(k) && Inv(k, y, up, down) && Unset(k) && y.c.tx.state.Sent? && y.s.tx.state.Unstarted? && Ended(y, false)
    ensures |y.up.got| < |y.up.sent| && !y.s.rx.phase.Success?
  {
    hide Reads, Lead, Run;
    UnknownPosition(k, y.c, true, y.up, y.down, up);
    UnsetReading(k, y, false, up, down);
  }

  /** Without sizes: an end that is not done can act, or its peer can. */
  lemma UnsetSomeoneCan(k: Setup, y: Sys, c: bool, up: string, down: string, N: nat, capacity: nat)
    requires SetupOk(k) && Inv(k, y, up, down) && Unset(k) && capacity > 0
    requires Ended(y, c) && Ended(y, !c) && Unsized(Party(y, c)) && Unsized(Party(y, !c))
    requires P.After(k.model, false, Markov.Begin(k.model), N).found
    requires P.Count(P.Trace(k.model, false, Markov.Begin(k.model), N), Markov.ToOrigin) > 0
    requires !Done(Party(y, c))
    ensures CanAct(y, c, capacity) || CanAct(y, !c, capacity)
  {
    hide Inv, SetupOk, WantedEvents, Lead, P.After, P.Trace, P.Count, Ended;
    var e, o := Party(y, c), Party(y, !c);
    GotOfSent(k, y, c, up, down);
    GotOfSent(k, y, !c, up, down);
    UnsetWants(k, y, c, up, down);
    if !Done(o) { UnsetWants(k, y, !c, up, down); }
    UnstartedOnlyServer(k, y, up, down);
    if WantedEvents(e).write || WantedEvents(e).deferred {
      UnsetWriter(k, y, c, up, down, N, capacity);
    } else if WantedEvents(o).write || WantedEvents(o).deferred {
      UnsetWriter(k, y, !c, up, down, N, capacity);
    } else if y.s.tx.state.Unstarted? {
      CommandOut(k, y, up, down);
    }
  }

  lemma UnstartedOnlyServer(k: Setup, y: Sys, up: string, down: string)
    requires Inv(k, y, up, down)
    ensures !y.c.tx.state.Unstarted?
  {
    hide Sends, Reads;
  }

  /** Where streams can always go on: both sizes are positive; or neither is given, and the walk
      makes the server send at least one packet. */
  ghost predicate Matched(k: Setup, N: nat) {
    (k.offer.sizes.send > 0 && k.offer.sizes.recv > 0) ||
    (Unset(k) && P.Count(P.Trace(k.model, false, Markov.Begin(k.model), N), Markov.ToOrigin) > 0)
  }

  lemma MatchedGoesOn(k: Setup, acts: seq<Act>, N: nat, capacity: nat)
    requires SetupOk(k) && capacity > 0 && Matched(k, N) && P.After(k.model, false, Markov.Begin(k.model), N).found
    ensures GoesOn(Agreement.After(k, acts), capacity)
  {
    hide Inv, SetupOk, WantedEvents, P.After, P.Trace, P.Count, Ended, Unsized;
    var y := Agreement.After(k, acts);
    if Unset(k) {
      var up, down := RunInv(k, acts);
      RunEnded(k, acts, true);
      RunEnded(k, acts, false);
      UnsizedRuns(k, acts, true);
      UnsizedRuns(k, acts, false);
      if !Done(y.c) { UnsetSomeoneCan(k, y, true, up, down, N, capacity); }
      if !Done(y.s) { UnsetSomeoneCan(k, y, false, up, down, N, capacity); }
    } else {
      DeadlockFree(k, acts, capacity);
    }
  }
}
