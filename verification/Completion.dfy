/** When exactly a stream can always still be finished: from every state that wanted events reach, further
    wanted events bring both ends to success. */
module Completion {
  import opened Options
  import opened CStrings
  import opened Headers
  import opened Receiver
  import opened Sender
  import opened Script
  import opened Sending
  import opened Session
  import opened Agreement
  import opened Progress
  import opened Stuck
  import P = Packets
  import Markov

  // ---- One event from anywhere ----

  /** What is buffered is written, and with it the command or the response is out. */
  function Flushed(e: End): End {
    var rx := if e.tx.state.Command? then e.rx.(phase := Authenticate) else e.rx;
    End(e.me, rx, e.tx.(
      state := SendPayload, out := "", barrier := 0,
      payload := e.tx.payload + if e.tx.state.SendPayload? then |e.tx.out| else 0))
  }

  predicate BeforePayloadEnd(e: End) {
    e.tx.state.Command? || e.tx.state.Response? || e.tx.state.SendPayload?
  }

  function Room(e: End): nat {
    Big(e) + |e.tx.out|
  }

  lemma FlushWhole(e: End, big: nat)
    requires |e.tx.out| <= big
    ensures FlushOut(e, Answer.Accepted(big)) == Effect(WithTx(e, e.tx.(out := "")), e.tx.out)
  {
    assert e.tx.out[..|e.tx.out|] == e.tx.out;
  }

  lemma LeadFlushed(e: End)
    requires BeforePayloadEnd(e) && e.rx.error == NoError
    ensures var r := Takes(Room(e), false);
            var f := StageResponse(StageCommand(WithTx(e, e.tx.(barrier := 0)), r.command).end, r.response).end;
            f.tx.state.SendPayload? && FlushPayload(f, r.leftover).end == Flushed(e) && f.rx == Flushed(e).rx && f.tx.walk == e.tx.walk
  {
    hide CommandText, ResponseText, Push;
    var r, e0 := Takes(Room(e), false), WithTx(e, e.tx.(barrier := 0));
    CommandNotEmpty(OfferOf(e));
    ResponseNotEmpty(e.me.host, NoError);
    PushWhole(e0, CommandText(OfferOf(e)), Room(e));
    PushWhole(e0, ResponseText(e.me.host, NoError), Room(e));
    FlushWhole(e0, Room(e));
  }

  lemma PayloadFlushed(e: End, f: End, steps: nat, big: nat)
    requires e.tx.state.SendPayload? && e.rx.loaded.Some? && e.tx.walk.Some? && Markov.Sound(e.rx.loaded.value)
    requires big >= 40000 && FlushPayload(e, Answer.Accepted(big)).end == f && f.tx.state.SendPayload? && f.tx.out == "" && f.rx == e.rx
    requires f.tx.walk == e.tx.walk
    ensures StagePayload(e, Answer.Accepted(big), Answer.Accepted(big), Draw(steps, 'a', 0)).end == AfterPayload(f, steps)
  {
    hide Gather, Letters, Markov.Sound, FlushPayload, LoadBatch, NextBatch, DoneSending, BatchLimit;
    PayloadTaken(f, steps, big);
    NothingToFlush(f, big);
  }

  lemma NothingToFlush(f: End, big: nat)
    requires f.tx.out == ""
    ensures FlushPayload(f, Answer.Accepted(big)).end == f
  {
  }

  /** Behind the payload; what may be buffered there. */
  predicate BehindPayload(e: End) {
    var z := e.rx.info.sizes;
    (e.tx.state.SendChecksum? && (z.send == 0 ==> e.tx.out == "")) ||
    (e.tx.state.SendFooter? && (e.tx.out != "" ==> Known(z.send, z.sendZero) && Receipt(e))) ||
    (e.tx.state.Flush? && e.tx.out == "" && (Known(z.send, z.sendZero) ==> Receipt(e)))
  }

  /** Where a sender comes to rest behind its payload. */
  function RestState(e: End): SendState {
    if !Known(e.rx.info.sizes.send, e.rx.info.sizes.sendZero) || Receipt(e) then Sent else SendFooter
  }

  lemma ClosingAny(env: Env, e: End, big: nat)
    requires DigestsOk(env) && big >= 40000 + |e.tx.out| && BehindPayload(e)
    ensures Closing(env, e, Takes(big, false)).end == WithTx(e, e.tx.(state := RestState(e), out := ""))
  {
    hide Push, ChecksumText;
    var text, a := ChecksumText(env, e.tx.digested), Answer.Accepted(big);
    ChecksumNotEmpty(env, e.tx.digested);
    ChecksumShort(env, e.tx.digested);
    PushWhole(e, text, big);
    var f := StageChecksum(env, e, a).end;
    PushWhole(f, FOOTER, big);
  }

  lemma EventBefore(env: Env, e: End, steps: nat)
    requires DigestsOk(env) && BeforePayloadEnd(e) && e.rx.error == NoError
    requires e.rx.loaded.Some? && e.tx.walk.Some? && Markov.Sound(e.rx.loaded.value)
    ensures OnWritable(env, e, Takes(Room(e), false), Draw(steps, 'a', 0)).end == Closed(AfterPayload(Flushed(e), steps), false)
  {
    hide StageCommand, StageResponse, StagePayload, Closing, CommandText, ResponseText, DigestsOk, Markov.Sound, FlushPayload;
    LeadFlushed(e);
    var r := Takes(Room(e), false);
    var f := StageResponse(StageCommand(WithTx(e, e.tx.(barrier := 0)), r.command).end, r.response).end;
    PayloadFlushed(f, Flushed(e), steps, Room(e));
    PaidStates(Flushed(e), steps);
    ClosingTaken(env, AfterPayload(Flushed(e), steps), Room(e), false);
  }

  lemma EndsBefore(e: End, steps: nat)
    requires BeforePayloadEnd(e) && e.rx.error == NoError && e.rx.loaded.Some? && e.tx.walk.Some?
    requires DoneSending(Flushed(e)) || Complete(NextBatch(Flushed(e), steps), BatchLimit(Flushed(e)))
    ensures LoopEnds(e, Takes(Room(e), false), Draw(steps, 'a', 0))
  {
    hide StageCommand, StageResponse, CommandText, ResponseText, NextBatch, BatchLimit, DoneSending, FlushPayload;
    LeadFlushed(e);
  }

  lemma EventBehind(env: Env, e: End)
    requires DigestsOk(env) && BehindPayload(e)
    ensures var r, d := Takes(Room(e), false), Draw(0, 'a', 0);
            OnWritable(env, e, r, d).end == WithTx(e, e.tx.(state := RestState(e), out := "", barrier := 0)) && LoopEnds(e, r, d)
  {
    hide Closing, CommandText, ResponseText;
    ClosingAny(env, WithTx(e, e.tx.(barrier := 0)), Room(e));
  }

  // ---- From anywhere to the end of the payload ----

  /** What the acting end has heard does not change, except that behind its command it listens. */
  function Heard(e: End): Rx {
    if e.tx.state.Command? then e.rx.(phase := Authenticate) else e.rx
  }

  lemma WriterAsks(y: Sys, c: bool, r: Replies, d: Draw)
    requires var e := Party(y, c);
             e.rx.error == NoError && (BeforePayloadEnd(e) || BehindPayload(e)) && (e.tx.state.SendFooter? ==> e.rx.checksumSeen)
    requires LoopEnds(Party(y, c), r, d)
    ensures Asked(y, Write(c, r, d))
  {
    hide LoopEnds;
  }

  /** A started sender is before the end of its payload, behind it, or has sent everything. */
  lemma Places(k: Setup, y: Sys, c: bool, up: string, down: string)
    requires Inv(k, y, up, down) && !Party(y, c).tx.state.Unstarted?
    ensures var e := Party(y, c); if e.tx.state.Sent? then e.tx.out == "" else BeforePayloadEnd(e) || BehindPayload(e)
  {
    hide Reads, Lead, Walked, Paid;
  }

  /** An end at rest with nothing buffered. */
  predicate AtRest(e: End) {
    e.tx.out == "" && e.tx.state == RestState(e)
  }

  lemma OneTidy(k: Setup, acts: seq<Act>, y: Sys, c: bool, N: nat, width: nat) returns (more: seq<Act>, z: Sys)
    requires SetupOk(k) && WalkOk(k.model, N, width) && Reached(k, acts, y) && BeforePayloadEnd(Party(y, c))
    ensures Reached(k, more, z) && acts <= more && Beside(y, z, c) && Party(z, c).rx == Heard(Party(y, c))
    ensures AtRest(Party(z, c)) || (Under(Party(z, c)) && Party(z, c).tx.state.SendPayload?)
  {
    hide SetupOk, WalkOk, Reached, Asked, Markov.Sound, DigestsOk, OnWritable, Aims, WalksAt, P.After, AfterPayload, Closed, Inv,
      DoneSending, NextBatch, BatchLimit, CommandText, ResponseText, DoWrite, SizesOk, LoopEnds;
    var e := Party(y, c);
    var up, down := Keeps(k, acts, y);
    Started(k, y, c, up, down);
    var f := Flushed(e);
    var steps := 0;
    if !DoneSending(f) {
      var n: nat :| WalksAt(k.model, e, n);
      FlushedSame(k.model, e, n);
      var i := SomeAim(k, c, n, N, width);
      var n', i';
      steps, n', i' := BatchStep(k.model, f, n, i, N, width);
      FlushedGoesOn(f, steps);
    } else {
      FlushedRests(f, steps);
    }
    var r, d := Takes(Room(e), false), Draw(steps, 'a', 0);
    EndsBefore(e, steps);
    WriterAsks(y, c, r, d);
    EventBefore(k.env, e, steps);
    more, z := WritesOn(k, acts, y, c, r, d);
  }

  lemma FlushedSame(m: Markov.Model, e: End, n: nat)
    requires WalksAt(m, e, n)
    ensures WalksAt(m, Flushed(e), n)
  {
  }

  lemma FlushedGoesOn(f: End, steps: nat)
    requires f.tx.state.SendPayload? && f.tx.out == "" && f.rx.loaded.Some? && f.tx.walk.Some? && !DoneSending(f)
    ensures var g := Closed(AfterPayload(f, steps), false); Under(g) && g.tx.state.SendPayload? && g.rx == f.rx
  {
    hide NextBatch, Letters, DoneSending;
  }

  lemma FlushedRests(f: End, steps: nat)
    requires f.tx.state.SendPayload? && f.tx.out == "" && f.rx.loaded.Some? && f.tx.walk.Some? && DoneSending(f)
    ensures var g := Closed(AfterPayload(f, steps), false); AtRest(g) && g.rx == f.rx
  {
  }

  /** A started end writes on until it is at rest with nothing buffered. */
  lemma Settles(k: Setup, acts: seq<Act>, y: Sys, c: bool, N: nat, width: nat) returns (more: seq<Act>, z: Sys)
    requires SetupOk(k) && WalkOk(k.model, N, width) && Reached(k, acts, y) && !Party(y, c).tx.state.Unstarted?
    requires Party(y, c).tx.state.SendFooter? ==> Party(y, c).rx.checksumSeen
    ensures Reached(k, more, z) && acts <= more && Beside(y, z, c)
    ensures Party(z, c).tx.out == "" && Party(z, c).rx == Heard(Party(y, c))
    ensures Party(z, c).tx.state == if Party(y, c).tx.state.Sent? then Sent else RestState(Party(z, c))
  {
    hide SetupOk, WalkOk, Reached, Asked, Inv, OnWritable, Rests, BehindPayload, DigestsOk, LoopEnds, DoWrite;
    var e := Party(y, c);
    var up, down := Keeps(k, acts, y);
    Places(k, y, c, up, down);
    Started(k, y, c, up, down);
    if e.tx.state.Sent? {
      more, z := acts, y;
    } else if BeforePayloadEnd(e) {
      more, z := OneTidy(k, acts, y, c, N, width);
      if !AtRest(Party(z, c)) {
        var f, y1 := Party(z, c), z;
        more, z := PumpOn(k, more, y1, c, false, N, width);
        RestsAt(f, Party(z, c));
      }
    } else {
      var r, d := Takes(Room(e), false), Draw(0, 'a', 0);
      EventBehind(k.env, e);
      WriterAsks(y, c, r, d);
      more, z := WritesOn(k, acts, y, c, r, d);
      BehindKeeps(e);
    }
  }

  lemma RestsAt(f: End, g: End)
    requires Rests(f, g, false) && f.tx.state.SendPayload?
    ensures g.tx.out == "" && g.rx == f.rx && g.tx.state == RestState(g)
  {
  }

  lemma BehindKeeps(e: End)
    requires BehindPayload(e)
    ensures Heard(e) == e.rx && !e.tx.state.Sent?
    ensures RestState(WithTx(e, e.tx.(state := RestState(e), out := "", barrier := 0))) == RestState(e)
  {
  }

  // ---- From anywhere to the end ----

  /** A listening end has read all there is, or is done reading. */
  lemma ReadsUp(k: Setup, acts: seq<Act>, y: Sys, c: bool) returns (more: seq<Act>, z: Sys)
    requires SetupOk(k) && Reached(k, acts, y) && !Party(y, c).tx.state.Command?
    ensures Reached(k, more, z) && acts <= more && Party(z, !c) == Party(y, !c) && OutPipe(z, c) == OutPipe(y, c)
    ensures InPipe(z, c).sent == InPipe(y, c).sent
    ensures InPipe(z, c).got == InPipe(z, c).sent || (Party(z, c).rx.phase.Success? && z == y)
    ensures !Party(y, c).tx.state.Unstarted? ==> Party(z, c).tx == Party(y, c).tx
  {
    hide SetupOk, Reached, Under, Lead;
    if Party(y, c).rx.phase.Success? {
      more, z := acts, y;
    } else {
      more, z := ReadAll(k, acts, y, c);
    }
  }

  ghost predicate BothPositive(k: Setup) {
    k.offer.sizes.send > 0 && k.offer.sizes.recv > 0
  }

  /** Sizes that fit together: positive in both directions, or not given at all. */
  ghost predicate Paired(k: Setup) {
    BothPositive(k) || Unset(k)
  }

  /** Further wanted events bring both ends to success. */
  ghost predicate CanFinish(k: Setup, acts: seq<Act>) {
    exists more: seq<Act>, z: Sys :: Finishes(k, acts, more, z)
  }

  ghost predicate Finishes(k: Setup, acts: seq<Act>, more: seq<Act>, z: Sys) {
    acts <= more && Reached(k, more, z) && Done(z.c) && Done(z.s)
  }

  // ---- Positive sizes ----

  /** An end that has written all before its footer: its peer, once it has read that, may write its own. */
  lemma AllButFooter(k: Setup, y: Sys, c: bool, up: string, down: string)
    requires SetupOk(k) && Inv(k, y, up, down) && BothPositive(k) && !Party(y, !c).tx.state.Command?
    requires Party(y, c).tx.state.SendFooter? || Party(y, c).tx.state.Sent?
    requires OutPipe(y, c).got == OutPipe(y, c).sent || Party(y, !c).rx.phase.Success?
    ensures var o := Party(y, !c);
            Receipt(o) && o.rx.checksumSeen && !o.tx.state.Unstarted? && (Party(y, c).tx.state.Sent? ==> o.rx.phase.Success?)
  {
    hide Sends, Reads, Lead, Text, SetupOk, Marked;
    Position(k, Party(y, c), c, OutPipe(y, c), InPipe(y, c), if c then up else down);
    Reading(k, y, !c, up, down);
    StartedBy(k, y, !c, up, down);
    MarkedBeyondLead(k, c, PeerBody(k, !c, up, down));
  }

  lemma StartedBy(k: Setup, y: Sys, c: bool, up: string, down: string)
    requires Inv(k, y, up, down)
    ensures !(Party(y, c).tx.state.Unstarted? && (c || Party(y, c).rx.cue != Cue.Nothing))
    ensures Party(y, c).tx.state.Command? ==> c
  {
    hide Reads, Lead, Walked;
  }

  lemma MarkedBeyondLead(k: Setup, c: bool, body: string)
    ensures |Lead(k, c)| <= Marked(k, c, body) <= |Text(k, c, body)|
  {
  }

  /** First the commander's payload, then the server to its end, then the commander to its end. */
  lemma FinishPositive(k: Setup, acts: seq<Act>, y: Sys, N: nat, width: nat) returns (more: seq<Act>, z: Sys)
    requires SetupOk(k) && WalkOk(k.model, N, width) && Reached(k, acts, y) && BothPositive(k)
    ensures Finishes(k, acts, more, z)
  {
    hide SetupOk, WalkOk, Reached, Inv, Lead;
    more, z := acts, y;
    var up, down := Keeps(k, more, z);
    StartedBy(k, z, true, up, down);
    if !z.c.tx.state.SendFooter? {
      more, z := Settles(k, more, z, true, N, width);
    }
    up, down := Keeps(k, more, z);
    StartedBy(k, z, false, up, down);
    more, z := ReadsUp(k, more, z, false);
    up, down := Keeps(k, more, z);
    StartedBy(k, z, false, up, down);
    AllButFooter(k, z, true, up, down);
    more, z := Settles(k, more, z, false, N, width);
    more, z := ReadsUp(k, more, z, true);
    up, down := Keeps(k, more, z);
    AllButFooter(k, z, false, up, down);
    more, z := Settles(k, more, z, true, N, width);
    more, z := ReadsUp(k, more, z, false);
    up, down := Keeps(k, more, z);
    StartedBy(k, z, false, up, down);
    AllButFooter(k, z, true, up, down);
  }

  // ---- No sizes ----

  /** A started end whose peer has sent everything reads it and meets its end. */
  lemma ReadsToEnd(k: Setup, acts: seq<Act>, y: Sys, c: bool) returns (more: seq<Act>, z: Sys)
    requires SetupOk(k) && Reached(k, acts, y) && Unset(k) && Party(y, !c).tx.state.Sent? && !Party(y, c).tx.state.Command?
    ensures Reached(k, more, z) && acts <= more && Party(z, !c) == Party(y, !c) && OutPipe(z, c) == OutPipe(y, c)
    ensures Party(z, c).rx.phase.Success? && !Party(z, c).tx.state.Unstarted? && !Party(z, c).tx.state.Command?
    ensures Party(y, c).tx.state.Sent? ==> Party(z, c).tx.state.Sent?
  {
    hide SetupOk, Reached, Inv, Asked, Lead, Ended;
    var up, down := Keeps(k, acts, y);
    StartedBy(k, y, c, up, down);
    more, z := ReadsUp(k, acts, y, c);
    up, down := Keeps(k, more, z);
    EndedNow(k, more, z, c);
    StartedHere(k, z, c, up, down);
    if !Party(z, c).rx.phase.Success? {
      EndOfUnknown(k, z, c, up, down);
      ListenerAsks(z, c, 0);
      more := NextReached(k, more, z, MeetEnd(c));
      z := Do(k.env, z, MeetEnd(c));
    }
  }

  /** An end that has read all that a finished peer has sent, or is done reading, has been started. */
  lemma StartedHere(k: Setup, y: Sys, c: bool, up: string, down: string)
    requires SetupOk(k) && Inv(k, y, up, down) && Unset(k) && Party(y, !c).tx.state.Sent? && Ended(y, c)
    requires InPipe(y, c).got == InPipe(y, c).sent || Party(y, c).rx.phase.Success?
    ensures !Party(y, c).tx.state.Unstarted? && (Party(y, c).tx.state.Command? ==> c)
  {
    hide Inv, SetupOk, Lead;
    StartedBy(k, y, c, up, down);
    if Party(y, c).tx.state.Unstarted? {
      CommandOut(k, y, up, down);
    }
  }

  lemma FinishUnset(k: Setup, acts: seq<Act>, y: Sys, N: nat, width: nat) returns (more: seq<Act>, z: Sys)
    requires SetupOk(k) && WalkOk(k.model, N, width) && Reached(k, acts, y) && Unset(k)
    ensures Finishes(k, acts, more, z)
  {
    hide SetupOk, WalkOk, Reached, Inv, Lead;
    more, z := acts, y;
    var up, down := Keeps(k, more, z);
    StartedBy(k, z, true, up, down);
    NoFooterState(k, more, z, true);
    PeerSizes(k, z, false, up, down);
    more, z := Settles(k, more, z, true, N, width);
    up, down := Keeps(k, more, z);
    StartedBy(k, z, false, up, down);
    PeerSizes(k, z, false, up, down);
    more, z := ReadsToEnd(k, more, z, false);
    up, down := Keeps(k, more, z);
    NoFooterState(k, more, z, false);
    more, z := Settles(k, more, z, false, N, width);
    up, down := Keeps(k, more, z);
    PeerSizes(k, z, true, up, down);
    more, z := ReadsToEnd(k, more, z, true);
  }

  lemma NoFooterState(k: Setup, acts: seq<Act>, y: Sys, c: bool)
    requires SetupOk(k) && Reached(k, acts, y) && Unset(k)
    ensures !Party(y, c).tx.state.SendFooter?
  {
    hide SetupOk;
    UnsizedRuns(k, acts, c);
  }

  // ---- Mixed sizes ----

  /** Reading nothing changes nothing. */
  lemma ReadNothing(k: Setup, y: Sys, c: bool, up: string, down: string)
    requires Inv(k, y, up, down)
    ensures DoRead(k.env, y, c, 0) == y
  {
    hide Reads, Lead, SendForm, WalkedTo;
    var e, p := Party(y, c), InPipe(y, c);
    assert p.sent[|p.got|..|p.got| + 0] == "" && p.got + "" == p.got;
    RunNothing(k.env, e.rx);
  }

  /** Where nothing can go on, no wanted event changes anything. */
  lemma StuckStays(k: Setup, y: Sys, a: Act, up: string, down: string)
    requires Inv(k, y, up, down) && Asked(y, a) && forall capacity: nat :: !GoesOn(y, capacity)
    ensures Do(k.env, y, a) == y
  {
    hide Inv, WantedEvents, FinishReceiving, OnWritable, LoopEnds;
    var c, out := a.commander, OutPipe(y, a.commander);
    GotOfSent(k, y, !c, up, down);
    assert !GoesOn(y, |out.sent| + 1);
    if a.Read? && a.count == 0 { ReadNothing(k, y, c, up, down); }
  }

  lemma {:induction false} StuckForever(k: Setup, acts: seq<Act>, y: Sys, more: seq<Act>, z: Sys)
    requires SetupOk(k) && Reached(k, acts, y) && Reached(k, more, z) && acts <= more
    requires forall capacity: nat :: !GoesOn(y, capacity)
    ensures z == y
    decreases |more|
  {
    hide SetupOk, GoesOn, Inv, Asked, Do;
    if |more| > |acts| {
      var n := |more| - 1;
      var up, down := Keeps(k, acts, y);
      var x := ReachedBefore(k, more, z);
      StuckForever(k, acts, y, more[..n], x);
      StuckStays(k, y, more[n], up, down);
    } else {
      assert more == acts;
    }
  }

  /** The state before the last event of a run. */
  lemma ReachedBefore(k: Setup, acts: seq<Act>, y: Sys) returns (x: Sys)
    requires Reached(k, acts, y) && acts != []
    ensures Reached(k, acts[..|acts| - 1], x) && Asked(x, acts[|acts| - 1]) && y == Do(k.env, x, acts[|acts| - 1])
  {
    hide Do, Asked, Start;
    var n := |acts| - 1;
    x := Agreement.After(k, acts[..n]);
    assert AskedAt(k.env, Start(k), acts, n);
    forall i | 0 <= i < n ensures AskedAt(k.env, Start(k), acts[..n], i) {
      assert AskedAt(k.env, Start(k), acts, i) && acts[..n][..i] == acts[..i];
    }
  }

  /** Exactly when a stream can always still be finished, on a walk that finds its end and recurs across
      restarts: with positive sizes in both directions, or with no sizes at all. */
  lemma FinishesExactly(k: Setup, N: nat, width: nat)
    requires SetupOk(k) && WalkOk(k.model, N, width)
    ensures (forall acts: seq<Act>, y: Sys :: Reached(k, acts, y) ==> CanFinish(k, acts)) <==> Paired(k)
  {
    hide SetupOk, WalkOk, Reached, GoesOn;
    if Paired(k) {
      forall acts: seq<Act>, y: Sys | Reached(k, acts, y) ensures CanFinish(k, acts) {
        var more, z;
        if Unset(k) {
          more, z := FinishUnset(k, acts, y, N, width);
        } else {
          more, z := FinishPositive(k, acts, y, N, width);
        }
      }
    } else {
      var acts, y := MixedGetsStuck(k, N, width);
      NotBothDone(y);
      if CanFinish(k, acts) {
        var more: seq<Act>, z: Sys :| Finishes(k, acts, more, z);
        StuckForever(k, acts, y, more, z);
      }
    }
  }

  lemma NotBothDone(y: Sys)
    requires !GoesOn(y, 1)
    ensures !(Done(y.c) && Done(y.s))
  {
  }
}
