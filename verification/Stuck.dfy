/** Runs that get stuck: for every other combination of sizes there is one, made only of events that
    an end asks for. */
module Stuck {
  import opened Options
  import opened CStrings
  import opened Headers
  import opened Receiver
  import opened Sender
  import opened Script
  import opened Sending
  import opened Session
  import opened Agreement
  import opened Progress
  import P = Packets
  import Markov

  // ---- Runs of wanted events ----

  /** A new batch of this writable event, if there is one, is carried to the end of the packet loop. */
  predicate LoopEnds(e: End, r: Replies, d: Draw) {
    var f := FlushPayload(StageResponse(StageCommand(WithTx(e, e.tx.(barrier := 0)), r.command).end, r.response).end, r.leftover).end;
    f.tx.state.SendPayload? && f.tx.out == "" && f.rx.loaded.Some? && f.tx.walk.Some? && !DoneSending(f) ==>
      Complete(NextBatch(f, d.steps), BatchLimit(f))
  }

  /** The acting end asks for this event in this state. */
  predicate Asked(y: Sys, a: Act) {
    var w := WantedEvents(Party(y, a.commander));
    match a
    case Write(c, r, d) => (w.write || w.deferred) && LoopEnds(Party(y, c), r, d)
    case Read(_, _) => w.read
    case MeetEnd(_) => w.read
    case Conclude(_) => true
  }

  predicate AskedAt(env: Env, y: Sys, acts: seq<Act>, i: nat)
    requires i < |acts|
  {
    Asked(Execute(env, y, acts[..i]), acts[i])
  }

  /** A run from the start to y in which every event is asked for. */
  ghost predicate Reached(k: Setup, acts: seq<Act>, y: Sys) {
    Agreement.After(k, acts) == y && forall i :: 0 <= i < |acts| ==> AskedAt(k.env, Start(k), acts, i)
  }

  lemma NextReached(k: Setup, acts: seq<Act>, y: Sys, a: Act) returns (more: seq<Act>)
    requires Reached(k, acts, y) && Asked(y, a)
    ensures more == acts + [a] && Reached(k, more, Do(k.env, y, a))
  {
    hide Do, Asked, Start;
    more := acts + [a];
    assert more[..|acts|] == acts;
    forall i | 0 <= i < |more| ensures AskedAt(k.env, Start(k), more, i) {
      if i < |acts| {
        assert more[..i] == acts[..i] && AskedAt(k.env, Start(k), acts, i);
      }
    }
  }

  /** What every reached state keeps. */
  lemma Keeps(k: Setup, acts: seq<Act>, y: Sys) returns (up: string, down: string)
    requires SetupOk(k) && Reached(k, acts, y)
    ensures Inv(k, y, up, down)
  {
    hide Inv;
    up, down := RunInv(k, acts);
  }

  // ---- One writable event with everything accepted ----

  /** Every write is taken whole, the footer perhaps not at all. */
  function Takes(big: nat, block: bool): Replies {
    var a := Answer.Accepted(big);
    Replies(a, a, a, a, a, if block then Busy else a, a)
  }

  lemma PushWhole(e: End, text: string, big: nat)
    requires |text| <= big && |e.tx.out| <= big && text != ""
    ensures Push(e, text, Answer.Accepted(big)).end == WithTx(e, e.tx.(out := ""))
  {
  }

  /** A sender at the start of its payload, or about to get there. */
  predicate Under(e: End) {
    e.tx.out == "" && (e.tx.state.Command? || e.tx.state.Response? || e.tx.state.SendPayload?)
  }

  /** The command or the response is taken whole; no pause is left. */
  function Led(e: End): End {
    End(e.me, if e.tx.state.Command? then e.rx.(phase := Authenticate) else e.rx, e.tx.(state := SendPayload, barrier := 0))
  }

  function Big(e: End): nat {
    |CommandText(OfferOf(e))| + |ResponseText(e.me.host, NoError)| + 40000
  }

  lemma LeadTaken(e: End, block: bool)
    requires Under(e) && e.rx.error == NoError
    ensures var r := Takes(Big(e), block); var f := StageCommand(WithTx(e, e.tx.(barrier := 0)), r.command).end;
            StageResponse(f, r.response).end == Led(e)
  {
    hide CommandText, ResponseText, Push;
    var r, e0 := Takes(Big(e), block), WithTx(e, e.tx.(barrier := 0));
    CommandNotEmpty(OfferOf(e));
    ResponseNotEmpty(e.me.host, NoError);
    PushWhole(e0, CommandText(OfferOf(e)), Big(e));
    PushWhole(e0, ResponseText(e.me.host, NoError), Big(e));
  }

  /** The payload stage with everything accepted: on to the checksum, or one more batch written. */
  function AfterPayload(e: End, steps: nat): End
    requires e.rx.loaded.Some? && e.tx.walk.Some?
  {
    if DoneSending(e) then Goto(e, SendChecksum)
    else
      var f := LoadBatch(e, NextBatch(e, steps), Draw(steps, 'a', 0));
      WithTx(f, f.tx.(out := "", payload := f.tx.payload + |f.tx.out|))
  }

  lemma PayloadTaken(e: End, steps: nat, big: nat)
    requires e.tx.state.SendPayload? && e.tx.out == "" && e.rx.loaded.Some? && e.tx.walk.Some? && Markov.Sound(e.rx.loaded.value)
    requires big >= 40000
    ensures StagePayload(e, Answer.Accepted(big), Answer.Accepted(big), Draw(steps, 'a', 0)).end == AfterPayload(e, steps)
  {
    hide Gather, Letters, Markov.Sound;
    assert FlushPayload(e, Answer.Accepted(big)).end == e;
    if !DoneSending(e) {
      P.BatchBounds(e.rx.loaded.value, e.rx.commander, e.rx.info.sizes.send > 0, BatchLimit(e), e.tx.walk.value, steps);
    }
  }

  /** The stages behind the payload, everything but perhaps the footer accepted. */
  function Closed(e: End, block: bool): End {
    var z := e.rx.info.sizes;
    if !e.tx.state.SendChecksum? && !e.tx.state.SendFooter? then e
    else if !Known(z.send, z.sendZero) then Goto(e, Sent)
    else if !Receipt(e) then Goto(e, SendFooter)
    else if block then WithTx(e, e.tx.(state := SendFooter, out := FOOTER))
    else Goto(e, Sent)
  }

  lemma ClosingTaken(env: Env, e: End, big: nat, block: bool)
    requires DigestsOk(env) && big >= 40000 && e.tx.out == ""
    requires e.tx.state.SendPayload? || e.tx.state.SendChecksum? || e.tx.state.SendFooter?
    ensures Closing(env, e, Takes(big, block)).end == Closed(e, block)
  {
    hide Push, ChecksumText;
    var text, a := ChecksumText(env, e.tx.digested), Answer.Accepted(big);
    ChecksumNotEmpty(env, e.tx.digested);
    ChecksumShort(env, e.tx.digested);
    PushWhole(e, text, big);
    var f := Goto(e, SendFooter);
    PushWhole(f, FOOTER, big);
    assert Push(f, FOOTER, Busy).end == WithTx(f, f.tx.(out := FOOTER)) by { PushRefused(f, FOOTER); }
    assert StageChecksum(env, e, a).end == if e.tx.state.SendChecksum? then f else e;
    var g := StageFooter(f, Takes(big, block).footer).end;
    assert StageFlush(g, a).end == Closed(f, block);
  }

  lemma PushRefused(e: End, text: string)
    requires e.tx.out == ""
    ensures Push(e, text, Busy).end == WithTx(e, e.tx.(out := text))
  {
  }

  lemma ChecksumShort(env: Env, digested: string)
    requires DigestsOk(env)
    ensures |ChecksumText(env, digested)| == 37
  {
  }

  /** A whole event before the end of the payload. */
  lemma EventTaken(env: Env, e: End, steps: nat, block: bool)
    requires DigestsOk(env) && Under(e) && e.rx.error == NoError
    requires e.rx.loaded.Some? && e.tx.walk.Some? && Markov.Sound(e.rx.loaded.value)
    ensures OnWritable(env, e, Takes(Big(e), block), Draw(steps, 'a', 0)).end == Closed(AfterPayload(Led(e), steps), block)
  {
    hide StageCommand, StageResponse, StagePayload, Closing, CommandText, ResponseText, DigestsOk, Markov.Sound;
    LeadTaken(e, block);
    PayloadTaken(Led(e), steps, Big(e));
    PaidStates(Led(e), steps);
    ClosingTaken(env, AfterPayload(Led(e), steps), Big(e), block);
  }

  lemma PaidStates(e: End, steps: nat)
    requires e.rx.loaded.Some? && e.tx.walk.Some? && e.tx.state.SendPayload? && e.tx.out == ""
    ensures var f := AfterPayload(e, steps);
            f.tx.out == "" && f.tx.state == (if DoneSending(e) then SendChecksum else SendPayload) && f.rx == e.rx
  {
    hide NextBatch, Letters;
  }

  // ---- Writing until the end of the payload ----

  /** The walk finds its end after N observations, and across restarts every window of `width`
      observations holds a packet of either direction. */
  ghost predicate WalkOk(m: Markov.Model, N: nat, width: nat) {
    P.After(m, false, Markov.Begin(m), N).found &&
    P.Recurs(m, true, true, Markov.Begin(m), width) && P.Recurs(m, false, true, Markov.Begin(m), width)
  }

  /** A complete batch, and how many observations it consumed: at least one. */
  lemma BatchFrom(m: Markov.Model, c: bool, sized: bool, limit: nat, w: Markov.Walk, width: nat) returns (steps: nat, j: nat)
    requires Markov.Sound(m) && P.Recurs(m, c, sized, w, width) && limit > 0
    ensures var b := Gather(m, c, sized, limit, NewBatch(w), steps); Complete(b, limit) && P.Tallies(m, c, sized, w, b, j) && j > 0
  {
    hide Markov.Sound, P.Recurs, Observe, P.Tallies;
    var b := Observe(m, c, sized, NewBatch(w));
    StartTallies(m, c, sized, w);
    P.ObserveTallies(m, c, sized, w, NewBatch(w), 0);
    P.RecursLater(m, c, sized, w, width, 1);
    TalliesWalk(m, c, sized, w, b, 1);
    var rest := P.GatherStops(m, c, sized, limit, w, b, 1, width);
    j := P.GatherTallies(m, c, sized, limit, w, b, 1, rest);
    steps := rest + 1;
  }

  lemma TalliesWalk(m: Markov.Model, c: bool, sized: bool, w: Markov.Walk, b: Batch, n: nat)
    requires P.Tallies(m, c, sized, w, b, n)
    ensures b.walk == P.After(m, sized, w, n) && b.sends == P.Count(P.Trace(m, sized, w, n), Own(c)) && b.size == PACKET * b.sends
  {
  }

  /** A walk without sizes that finds its end advances in every window. */
  lemma EndRecurs(m: Markov.Model, c: bool, N: nat)
    requires P.After(m, false, Markov.Begin(m), N).found && N > 0
    ensures P.Recurs(m, c, false, Markov.Begin(m), N + 1)
  {
    hide P.SeenAt;
    var w, width := Markov.Begin(m), N + 1;
    forall n: nat ensures P.AdvancesWithin(m, c, false, w, n, width) {
      var i := if n < N then N else n;
      P.FoundStays(m, w, N, i);
      P.FoundNext(m, P.After(m, false, w, i));
      assert P.Advances(c, false, P.SeenAt(m, P.After(m, false, w, i)).obs);
    }
  }

  /** The observation that a sender's loop is heading for. */
  ghost predicate Aims(m: Markov.Model, c: bool, sized: bool, n: nat, i: nat) {
    n <= i &&
    if sized then P.SeenAt(m, P.After(m, true, Markov.Begin(m), i)).obs == Own(c)
    else P.After(m, false, Markov.Begin(m), i).found
  }

  lemma NextAim(m: Markov.Model, c: bool, n: nat, width: nat) returns (i: nat)
    requires P.Recurs(m, c, true, Markov.Begin(m), width)
    ensures n <= i && Aims(m, c, true, n, i)
  {
    hide P.SeenAt, P.After;
    assert P.AdvancesWithin(m, c, true, Markov.Begin(m), n, width);
    i :| n <= i < n + width && P.Advances(c, true, P.SeenAt(m, P.After(m, true, Markov.Begin(m), i)).obs);
  }

  /** A batch that passes its aim holds a packet. */
  lemma PassedAim(m: Markov.Model, c: bool, n: nat, i: nat, j: nat)
    requires Aims(m, c, true, n, i) && i < n + j
    ensures P.Count(P.Trace(m, true, P.After(m, true, Markov.Begin(m), n), j), Own(c)) > 0
  {
    hide P.SeenAt, P.After, P.Count, P.Trace;
    var w := P.After(m, true, Markov.Begin(m), n);
    P.AfterAdd(m, true, Markov.Begin(m), n, i - n);
    P.TraceAt(m, true, w, j, i - n);
    P.CountPositive(P.Trace(m, true, w, j), Own(c), i - n);
  }

  /** A walk of unknown size that is not over is before its aim. */
  lemma BeforeAim(m: Markov.Model, c: bool, n: nat, i: nat)
    requires Aims(m, c, false, n, i) && !P.After(m, false, Markov.Begin(m), n).found
    ensures n < i
  {
  }

  ghost predicate WalksAt(m: Markov.Model, e: End, n: nat) {
    e.tx.walk == Some(P.After(m, e.rx.info.sizes.send > 0, Markov.Begin(m), n))
  }

  /** What the sender's loop has left to do. */
  function Left(e: End): nat {
    if e.rx.info.sizes.send > e.tx.payload then e.rx.info.sizes.send - e.tx.payload else 0
  }

  /** One complete batch: less payload left, or closer to the aim. */
  lemma BatchStep(m: Markov.Model, e: End, n: nat, i: nat, N: nat, width: nat) returns (steps: nat, n': nat, i': nat)
    requires Markov.Sound(m) && WalkOk(m, N, width) && e.tx.state.SendPayload? && e.rx.loaded == Some(m) && !DoneSending(e)
    requires e.tx.walk.Some? && WalksAt(m, e, n) && Aims(m, e.rx.commander, e.rx.info.sizes.send > 0, n, i)
    ensures var f := AfterPayload(e, steps);
            WalksAt(m, f, n') && n' <= i' && Aims(m, e.rx.commander, e.rx.info.sizes.send > 0, n', i') &&
            (Left(f) < Left(e) || (Left(f) == Left(e) && i' - n' < i - n)) && Complete(NextBatch(e, steps), BatchLimit(e))
  {
    hide Markov.Sound, P.After, P.Trace, P.Count, P.Recurs, Gather, P.Tallies, Aims, Letters;
    var c, sized, w, start := e.rx.commander, e.rx.info.sizes.send > 0, e.tx.walk.value, Markov.Begin(m);
    var j;
    if sized {
      P.RecursLater(m, c, true, start, width, n);
      steps, j := BatchFrom(m, c, true, BatchLimit(e), w, width);
    } else {
      AimFound(m, c, n, i);
      BeforeAim(m, c, n, i);
      EndRecurs(m, c, i);
      P.RecursLater(m, c, false, start, i + 1, n);
      steps, j := BatchFrom(m, c, false, BatchLimit(e), w, i + 1);
    }
    TalliesWalk(m, c, sized, w, NextBatch(e, steps), j);
    P.AfterAdd(m, sized, start, n, j);
    n', i' := n + j, i;
    if n + j > i {
      if sized {
        PassedAim(m, c, n, i, j);
        i' := NextAim(m, c, n + j, width);
      } else {
        P.FoundStays(m, start, i, n + j);
        n' := i;
        assert Aims(m, c, false, n', i') by { AimHere(m, c, i); }
      }
    } else {
      AimLater(m, c, sized, n, n + j, i);
    }
  }

  lemma AimFound(m: Markov.Model, c: bool, n: nat, i: nat)
    requires Aims(m, c, false, n, i)
    ensures P.After(m, false, Markov.Begin(m), i).found
  {
  }

  lemma AimHere(m: Markov.Model, c: bool, i: nat)
    requires P.After(m, false, Markov.Begin(m), i).found
    ensures Aims(m, c, false, i, i)
  {
  }

  lemma AimLater(m: Markov.Model, c: bool, sized: bool, n: nat, n': nat, i: nat)
    requires Aims(m, c, sized, n, i) && n' <= i
    ensures Aims(m, c, sized, n', i)
  {
  }

  // ---- Running one end until its payload is over ----

  /** Only one end has acted, and only by writing. */
  ghost predicate Beside(y: Sys, z: Sys, c: bool) {
    Party(z, !c) == Party(y, !c) && InPipe(z, c) == InPipe(y, c) && OutPipe(z, c).got == OutPipe(y, c).got
  }

  lemma WritesOn(k: Setup, acts: seq<Act>, y: Sys, c: bool, r: Replies, d: Draw) returns (more: seq<Act>, z: Sys)
    requires Reached(k, acts, y) && Lossless(r) && Asked(y, Write(c, r, d))
    ensures Reached(k, more, z) && acts <= more && Beside(y, z, c) && z == DoWrite(k.env, y, c, r, d)
    ensures Party(z, c) == OnWritable(k.env, Party(y, c), r, d).end
    ensures |OutPipe(z, c).sent| == |OutPipe(y, c).sent| + |OnWritable(k.env, Party(y, c), r, d).wrote|
  {
    hide OnWritable, Reached, Asked;
    more := NextReached(k, acts, y, Write(c, r, d));
    z := DoWrite(k.env, y, c, r, d);
  }

  lemma UnderAsks(y: Sys, c: bool, r: Replies, d: Draw)
    requires Under(Party(y, c)) && Party(y, c).rx.error == NoError && LoopEnds(Party(y, c), r, d)
    ensures Asked(y, Write(c, r, d))
  {
    hide LoopEnds;
  }

  /** The event of EventTaken is carried to the end of the packet loop. */
  lemma EventEnds(e: End, steps: nat, block: bool)
    requires Under(e) && e.rx.error == NoError && e.rx.loaded.Some? && e.tx.walk.Some?
    requires DoneSending(Led(e)) || Complete(NextBatch(Led(e), steps), BatchLimit(Led(e)))
    ensures LoopEnds(e, Takes(Big(e), block), Draw(steps, 'a', 0))
  {
    hide StageCommand, StageResponse, CommandText, ResponseText, NextBatch, BatchLimit, DoneSending;
    LeadTaken(e, block);
    assert FlushPayload(Led(e), Takes(Big(e), block).leftover).end == Led(e);
  }

  /** What holds of a started end. */
  lemma Started(k: Setup, y: Sys, c: bool, up: string, down: string)
    requires SetupOk(k) && Inv(k, y, up, down) && !Party(y, c).tx.state.Unstarted?
    ensures var e := Party(y, c);
            e.rx.error == NoError && e.rx.loaded == Some(k.model) && e.tx.walk.Some? && e.rx.commander == c &&
            e.rx.info.sizes == SizesFor(k, c) && Markov.Sound(k.model) && DigestsOk(k.env) && SizesOk(k.offer.sizes)
    ensures exists n: nat :: WalksAt(k.model, Party(y, c), n)
  {
    hide Reads, Lead, SendForm, Markov.Sound, DigestsOk, P.After, P.Trace, P.Count;
    SendsReady(k, Party(y, c), Lead(k, c), OutPipe(y, c).sent, if c then up else down);
    var n := CountOf(k, y, c, up, down);
    assert WalksAt(k.model, Party(y, c), n);
  }

  /** Where a sender comes to rest. */
  ghost predicate Rests(e: End, f: End, block: bool) {
    var z := e.rx.info.sizes;
    f.rx == Led(e).rx && f.tx.state == (if !Known(z.send, z.sendZero) || (Receipt(Led(e)) && !block) then Sent else SendFooter) &&
    (!block ==> f.tx.out == "")
  }

  lemma RestsAtOnce(e: End, steps: nat, block: bool)
    requires Under(e) && e.rx.loaded.Some? && e.tx.walk.Some? && DoneSending(Led(e))
    ensures Rests(e, Closed(AfterPayload(Led(e), steps), block), block)
  {
  }

  lemma GoesOnSending(e: End, steps: nat, block: bool)
    requires Under(e) && e.rx.loaded.Some? && e.tx.walk.Some? && !DoneSending(Led(e))
    ensures var f := Closed(AfterPayload(Led(e), steps), block);
            f == AfterPayload(Led(e), steps) && Under(f) && f.tx.state.SendPayload? && f.rx == Led(e).rx && Led(f).rx == f.rx
  {
    hide NextBatch, Letters, DoneSending;
  }

  lemma RestsLater(e: End, f: End, g: End, block: bool)
    requires f.rx == Led(e).rx && Led(f).rx == f.rx && Rests(f, g, block)
    ensures Rests(e, g, block)
  {
  }

  /** A sender in its payload, with the observation that it is heading for. */
  ghost predicate Heading(k: Setup, e: End, c: bool, n: nat, i: nat) {
    n <= i && WalksAt(k.model, e, n) && Aims(k.model, c, SizesFor(k, c).send > 0, n, i)
  }

  /** Whether an end is at the end of its payload, or how its next batch brings it closer. */
  ghost predicate Closer(k: Setup, e: End, f: End, c: bool, block: bool, n: nat, i: nat, n': nat, i': nat) {
    Rests(e, f, block) ||
    (Under(f) && f.tx.state.SendPayload? && f.rx == Led(e).rx && Led(f).rx == f.rx && Heading(k, f, c, n', i') &&
     (Left(f) < Left(e) || (Left(f) == Left(e) && i' - n' < i - n)))
  }

  /** One event with everything accepted. */
  lemma PumpOnce(k: Setup, acts: seq<Act>, y: Sys, c: bool, block: bool, n: nat, i: nat, N: nat, width: nat)
    returns (more: seq<Act>, z: Sys, n': nat, i': nat)
    requires SetupOk(k) && WalkOk(k.model, N, width) && Reached(k, acts, y) && Under(Party(y, c)) && Heading(k, Party(y, c), c, n, i)
    ensures Reached(k, more, z) && acts <= more && Beside(y, z, c) && Closer(k, Party(y, c), Party(z, c), c, block, n, i, n', i')
  {
    hide SetupOk, WalkOk, Reached, Asked, Markov.Sound, DigestsOk, OnWritable, Aims, WalksAt, P.After, AfterPayload, Closed, Inv, Rests,
      DoneSending, CommandText, ResponseText, NextBatch, BatchLimit, DoWrite, SizesOk;
    var e := Party(y, c);
    var up, down := Keeps(k, acts, y);
    Started(k, y, c, up, down);
    var steps := 0;
    n', i' := n, i;
    if !DoneSending(Led(e)) {
      LedSame(k.model, e, n);
      steps, n', i' := BatchStep(k.model, Led(e), n, i, N, width);
      GoesOnSending(e, steps, block);
    } else {
      RestsAtOnce(e, steps, block);
    }
    var r, d := Takes(Big(e), block), Draw(steps, 'a', 0);
    EventEnds(e, steps, block);
    UnderAsks(y, c, r, d);
    EventTaken(k.env, e, steps, block);
    more, z := WritesOn(k, acts, y, c, r, d);
  }

  /** An end writes on until its payload is over. */
  lemma {:induction false} Pump(
    k: Setup, acts: seq<Act>, y: Sys, c: bool, block: bool, n: nat, i: nat, N: nat, width: nat) returns (more: seq<Act>, z: Sys)
    requires SetupOk(k) && WalkOk(k.model, N, width) && Reached(k, acts, y) && Under(Party(y, c))
    requires n <= i && Heading(k, Party(y, c), c, n, i)
    ensures Reached(k, more, z) && acts <= more && Beside(y, z, c) && Rests(Party(y, c), Party(z, c), block)
    decreases Left(Party(y, c)), i - n
  {
    hide SetupOk, WalkOk, Reached, Heading, Rests, Led, Under;
    var n', i';
    more, z, n', i' := PumpOnce(k, acts, y, c, block, n, i, N, width);
    if !Rests(Party(y, c), Party(z, c), block) {
      var f, y1 := Party(z, c), z;
      HeadingOn(k, f, c, n', i');
      more, z := Pump(k, more, y1, c, block, n', i', N, width);
      RestsLater(Party(y, c), f, Party(z, c), block);
    }
  }

  lemma HeadingOn(k: Setup, e: End, c: bool, n: nat, i: nat)
    requires Heading(k, e, c, n, i)
    ensures n <= i
  {
  }

  lemma LedSame(m: Markov.Model, e: End, n: nat)
    requires WalksAt(m, e, n)
    ensures WalksAt(m, Led(e), n) && Left(Led(e)) == Left(e)
  {
  }

  /** What the packet loop is heading for from any position. */
  lemma SomeAim(k: Setup, c: bool, n: nat, N: nat, width: nat) returns (i: nat)
    requires WalkOk(k.model, N, width)
    ensures n <= i && Aims(k.model, c, SizesFor(k, c).send > 0, n, i)
  {
    hide P.After, P.Recurs, Aims;
    if SizesFor(k, c).send > 0 {
      i := NextAim(k.model, c, n, width);
    } else {
      i := if n < N then N else n;
      P.FoundStays(k.model, Markov.Begin(k.model), N, i);
      AimHere(k.model, c, i);
      AimEarlier(k.model, c, n, i);
    }
  }

  /** The same from wherever the walk is. */
  lemma PumpOn(k: Setup, acts: seq<Act>, y: Sys, c: bool, block: bool, N: nat, width: nat) returns (more: seq<Act>, z: Sys)
    requires SetupOk(k) && WalkOk(k.model, N, width) && Reached(k, acts, y) && Under(Party(y, c))
    ensures Reached(k, more, z) && acts <= more && Beside(y, z, c) && Rests(Party(y, c), Party(z, c), block)
  {
    hide SetupOk, WalkOk, Reached, Markov.Sound, DigestsOk, WalksAt, Inv, Rests, Aims;
    var up, down := Keeps(k, acts, y);
    Started(k, y, c, up, down);
    var n: nat :| WalksAt(k.model, Party(y, c), n);
    var i := SomeAim(k, c, n, N, width);
    assert Heading(k, Party(y, c), c, n, i);
    more, z := Pump(k, acts, y, c, block, n, i, N, width);
  }

  lemma AimEarlier(m: Markov.Model, c: bool, n: nat, i: nat)
    requires Aims(m, c, false, i, i) && n <= i
    ensures Aims(m, c, false, n, i)
  {
  }

  // ---- Reading everything that is there ----

  lemma ListenerAsks(y: Sys, c: bool, n: nat)
    requires var rx := Party(y, c).rx; rx.error == NoError && !Stopped(rx.phase)
    ensures Asked(y, Read(c, n)) && Asked(y, MeetEnd(c))
  {
  }

  /** An end reads all that its peer has written: it keeps its sender, or is started by the command. */
  lemma ReadAll(k: Setup, acts: seq<Act>, y: Sys, c: bool) returns (more: seq<Act>, z: Sys)
    requires SetupOk(k) && Reached(k, acts, y) && !Party(y, c).tx.state.Command? && !Party(y, c).rx.phase.Success?
    ensures Reached(k, more, z) && acts <= more && Party(z, !c) == Party(y, !c) && OutPipe(z, c) == OutPipe(y, c)
    ensures InPipe(z, c).sent == InPipe(y, c).sent && InPipe(z, c).got == InPipe(z, c).sent
    ensures !Party(y, c).tx.state.Unstarted? ==> Party(z, c).tx == Party(y, c).tx
    ensures Party(y, c).tx.state.Unstarted? && |InPipe(y, c).sent| >= |Lead(k, !c)| ==> Under(Party(z, c)) && Party(z, c).tx.state.Response?
  {
    hide SetupOk, Reached, Asked, Inv, Run, Lead, Stands;
    var up, down := Keeps(k, acts, y);
    var r := StandsNow(k, y, c, up, down);
    GotOfSent(k, y, !c, up, down);
    var p := InPipe(y, c);
    var n := |p.sent| - |p.got|;
    ListenerAsks(y, c, n);
    more := NextReached(k, acts, y, Read(c, n));
    z := DoRead(k.env, y, c, n);
    assert p.got + p.sent[|p.got|..|p.got| + n] == p.sent;
    ReadDone(k, y, c, n, up, down);
    if !Party(y, c).tx.state.Unstarted? {
      Started(k, y, c, up, down);
      CueNow(k, y, c, up, down);
    } else {
      UnstartedFacts(k, y, c, up, down);
    }
    ReadingKeepsCommand(k, y, c, n, up, down);
    CueNow(k, z, c, up, down);
  }

  /** What an end has been told, by what it has read. */
  lemma CueNow(k: Setup, y: Sys, c: bool, up: string, down: string)
    requires SetupOk(k) && Inv(k, y, up, down) && !Party(y, c).tx.state.Command?
    ensures Party(y, c).rx.cue == (if |InPipe(y, c).got| < |Lead(k, !c)| || c then Cue.Nothing else Respond)
    ensures !c && !Party(y, c).tx.state.Unstarted? ==> Party(y, c).rx.cue == Respond
  {
    hide Sends, Run, Lead, Stands;
    var r := StandsNow(k, y, c, up, down);
  }

  lemma UnstartedFacts(k: Setup, y: Sys, c: bool, up: string, down: string)
    requires Inv(k, y, up, down) && Party(y, c).tx.state.Unstarted?
    ensures !c && Party(y, c).tx.out == "" && Party(y, c).rx.cue == Cue.Nothing && Party(y, c).tx.walk.None?
  {
    hide Reads, Lead, WalkedTo;
  }

  lemma ReadingKeepsCommand(k: Setup, y: Sys, c: bool, n: nat, up: string, down: string)
    requires Inv(k, y, up, down) && !Party(y, c).tx.state.Command? && |InPipe(y, c).got| + n <= |InPipe(y, c).sent|
    ensures !Party(DoRead(k.env, y, c, n), c).tx.state.Command?
    ensures !Party(y, c).tx.state.Unstarted? && Party(DoRead(k.env, y, c, n), c).tx.state.Unstarted? ==> false
  {
    hide Sends, Reads, Run, Lead;
  }

  // ---- The blocked end ----

  /** An end that must wait for all of its peer before its footer, and sees no checksum to tell it. */
  predicate Blocked(k: Setup, c: bool) {
    var z := SizesFor(k, c);
    Known(z.send, z.sendZero) && z.recv == 0
  }

  /** Everything has been said, and the blocked end asks for nothing any more. */
  ghost predicate Silence(y: Sys, c: bool) {
    Party(y, c).tx.state.SendFooter? && Party(y, c).rx.phase.Success? && Party(y, !c).tx.state.Sent? &&
    InPipe(y, c).got == InPipe(y, c).sent && OutPipe(y, c).got == OutPipe(y, c).sent
  }

  /** Silence is a deadlock, however much room the pipes have. */
  lemma SilenceIsStuck(k: Setup, acts: seq<Act>, y: Sys, c: bool, capacity: nat)
    requires SetupOk(k) && Blocked(k, c) && Reached(k, acts, y) && Silence(y, c)
    ensures !GoesOn(y, capacity)
  {
    hide SetupOk, Inv, Asked;
    var up, down := Keeps(k, acts, y);
    UnseenChecksum(k, y, c, up, down);
    NoErrors(k, acts, true);
    NoErrors(k, acts, false);
    PeerSizes(k, y, c, up, down);
  }

  lemma PeerSizes(k: Setup, y: Sys, c: bool, up: string, down: string)
    requires SetupOk(k) && Inv(k, y, up, down) && !Party(y, !c).tx.state.Unstarted?
    ensures Party(y, !c).rx.info.sizes == SizesFor(k, !c)
  {
    hide Sends, Reads, Lead;
  }

  /** The blocked end has written everything but its footer; its peer has still to read that. */
  lemma FooterMissing(k: Setup, y: Sys, c: bool, up: string, down: string)
    requires SetupOk(k) && Inv(k, y, up, down) && Blocked(k, c) && Party(y, c).tx.state.SendFooter? && !Party(y, !c).tx.state.Command?
    ensures !Party(y, !c).rx.phase.Success?
    ensures OutPipe(y, c).got == OutPipe(y, c).sent ==>
              Receipt(Party(y, !c)) && (SizesFor(k, !c).recv > 0 ==> Party(y, !c).rx.checksumSeen)
    ensures |OutPipe(y, c).sent| >= |Lead(k, c)|
  {
    hide Sends, Reads, Lead, Text, SetupOk;
    Position(k, Party(y, c), c, OutPipe(y, c), InPipe(y, c), if c then up else down);
    Reading(k, y, !c, up, down);
  }

  /** The peer of a waiting end, all of whose bytes it has read, writes its last bytes. */
  lemma PeerFinishes(k: Setup, acts: seq<Act>, y: Sys, c: bool, N: nat, width: nat) returns (more: seq<Act>, z: Sys)
    requires SetupOk(k) && WalkOk(k.model, N, width) && Reached(k, acts, y) && Blocked(k, c) && Party(y, c).tx.state.SendFooter?
    requires OutPipe(y, c).got == OutPipe(y, c).sent
    requires var o := Party(y, !c);
             (Under(o) && !o.tx.state.Command?) || o.tx.state.Sent? ||
             (o.tx.state.SendFooter? && o.tx.out == "" && SizesFor(k, !c).recv > 0)
    ensures Reached(k, more, z) && Beside(y, z, !c) && Party(z, !c).tx.state.Sent?
  {
    hide SetupOk, Reached, WalkOk, Inv, Asked;
    var up, down := Keeps(k, acts, y);
    FooterMissing(k, y, c, up, down);
    if Under(Party(y, !c)) {
      more, z := PumpOn(k, acts, y, !c, false, N, width);
    } else if Party(y, !c).tx.state.SendFooter? {
      Started(k, y, !c, up, down);
      var r, d := Takes(40000, false), Draw(0, 'a', 0);
      FooterAsks(y, !c, r, d);
      FooterTaken(k.env, Party(y, !c), d);
      more, z := WritesOn(k, acts, y, !c, r, d);
    } else {
      more, z := acts, y;
    }
  }

  lemma FooterAsks(y: Sys, c: bool, r: Replies, d: Draw)
    requires Party(y, c).tx.state.SendFooter? && Party(y, c).rx.checksumSeen && Party(y, c).rx.error == NoError
    ensures Asked(y, Write(c, r, d))
  {
    hide Gather;
  }

  lemma FooterTaken(env: Env, e: End, d: Draw)
    requires DigestsOk(env) && e.tx.state.SendFooter? && e.tx.out == "" && Receipt(e)
    ensures OnWritable(env, e, Takes(40000, false), d).end.tx.state.Sent?
  {
    hide Closing;
    ClosingTaken(env, WithTx(e, e.tx.(barrier := 0)), 40000, false);
  }

  /** The waiting end reads what its peer has written, and meets its end. */
  lemma LastReads(k: Setup, acts: seq<Act>, y: Sys, c: bool) returns (more: seq<Act>, z: Sys)
    requires SetupOk(k) && Reached(k, acts, y) && Blocked(k, c) && Party(y, c).tx.state.SendFooter? && Party(y, !c).tx.state.Sent?
    requires OutPipe(y, c).got == OutPipe(y, c).sent
    ensures Reached(k, more, z) && Silence(z, c)
  {
    hide SetupOk, Reached, Inv, Asked, WantedEvents, Ended;
    more, z := acts, y;
    if !Party(y, c).rx.phase.Success? {
      more, z := ReadAll(k, acts, y, c);
    }
    AllSaid(k, more, z, c);
    if !Party(z, c).rx.phase.Success? {
      var up, down := Keeps(k, more, z);
      EndOfUnknown(k, z, c, up, down);
      ListenerAsks(z, c, 0);
      more := NextReached(k, more, z, MeetEnd(c));
      z := Do(k.env, z, MeetEnd(c));
    }
  }

  /** A waiting end whose peer has sent all and that is done reading, or has read all. */
  lemma AllSaid(k: Setup, acts: seq<Act>, y: Sys, c: bool)
    requires SetupOk(k) && Reached(k, acts, y) && Blocked(k, c) && Party(y, c).tx.state.SendFooter? && Party(y, !c).tx.state.Sent?
    requires InPipe(y, c).got == InPipe(y, c).sent || Party(y, c).rx.phase.Success?
    ensures InPipe(y, c).got == InPipe(y, c).sent
    ensures !Party(y, c).rx.phase.Success? ==> !Known(SizesFor(k, c).recv, SizesFor(k, c).recvZero)
  {
    hide SetupOk, Reached, Inv, Text, Marked, Lead;
    var up, down := Keeps(k, acts, y);
    if Known(SizesFor(k, c).recv, SizesFor(k, c).recvZero) {
      Reading(k, y, c, up, down);
      SentAll(k, y, !c, up, down);
      GotOfSent(k, y, !c, up, down);
    } else {
      EndedNow(k, acts, y, c);
    }
  }

  lemma EndedNow(k: Setup, acts: seq<Act>, y: Sys, c: bool)
    requires SetupOk(k) && Reached(k, acts, y) && !Known(SizesFor(k, c).recv, SizesFor(k, c).recvZero)
    ensures Ended(y, c)
  {
    hide SetupOk, Ended;
    RunEnded(k, acts, c);
  }

  lemma SentAll(k: Setup, y: Sys, c: bool, up: string, down: string)
    requires SetupOk(k) && Inv(k, y, up, down) && Known(SizesFor(k, c).send, SizesFor(k, c).sendZero) && Party(y, c).tx.state.Sent?
    ensures |OutPipe(y, c).sent| == |Text(k, c, PeerBody(k, !c, up, down))|
  {
    hide Lead, Text, Marked, SetupOk;
    Position(k, Party(y, c), c, OutPipe(y, c), InPipe(y, c), if c then up else down);
  }

  /** All bytes of an unknown number are read: only the end of file is missing. */
  lemma EndOfUnknown(k: Setup, y: Sys, c: bool, up: string, down: string)
    requires SetupOk(k) && Inv(k, y, up, down) && !Known(SizesFor(k, c).recv, SizesFor(k, c).recvZero)
    requires Party(y, !c).tx.state.Sent? && InPipe(y, c).got == InPipe(y, c).sent
    requires !Party(y, c).rx.phase.Success? && !Party(y, c).tx.state.Command? && !Party(y, c).tx.state.Unstarted?
    ensures var e := Party(y, c);
            e.rx.error == NoError && !Stopped(e.rx.phase) && Absorb(e, Eof(e.rx)) == e.(rx := e.rx.(phase := Success, line := ""))
  {
    hide Sends, Run, Lead, Text, Stands;
    var r := StandsNow(k, y, c, up, down);
    UnknownPosition(k, Party(y, !c), !c, InPipe(y, c), OutPipe(y, c), if c then down else up);
    AllRead(k, c, PeerBody(k, c, up, down), r);
    StandFacts(k, c, PeerBody(k, c, up, down), |InPipe(y, c).got|, r);
    Started(k, y, c, up, down);
    LeadWithin(k, !c, PeerBody(k, c, up, down));
    EofOfUnknown(r);
  }

  lemma LeadWithin(k: Setup, c: bool, body: string)
    ensures |Lead(k, c)| <= |Text(k, c, body)|
  {
  }

  // ---- The stuck runs ----

  /** Sizes for which some end is blocked, and which one: all but the two matched combinations. */
  predicate Mixed(k: Setup) {
    var z := k.offer.sizes;
    !(z.send > 0 && z.recv > 0) && z != Sizes(0, false, 0, false)
  }

  lemma SomeoneBlocked(k: Setup)
    requires SizesOk(k.offer.sizes) && Mixed(k)
    ensures Blocked(k, true) || (Blocked(k, false) && (k.offer.sizes.recv > 0 || !Known(k.offer.sizes.send, k.offer.sizes.sendZero)))
  {
  }

  lemma StartFacts(k: Setup)
    ensures Under(Start(k).c) && Start(k).c.tx.state.Command? && Start(k).s.tx.state.Unstarted? && Start(k).s.rx.phase.Authenticate?
    ensures Reached(k, [], Start(k))
  {
  }

  lemma SizesOfSetup(k: Setup)
    requires SetupOk(k)
    ensures SizesOk(k.offer.sizes)
  {
  }

  /** A blocked commander writes its payload before the server answers. */
  lemma CommanderFirst(k: Setup, N: nat, width: nat) returns (acts: seq<Act>, y: Sys)
    requires SetupOk(k) && WalkOk(k.model, N, width) && Blocked(k, true)
    ensures Reached(k, acts, y) && y.c.tx.state.SendFooter? && Under(y.s) && y.s.tx.state.Response? && y.up.got == y.up.sent
  {
    hide SetupOk, Reached, WalkOk, Inv, Asked, Under, Lead, Start;
    StartFacts(k);
    StartOffers(k);
    acts, y := PumpOn(k, [], Start(k), true, true, N, width);
    var up, down := Keeps(k, acts, y);
    assert !Party(y, false).tx.state.Command?;
    FooterMissing(k, y, true, up, down);
    acts, y := ReadAll(k, acts, y, false);
  }

  lemma StartOffers(k: Setup)
    ensures Start(k).c.rx.info.sizes == k.offer.sizes
  {
  }

  /** A blocked server is started by a commander that has written all it can. */
  lemma ServerSecond(k: Setup, N: nat, width: nat) returns (acts: seq<Act>, y: Sys)
    requires SetupOk(k) && WalkOk(k.model, N, width) && Blocked(k, false)
    requires k.offer.sizes.recv > 0 || !Known(k.offer.sizes.send, k.offer.sizes.sendZero)
    ensures Reached(k, acts, y) && y.s.tx.state.SendFooter? && y.down.got == y.down.sent
    ensures y.c.tx.state.Sent? || (y.c.tx.state.SendFooter? && y.c.tx.out == "" && k.offer.sizes.recv > 0)
  {
    hide SetupOk, Reached, WalkOk, Inv, Asked, Under, Lead, Start;
    StartFacts(k);
    StartOffers(k);
    acts, y := PumpOn(k, [], Start(k), true, false, N, width);
    var up, down := Keeps(k, acts, y);
    assert !Party(y, false).tx.state.Command?;
    LeadSent(k, y, true, up, down);
    acts, y := ReadAll(k, acts, y, false);
    up, down := Keeps(k, acts, y);
    PeerSizes(k, y, true, up, down);
    acts, y := PumpOn(k, acts, y, false, true, N, width);
    up, down := Keeps(k, acts, y);
    FooterMissing(k, y, false, up, down);
    acts, y := ReadAll(k, acts, y, true);
  }

  /** An end behind its payload has written its command or response. */
  lemma LeadSent(k: Setup, y: Sys, c: bool, up: string, down: string)
    requires Inv(k, y, up, down) && (Party(y, c).tx.state.SendFooter? || Party(y, c).tx.state.Sent?)
    ensures |OutPipe(y, c).sent| >= |Lead(k, c)|
  {
    hide Reads, Lead, Walked, Mark;
    assert Party(y, c).tx.out != "" ==> |OutPipe(y, c).sent + Party(y, c).tx.out| == |OutPipe(y, c).sent| + |Party(y, c).tx.out|;
  }

  /** For every mixed combination of sizes a run of wanted events ends in a deadlock. */
  lemma MixedGetsStuck(k: Setup, N: nat, width: nat) returns (acts: seq<Act>, y: Sys)
    requires SetupOk(k) && WalkOk(k.model, N, width) && Mixed(k)
    ensures Reached(k, acts, y) && forall capacity: nat :: !GoesOn(y, capacity)
  {
    hide SetupOk, Reached, WalkOk, Under, Silence, GoesOn;
    SizesOfSetup(k);
    SomeoneBlocked(k);
    var c := Blocked(k, true);
    if c {
      acts, y := CommanderFirst(k, N, width);
    } else {
      acts, y := ServerSecond(k, N, width);
    }
    acts, y := PeerFinishes(k, acts, y, c, N, width);
    acts, y := LastReads(k, acts, y, c);
    forall capacity: nat ensures !GoesOn(y, capacity) {
      SilenceIsStuck(k, acts, y, c, capacity);
    }
  }

  // ---- Without sizes and without an answer ----

  /** A walk that makes the server send nothing: nothing is expected by the commander once over. */
  lemma NothingExpected(k: Setup, y: Sys, up: string, down: string, N: nat)
    requires SetupOk(k) && Inv(k, y, up, down) && Unset(k) && y.c.tx.state.Sent?
    requires P.After(k.model, false, Markov.Begin(k.model), N).found
    requires P.Count(P.Trace(k.model, false, Markov.Begin(k.model), N), Markov.ToOrigin) == 0
    ensures y.c.tx.expectRecv == 0 && y.c.rx.info.sizes == Sizes(0, false, 0, false)
  {
    hide P.After, P.Trace, P.Count, Reads, Lead;
    UnknownPosition(k, y.c, true, y.up, y.down, up);
    var n := CountOf(k, y, true, up, down);
    P.WalksAgree(k.model, Markov.Begin(k.model), n, N, Markov.ToOrigin);
  }

  lemma Concluding(e: End)
    requires e.tx.state.Sent? && e.rx.phase.Authenticate? && e.rx.error == NoError && e.tx.expectRecv == 0
    requires e.rx.info.sizes == Sizes(0, false, 0, false)
    ensures FinishReceiving(e) == e.(rx := e.rx.(phase := Success, line := ""))
  {
  }

  /** One byte of the response is taken. */
  function OneByte(): Replies {
    var a := Answer.Accepted(1);
    Replies(a, a, a, a, a, a, a)
  }

  lemma ResponseBegun(env: Env, e: End, d: Draw)
    requires e.tx.state.Response? && e.tx.out == "" && e.rx.error == NoError
    ensures var f := OnWritable(env, e, OneByte(), d);
            f.end.tx.state.Response? && f.end.tx.barrier == 0 && f.end.rx == e.rx && |f.wrote| == 1 && LoopEnds(e, OneByte(), d)
  {
    hide ResponseText;
    var text := ResponseText(e.me.host, NoError);
    assert |text| > 1 by { ResponseLong(e.me.host); }
    assert text[1..] != "";
  }

  lemma ResponseLong(host: string)
    ensures |ResponseText(host, NoError)| > 1
  {
    assert |PASSWORD| > 1;
  }

  /** The commander has concluded, and the server's pipe is full with the response begun. */
  ghost predicate Abandoned(y: Sys) {
    Done(y.c) && y.s.tx.state.Response? && y.s.tx.barrier == 0 && y.s.rx.phase.Success? && y.s.rx.error == NoError &&
    y.c.rx.error == NoError && |y.down.sent| == |y.down.got| + 1
  }

  lemma AbandonedIsStuck(y: Sys)
    requires Abandoned(y)
    ensures !GoesOn(y, 1)
  {
  }

  /** The commander writes all, concludes at once, and nobody reads the response. */
  lemma UnansweredGetsStuck(k: Setup, N: nat, width: nat) returns (acts: seq<Act>, y: Sys)
    requires SetupOk(k) && WalkOk(k.model, N, width) && Unset(k)
    requires P.Count(P.Trace(k.model, false, Markov.Begin(k.model), N), Markov.ToOrigin) == 0
    ensures Reached(k, acts, y) && !GoesOn(y, 1)
  {
    hide SetupOk, Reached, P.After, P.Trace, P.Count, P.Recurs, Inv, Asked, Under, Lead, Start, GoesOn, OnWritable;
    StartFacts(k);
    StartOffers(k);
    acts, y := PumpOn(k, [], Start(k), true, false, N, width);
    var up, down := Keeps(k, acts, y);
    NothingExpected(k, y, up, down, N);
    StartedRests(k, y);
    Started(k, y, true, up, down);
    LeadSent(k, y, true, up, down);
    Concluding(y.c);
    ConcludeAsked(y);
    acts := NextReached(k, acts, y, Conclude(true));
    y := DoConclude(y, true);
    acts, y := ServerReadsOn(k, acts, y);
    acts, y := ServerResponds(k, acts, y);
    AbandonedIsStuck(y);
  }

  lemma ConcludeAsked(y: Sys)
    ensures Asked(y, Conclude(true))
  {
  }

  lemma StartedRests(k: Setup, y: Sys)
    requires Beside(Start(k), y, true)
    ensures y.s == Start(k).s && y.down == Start(k).down && y.down.sent == "" && y.down.got == ""
    ensures Led(Start(k).c).rx.phase.Authenticate?
  {
  }

  lemma ServerReadsOn(k: Setup, acts: seq<Act>, y: Sys) returns (more: seq<Act>, z: Sys)
    requires SetupOk(k) && Unset(k) && Reached(k, acts, y) && Done(y.c) && y.c.rx.error == NoError && y.s == Start(k).s
    requires y.down == Pipe("", "") && |y.up.sent| >= |Lead(k, true)|
    ensures Reached(k, more, z) && z.c == y.c && z.down == Pipe("", "") && z.s.tx.state.Response? && z.s.tx.out == ""
    ensures z.s.rx.error == NoError && z.s.rx.phase.Success?
  {
    hide SetupOk, Reached, Inv, Asked, Lead;
    more, z := ReadAll(k, acts, y, false);
    var up, down := Keeps(k, more, z);
    if z.s.rx.phase.Success? {
      NoErrors(k, more, false);
      ReachedIs(k, more, z);
    } else {
      EndOfUnknown(k, z, false, up, down);
      ListenerAsks(z, false, 0);
      more := NextReached(k, more, z, MeetEnd(false));
      z := Do(k.env, z, MeetEnd(false));
    }
  }

  lemma ReachedIs(k: Setup, acts: seq<Act>, y: Sys)
    requires Reached(k, acts, y)
    ensures Agreement.After(k, acts) == y
  {
  }

  lemma ServerResponds(k: Setup, acts: seq<Act>, y: Sys) returns (more: seq<Act>, z: Sys)
    requires Reached(k, acts, y) && Done(y.c) && y.c.rx.error == NoError && y.down == Pipe("", "")
    requires y.s.tx.state.Response? && y.s.tx.out == "" && y.s.rx.error == NoError && y.s.rx.phase.Success?
    ensures Reached(k, more, z) && Abandoned(z)
  {
    hide Reached, Asked, OnWritable;
    var d := Draw(0, 'a', 0);
    ResponseBegun(k.env, y.s, d);
    UnderAsks(y, false, OneByte(), d);
    more, z := WritesOn(k, acts, y, false, OneByte(), d);
  }

  // ---- The shortest stuck run ----

  /** An end that is to send no bytes is through its payload with one event. */
  lemma OneWrite(k: Setup, acts: seq<Act>, y: Sys, c: bool, block: bool) returns (more: seq<Act>, z: Sys)
    requires SetupOk(k) && Reached(k, acts, y) && Under(Party(y, c)) && SizesFor(k, c).sendZero
    ensures Reached(k, more, z) && Beside(y, z, c) && Rests(Party(y, c), Party(z, c), block)
  {
    hide SetupOk, Reached, Asked, Markov.Sound, DigestsOk, OnWritable, WalksAt, AfterPayload, Closed, Inv, Rests;
    var e := Party(y, c);
    var up, down := Keeps(k, acts, y);
    Started(k, y, c, up, down);
    var r, d := Takes(Big(e), block), Draw(0, 'a', 0);
    EventEnds(e, 0, block);
    UnderAsks(y, c, r, d);
    EventTaken(k.env, e, 0, block);
    RestsAtOnce(e, 0, block);
    more, z := WritesOn(k, acts, y, c, r, d);
  }

  /** No bytes in either direction, whatever the model: the commander writes its command, the server
      reads it and writes response and footer, the commander reads both, and nobody asks for anything. */
  lemma ZeroSizesGetStuck(k: Setup) returns (acts: seq<Act>, y: Sys)
    requires SetupOk(k) && k.offer.sizes == Sizes(0, true, 0, true)
    ensures Reached(k, acts, y) && !Done(y.c) && forall capacity: nat :: !GoesOn(y, capacity)
  {
    hide SetupOk, Reached, Inv, Asked, Under, Lead, Start, GoesOn;
    StartFacts(k);
    StartOffers(k);
    acts, y := OneWrite(k, [], Start(k), true, true);
    var up, down := Keeps(k, acts, y);
    assert !Party(y, false).tx.state.Command?;
    FooterMissing(k, y, true, up, down);
    acts, y := ReadAll(k, acts, y, false);
    up, down := Keeps(k, acts, y);
    FooterMissing(k, y, true, up, down);
    PeerSizes(k, y, true, up, down);
    acts, y := OneWrite(k, acts, y, false, false);
    acts, y := LastReads(k, acts, y, true);
    forall capacity: nat ensures !GoesOn(y, capacity) {
      SilenceIsStuck(k, acts, y, true, capacity);
    }
  }

  // ---- The exact condition ----

  /** Exactly when the ends of a stream can always go on, on a walk that finds its end and recurs
      across restarts: with positive sizes in both directions, or with no sizes at all and a walk that
      makes the server send something. */
  lemma GoesOnExactly(k: Setup, N: nat, width: nat)
    requires SetupOk(k) && WalkOk(k.model, N, width)
    ensures (forall acts: seq<Act>, capacity: nat :: capacity > 0 ==> GoesOn(Agreement.After(k, acts), capacity)) <==> Matched(k, N)
  {
    hide SetupOk, GoesOn, P.After, P.Trace, P.Count, P.Recurs, Agreement.After;
    if Matched(k, N) {
      forall acts: seq<Act>, capacity: nat | capacity > 0 ensures GoesOn(Agreement.After(k, acts), capacity) {
        MatchedGoesOn(k, acts, N, capacity);
      }
    } else {
      var acts, y;
      if Mixed(k) {
        acts, y := MixedGetsStuck(k, N, width);
      } else {
        acts, y := UnansweredGetsStuck(k, N, width);
      }
      ReachedIs(k, acts, y);
      assert !GoesOn(Agreement.After(k, acts), 1);
    }
  }
}
