/** The observations of a walk as a sequence, and what the packet loop makes of them: counters,
    delay, termination. */
module Packets {
  import opened Sender
  import Markov
  import WalkSafety

  datatype Seen = Seen(obs: Markov.Observation, delay: nat)

  function SeenAt(m: Markov.Model, w: Markov.Walk): Seen {
    var o := Markov.Next(m, w);
    if o.Emitted? then Seen(o.obs, o.delay) else Seen(Markov.End, 0)
  }

  /** The walk after one observation; with a specific size to send it restarts at its end. */
  function Ahead(m: Markov.Model, sized: bool, w: Markov.Walk): Markov.Walk {
    var o := Markov.Next(m, w);
    if o.Aborted? then w else if sized && o.obs.End? then Markov.Restart(m, o.walk) else o.walk
  }

  function After(m: Markov.Model, sized: bool, w: Markov.Walk, n: nat): Markov.Walk {
    if n == 0 then w else Ahead(m, sized, After(m, sized, w, n - 1))
  }

  /** The first n observations from w on. */
  function Trace(m: Markov.Model, sized: bool, w: Markov.Walk, n: nat): (s: seq<Seen>)
    ensures |s| == n
  {
    if n == 0 then [] else Trace(m, sized, w, n - 1) + [SeenAt(m, After(m, sized, w, n - 1))]
  }

  function Count(s: seq<Seen>, o: Markov.Observation): nat {
    if s == [] then 0 else Count(s[..|s| - 1], o) + if s[|s| - 1].obs == o then 1 else 0
  }

  /** The delays summed since the last own packet, that packet's own delay included. */
  function DelaySince(s: seq<Seen>, commander: bool): nat {
    if s == [] then 0
    else
      var x := s[|s| - 1];
      if x.obs == Own(commander) then x.delay
      else DelaySince(s[..|s| - 1], commander) + if x.obs == Other(commander) then x.delay else 0
  }

  /** The summed delays of the observations of one kind. */
  function Waits(s: seq<Seen>, o: Markov.Observation): nat {
    if s == [] then 0 else Waits(s[..|s| - 1], o) + if s[|s| - 1].obs == o then s[|s| - 1].delay else 0
  }

  lemma WaitsLast(s: seq<Seen>, o: Markov.Observation, i: nat)
    requires i < |s|
    ensures Waits(s[i..], o) == Waits(s[..|s| - 1][i..], o) + if s[|s| - 1].obs == o then s[|s| - 1].delay else 0
  {
    assert s[i..][..|s| - 1 - i] == s[..|s| - 1][i..];
  }

  /** The delay of the last own packet, before position i, plus those of the peer's packets from there
      on: own packets go to the server for a commander and to the origin for a server. */
  lemma {:induction false} DelayExact(s: seq<Seen>, commander: bool, i: nat)
    requires i <= |s| && (i > 0 ==> s[i - 1].obs == if commander then Markov.ToServer else Markov.ToOrigin)
    requires forall j :: i <= j < |s| ==> s[j].obs != if commander then Markov.ToServer else Markov.ToOrigin
    ensures DelaySince(s, commander) ==
            (if i > 0 then s[i - 1].delay else 0) + Waits(s[i..], if commander then Markov.ToOrigin else Markov.ToServer)
  {
    hide Waits;
    if i < |s| {
      DelayExact(s[..|s| - 1], commander, i);
      WaitsLast(s, if commander then Markov.ToOrigin else Markov.ToServer, i);
    } else {
      NoWaits(s[i..], if commander then Markov.ToOrigin else Markov.ToServer);
    }
  }

  lemma NoWaits(s: seq<Seen>, o: Markov.Observation)
    requires s == []
    ensures Waits(s, o) == 0
  {
  }

  lemma {:induction false} AfterFirst(m: Markov.Model, sized: bool, w: Markov.Walk, n: nat)
    requires n > 0
    ensures After(m, sized, w, n) == After(m, sized, Ahead(m, sized, w), n - 1)
  {
    if n > 1 { AfterFirst(m, sized, w, n - 1); }
  }

  lemma {:induction false} AfterAdd(m: Markov.Model, sized: bool, w: Markov.Walk, i: nat, j: nat)
    ensures After(m, sized, w, i + j) == After(m, sized, After(m, sized, w, i), j)
  {
    if j > 0 { AfterAdd(m, sized, w, i, j - 1); }
  }

  lemma {:induction false} TraceAdd(m: Markov.Model, sized: bool, w: Markov.Walk, i: nat, j: nat)
    ensures Trace(m, sized, w, i + j) == Trace(m, sized, w, i) + Trace(m, sized, After(m, sized, w, i), j)
  {
    hide SeenAt, Ahead;
    if j == 0 {
      assert Trace(m, sized, w, i) + [] == Trace(m, sized, w, i);
    } else {
      TraceAdd(m, sized, w, i, j - 1);
      AfterAdd(m, sized, w, i, j - 1);
    }
  }

  lemma {:induction false} CountAdd(s: seq<Seen>, t: seq<Seen>, o: Markov.Observation)
    ensures Count(s + t, o) == Count(s, o) + Count(t, o)
  {
    if t == [] {
      assert s + t == s;
    } else {
      assert (s + t)[..|s + t| - 1] == s + t[..|t| - 1];
      CountAdd(s, t[..|t| - 1], o);
    }
  }

  // ---- The packet loop ----

  /** A batch after n observations of the walk it started from. */
  ghost predicate Tallies(m: Markov.Model, commander: bool, sized: bool, start: Markov.Walk, b: Batch, n: nat) {
    var s := Trace(m, sized, start, n);
    b.walk == After(m, sized, start, n) && b.delay == DelaySince(s, commander) &&
    b.sends == Count(s, Own(commander)) && b.receives == Count(s, Other(commander)) && b.size == PACKET * b.sends
  }

  lemma ObserveTallies(m: Markov.Model, commander: bool, sized: bool, start: Markov.Walk, b: Batch, n: nat)
    requires Markov.Sound(m) && Tallies(m, commander, sized, start, b, n)
    ensures Tallies(m, commander, sized, start, Observe(m, commander, sized, b), n + 1)
  {
    hide Markov.Next;
    Markov.NextNeverAborts(m, b.walk);
    var s := Trace(m, sized, start, n + 1);
    assert s[..n] == Trace(m, sized, start, n);
  }

  /** The loop's batch counts exactly the observations it consumed, and its delay is the summed
      delay since the last own packet of this call. */
  lemma {:induction false} GatherTallies(
    m: Markov.Model, commander: bool, sized: bool, limit: nat, start: Markov.Walk, b: Batch, n: nat, steps: nat) returns (k: nat)
    requires Markov.Sound(m) && Tallies(m, commander, sized, start, b, n)
    ensures n <= k <= n + steps
    ensures Tallies(m, commander, sized, start, Gather(m, commander, sized, limit, b, steps), k)
    ensures !Complete(Gather(m, commander, sized, limit, b, steps), limit) ==> k == n + steps
    decreases steps
  {
    hide Tallies, Observe;
    if steps == 0 || Complete(b, limit) {
      k := n;
    } else {
      ObserveTallies(m, commander, sized, start, b, n);
      k := GatherTallies(m, commander, sized, limit, start, Observe(m, commander, sized, b), n + 1, steps - 1);
    }
  }

  /** After n observations the loop goes on: the delay is at most ten milliseconds, fewer bytes than the
      limit are to be sent, and without a specific size no end was observed. */
  ghost predicate Going(m: Markov.Model, commander: bool, sized: bool, limit: nat, start: Markov.Walk, n: nat) {
    var s := Trace(m, sized, start, n);
    DelaySince(s, commander) <= 10000 && 1434 * Count(s, Own(commander)) < limit && (sized || Count(s, Markov.End) == 0)
  }

  lemma ObserveGoes(m: Markov.Model, commander: bool, sized: bool, limit: nat, start: Markov.Walk, b: Batch, n: nat)
    requires Markov.Sound(m) && Tallies(m, commander, sized, start, b, n)
    requires !Complete(b, limit) && Going(m, commander, sized, limit, start, n)
    ensures Complete(Observe(m, commander, sized, b), limit) <==> !Going(m, commander, sized, limit, start, n + 1)
  {
    hide Markov.Next;
    Markov.NextNeverAborts(m, b.walk);
    var s := Trace(m, sized, start, n + 1);
    assert s[..n] == Trace(m, sized, start, n);
    ObserveTallies(m, commander, sized, start, b, n);
  }

  /** The loop stops exactly where it has to: it has gone on at every number of observations before, and
      once it is complete it could not go on. */
  lemma {:induction false} GatherExact(
    m: Markov.Model, commander: bool, sized: bool, limit: nat, start: Markov.Walk, b: Batch, n: nat, steps: nat) returns (k: nat)
    requires Markov.Sound(m) && Tallies(m, commander, sized, start, b, n)
    requires Complete(b, limit) <==> !Going(m, commander, sized, limit, start, n)
    ensures n <= k <= n + steps && Tallies(m, commander, sized, start, Gather(m, commander, sized, limit, b, steps), k)
    ensures forall j :: n <= j < k ==> Going(m, commander, sized, limit, start, j)
    ensures Complete(Gather(m, commander, sized, limit, b, steps), limit) <==> !Going(m, commander, sized, limit, start, k)
    decreases steps
  {
    hide Tallies, Observe, Going;
    if steps == 0 || Complete(b, limit) {
      k := n;
    } else {
      ObserveTallies(m, commander, sized, start, b, n);
      ObserveGoes(m, commander, sized, limit, start, b, n);
      k := GatherExact(m, commander, sized, limit, start, Observe(m, commander, sized, b), n + 1, steps - 1);
    }
  }

  /** Nothing observed yet. */
  lemma StartGoes(m: Markov.Model, commander: bool, sized: bool, limit: nat, w: Markov.Walk)
    ensures Tallies(m, commander, sized, w, NewBatch(w), 0)
    ensures Complete(NewBatch(w), limit) <==> !Going(m, commander, sized, limit, w, 0)
  {
  }

  /** Less than one packet above the limit, at most one delay above what is sent at once. */
  predicate Bounded(b: Batch, limit: nat) {
    b.size < limit + PACKET && b.delay <= AT_ONCE + Markov.DELAY_CEILING && (!b.stop ==> b.delay <= AT_ONCE)
  }

  lemma ObserveBounded(m: Markov.Model, commander: bool, sized: bool, limit: nat, b: Batch)
    requires Markov.Sound(m) && Bounded(b, limit) && !Complete(b, limit)
    ensures Bounded(Observe(m, commander, sized, b), limit)
  {
    hide Markov.Next;
    Markov.NextNeverAborts(m, b.walk);
  }

  lemma {:induction false} GatherBounded(m: Markov.Model, commander: bool, sized: bool, limit: nat, b: Batch, steps: nat)
    requires Markov.Sound(m) && Bounded(b, limit)
    ensures Bounded(Gather(m, commander, sized, limit, b, steps), limit)
    decreases steps
  {
    hide Bounded, Observe;
    if steps > 0 && !Complete(b, limit) {
      ObserveBounded(m, commander, sized, limit, b);
      GatherBounded(m, commander, sized, limit, Observe(m, commander, sized, b), steps - 1);
    }
  }

  /** What one run of the packet loop can produce at most. */
  lemma BatchBounds(m: Markov.Model, commander: bool, sized: bool, limit: nat, w: Markov.Walk, steps: nat)
    requires Markov.Sound(m) && 0 < limit <= WRITE_BUFFER
    ensures Gather(m, commander, sized, limit, NewBatch(w), steps).size <= 34201
    ensures Gather(m, commander, sized, limit, NewBatch(w), steps).delay <= 600010000
  {
    hide Gather;
    GatherBounded(m, commander, sized, limit, NewBatch(w), steps);
  }

  lemma {:induction false} GatherAdd(m: Markov.Model, commander: bool, sized: bool, limit: nat, b: Batch, i: nat, j: nat)
    ensures Gather(m, commander, sized, limit, b, i + j) ==
            Gather(m, commander, sized, limit, Gather(m, commander, sized, limit, b, i), j)
    decreases i
  {
    hide Observe;
    if i > 0 && !Complete(b, limit) {
      GatherAdd(m, commander, sized, limit, Observe(m, commander, sized, b), i - 1, j);
    }
  }

  /** An observation that brings the loop closer to its end. */
  predicate Advances(commander: bool, sized: bool, o: Markov.Observation) {
    o == Own(commander) || (!sized && o.End?)
  }

  /** Every window of `width` observations, across restarts, holds one that advances. */
  ghost predicate Recurs(m: Markov.Model, commander: bool, sized: bool, w: Markov.Walk, width: nat) {
    forall n: nat :: AdvancesWithin(m, commander, sized, w, n, width)
  }

  ghost predicate AdvancesWithin(m: Markov.Model, commander: bool, sized: bool, w: Markov.Walk, n: nat, width: nat) {
    exists i: nat :: n <= i < n + width && Advances(commander, sized, SeenAt(m, After(m, sized, w, i)).obs)
  }

  lemma RecursLater(m: Markov.Model, commander: bool, sized: bool, w: Markov.Walk, width: nat, k: nat)
    requires Recurs(m, commander, sized, w, width)
    ensures Recurs(m, commander, sized, After(m, sized, w, k), width)
  {
    hide After, SeenAt;
    forall n: nat ensures AdvancesWithin(m, commander, sized, After(m, sized, w, k), n, width) {
      assert AdvancesWithin(m, commander, sized, w, n + k, width);
      var i: nat :| n + k <= i < n + k + width && Advances(commander, sized, SeenAt(m, After(m, sized, w, i)).obs);
      AfterAdd(m, sized, w, k, i - k);
      assert n <= i - k < n + width;
    }
  }

  lemma {:induction false} CountPositive(s: seq<Seen>, o: Markov.Observation, i: nat)
    requires i < |s| && s[i].obs == o
    ensures Count(s, o) > 0
  {
    if i < |s| - 1 { CountPositive(s[..|s| - 1], o, i); }
  }

  lemma {:induction false} TraceAt(m: Markov.Model, sized: bool, w: Markov.Walk, n: nat, i: nat)
    requires i < n
    ensures Trace(m, sized, w, n)[i] == SeenAt(m, After(m, sized, w, i))
  {
    hide SeenAt, After;
    if i < n - 1 { TraceAt(m, sized, w, n - 1, i); }
  }

  /** A loop still going has met no end of an unsized walk. */
  lemma {:induction false} GoingOnMetNoEnd(m: Markov.Model, commander: bool, limit: nat, b: Batch, steps: nat, i: nat)
    requires Markov.Sound(m) && i < steps
    requires !Complete(Gather(m, commander, false, limit, b, steps), limit)
    ensures !SeenAt(m, After(m, false, b.walk, i)).obs.End?
    decreases i
  {
    hide Markov.Next;
    Markov.NextNeverAborts(m, b.walk);
    var c := Observe(m, commander, false, b);
    if i == 0 {
      assert SeenAt(m, b.walk).obs.End? ==> c.stop;
    } else {
      AfterFirst(m, false, b.walk, i);
      GoingOnMetNoEnd(m, commander, limit, c, steps - 1, i - 1);
    }
  }

  /** Within one window the batch completes or grows. */
  lemma WindowGrows(m: Markov.Model, commander: bool, sized: bool, limit: nat, start: Markov.Walk, b: Batch, n: nat, width: nat)
    requires Markov.Sound(m) && Tallies(m, commander, sized, start, b, n) && Recurs(m, commander, sized, b.walk, width)
    requires !Complete(Gather(m, commander, sized, limit, b, width), limit)
    ensures var c := Gather(m, commander, sized, limit, b, width);
            c.size > b.size && Tallies(m, commander, sized, start, c, n + width) && Recurs(m, commander, sized, c.walk, width)
  {
    hide Gather, Markov.Next;
    var c := Gather(m, commander, sized, limit, b, width);
    var k := GatherTallies(m, commander, sized, limit, start, b, n, width);
    assert AdvancesWithin(m, commander, sized, b.walk, 0, width);
    var i: nat :| 0 <= i < 0 + width && Advances(commander, sized, SeenAt(m, After(m, sized, b.walk, i)).obs);
    if !sized { GoingOnMetNoEnd(m, commander, limit, b, width, i); }
    TraceAdd(m, sized, start, n, width);
    var tail := Trace(m, sized, b.walk, width);
    CountAdd(Trace(m, sized, start, n), tail, Own(commander));
    TraceAt(m, sized, b.walk, width, i);
    CountPositive(tail, Own(commander), i);
    AfterAdd(m, sized, start, n, width);
    RecursLater(m, commander, sized, b.walk, width, width);
  }

  lemma GatherNone(m: Markov.Model, commander: bool, sized: bool, limit: nat, b: Batch)
    ensures Gather(m, commander, sized, limit, b, 0) == b
  {
  }

  function Missing(b: Batch, limit: nat): nat {
    if Complete(b, limit) then 0 else limit - b.size
  }

  /** The packet loop ends: the missing bytes shrink from window to window. */
  lemma {:induction false} GatherStops(
    m: Markov.Model, commander: bool, sized: bool, limit: nat, start: Markov.Walk, b: Batch, n: nat, width: nat) returns (steps: nat)
    requires Markov.Sound(m) && Tallies(m, commander, sized, start, b, n) && Recurs(m, commander, sized, b.walk, width)
    ensures Complete(Gather(m, commander, sized, limit, b, steps), limit)
    decreases Missing(b, limit)
  {
    hide Gather, Tallies, Recurs, Markov.Sound;
    if Complete(b, limit) {
      steps := 0;
      GatherNone(m, commander, sized, limit, b);
    } else {
      var c := Gather(m, commander, sized, limit, b, width);
      steps := width;
      if !Complete(c, limit) {
        WindowGrows(m, commander, sized, limit, start, b, n, width);
        var rest := GatherStops(m, commander, sized, limit, start, c, n + width, width);
        GatherAdd(m, commander, sized, limit, b, width, rest);
        steps := width + rest;
      }
    }
  }

  /** The packet loop, from a walk whose windows all hold an observation that advances it: it
      ends, and its batch counts the consumed observations. */
  lemma PacketLoop(m: Markov.Model, commander: bool, sized: bool, w: Markov.Walk, width: nat) returns (steps: nat, n: nat)
    requires Markov.Sound(m) && Recurs(m, commander, sized, w, width)
    ensures Complete(Gather(m, commander, sized, WRITE_BUFFER, NewBatch(w), steps), WRITE_BUFFER)
    ensures Tallies(m, commander, sized, w, Gather(m, commander, sized, WRITE_BUFFER, NewBatch(w), steps), n)
  {
    hide Gather, Recurs;
    assert Tallies(m, commander, sized, w, NewBatch(w), 0);
    steps := GatherStops(m, commander, sized, WRITE_BUFFER, w, NewBatch(w), 0, width);
    n := GatherTallies(m, commander, sized, WRITE_BUFFER, w, NewBatch(w), 0, steps);
  }

  // ---- Two walks of one model ----

  lemma FoundNext(m: Markov.Model, w: Markov.Walk)
    requires w.found
    ensures SeenAt(m, w) == Seen(Markov.End, 0) && Ahead(m, false, w) == w
  {
  }

  /** Once the model's own end is found, nothing more is observed. */
  lemma {:induction false} FoundStays(m: Markov.Model, w: Markov.Walk, i: nat, j: nat)
    requires i <= j && After(m, false, w, i).found
    ensures After(m, false, w, j) == After(m, false, w, i)
    ensures forall o: Markov.Observation :: !o.End? ==>
              Count(Trace(m, false, w, j), o) == Count(Trace(m, false, w, i), o)
    decreases j
  {
    hide SeenAt, Ahead;
    if i < j {
      FoundStays(m, w, i, j - 1);
      FoundNext(m, After(m, false, w, j - 1));
      var s := Trace(m, false, w, j);
      assert s[..j - 1] == Trace(m, false, w, j - 1);
    }
  }

  lemma {:induction false} CountGrows(m: Markov.Model, sized: bool, w: Markov.Walk, o: Markov.Observation, i: nat, j: nat)
    requires i <= j
    ensures Count(Trace(m, sized, w, i), o) <= Count(Trace(m, sized, w, j), o)
  {
    hide Trace, Count, After;
    TraceAdd(m, sized, w, i, j - i);
    CountAdd(Trace(m, sized, w, i), Trace(m, sized, After(m, sized, w, i), j - i), o);
  }

  /** Two walks of one model and seed that both found the end agree on every direction's count;
      one that has not found it yet has counted no more. */
  lemma WalksAgree(m: Markov.Model, w: Markov.Walk, i: nat, j: nat, o: Markov.Observation)
    requires After(m, false, w, i).found && !o.End?
    ensures Count(Trace(m, false, w, j), o) <= Count(Trace(m, false, w, i), o)
    ensures After(m, false, w, j).found ==> Count(Trace(m, false, w, j), o) == Count(Trace(m, false, w, i), o)
  {
    if i <= j {
      FoundStays(m, w, i, j);
    } else {
      CountGrows(m, false, w, o, j, i);
      if After(m, false, w, j).found { FoundStays(m, w, j, i); }
    }
  }

  /** Among silent states, a state without a transition being the smallest case, every observation is
      an end, but the model never counts as ended: a sender of unknown size that gets there never
      finishes. */
  lemma {:induction false} SilenceNeverEnds(m: Markov.Model, w: Markov.Walk, states: set<nat>, n: nat)
    requires Markov.Accepted(m.graph) && Markov.RngOk(m.rng) && !w.found
    requires WalkSafety.Silent(m.graph, states) && w.current in states
    ensures !After(m, false, w, n).found && After(m, false, w, n).current in states
    ensures SeenAt(m, After(m, false, w, n)) == Seen(Markov.End, 0)
  {
    hide Markov.Next, Markov.Accepted, Markov.RngOk, WalkSafety.Silent;
    if n > 0 {
      SilenceNeverEnds(m, w, states, n - 1);
      WalkSafety.SilentStep(m, After(m, false, w, n - 1), states);
    }
    WalkSafety.SilentStep(m, After(m, false, w, n), states);
  }
}
