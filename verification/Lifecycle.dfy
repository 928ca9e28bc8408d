/** What every run of the generators keeps: counters equal live children, reference counts equal
    holders, one pending timer exactly while more children may come, one announcement of
    completion, and totals that add up. */
module Lifecycle {
  import opened Options
  import opened Generators

  function Pointing(m: map<Ref, Ref>, g: Ref): set<Ref> {
    set k | k in m && m[k] == g
  }

  /** How many entries of a relation point at g. */
  function Held(m: map<Ref, Ref>, g: Ref): nat {
    |Pointing(m, g)|
  }

  function One(b: bool): nat {
    if b then 1 else 0
  }

  lemma HeldAdd(m: map<Ref, Ref>, k: Ref, v: Ref)
    requires k !in m
    ensures forall g :: Held(m[k := v], g) == Held(m, g) + One(v == g)
  {
    forall g ensures Held(m[k := v], g) == Held(m, g) + One(v == g) {
      assert Pointing(m[k := v], g) == if v == g then Pointing(m, g) + {k} else Pointing(m, g);
    }
  }

  lemma HeldDrop(m: map<Ref, Ref>, k: Ref)
    requires k in m
    ensures forall g :: Held(m, g) == Held(m - {k}, g) + One(m[k] == g)
  {
    forall g ensures Held(m, g) == Held(m - {k}, g) + One(m[k] == g) {
      assert Pointing(m, g) == if m[k] == g then Pointing(m - {k}, g) + {k} else Pointing(m - {k}, g);
    }
  }

  lemma HeldSome(m: map<Ref, Ref>, k: Ref)
    requires k in m
    ensures Held(m, m[k]) > 0
  {
    HeldDrop(m, k);
  }

  /** Where an unfinished call stands: generators that are generating, one whose completion has to be
      checked, generators with one reference too many, one that has not yet counted an announced
      child, and the flags on their way to the driver. */
  datatype Stage = Stage(active: set<Ref>, check: Option<Ref>, over: set<Ref>, owed: Option<Ref>, flags: set<Flag>)

  const QUIET: Stage := Stage({}, None, {}, None, {})

  /** Everything that bears on one generator: how many child flows, streams, timers hold it, how many
      of these children are not complete, and how the unfinished call stands to it. */
  datatype Facts = Facts(
    flows: nat, streams: nat, timers: nat, running: nat, open: nat,
    firing: bool, active: bool, check: bool, over: bool, owed: bool)

  function FactsOf(w: World, x: Stage, g: Ref): Facts {
    Facts(Held(w.parent, g), Held(w.streams, g), Held(w.timers, g), Held(w.running, g), Held(w.open, g),
          w.firing == Some(g), g in x.active, x.check == Some(g), g in x.over, x.owed == Some(g))
  }

  /** The counters of a generator against what bears on it. */
  predicate Right(gen: Gen, f: Facts) {
    gen.refs == One(gen.live) + f.flows + f.streams + f.timers + One(f.firing) + One(f.over) && gen.refs >= 1 &&
    gen.generated == gen.completed + f.running + f.open + One(f.owed) &&
    (!gen.live ==> (gen.ended || gen.error) && gen.generated == gen.completed) &&
    f.timers == One(!(f.active || gen.ended || gen.error)) &&
    (gen.live && !f.active && !f.check ==> !Due(gen)) &&
    (f.active ==> gen.live && !gen.ended && !gen.error)
  }

  ghost predicate GenOk(w: World, x: Stage, g: Ref)
    requires g in w.gens
  {
    Right(w.gens[g], FactsOf(w, x, g))
  }

  ghost predicate Below(s: set<Ref>, n: Ref) {
    forall k :: k in s ==> k < n
  }

  /** Addresses are handed out in order. */
  ghost predicate InUse(w: World) {
    (forall k :: k in w.gens ==> k < w.next) && (forall k :: k in w.streams ==> k < w.next) &&
    (forall k :: k in w.timers ==> k < w.next) && Below(w.passive, w.next)
  }

  /** Flows belong to traffics; the unfinished flows are among the flows. */
  ghost predicate FlowsRelated(w: World) {
    (forall f :: f in w.parent ==>
      f in w.gens && w.gens[f].kind == Flow && w.parent[f] in w.gens && w.gens[w.parent[f]].kind == Traffic && w.parent[f] !in w.parent) &&
    (forall f :: f in w.open <==> f in w.parent && w.gens[f].live) &&
    (forall f :: f in w.open ==> w.open[f] == w.parent[f])
  }

  /** Streams belong to the other generators, timers to those with a model; the unfinished streams are
      among the streams. */
  ghost predicate LeavesRelated(w: World) {
    (forall s :: s in w.streams ==> w.streams[s] in w.gens && w.gens[w.streams[s]].kind != Traffic) &&
    (forall s :: s in w.running ==> s in w.streams && w.running[s] == w.streams[s]) &&
    (forall t :: t in w.timers ==> w.timers[t] in w.gens && w.gens[w.timers[t]].kind != Single)
  }

  ghost predicate Related(w: World) {
    FlowsRelated(w) && LeavesRelated(w)
  }

  ghost predicate LinksOk(w: World, x: Stage) {
    !w.dangling && InUse(w) && Related(w) &&
    x.active <= w.gens.Keys && x.over <= w.gens.Keys &&
    (x.check.Some? ==> x.check.value in w.gens && w.gens[x.check.value].live) &&
    (x.owed.Some? ==> x.owed.value in w.gens) && (w.firing.Some? ==> w.firing.value in w.gens)
  }

  function LiveOf(w: World, traffic: bool): set<Ref> {
    set g | g in w.gens && w.gens[g].live && (w.gens[g].kind == Traffic) == traffic
  }

  ghost predicate TalliesOk(w: World, x: Stage) {
    var t := w.totals;
    t.streams.created == t.streams.succeeded + t.streams.failed + |w.running| + |w.passive| + One(StreamComplete in x.flags) &&
    t.flows.created == t.flows.succeeded + t.flows.failed + |LiveOf(w, false)| + One(FlowComplete in x.flags) &&
    t.traffics.created == t.traffics.succeeded + t.traffics.failed + |LiveOf(w, true)| + One(TrafficComplete in x.flags) &&
    Judged(w, x) && Carried(w, x)
  }

  /** How many generators of a kind were announced, with or without an error. */
  function Announced(s: seq<Outcome>, traffic: bool, error: bool): nat {
    if s == [] then 0
    else Announced(s[..|s| - 1], traffic, error) + One((s[|s| - 1].kind == Traffic) == traffic && s[|s| - 1].error == error)
  }

  /** Flows and traffics counted as successes and failures, or on their way, are those announced without
      and with an error. */
  ghost predicate Judged(w: World, x: Stage) {
    var t, s := w.totals, w.outcomes;
    t.flows.succeeded + One(FlowComplete in x.flags && FlowSuccess in x.flags) == Announced(s, false, false) &&
    t.flows.failed + One(FlowComplete in x.flags && FlowSuccess !in x.flags) == Announced(s, false, true) &&
    t.traffics.succeeded + One(TrafficComplete in x.flags && TrafficSuccess in x.flags) == Announced(s, true, false) &&
    t.traffics.failed + One(TrafficComplete in x.flags && TrafficSuccess !in x.flags) == Announced(s, true, true)
  }

  /** These flags tell the completion of a generator, and whether it was a success. */
  predicate Tells(o: Outcome, flags: set<Flag>) {
    if o.kind == Traffic then TrafficComplete in flags && (TrafficSuccess in flags <==> !o.error)
    else FlowComplete in flags && (FlowSuccess in flags <==> !o.error)
  }

  /** Every completion is told by its notification, or by the flags on their way. */
  ghost predicate Carried(w: World, x: Stage) {
    forall i :: 0 <= i < |w.outcomes| ==> Told(w, x, w.outcomes[i])
  }

  ghost predicate Told(w: World, x: Stage, o: Outcome) {
    o.note <= |w.notes| && Tells(o, if o.note < |w.notes| then w.notes[o.note].flags else x.flags)
  }

  ghost predicate Distinct(s: seq<Ref>) {
    forall i, j :: 0 <= i < j < |s| ==> s[i] != s[j]
  }

  /** A generator that is still in memory is as it was announced. */
  ghost predicate Agrees(w: World, i: nat)
    requires i < |w.announced| == |w.outcomes| && w.announced[i] in w.gens
  {
    w.outcomes[i].kind == w.gens[w.announced[i]].kind && w.outcomes[i].error == w.gens[w.announced[i]].error
  }

  /** The records of the call: the totals follow the notifications; a generator is announced at most
      once, and from then on not live. */
  ghost predicate Recorded(w: World) {
    w.totals == Tallied(w.notes) && Distinct(w.announced) && (forall a :: a in w.announced ==> a < w.next) &&
    (forall g :: g in w.gens ==> (g in w.announced <==> !w.gens[g].live)) &&
    |w.outcomes| == |w.announced| && (forall i :: 0 <= i < |w.announced| && w.announced[i] in w.gens ==> Agrees(w, i)) &&
    (forall g :: g in w.gens ==> (g in w.roots <==> g !in w.parent)) && Below(w.roots, w.next)
  }

  ghost predicate Inv(w: World, x: Stage) {
    LinksOk(w, x) && (forall g :: g in w.gens ==> GenOk(w, x, g)) && TalliesOk(w, x) && Recorded(w)
  }

  /** A generator is as it was, or it is a new flow. */
  predicate Same(w: World, r: World, g: Ref)
    requires g in r.gens
  {
    if g in w.gens then
      r.gens[g].live == w.gens[g].live && (g in r.parent <==> g in w.parent) && r.gens[g].kind == w.gens[g].kind &&
      (!w.gens[g].live ==> r.gens[g].error == w.gens[g].error)
    else g >= w.next && r.gens[g].live && g in r.parent
  }

  /** The records stay as long as nothing is notified and new generators are live. */
  lemma RecordedSame(w: World, r: World)
    requires Recorded(w) && r.announced == w.announced && r.notes == w.notes && r.totals == w.totals && r.next >= w.next
    requires r.outcomes == w.outcomes
    requires r.roots == w.roots && forall g :: g in r.gens ==> Same(w, r, g)
    ensures Recorded(r)
  {
  }

  /** A live generator has not been announced before. */
  lemma RecordedClosed(w: World, x: Stage, g: Ref)
    requires Recorded(w) && LinksOk(w, x) && g in w.gens && w.gens[g].live
    ensures Recorded(Closed(w, g))
  {
    var r := Closed(w, g);
    assert g !in w.announced && g < w.next;
    assert Distinct(w.announced + [g]);
  }

  lemma RecordedNew(w: World, x: Stage, kind: Kind)
    requires Recorded(w) && LinksOk(w, x)
    ensures Recorded(NewGenerator(w, kind).(roots := w.roots + {w.next}))
  {
    hide Tallied, TalliesOk, LinksOk;
    NextIsNew(w, x);
    assert w.next !in w.announced;
  }

  lemma RecordedRoot(w: World, x: Stage, kind: Kind)
    requires Recorded(w) && LinksOk(w, x)
    ensures Recorded(NewRoot(w, kind))
  {
    hide Report, Recorded, LinksOk, ToDriver;
    RecordedNew(w, x, kind);
    RecordedNote(NewGenerator(w, kind).(roots := w.roots + {w.next}), Announce(kind), None);
  }

  lemma RecordedNote(w: World, flags: set<Flag>, done: Option<Ref>)
    requires Recorded(w)
    ensures Recorded(ToDriver(w, flags, done))
  {
    hide Report;
    assert ToDriver(w, flags, done).notes[..|w.notes|] == w.notes;
  }

  // ---- References ----

  lemma NothingPoints(w: World, g: Ref)
    requires Held(w.parent, g) == 0 && Held(w.streams, g) == 0 && Held(w.timers, g) == 0
    ensures forall k :: k in w.parent ==> w.parent[k] != g
    ensures forall k :: k in w.streams ==> w.streams[k] != g
    ensures forall k :: k in w.timers ==> w.timers[k] != g
  {
    forall k | k in w.parent ensures w.parent[k] != g { HeldSome(w.parent, k); }
    forall k | k in w.streams ensures w.streams[k] != g { HeldSome(w.streams, k); }
    forall k | k in w.timers ensures w.timers[k] != g { HeldSome(w.timers, k); }
  }

  lemma VerdictsSame(w: World, x: Stage, r: World, y: Stage)
    requires Judged(w, x) && Carried(w, x) && y.flags == x.flags
    requires r.totals.flows.succeeded == w.totals.flows.succeeded && r.totals.flows.failed == w.totals.flows.failed
    requires r.totals.traffics == w.totals.traffics && r.notes == w.notes && r.outcomes == w.outcomes
    ensures Judged(r, y) && Carried(r, y)
  {
    hide Announced, Tells;
    forall i | 0 <= i < |r.outcomes| ensures Told(r, y, r.outcomes[i]) {
      assert Told(w, x, w.outcomes[i]);
    }
  }

  /** A notification takes the flags on their way to the driver, or tells no completion. */
  lemma VerdictsNoted(w: World, x: Stage, r: World, y: Stage, n: Note)
    requires Judged(w, x) && Carried(w, x) && y.flags == {} && r.outcomes == w.outcomes
    requires r.totals == Report(w.totals, n.flags) && r.notes == w.notes + [n]
    requires n.flags == x.flags || (x.flags == {} && FlowComplete !in n.flags && TrafficComplete !in n.flags)
    ensures Judged(r, y) && Carried(r, y)
  {
    hide Announced;
    forall i | 0 <= i < |r.outcomes| ensures Told(r, y, r.outcomes[i]) {
      assert Told(w, x, w.outcomes[i]);
    }
  }

  lemma AnnouncedSnoc(s: seq<Outcome>, o: Outcome, traffic: bool, error: bool)
    ensures Announced(s + [o], traffic, error) == Announced(s, traffic, error) + One((o.kind == Traffic) == traffic && o.error == error)
  {
    assert (s + [o])[..|s|] == s;
  }

  /** A generator's own flags tell its outcome, and keep what the flags told before. */
  lemma OwnFlagsTell(gen: Gen, flags: set<Flag>, n: nat)
    requires Fits(gen.kind, flags)
    ensures Tells(Outcome(gen.kind, gen.error, n), flags + OwnFlags(gen))
    ensures forall o :: Tells(o, flags) ==> Tells(o, flags + OwnFlags(gen))
    ensures var f := flags + OwnFlags(gen);
            (if gen.kind == Traffic then
               (FlowComplete in f <==> FlowComplete in flags) && (FlowSuccess in f <==> FlowSuccess in flags)
             else FlowComplete in f && (FlowSuccess in f <==> !gen.error) && TrafficComplete !in f) &&
            (gen.kind == Traffic ==> TrafficComplete in f && (TrafficSuccess in f <==> !gen.error))
  {
  }

  lemma VerdictsClosed(w: World, x: Stage, g: Ref)
    requires Judged(w, x) && Carried(w, x) && g in w.gens && Fits(w.gens[g].kind, x.flags)
    ensures Judged(Closed(w, g), ClosedStage(w, x, g)) && Carried(Closed(w, g), ClosedStage(w, x, g))
  {
    hide Announced, OwnFlags, Tells;
    var r, y, gen := Closed(w, g), ClosedStage(w, x, g), w.gens[g];
    var o := OutcomeOf(w, gen);
    OwnFlagsTell(gen, x.flags, |w.notes|);
    AnnouncedSnoc(w.outcomes, o, false, false);
    AnnouncedSnoc(w.outcomes, o, false, true);
    AnnouncedSnoc(w.outcomes, o, true, false);
    AnnouncedSnoc(w.outcomes, o, true, true);
    forall i | 0 <= i < |r.outcomes| ensures Told(r, y, r.outcomes[i]) {
      if i < |w.outcomes| { assert Told(w, x, w.outcomes[i]); }
    }
  }

  /** The totals stay right as long as the same generators are live. */
  lemma TalliesSame(w: World, x: Stage, r: World, y: Stage)
    requires TalliesOk(w, x) && r.totals == w.totals && |r.running| == |w.running| && r.passive == w.passive && y.flags == x.flags
    requires r.notes == w.notes && r.outcomes == w.outcomes
    requires forall g :: g in w.gens && w.gens[g].live ==> g in r.gens && r.gens[g].live && r.gens[g].kind == w.gens[g].kind
    requires forall g :: g in r.gens && r.gens[g].live ==> g in w.gens && w.gens[g].live
    ensures TalliesOk(r, y)
  {
    hide Judged, Carried;
    VerdictsSame(w, x, r, y);
    assert LiveOf(r, false) == LiveOf(w, false) && LiveOf(r, true) == LiveOf(w, true);
  }

  /** The links stay right when a generator's record changes but not its kind or liveness. */
  lemma LinksSame(w: World, x: Stage, g: Ref, gen: Gen, y: Stage)
    requires LinksOk(w, x) && g in w.gens && gen.kind == w.gens[g].kind && gen.live == w.gens[g].live
    requires y.active <= x.active && y.over <= x.over && (y.check == x.check || y.check.None? || (y.check == Some(g) && gen.live))
    requires y.owed == x.owed || y.owed.None?
    ensures LinksOk(Put(w, g, gen), y)
  {
    hide Related;
    RelatedSame(w, g, gen);
  }

  lemma RelatedSame(w: World, g: Ref, gen: Gen)
    requires Related(w) && g in w.gens && gen.kind == w.gens[g].kind && gen.live == w.gens[g].live
    ensures Related(Put(w, g, gen))
  {
  }

  /** One of several references goes. */
  lemma DropRef(w: World, x: Stage, g: Ref)
    requires Inv(w, x) && g in x.over && w.gens[g].refs != 1
    ensures Inv(Put(w, g, w.gens[g].(refs := w.gens[g].refs - 1)), x.(over := x.over - {g}))
  {
    hide Held, LinksOk, TalliesOk, GenOk, Recorded;
    InLinks(w, x, g);
    var r, y := Put(w, g, w.gens[g].(refs := w.gens[g].refs - 1)), x.(over := x.over - {g});
    RecordedSame(w, r);
    LinksSame(w, x, g, r.gens[g], y);
    TalliesSame(w, x, r, y);
    forall h | h in r.gens ensures GenOk(r, y, h) {
      assert GenOk(w, x, h);
      DroppedGen(w, x, g, h);
    }
  }

  lemma DroppedGen(w: World, x: Stage, g: Ref, h: Ref)
    requires g in w.gens && h in w.gens && GenOk(w, x, h) && g in x.over && w.gens[g].refs != 1
    ensures GenOk(Put(w, g, w.gens[g].(refs := w.gens[g].refs - 1)), x.(over := x.over - {g}), h)
  {
    hide Held, Right;
    var r, y, f := Put(w, g, w.gens[g].(refs := w.gens[g].refs - 1)), x.(over := x.over - {g}), FactsOf(w, x, h);
    if h == g {
      OneLess(w.gens[g], f);
      assert FactsOf(r, y, g) == f.(over := false);
    } else {
      assert FactsOf(r, y, h) == f;
    }
  }

  lemma OneLess(gen: Gen, f: Facts)
    requires Right(gen, f) && f.over && gen.refs != 1
    ensures Right(gen.(refs := gen.refs - 1), f.(over := false))
  {
  }

  lemma InLinks(w: World, x: Stage, g: Ref)
    requires LinksOk(w, x)
    ensures g in x.over || g in x.active || x.check == Some(g) || x.owed == Some(g) ==> g in w.gens
  {
  }

  function Freed(w: World, g: Ref): World {
    w.(gens := w.gens - {g}, parent := w.parent - {g})
  }

  /** A freed flow's reference to its parent becomes surplus. */
  function FreedStage(w: World, x: Stage, g: Ref): Stage {
    x.(over := x.over - {g} + if g in w.parent then {w.parent[g]} else {})
  }

  lemma FreedFacts(w: World, x: Stage, g: Ref)
    requires Inv(w, x) && g in x.over && w.gens[g].refs == 1
    ensures !w.gens[g].live && w.firing != Some(g) && x.owed != Some(g) && x.check != Some(g) && g !in x.active
    ensures Held(w.parent, g) == 0 && Held(w.streams, g) == 0 && Held(w.timers, g) == 0
  {
    assert GenOk(w, x, g);
  }

  lemma FreedHeld(w: World, g: Ref)
    ensures forall h :: Held(w.parent, h) == Held(Freed(w, g).parent, h) + One(g in w.parent && w.parent[g] == h)
  {
    if g in w.parent { HeldDrop(w.parent, g); } else { assert w.parent - {g} == w.parent; }
  }

  lemma FreedRelated(w: World, g: Ref)
    requires Related(w) && g in w.gens && !w.gens[g].live
    requires Held(w.parent, g) == 0 && Held(w.streams, g) == 0 && Held(w.timers, g) == 0
    ensures Related(Freed(w, g))
  {
    hide Held, FlowsRelated, LeavesRelated;
    NothingPoints(w, g);
    FreedFlows(w, g);
    FreedLeaves(w, g);
  }

  lemma FreedFlows(w: World, g: Ref)
    requires FlowsRelated(w) && g in w.gens && !w.gens[g].live && forall k :: k in w.parent ==> w.parent[k] != g
    ensures FlowsRelated(Freed(w, g))
  {
  }

  lemma FreedLeaves(w: World, g: Ref)
    requires LeavesRelated(w) && g in w.gens
    requires forall k :: k in w.streams ==> w.streams[k] != g
    requires forall k :: k in w.timers ==> w.timers[k] != g
    ensures LeavesRelated(Freed(w, g))
  {
  }

  lemma FreedLinks(w: World, x: Stage, g: Ref)
    requires Inv(w, x) && g in x.over && w.gens[g].refs == 1
    ensures LinksOk(Freed(w, g), FreedStage(w, x, g))
  {
    hide Held, GenOk, TalliesOk, Related, Recorded;
    FreedFacts(w, x, g);
    FreedRelated(w, g);
    OwnerIsHeld(w, g);
  }

  lemma OwnerIsHeld(w: World, g: Ref)
    requires Related(w)
    ensures g in w.parent ==> w.parent[g] in w.gens && w.parent[g] != g
  {
  }

  lemma FreedTallies(w: World, x: Stage, g: Ref)
    requires TalliesOk(w, x) && g in w.gens && !w.gens[g].live
    ensures TalliesOk(Freed(w, g), FreedStage(w, x, g))
  {
    hide TalliesOk, Freed;
    FreedLive(w, g);
    TalliesSame(w, x, Freed(w, g), FreedStage(w, x, g));
  }

  lemma FreedLive(w: World, g: Ref)
    requires g in w.gens && !w.gens[g].live
    ensures var r := Freed(w, g);
            r.totals == w.totals && r.running == w.running && r.passive == w.passive && r.notes == w.notes && r.outcomes == w.outcomes &&
            (forall h :: h in w.gens && w.gens[h].live ==> h in r.gens && r.gens[h] == w.gens[h]) &&
            (forall h :: h in r.gens ==> h in w.gens && r.gens[h] == w.gens[h])
  {
  }

  /** The last reference goes, and with it the generator. */
  lemma Free(w: World, x: Stage, g: Ref)
    requires Inv(w, x) && g in x.over && w.gens[g].refs == 1
    requires g in w.parent ==> w.parent[g] !in x.over
    ensures Inv(Freed(w, g), FreedStage(w, x, g))
  {
    hide Held, LinksOk, TalliesOk, GenOk, Recorded;
    InLinks(w, x, g);
    FreedLinks(w, x, g);
    FreedFacts(w, x, g);
    FreedTallies(w, x, g);
    RecordedSame(w, Freed(w, g));
    forall h | h in Freed(w, g).gens ensures GenOk(Freed(w, g), FreedStage(w, x, g), h) {
      FreedGen(w, x, g, h);
    }
  }

  lemma FreedGen(w: World, x: Stage, g: Ref, h: Ref)
    requires g in w.gens && h in w.gens && h != g && GenOk(w, x, h) && (g in w.parent ==> w.parent[g] !in x.over)
    ensures GenOk(Freed(w, g), FreedStage(w, x, g), h)
  {
    hide Held, Right;
    var r, y := Freed(w, g), FreedStage(w, x, g);
    FreedHeld(w, g);
    if g in w.parent && w.parent[g] == h {
      FlowToSurplus(w.gens[h], FactsOf(w, x, h));
      assert FactsOf(r, y, h) == FactsOf(w, x, h).(flows := FactsOf(w, x, h).flows - 1, over := true);
    } else {
      assert FactsOf(r, y, h) == FactsOf(w, x, h);
    }
  }

  lemma FlowToSurplus(gen: Gen, f: Facts)
    requires Right(gen, f) && !f.over && f.flows > 0
    ensures Right(gen, f.(flows := f.flows - 1, over := true))
  {
  }

  /** Giving up the surplus reference frees exactly what nothing refers to any more, and then the
      freed flow's reference to its parent. */
  lemma {:induction false} UnrefKeeps(w: World, x: Stage, g: Ref)
    requires Inv(w, x) && g in x.over && (g in w.parent ==> w.parent[g] !in x.over)
    ensures Inv(Unref(w, g), x.(over := x.over - {g}))
    decreases |w.gens|
  {
    hide GenOk, TalliesOk, Recorded;
    if w.gens[g].refs != 1 {
      DropRef(w, x, g);
    } else {
      Free(w, x, g);
      if g in w.parent {
        var p, y := w.parent[g], FreedStage(w, x, g);
        assert |Freed(w, g).gens| < |w.gens|;
        UnrefKeeps(Freed(w, g), y, p);
        assert y.over - {p} == x.over - {g};
      } else {
        assert FreedStage(w, x, g).over == x.over - {g};
      }
    }
  }

  // ---- Single changes ----

  /** One generator's record changes, and the call's standing to it; everything else stays. */
  lemma PutKeeps(w: World, x: Stage, g: Ref, gen: Gen, y: Stage)
    requires Inv(w, x) && g in w.gens && gen.kind == w.gens[g].kind && gen.live == w.gens[g].live
    requires !gen.live ==> gen.error == w.gens[g].error
    requires y.active <= x.active && y.over == x.over && y.flags == x.flags
    requires y.check == x.check || y.check.None? || (y.check == Some(g) && gen.live)
    requires y.owed == x.owed || y.owed.None?
    requires forall h :: h != g ==>
               (h in y.active <==> h in x.active) && (x.check == Some(h) <==> y.check == Some(h)) &&
               (x.owed == Some(h) <==> y.owed == Some(h))
    requires Right(gen, FactsOf(w, y, g))
    ensures Inv(Put(w, g, gen), y)
  {
    hide Held, LinksOk, TalliesOk, Right, Recorded;
    var r := Put(w, g, gen);
    LinksSame(w, x, g, gen, y);
    TalliesSame(w, x, r, y);
    RecordedSame(w, r);
    assert FactsOf(r, y, g) == FactsOf(w, y, g);
    forall h | h in r.gens ensures GenOk(r, y, h) {
      if h != g {
        assert GenOk(w, x, h);
        assert FactsOf(r, y, h) == FactsOf(w, x, h);
      }
    }
  }

  lemma ReportKeeps(w: World, x: Stage, done: Option<Ref>)
    requires Inv(w, x) && !IsCreation(x.flags)
    ensures Inv(ToDriver(w, x.flags, done), x.(flags := {}))
  {
    hide Held, LinksOk, Right, Recorded, Judged, Carried;
    var r, y := ToDriver(w, x.flags, done), x.(flags := {});
    VerdictsNoted(w, x, r, y, Note(x.flags, done));
    RecordedNote(w, x.flags, done);
    LinksElsewhere(w, x, r, y);
    assert LiveOf(r, false) == LiveOf(w, false) && LiveOf(r, true) == LiveOf(w, true);
    forall h | h in r.gens ensures GenOk(r, y, h) {
      assert GenOk(w, x, h);
      assert FactsOf(r, y, h) == FactsOf(w, x, h);
    }
  }

  lemma LinksElsewhere(w: World, x: Stage, r: World, y: Stage)
    requires LinksOk(w, x) && r == w.(totals := r.totals, notes := r.notes) && y == x.(flags := y.flags)
    ensures LinksOk(r, y)
  {
  }

  // ---- Completion ----

  /** Flags on their way from a generator of this kind do not yet report its own completion. */
  predicate Fits(kind: Kind, flags: set<Flag>) {
    !IsCreation(flags) && TrafficComplete !in flags && TrafficSuccess !in flags &&
    (kind != Traffic ==> FlowComplete !in flags && FlowSuccess !in flags)
  }

  function Closed(w: World, g: Ref): World
    requires g in w.gens
  {
    Put(w, g, w.gens[g].(live := false))
      .(open := w.open - {g}, announced := w.announced + [g], outcomes := w.outcomes + [OutcomeOf(w, w.gens[g])])
  }

  function ClosedStage(w: World, x: Stage, g: Ref): Stage
    requires g in w.gens
  {
    Stage(x.active, None, x.over + {g}, if g in w.parent then Some(w.parent[g]) else None, x.flags + OwnFlags(w.gens[g]))
  }

  lemma ClosedLinks(w: World, x: Stage, g: Ref)
    requires LinksOk(w, x) && g in w.gens && g !in x.active
    ensures LinksOk(Closed(w, g), ClosedStage(w, x, g))
  {
  }

  lemma ClosedLive(w: World, g: Ref)
    requires g in w.gens && w.gens[g].live
    ensures forall b :: |LiveOf(w, b)| == |LiveOf(Closed(w, g), b)| + One((w.gens[g].kind == Traffic) == b)
  {
    var r := Closed(w, g);
    forall b ensures |LiveOf(w, b)| == |LiveOf(r, b)| + One((w.gens[g].kind == Traffic) == b) {
      LiveLess(w, r, g, b);
    }
  }

  lemma LiveLess(w: World, r: World, g: Ref, b: bool)
    requires g in w.gens && w.gens[g].live && r.gens == w.gens[g := w.gens[g].(live := false)]
    ensures |LiveOf(w, b)| == |LiveOf(r, b)| + One((w.gens[g].kind == Traffic) == b)
  {
    assert LiveOf(w, b) == if (w.gens[g].kind == Traffic) == b then LiveOf(r, b) + {g} else LiveOf(r, b);
  }

  lemma OwnFlagsAdd(gen: Gen, flags: set<Flag>)
    requires Fits(gen.kind, flags)
    ensures var f := flags + OwnFlags(gen);
            (StreamComplete in f <==> StreamComplete in flags) && !IsCreation(f) &&
            One(FlowComplete in f) == One(FlowComplete in flags) + One(gen.kind != Traffic) &&
            One(TrafficComplete in f) == One(gen.kind == Traffic) && (gen.kind != Traffic ==> TrafficSuccess !in f)
  {
  }

  lemma ClosedTallies(w: World, x: Stage, g: Ref)
    requires TalliesOk(w, x) && g in w.gens && w.gens[g].live && Fits(w.gens[g].kind, x.flags)
    ensures TalliesOk(Closed(w, g), ClosedStage(w, x, g))
  {
    hide LiveOf, OwnFlags, Judged, Carried;
    VerdictsClosed(w, x, g);
    ClosedLive(w, g);
    OwnFlagsAdd(w.gens[g], x.flags);
  }

  /** A generator announces its completion: only with no live child, and with its counters even. */
  lemma CloseKeeps(w: World, x: Stage, g: Ref)
    requires Inv(w, x) && g in w.gens && w.gens[g].live && Due(w.gens[g]) && g !in x.over && x.owed.None?
    requires x.check == None || x.check == Some(g)
    requires Fits(w.gens[g].kind, x.flags)
    ensures Inv(Closed(w, g), ClosedStage(w, x, g)) && g !in x.active
    ensures Held(w.running, g) == 0 && Held(w.open, g) == 0 && Held(w.timers, g) == 0
  {
    hide Held, LinksOk, TalliesOk, Recorded;
    var r, y := Closed(w, g), ClosedStage(w, x, g);
    assert GenOk(w, x, g);
    ClosedLinks(w, x, g);
    ClosedTallies(w, x, g);
    RecordedClosed(w, x, g);
    forall h | h in r.gens ensures GenOk(r, y, h) {
      assert GenOk(w, x, h);
      ClosedGen(w, x, g, h);
    }
  }

  lemma ClosedGen(w: World, x: Stage, g: Ref, h: Ref)
    requires LinksOk(w, x) && g in w.gens && h in w.gens && GenOk(w, x, h) && GenOk(w, x, g) && w.gens[g].live && Due(w.gens[g])
    requires g !in x.over && x.owed.None? && (x.check == None || x.check == Some(g))
    ensures GenOk(Closed(w, g), ClosedStage(w, x, g), h)
  {
    hide Held, Right, OwnFlags;
    var r, y, f := Closed(w, g), ClosedStage(w, x, g), FactsOf(w, x, h);
    DueIsIdle(w.gens[g], FactsOf(w, x, g));
    ParentNotSelf(w, x, g);
    if g in w.open { HeldDrop(w.open, g); } else { assert w.open - {g} == w.open; }
    if h == g {
      assert FactsOf(r, y, g) == f.(check := false, over := true);
    } else if g in w.parent && w.parent[g] == h {
      assert FactsOf(r, y, h) == f.(open := f.open - 1, owed := true);
      OpenToOwed(w.gens[h], f);
    } else {
      assert FactsOf(r, y, h) == f;
    }
  }

  lemma ParentNotSelf(w: World, x: Stage, g: Ref)
    requires LinksOk(w, x)
    ensures g in w.parent ==> w.parent[g] != g && w.parent[g] in w.gens
    ensures g in w.parent && g in w.gens && w.gens[g].live ==> g in w.open && w.open[g] == w.parent[g]
    ensures g !in w.parent ==> g !in w.open
  {
  }

  /** A generator that is due has no live child and no timer, and is right once it is closed. */
  lemma DueIsIdle(gen: Gen, f: Facts)
    requires Right(gen, f) && Due(gen) && gen.live && !f.over && !f.owed
    ensures f.running == 0 && f.open == 0 && f.timers == 0 && !f.active
    ensures Right(gen.(live := false), f.(check := false, over := true))
  {
  }

  lemma OpenToOwed(gen: Gen, f: Facts)
    requires Right(gen, f) && !f.owed && f.open > 0
    ensures Right(gen, f.(open := f.open - 1, owed := true))
  {
  }

  /** A report travels up: the parent counts an announced child, and may announce itself. */
  lemma NotifyKeeps(w: World, x: Stage, g: Ref, finished: bool)
    requires Inv(w, x) && g in w.gens && x.check.None? && !IsCreation(x.flags) && x.flags != {}
    requires x.owed == if g in w.parent && FlowComplete in x.flags then Some(w.parent[g]) else None
    requires g in w.parent ==> w.parent[g] !in x.over && Fits(Traffic, x.flags) && (x.owed.None? ==> w.gens[g].live)
    ensures Inv(Notify(w, g, x.flags, finished), x.(flags := {}, owed := None))
    decreases if g in w.parent then 1 else 0, 1
  {
    hide Inv, GenOk, TalliesOk, FactsOf, Right, Report, Unref, Recorded;
    if g !in w.parent {
      ReportKeeps(w, x, if finished then Some(g) else None);
    } else {
      var p := w.parent[g];
      ParentFacts(w, x, g);
      var gen := w.gens[p];
      if FlowComplete in x.flags {
        var counted := gen.(completed := gen.completed + 1);
        var y := x.(owed := None, check := if p in x.active then None else Some(p));
        CountChild(w, x, p, y);
        PutKeeps(w, x, p, counted, y);
        CompleteKeeps(Put(w, p, counted), y, p);
      } else {
        CompleteKeeps(w, x, p);
      }
    }
  }

  lemma ParentFacts(w: World, x: Stage, g: Ref)
    requires Inv(w, x) && g in w.parent
    requires x.owed == Some(w.parent[g]) || (x.owed.None? && w.gens[g].live)
    ensures var p := w.parent[g]; p in w.gens && w.gens[p].kind == Traffic && p !in w.parent && w.gens[p].live
  {
    var p := w.parent[g];
    assert GenOk(w, x, p);
    if g in w.open { HeldSome(w.open, g); }
  }

  lemma CountChild(w: World, x: Stage, p: Ref, y: Stage)
    requires Inv(w, x) && p in w.gens && x.owed == Some(p) && x.check.None?
    requires y == x.(owed := None, check := if p in x.active then None else Some(p))
    ensures Right(w.gens[p].(completed := w.gens[p].completed + 1), FactsOf(w, y, p))
  {
    hide Held, Recorded;
    assert GenOk(w, x, p);
  }

  /** _tgengenerator_onCompleteHelper, with a generator to check or one that only passes on. */
  lemma CompleteKeeps(w: World, x: Stage, g: Ref)
    requires Inv(w, x) && g in w.gens && w.gens[g].live && g !in x.over && x.owed.None?
    requires x.check == None || x.check == Some(g)
    requires Fits(w.gens[g].kind, x.flags) && (g in w.parent ==> w.parent[g] !in x.over)
    ensures Inv(CompleteHelper(w, g, x.flags), x.(check := None, flags := {}))
    decreases if g in w.parent then 1 else 0, 2
  {
    hide Inv, GenOk, TalliesOk, FactsOf, Right, Report, Unref, Notify, OwnFlags, Recorded;
    if Due(w.gens[g]) {
      var c, y := Closed(w, g), ClosedStage(w, x, g);
      CloseKeeps(w, x, g);
      ClosingFacts(w, x, g);
      NotifyKeeps(c, y, g, true);
      UnrefKeeps(Notify(c, g, y.flags, true), y.(flags := {}, owed := None), g);
      assert y.over - {g} == x.over;
    } else {
      CheckedOff(w, x, g);
      if x.flags != {} {
        PassingFacts(w, x, g);
        NotifyKeeps(w, x.(check := None), g, false);
      }
    }
  }

  lemma ClosingFacts(w: World, x: Stage, g: Ref)
    requires Inv(w, x) && g in w.gens && Fits(w.gens[g].kind, x.flags) && (g in w.parent ==> w.parent[g] !in x.over)
    ensures var f := x.flags + OwnFlags(w.gens[g]);
            f != {} && !IsCreation(f) && (g in w.parent ==> FlowComplete in f && Fits(Traffic, f) && w.parent[g] != g)
  {
    hide GenOk, TalliesOk, OwnFlags, Recorded;
    OwnFlagsAdd(w.gens[g], x.flags);
    assert FlowComplete in x.flags + OwnFlags(w.gens[g]) || TrafficComplete in x.flags + OwnFlags(w.gens[g]);
  }

  lemma PassingFacts(w: World, x: Stage, g: Ref)
    requires Inv(w, x) && g in w.gens && Fits(w.gens[g].kind, x.flags)
    ensures g in w.parent ==> FlowComplete !in x.flags
  {
  }

  /** A generator that turns out not to be done needs no further check. */
  lemma CheckedOff(w: World, x: Stage, g: Ref)
    requires Inv(w, x) && g in w.gens && !Due(w.gens[g]) && (x.check == None || x.check == Some(g))
    ensures Inv(w, x.(check := None))
  {
    hide Held, Right, TalliesOk, Recorded;
    var y := x.(check := None);
    assert TalliesOk(w, y) by { TalliesSame(w, x, w, y); }
    forall h | h in w.gens ensures GenOk(w, y, h) {
      assert GenOk(w, x, h);
      Unchecked(w.gens[h], FactsOf(w, x, h));
      assert FactsOf(w, y, h) == FactsOf(w, x, h).(check := false);
    }
  }

  lemma Unchecked(gen: Gen, f: Facts)
    requires Right(gen, f) && (f.check ==> !Due(gen))
    ensures Right(gen, f.(check := false))
  {
  }

  // ---- Generating ----

  lemma CreationGoesUp(w: World, g: Ref, flags: set<Flag>)
    requires g in w.gens && IsCreation(flags) && (g in w.parent ==> w.parent[g] in w.gens && w.parent[g] !in w.parent)
    ensures OnNotify(w, g, flags) == ToDriver(w, flags, None)
  {
    hide Report, CompleteHelper;
    if g in w.parent {
      var p := w.parent[g];
      assert OnNotify(w, p, flags) == Notify(w, p, flags, false) == ToDriver(w, flags, None);
      assert Notify(w, g, flags, false) == OnNotify(w, p, flags);
    }
  }

  function WithStream(w: World, g: Ref): World
    requires g in w.gens
  {
    var gen := w.gens[g];
    Put(w, g, gen.(refs := gen.refs + 1, generated := gen.generated + 1))
      .(streams := w.streams[w.next := g], running := w.running[w.next := g], next := w.next + 1,
        totals := Report(w.totals, {StreamCreated}), notes := w.notes + [Note({StreamCreated}, None)])
  }

  /** Flows do not mind more streams. */
  lemma FlowsSame(w: World, r: World)
    requires FlowsRelated(w) && r.parent == w.parent && r.open == w.open
    requires forall g :: g in w.gens ==> g in r.gens && r.gens[g].kind == w.gens[g].kind && r.gens[g].live == w.gens[g].live
    ensures FlowsRelated(r)
  {
  }

  lemma WithStreamRelated(w: World, g: Ref)
    requires InUse(w) && Related(w) && g in w.gens && w.gens[g].kind != Traffic
    ensures Related(WithStream(w, g))
  {
    hide Report, FlowsRelated;
    FlowsSame(w, WithStream(w, g));
  }

  lemma WithStreamLinks(w: World, x: Stage, g: Ref)
    requires LinksOk(w, x) && g in w.gens && w.gens[g].kind != Traffic
    ensures LinksOk(WithStream(w, g), x)
  {
    hide Report, Related;
    WithStreamRelated(w, g);
  }

  lemma PutPut(m: map<Ref, Gen>, g: Ref, a: Gen, b: Gen)
    ensures m[g := a][g := b] == m[g := b]
  {
  }

  lemma StreamCreation(w: World, g: Ref)
    requires g in w.gens && (g in w.parent ==> w.parent[g] in w.gens && w.parent[g] !in w.parent)
    ensures CreateStream(w, g) == WithStream(w, g)
  {
    hide Report, OnNotify, Shrinks, KindsKept;
    var gen := w.gens[g];
    var s := AddRef(w, g).(streams := w.streams[w.next := g], running := w.running[w.next := g], next := w.next + 1);
    CreationGoesUp(s, g, {StreamCreated});
    PutPut(w.gens, g, gen.(refs := gen.refs + 1), gen.(refs := gen.refs + 1, generated := gen.generated + 1));
  }

  lemma ParentLinks(w: World, x: Stage, g: Ref)
    requires LinksOk(w, x) && g in w.gens
    ensures g in w.parent ==> w.parent[g] in w.gens && w.parent[g] !in w.parent
  {
  }

  /** The same generators are live. */
  lemma LiveKept(w: World, r: World)
    requires forall g :: g in w.gens && w.gens[g].live ==> g in r.gens && r.gens[g].live && r.gens[g].kind == w.gens[g].kind
    requires forall g :: g in r.gens && r.gens[g].live ==> g in w.gens && w.gens[g].live
    ensures forall b :: LiveOf(r, b) == LiveOf(w, b)
  {
  }

  /** One more generator is live. */
  lemma LiveAdded(w: World, r: World, f: Ref)
    requires f !in w.gens && f in r.gens && r.gens[f].live
    requires forall g :: g in w.gens && w.gens[g].live ==> g in r.gens && r.gens[g].live && r.gens[g].kind == w.gens[g].kind
    requires forall g :: g in r.gens && r.gens[g].live && g != f ==> g in w.gens && w.gens[g].live
    ensures forall b :: |LiveOf(r, b)| == |LiveOf(w, b)| + One((r.gens[f].kind == Traffic) == b)
  {
    forall b ensures |LiveOf(r, b)| == |LiveOf(w, b)| + One((r.gens[f].kind == Traffic) == b) {
      LiveMore(w, r, f, b);
    }
  }

  lemma LiveMore(w: World, r: World, f: Ref, b: bool)
    requires f !in w.gens && f in r.gens && r.gens[f].live
    requires forall g :: g in w.gens && w.gens[g].live ==> g in r.gens && r.gens[g].live && r.gens[g].kind == w.gens[g].kind
    requires forall g :: g in r.gens && r.gens[g].live && g != f ==> g in w.gens && w.gens[g].live
    ensures |LiveOf(r, b)| == |LiveOf(w, b)| + One((r.gens[f].kind == Traffic) == b)
  {
    assert LiveOf(r, b) == if (r.gens[f].kind == Traffic) == b then LiveOf(w, b) + {f} else LiveOf(w, b);
  }

  lemma WithStreamTallies(w: World, x: Stage, g: Ref)
    requires TalliesOk(w, x) && g in w.gens && w.next !in w.running && x.flags == {}
    ensures TalliesOk(WithStream(w, g), x)
  {
    hide LiveOf, Judged, Carried;
    VerdictsNoted(w, x, WithStream(w, g), x, Note({StreamCreated}, None));
    LiveKept(w, WithStream(w, g));
  }

  lemma MoreStreams(gen: Gen, f: Facts)
    requires Right(gen, f) && f.active
    ensures Right(gen.(refs := gen.refs + 1, generated := gen.generated + 1), f.(streams := f.streams + 1, running := f.running + 1))
  {
  }

  lemma RecordedStream(w: World, g: Ref)
    requires Recorded(w) && g in w.gens
    ensures Recorded(WithStream(w, g))
  {
    hide Recorded, Report;
    var gen := w.gens[g];
    var r := Put(w, g, gen.(refs := gen.refs + 1, generated := gen.generated + 1))
      .(streams := w.streams[w.next := g], running := w.running[w.next := g], next := w.next + 1);
    RecordedSame(w, r);
    RecordedNote(r, {StreamCreated}, None);
  }

  lemma CreateStreamKeeps(w: World, x: Stage, g: Ref)
    requires Inv(w, x) && g in x.active && w.gens[g].kind != Traffic && x.flags == {}
    ensures Inv(CreateStream(w, g), x) && CreateStream(w, g) == WithStream(w, g)
  {
    hide Held, LinksOk, TalliesOk, Right, Recorded, CreateStream, Report;
    InLinks(w, x, g);
    NextIsNew(w, x);
    WithStreamLinks(w, x, g);
    RecordedStream(w, g);
    ParentLinks(w, x, g);
    StreamCreation(w, g);
    WithStreamTallies(w, x, g);
    forall h | h in WithStream(w, g).gens ensures GenOk(WithStream(w, g), x, h) {
      assert GenOk(w, x, h);
      WithStreamGen(w, x, g, h);
    }
  }

  lemma WithStreamGen(w: World, x: Stage, g: Ref, h: Ref)
    requires g in w.gens && h in w.gens && GenOk(w, x, h) && g in x.active && w.next !in w.streams && w.next !in w.running
    ensures GenOk(WithStream(w, g), x, h)
  {
    hide Held, Right, Report;
    var r, f := WithStream(w, g), FactsOf(w, x, h);
    HeldAdd(w.streams, w.next, g);
    HeldAdd(w.running, w.next, g);
    if h != g {
      assert FactsOf(r, x, h) == f;
    } else {
      MoreStreams(w.gens[g], f);
      assert FactsOf(r, x, g) == f.(streams := f.streams + 1, running := f.running + 1);
    }
  }

  lemma NextIsNew(w: World, x: Stage)
    requires LinksOk(w, x)
    ensures w.next !in w.gens && w.next !in w.streams && w.next !in w.running && w.next !in w.timers
    ensures w.next !in w.parent && w.next !in w.open
  {
  }

  function WithTimer(w: World, g: Ref): World
    requires g in w.gens
  {
    Put(w, g, w.gens[g].(refs := w.gens[g].refs + 1)).(timers := w.timers[w.next := g], next := w.next + 1)
  }

  lemma WithTimerRelated(w: World, g: Ref)
    requires InUse(w) && Related(w) && g in w.gens && w.gens[g].kind != Single
    ensures Related(WithTimer(w, g))
  {
    hide FlowsRelated;
    FlowsSame(w, WithTimer(w, g));
  }

  lemma WithTimerLinks(w: World, x: Stage, g: Ref)
    requires LinksOk(w, x) && g in x.active && w.gens[g].kind != Single
    ensures LinksOk(WithTimer(w, g), x.(active := x.active - {g}))
  {
    hide Related;
    WithTimerRelated(w, g);
  }

  lemma NewTimer(gen: Gen, f: Facts)
    requires Right(gen, f) && f.active
    ensures Right(gen.(refs := gen.refs + 1), f.(timers := f.timers + 1, active := false))
  {
  }

  lemma TimerKeeps(w: World, x: Stage, g: Ref)
    requires Inv(w, x) && g in x.active && w.gens[g].kind != Single
    ensures Inv(WithTimer(w, g), x.(active := x.active - {g}))
  {
    hide Held, LinksOk, TalliesOk, Right, Recorded;
    InLinks(w, x, g);
    NextIsNew(w, x);
    WithTimerLinks(w, x, g);
    var r, y := WithTimer(w, g), x.(active := x.active - {g});
    TalliesSame(w, x, r, y);
    RecordedSame(w, r);
    forall h | h in r.gens ensures GenOk(r, y, h) {
      assert GenOk(w, x, h);
      TimerGen(w, x, g, h);
    }
  }

  lemma TimerGen(w: World, x: Stage, g: Ref, h: Ref)
    requires g in w.gens && h in w.gens && GenOk(w, x, h) && g in x.active && w.next !in w.timers
    ensures GenOk(WithTimer(w, g), x.(active := x.active - {g}), h)
  {
    hide Held, Right;
    var r, y := WithTimer(w, g), x.(active := x.active - {g});
    HeldAdd(w.timers, w.next, g);
    if h != g {
      assert FactsOf(r, y, h) == FactsOf(w, x, h);
    } else {
      NewTimer(w.gens[g], FactsOf(w, x, g));
      assert FactsOf(r, y, g) == FactsOf(w, x, g).(timers := FactsOf(w, x, g).timers + 1, active := false);
    }
  }

  /** Where a generator may go on: nothing else of the call is pending. */
  ghost predicate Generating(x: Stage, g: Ref) {
    g in x.active && x.check.None? && x.over == {} && x.owed.None? && x.flags == {}
  }

  lemma Stopped(gen: Gen, f: Facts, stopped: Gen)
    requires Right(gen, f) && f.active && (stopped == gen.(error := true) || stopped == gen.(ended := true))
    ensures Right(stopped, f.(active := false, check := true)) && gen.live
  {
  }

  /** The generator stops generating, by an error or at the end of its model. */
  lemma StopKeeps(w: World, x: Stage, g: Ref, gen: Gen)
    requires Inv(w, x) && Generating(x, g)
    requires gen == w.gens[g].(error := true) || gen == w.gens[g].(ended := true)
    ensures Inv(CompleteHelper(Put(w, g, gen), g, {}), x.(active := x.active - {g}))
  {
    hide Held, TalliesOk, LinksOk, Right, CompleteHelper, Recorded;
    InLinks(w, x, g);
    var y := x.(active := x.active - {g}, check := Some(g));
    assert GenOk(w, x, g);
    Stopped(w.gens[g], FactsOf(w, x, g), gen);
    assert FactsOf(w, y, g) == FactsOf(w, x, g).(active := false, check := true);
    PutKeeps(w, x, g, gen, y);
    CompleteKeeps(Put(w, g, gen), y, g);
  }

  lemma SetTimerKeeps(w: World, x: Stage, g: Ref, ok: bool)
    requires Inv(w, x) && Generating(x, g) && w.gens[g].kind != Single
    ensures Inv(SetTimer(w, g, ok), x.(active := x.active - {g}))
  {
    hide GenOk, TalliesOk, CompleteHelper, Recorded;
    if ok { TimerKeeps(w, x, g); } else { StopKeeps(w, x, g, w.gens[g].(error := true)); }
  }

  lemma FlowNextKeeps(w: World, x: Stage, g: Ref, c: FlowChoice)
    requires Inv(w, x) && Generating(x, g) && w.gens[g].kind == Flow
    ensures Inv(FlowNext(w, g, c), x.(active := x.active - {g}))
  {
    hide GenOk, TalliesOk, CompleteHelper, SetTimer, CreateStream, Recorded;
    if c.FlowEnds? {
      StopKeeps(w, x, g, w.gens[g].(ended := true));
    } else {
      if c.created { CreateStreamKeeps(w, x, g); }
      SetTimerKeeps(if c.created then CreateStream(w, g) else w, x, g, c.timer);
    }
  }

  /** A traffic generator with its new flow, just before that flow starts. */
  function WithFlow(w: World, g: Ref): World
    requires g in w.gens
  {
    var f, gen := w.next, w.gens[g];
    w.(gens := w.gens[f := Gen(Flow, 0, 0, false, false, true, 1)][g := gen.(refs := gen.refs + 1, generated := gen.generated + 1)],
       parent := w.parent[f := g], open := w.open[f := g], next := f + 1,
       totals := Report(w.totals, {FlowCreated}), notes := w.notes + [Note({FlowCreated}, None)])
  }

  lemma FlowCounted(w: World, g: Ref)
    requires g in w.gens && w.next !in w.gens
    ensures g in Adopt(w, g).gens && CountFlow(ToDriver(Adopt(w, g), {FlowCreated}, None), g, w.next) == WithFlow(w, g)
  {
    hide Report;
    assert WithFlow(w, g).gens == CountFlow(Adopt(w, g), g, w.next).gens;
  }

  lemma FlowCreation(w: World, g: Ref, c: FlowChoice)
    requires g in w.gens && g !in w.parent && w.next !in w.gens
    ensures CreateFlow(w, g, c) == FlowNext(WithFlow(w, g), w.next, c)
  {
    hide Report, OnNotify, FlowNext, Shrinks, KindsKept, WithFlow, CountFlow, OneNote;
    CreationGoesUp(Adopt(w, g), g, {FlowCreated});
    FlowCounted(w, g);
  }

  /** Streams and timers do not mind more generators. */
  lemma LeavesSame(w: World, r: World)
    requires LeavesRelated(w) && r.streams == w.streams && r.running == w.running && r.timers == w.timers
    requires forall g :: g in w.gens ==> g in r.gens && r.gens[g].kind == w.gens[g].kind
    ensures LeavesRelated(r)
  {
  }

  lemma WithFlowRelated(w: World, g: Ref)
    requires InUse(w) && Related(w) && g in w.gens && w.gens[g].kind == Traffic
    ensures Related(WithFlow(w, g)) && g !in w.parent
  {
    hide Report, LeavesRelated, FlowsRelated;
    LeavesSame(w, WithFlow(w, g));
    MoreRelated(w, g);
  }

  lemma MoreRelated(w: World, g: Ref)
    requires FlowsRelated(w) && g in w.gens && w.gens[g].kind == Traffic && w.next !in w.gens
    ensures FlowsRelated(WithFlow(w, g)) && g !in w.parent
  {
    hide Report;
    var r := WithFlow(w, g);
    assert w.next !in w.parent && w.next !in w.open && g !in w.parent;
    forall f | f in r.parent
      ensures f in r.gens && r.gens[f].kind == Flow && r.parent[f] in r.gens && r.gens[r.parent[f]].kind == Traffic
      ensures r.parent[f] !in r.parent
    {
    }
  }

  lemma WithFlowLinks(w: World, x: Stage, g: Ref)
    requires LinksOk(w, x) && g in w.gens && w.gens[g].kind == Traffic
    ensures LinksOk(WithFlow(w, g), x.(active := x.active + {w.next})) && g !in w.parent
  {
    hide Report, Related;
    WithFlowRelated(w, g);
  }

  lemma WithFlowTallies(w: World, x: Stage, g: Ref)
    requires TalliesOk(w, x) && g in w.gens && w.next !in w.gens && x.flags == {}
    ensures TalliesOk(WithFlow(w, g), x.(active := x.active + {w.next}))
  {
    hide LiveOf, Judged, Carried;
    VerdictsNoted(w, x, WithFlow(w, g), x.(active := x.active + {w.next}), Note({FlowCreated}, None));
    LiveAdded(w, WithFlow(w, g), w.next);
  }

  /** Nothing refers to an address that is not in use. */
  lemma NothingYet(w: World, x: Stage, f: Ref)
    requires LinksOk(w, x) && f !in w.gens
    ensures Held(w.parent, f) == 0 && Held(w.streams, f) == 0 && Held(w.timers, f) == 0 && Held(w.running, f) == 0 && Held(w.open, f) == 0
    ensures w.firing != Some(f) && x.check != Some(f) && f !in x.over && x.owed != Some(f)
  {
    assert Pointing(w.parent, f) == {} && Pointing(w.streams, f) == {} && Pointing(w.timers, f) == {};
    assert Pointing(w.running, f) == {} && Pointing(w.open, f) == {};
  }

  lemma MoreFlows(gen: Gen, f: Facts)
    requires Right(gen, f) && f.active
    ensures Right(gen.(refs := gen.refs + 1, generated := gen.generated + 1), f.(flows := f.flows + 1, open := f.open + 1))
  {
  }

  lemma NewFlowGen(w: World, x: Stage, g: Ref)
    requires LinksOk(w, x) && g in w.gens && w.next !in w.gens && w.next !in w.parent && w.next !in w.open
    ensures GenOk(WithFlow(w, g), x.(active := x.active + {w.next}), w.next)
  {
    hide Held, LinksOk, Report, Right;
    var f, r, y := w.next, WithFlow(w, g), x.(active := x.active + {w.next});
    FlowHeld(w, g);
    NothingYet(w, x, f);
    assert FactsOf(r, y, f) == Facts(0, 0, 0, 0, 0, false, true, false, false, false);
    JustBorn(r.gens[f], FactsOf(r, y, f));
  }

  lemma ParentFlowGen(w: World, x: Stage, g: Ref)
    requires g in x.active && g in w.gens && GenOk(w, x, g) && w.next !in w.gens && w.next !in w.parent && w.next !in w.open
    ensures GenOk(WithFlow(w, g), x.(active := x.active + {w.next}), g)
  {
    hide Held, Report, Right;
    var r, y, f := WithFlow(w, g), x.(active := x.active + {w.next}), FactsOf(w, x, g);
    FlowHeld(w, g);
    MoreFlows(w.gens[g], f);
    assert FactsOf(r, y, g) == f.(flows := f.flows + 1, open := f.open + 1);
  }

  lemma WithFlowGen(w: World, x: Stage, g: Ref, h: Ref)
    requires LinksOk(w, x) && g in x.active && g in w.gens && w.next !in w.gens && w.next !in w.parent && w.next !in w.open
    requires h in w.gens ==> GenOk(w, x, h)
    requires h in w.gens || h == w.next
    ensures GenOk(WithFlow(w, g), x.(active := x.active + {w.next}), h)
  {
    hide Held, LinksOk, Report, Right;
    if h == w.next {
      NewFlowGen(w, x, g);
    } else if h == g {
      ParentFlowGen(w, x, g);
    } else {
      FlowHeld(w, g);
      assert FactsOf(WithFlow(w, g), x.(active := x.active + {w.next}), h) == FactsOf(w, x, h);
    }
  }

  lemma FlowHeld(w: World, g: Ref)
    requires g in w.gens && w.next !in w.parent && w.next !in w.open
    ensures forall h :: Held(WithFlow(w, g).parent, h) == Held(w.parent, h) + One(g == h)
    ensures forall h :: Held(WithFlow(w, g).open, h) == Held(w.open, h) + One(g == h)
  {
    HeldAdd(w.parent, w.next, g);
    HeldAdd(w.open, w.next, g);
  }

  /** A new generator has only the reference to itself, and is about to generate. */
  lemma JustBorn(gen: Gen, f: Facts)
    requires gen == Gen(gen.kind, 0, 0, false, false, true, 1) && f == Facts(0, 0, 0, 0, 0, false, true, false, false, false)
    ensures Right(gen, f)
  {
  }

  lemma RecordedFlow(w: World, x: Stage, g: Ref)
    requires Recorded(w) && LinksOk(w, x) && g in w.gens
    ensures Recorded(WithFlow(w, g))
  {
    hide Recorded, Report, LinksOk;
    NextIsNew(w, x);
    var r := WithFlow(w, g).(totals := w.totals, notes := w.notes);
    RecordedSame(w, r);
    RecordedNote(r, {FlowCreated}, None);
  }

  lemma CreateFlowKeeps(w: World, x: Stage, g: Ref, c: FlowChoice)
    requires Inv(w, x) && Generating(x, g) && w.gens[g].kind == Traffic
    ensures Inv(CreateFlow(w, g, c), x)
  {
    hide Held, LinksOk, TalliesOk, GenOk, Recorded, CreateFlow, FlowNext, Report;
    InLinks(w, x, g);
    NextIsNew(w, x);
    var r, y := WithFlow(w, g), x.(active := x.active + {w.next});
    WithFlowLinks(w, x, g);
    WithFlowTallies(w, x, g);
    RecordedFlow(w, x, g);
    FlowCreation(w, g, c);
    forall h | h in r.gens ensures GenOk(r, y, h) {
      WithFlowGen(w, x, g, h);
    }
    FlowNextKeeps(r, y, w.next, c);
    NewIsInactive(w, x);
    assert y.active - {w.next} == x.active;
  }

  lemma NewIsInactive(w: World, x: Stage)
    requires LinksOk(w, x)
    ensures w.next !in x.active
  {
  }

  lemma TrafficNextKeeps(w: World, x: Stage, g: Ref, c: TrafficChoice)
    requires Inv(w, x) && Generating(x, g) && w.gens[g].kind == Traffic
    ensures Inv(TrafficNext(w, g, c), x.(active := x.active - {g}))
  {
    hide LinksOk, GenOk, TalliesOk, CompleteHelper, SetTimer, CreateFlow, FlowNext, Recorded;
    InLinks(w, x, g);
    if c.TrafficEnds? {
      StopKeeps(w, x, g, w.gens[g].(ended := true));
    } else {
      CreateFlowKeeps(w, x, g, c.first);
      var r := CreateFlow(w, g, c.first);
      InLinks(r, x, g);
      StaysTraffic(w, x, g, c.first);
      SetTimerKeeps(r, x, g, c.timer);
    }
  }

  lemma StaysTraffic(w: World, x: Stage, g: Ref, c: FlowChoice)
    requires LinksOk(w, x) && g in w.gens && w.gens[g].kind == Traffic && g in CreateFlow(w, g, c).gens
    ensures CreateFlow(w, g, c).gens[g].kind == Traffic
  {
    hide FlowNext, CreateFlow;
    NextIsNew(w, x);
    WithFlowLinks(w, x, g);
    FlowCreation(w, g, c);
  }

  lemma SingleStartKeeps(w: World, x: Stage, g: Ref, created: bool)
    requires Inv(w, x) && Generating(x, g) && w.gens[g].kind == Single
    ensures Inv(SingleStart(w, g, created), x.(active := x.active - {g}))
  {
    hide LinksOk, Held, GenOk, TalliesOk, CompleteHelper, CreateStream, Right, Recorded;
    InLinks(w, x, g);
    if created {
      CreateStreamKeeps(w, x, g);
      var s, y := WithStream(w, g), x.(active := x.active - {g});
      OneRunning(w, x, g);
      PutKeeps(s, x, g, s.gens[g].(ended := true), y);
    } else {
      StopKeeps(w, x, g, w.gens[g].(error := true));
    }
  }

  lemma OneRunning(w: World, x: Stage, g: Ref)
    requires Inv(w, x) && g in w.gens && Inv(WithStream(w, g), x) && Generating(x, g)
    ensures Right(WithStream(w, g).gens[g].(ended := true), FactsOf(WithStream(w, g), x.(active := x.active - {g}), g))
  {
    hide Held, Right, LinksOk, TalliesOk, Report, Recorded;
    InLinks(w, x, g);
    var s, y := WithStream(w, g), x.(active := x.active - {g});
    assert GenOk(s, x, g);
    assert s.running[w.next] == g;
    HeldSome(s.running, w.next);
    EndedRunning(s.gens[g], FactsOf(s, x, g));
    assert FactsOf(s, y, g) == FactsOf(s, x, g).(active := false);
  }

  lemma EndedRunning(gen: Gen, f: Facts)
    requires Right(gen, f) && f.active && f.running > 0
    ensures Right(gen.(ended := true), f.(active := false))
  {
  }

  // ---- Events ----

  /** Between events no call is unfinished. */
  ghost predicate Quiet(w: World) {
    Inv(w, QUIET) && w.firing.None?
  }

  lemma NewRootKeeps(w: World, kind: Kind)
    requires Quiet(w)
    ensures Inv(NewRoot(w, kind), QUIET.(active := {w.next})) && Generating(QUIET.(active := {w.next}), w.next)
  {
    hide Held, LinksOk, TalliesOk, GenOk, Report, Recorded;
    var r, y, f := NewRoot(w, kind), QUIET.(active := {w.next}), w.next;
    RecordedRoot(w, QUIET, kind);
    NextIsNew(w, QUIET);
    RootLinks(w, kind);
    RootTallies(w, kind);
    forall h | h in r.gens ensures GenOk(r, y, h) {
      RootGen(w, kind, h);
    }
  }

  lemma RootRelated(w: World, kind: Kind)
    requires InUse(w) && Related(w)
    ensures Related(NewRoot(w, kind))
  {
    hide Report, LeavesRelated, FlowsRelated;
    LeavesSame(w, NewRoot(w, kind));
    FlowsSame(w, NewRoot(w, kind));
  }

  lemma RootLinks(w: World, kind: Kind)
    requires LinksOk(w, QUIET)
    ensures LinksOk(NewRoot(w, kind), QUIET.(active := {w.next}))
  {
    hide Report, Related;
    RootRelated(w, kind);
  }

  lemma RootGen(w: World, kind: Kind, h: Ref)
    requires LinksOk(w, QUIET) && w.next !in w.gens && (h == w.next || (h in w.gens && GenOk(w, QUIET, h)))
    ensures GenOk(NewRoot(w, kind), QUIET.(active := {w.next}), h)
  {
    hide Held, LinksOk, Report;
    var r, y := NewRoot(w, kind), QUIET.(active := {w.next});
    if h == w.next {
      NothingYet(w, QUIET, h);
    } else {
      assert FactsOf(r, y, h) == FactsOf(w, QUIET, h);
    }
  }

  lemma RootTallies(w: World, kind: Kind)
    requires TalliesOk(w, QUIET) && w.next !in w.gens
    ensures TalliesOk(NewRoot(w, kind), QUIET.(active := {w.next}))
  {
    hide LiveOf, Judged, Carried;
    VerdictsNoted(w, QUIET, NewRoot(w, kind), QUIET.(active := {w.next}), Note(Announce(kind), None));
    LiveAdded(w, NewRoot(w, kind), w.next);
  }

  function Expired(w: World, t: Ref): World
    requires t in w.timers
  {
    w.(timers := w.timers - {t}, firing := Some(w.timers[t]))
  }

  /** A timer fires: it no longer counts as pending, but still holds its generator. */
  lemma ExpireKeeps(w: World, t: Ref)
    requires Quiet(w) && t in w.timers
    ensures Inv(Expired(w, t), QUIET.(active := {w.timers[t]})) && w.timers[t] in w.gens && w.gens[w.timers[t]].kind != Single
  {
    hide Held, LinksOk, TalliesOk, GenOk, Recorded;
    var r, y := Expired(w, t), QUIET.(active := {w.timers[t]});
    ExpiredLinks(w, t);
    TalliesSame(w, QUIET, r, y);
    RecordedSame(w, r);
    forall h | h in r.gens ensures GenOk(r, y, h) {
      ExpiredGen(w, t, h);
    }
  }

  lemma ExpiredLinks(w: World, t: Ref)
    requires LinksOk(w, QUIET) && t in w.timers
    ensures LinksOk(Expired(w, t), QUIET.(active := {w.timers[t]})) && w.timers[t] in w.gens && w.gens[w.timers[t]].kind != Single
  {
  }

  lemma ExpiredGen(w: World, t: Ref, h: Ref)
    requires t in w.timers && h in w.gens && GenOk(w, QUIET, h) && w.firing.None?
    ensures GenOk(Expired(w, t), QUIET.(active := {w.timers[t]}), h)
  {
    hide Held, Right;
    var r, y, f := Expired(w, t), QUIET.(active := {w.timers[t]}), FactsOf(w, QUIET, h);
    HeldDrop(w.timers, t);
    if h != w.timers[t] {
      assert FactsOf(r, y, h) == f;
    } else {
      assert FactsOf(r, y, h) == f.(timers := f.timers - 1, firing := true, active := true);
      Expiring(w.gens[h], f);
    }
  }

  lemma Expiring(gen: Gen, f: Facts)
    requires Right(gen, f) && f.timers > 0 && !f.firing
    ensures Right(gen, f.(timers := f.timers - 1, firing := true, active := true))
  {
  }

  /** The handled timer lets go of its generator. */
  lemma LetGoKeeps(w: World, g: Ref)
    requires Inv(w, QUIET) && w.firing == Some(g)
    ensures Quiet(Unref(w.(firing := None), g))
  {
    hide Held, Unref, LinksOk, TalliesOk, GenOk, Recorded;
    var r, y := w.(firing := None), QUIET.(over := {g});
    LetGoLinks(w, g);
    TalliesSame(w, QUIET, r, y);
    RecordedSame(w, r);
    forall h | h in r.gens ensures GenOk(r, y, h) {
      LetGoGen(w, g, h);
    }
    ParentLinks(w, QUIET, g);
    UnrefKeeps(r, y, g);
    assert y.over - {g} == {};
  }

  lemma LetGoLinks(w: World, g: Ref)
    requires LinksOk(w, QUIET) && w.firing == Some(g)
    ensures LinksOk(w.(firing := None), QUIET.(over := {g})) && g in w.gens && (g in w.parent ==> w.parent[g] != g)
  {
  }

  lemma LetGoGen(w: World, g: Ref, h: Ref)
    requires h in w.gens && GenOk(w, QUIET, h) && w.firing == Some(g)
    ensures GenOk(w.(firing := None), QUIET.(over := {g}), h)
  {
    hide Held, Right;
    var r, y, f := w.(firing := None), QUIET.(over := {g}), FactsOf(w, QUIET, h);
    assert FactsOf(r, y, h) == f.(firing := false, over := f.firing);
    LettingGo(w.gens[h], f);
  }

  lemma LettingGo(gen: Gen, f: Facts)
    requires Right(gen, f) && !f.over
    ensures Right(gen, f.(firing := false, over := f.firing))
  {
  }

  lemma FireKeeps(w: World, t: Ref, c: TrafficChoice, d: FlowChoice)
    requires Quiet(w) && t in w.timers
    ensures Quiet(Fire(w, t, c, d))
  {
    hide LinksOk, GenOk, TalliesOk, TrafficNext, FlowNext, Unref, Recorded;
    var g := w.timers[t];
    var f, y := Expired(w, t), QUIET.(active := {g});
    ExpireKeeps(w, t);
    assert y.(active := y.active - {g}) == QUIET;
    if f.gens[g].kind == Traffic {
      TrafficNextKeeps(f, y, g, c);
      LetGoKeeps(TrafficNext(f, g, c), g);
    } else {
      FlowNextKeeps(f, y, g, d);
      LetGoKeeps(FlowNext(f, g, d), g);
    }
  }

  /** A stream has completed: its generator does not know yet. */
  function Completed(w: World, s: Ref): World {
    w.(running := w.running - {s})
  }

  lemma CompletedKeeps(w: World, s: Ref, success: bool)
    requires Quiet(w) && s in w.running
    ensures Inv(Completed(w, s), QUIET.(owed := Some(w.running[s]), flags := EndFlags(success)))
    ensures w.running[s] in w.gens && w.gens[w.running[s]].kind != Traffic && w.gens[w.running[s]].live
  {
    hide Held, LinksOk, GenOk, Recorded, TalliesOk;
    var r, y := Completed(w, s), QUIET.(owed := Some(w.running[s]), flags := EndFlags(success));
    CompletedLinks(w, s, y);
    CompletedTallies(w, s, y, success);
    RecordedSame(w, r);
    forall h | h in r.gens ensures GenOk(r, y, h) {
      CompletedGen(w, s, y, h);
    }
    RunningIsLive(w, s);
  }

  lemma CompletedTallies(w: World, s: Ref, y: Stage, success: bool)
    requires TalliesOk(w, QUIET) && s in w.running && y.flags == EndFlags(success)
    ensures TalliesOk(Completed(w, s), y)
  {
    hide LiveOf, Tells, Announced;
    var r := Completed(w, s);
    LiveKept(w, r);
    forall i | 0 <= i < |r.outcomes| ensures Told(r, y, r.outcomes[i]) {
      assert Told(w, QUIET, w.outcomes[i]);
      NothingTold(r.outcomes[i]);
    }
  }

  lemma NothingTold(o: Outcome)
    ensures !Tells(o, {})
  {
  }

  lemma RunningIsLive(w: World, s: Ref)
    requires Inv(w, QUIET) && s in w.running
    ensures w.running[s] in w.gens && w.gens[w.running[s]].live
  {
    assert GenOk(w, QUIET, w.running[s]);
    HeldSome(w.running, s);
  }

  lemma CompletedLinks(w: World, s: Ref, y: Stage)
    requires LinksOk(w, QUIET) && s in w.running && y == QUIET.(owed := Some(w.running[s]), flags := y.flags)
    ensures LinksOk(Completed(w, s), y) && w.running[s] in w.gens && w.gens[w.running[s]].kind != Traffic
  {
  }

  lemma CompletedGen(w: World, s: Ref, y: Stage, h: Ref)
    requires s in w.running && h in w.gens && GenOk(w, QUIET, h) && y == QUIET.(owed := Some(w.running[s]), flags := y.flags)
    ensures GenOk(Completed(w, s), y, h)
  {
    hide Held;
    var r, f := Completed(w, s), FactsOf(w, QUIET, h);
    HeldDrop(w.running, s);
    if h == w.running[s] {
      assert FactsOf(r, y, h) == f.(running := f.running - 1, owed := true);
    } else {
      assert FactsOf(r, y, h) == f;
    }
  }

  lemma EndStreamKeeps(w: World, s: Ref, success: bool)
    requires Quiet(w) && s in w.running
    ensures Quiet(EndStream(w, s, success))
  {
    hide Held, LinksOk, TalliesOk, Right, Recorded, CompleteHelper;
    var r, g := Completed(w, s), w.running[s];
    var x := QUIET.(owed := Some(g), flags := EndFlags(success));
    CompletedKeeps(w, s, success);
    var counted, y := r.gens[g].(completed := r.gens[g].completed + 1), x.(owed := None, check := Some(g));
    CountChild(r, x, g, y);
    PutKeeps(r, x, g, counted, y);
    CompleteKeeps(Put(r, g, counted), y, g);
    assert y.(check := None, flags := {}) == QUIET;
  }

  lemma FreeStreamKeeps(w: World, s: Ref)
    requires Quiet(w) && s in w.streams && s !in w.running
    ensures Quiet(Unref(w.(streams := w.streams - {s}), w.streams[s]))
  {
    hide Held, LinksOk, TalliesOk, GenOk, Unref, Recorded;
    var g := w.streams[s];
    var r, y := w.(streams := w.streams - {s}), QUIET.(over := {g});
    FreeStreamLinks(w, s);
    TalliesSame(w, QUIET, r, y);
    RecordedSame(w, r);
    forall h | h in r.gens ensures GenOk(r, y, h) {
      FreeStreamGen(w, s, h);
    }
    UnrefKeeps(r, y, g);
    assert y.over - {g} == {};
  }

  lemma FreeStreamLinks(w: World, s: Ref)
    requires LinksOk(w, QUIET) && s in w.streams && s !in w.running
    ensures LinksOk(w.(streams := w.streams - {s}), QUIET.(over := {w.streams[s]}))
    ensures w.streams[s] in w.parent ==> w.parent[w.streams[s]] != w.streams[s]
  {
  }

  lemma FreeStreamGen(w: World, s: Ref, h: Ref)
    requires s in w.streams && h in w.gens && GenOk(w, QUIET, h)
    ensures GenOk(w.(streams := w.streams - {s}), QUIET.(over := {w.streams[s]}), h)
  {
    hide Held;
    var r, y, f := w.(streams := w.streams - {s}), QUIET.(over := {w.streams[s]}), FactsOf(w, QUIET, h);
    HeldDrop(w.streams, s);
    if h == w.streams[s] {
      assert FactsOf(r, y, h) == f.(streams := f.streams - 1, over := true);
    } else {
      assert FactsOf(r, y, h) == f;
    }
  }

  /** Passive streams touch no generator. */
  lemma PassiveKeeps(w: World, r: World)
    requires Quiet(w) && r == w.(passive := r.passive, next := r.next, totals := r.totals, notes := r.notes)
    requires r.next >= w.next && Below(r.passive, r.next) && TalliesOk(r, QUIET) && Recorded(r)
    ensures Quiet(r)
  {
    hide Held, TalliesOk, Right, Recorded;
    PassiveLinks(w, r);
    forall h | h in r.gens ensures GenOk(r, QUIET, h) {
      assert GenOk(w, QUIET, h);
      assert FactsOf(r, QUIET, h) == FactsOf(w, QUIET, h);
    }
  }

  lemma PassiveLinks(w: World, r: World)
    requires LinksOk(w, QUIET) && r == w.(passive := r.passive, next := r.next, totals := r.totals, notes := r.notes)
    requires r.next >= w.next && Below(r.passive, r.next)
    ensures LinksOk(r, QUIET)
  {
  }

  lemma PassiveRecorded(w: World, r: World, flags: set<Flag>)
    requires Recorded(w) && r == w.(passive := r.passive, next := r.next) && r.next >= w.next
    ensures Recorded(ToDriver(r, flags, None))
  {
    hide Recorded, ToDriver;
    RecordedSame(w, r);
    RecordedNote(r, flags, None);
  }

  lemma PassiveTallies(w: World)
    requires Quiet(w)
    ensures TalliesOk(StartPassive(w), QUIET)
  {
    hide GenOk, LiveOf, Related, Recorded, Judged, Carried;
    LiveKept(w, StartPassive(w));
    VerdictsNoted(w, QUIET, StartPassive(w), QUIET, Note({StreamCreated}, None));
    assert w.next !in w.passive;
  }

  lemma PassiveBelow(w: World)
    requires Quiet(w)
    ensures Below(StartPassive(w).passive, StartPassive(w).next) && Recorded(w)
  {
    hide GenOk, TalliesOk, Related, Recorded, Report;
  }

  lemma PassiveStartKeeps(w: World)
    requires Quiet(w)
    ensures Quiet(StartPassive(w))
  {
    hide Quiet, Recorded, TalliesOk, Below, Report;
    PassiveBelow(w);
    PassiveRecorded(w, w.(passive := w.passive + {w.next}, next := w.next + 1), {StreamCreated});
    PassiveTallies(w);
    PassiveKeeps(w, StartPassive(w));
  }

  lemma PassiveEndKeeps(w: World, s: Ref, success: bool)
    requires Quiet(w) && s in w.passive
    ensures Quiet(EndPassive(w, s, success))
  {
    hide GenOk, LiveOf, Related, Recorded, Judged, Carried;
    LiveKept(w, EndPassive(w, s, success));
    VerdictsNoted(w, QUIET, EndPassive(w, s, success), QUIET, Note(EndFlags(success), None));
    PassiveRecorded(w, w.(passive := w.passive - {s}), EndFlags(success));
    PassiveKeeps(w, EndPassive(w, s, success));
  }

  lemma DoKeeps(w: World, e: Event)
    requires Quiet(w)
    ensures Quiet(Do(w, e))
  {
    hide Inv, Fire, EndStream, Unref, TrafficNext, FlowNext, SingleStart, Report, Recorded;
    var f := w.next;
    var y := QUIET.(active := {f});
    assert y.(active := y.active - {f}) == QUIET;
    match e
    case StartTraffic(c) =>
      NewRootKeeps(w, Traffic);
      TrafficNextKeeps(NewRoot(w, Traffic), y, f, c);
    case StartFlow(c) =>
      NewRootKeeps(w, Flow);
      FlowNextKeeps(NewRoot(w, Flow), y, f, c);
    case StartSingle(created) =>
      NewRootKeeps(w, Single);
      SingleStartKeeps(NewRoot(w, Single), y, f, created);
    case TimerFires(t, c, d) => if t in w.timers { FireKeeps(w, t, c, d); }
    case StreamEnds(s, ok) => if s in w.running { EndStreamKeeps(w, s, ok); }
    case StreamFreed(s) => if s in w.streams && s !in w.running { FreeStreamKeeps(w, s); }
    case PassiveStarts => PassiveStartKeeps(w);
    case PassiveEnds(s, ok) => if s in w.passive { PassiveEndKeeps(w, s, ok); }
  }

  // ---- Every run ----

  lemma StartQuiet()
    ensures Quiet(Generators.Start())
  {
    var w := Generators.Start();
    assert LiveOf(w, false) == {} && LiveOf(w, true) == {};
  }

  lemma {:induction false} RunQuiet(events: seq<Event>)
    ensures Quiet(Execute(events))
  {
    hide Quiet, Do, Generators.Start, Recorded;
    if events == [] {
      StartQuiet();
    } else {
      RunQuiet(events[..|events| - 1]);
      DoKeeps(Execute(events[..|events| - 1]), events[|events| - 1]);
    }
  }

  /** Over every interleaving of timers, completions, synchronous completions and failures: what is
      generated but not completed are the live children; the references are the holders, and only
      held generators are in memory; one timer is pending exactly while neither the end nor an error
      was met; and nothing freed is touched. */
  lemma TreeCounts(events: seq<Event>, g: Ref)
    requires g in Execute(events).gens
    ensures var w := Execute(events); var gen := w.gens[g];
            !w.dangling &&
            gen.generated - gen.completed == Held(w.running, g) + Held(w.open, g) &&
            gen.refs == One(gen.live) + Held(w.streams, g) + Held(w.parent, g) + Held(w.timers, g) && gen.refs >= 1 &&
            Held(w.timers, g) == One(!gen.ended && !gen.error)
  {
    hide Held, Execute, Recorded, TalliesOk;
    RunQuiet(events);
    assert GenOk(Execute(events), QUIET, g);
  }

  /** A generator has announced its completion exactly if it met its end or an error and has no live
      child. */
  lemma AnnouncedWhenDone(events: seq<Event>, g: Ref)
    requires g in Execute(events).gens
    ensures var w := Execute(events); var gen := w.gens[g];
            !gen.live <==> (gen.ended || gen.error) && Held(w.running, g) == 0 && Held(w.open, g) == 0
  {
    hide Held, Execute, Recorded, TalliesOk, LinksOk;
    RunQuiet(events);
    assert GenOk(Execute(events), QUIET, g);
  }

  lemma {:induction false} DistinctOnce(s: seq<Ref>, g: Ref)
    requires Distinct(s)
    ensures multiset(s)[g] <= 1
  {
    if s != [] {
      var n := |s| - 1;
      assert s == s[..n] + [s[n]];
      DistinctOnce(s[..n], g);
      if s[n] == g { assert g !in s[..n]; }
    }
  }

  /** Over any run a generator is announced at most once; one in memory has been announced exactly if
      it is no longer live. */
  lemma AnnouncedOnce(events: seq<Event>, g: Ref)
    ensures multiset(Execute(events).announced)[g] <= 1
    ensures g in Execute(events).gens ==> (g in Execute(events).announced <==> !Execute(events).gens[g].live)
  {
    hide Execute, LinksOk, TalliesOk, GenOk;
    RunQuiet(events);
    DistinctOnce(Execute(events).announced, g);
  }

  lemma {:induction false} RunGrows(events: seq<Event>, more: seq<Event>)
    ensures Execute(events).announced <= Execute(events + more).announced
    decreases |more|
  {
    hide Generators.Do;
    if more == [] {
      assert events + [] == events;
    } else {
      var rest := more[..|more| - 1];
      assert events + more == (events + rest) + [more[|more| - 1]];
      RunGrows(events, rest);
      ExecuteSnoc(events + rest, more[|more| - 1]);
    }
  }

  /** A generator that is not live is never announced again, whatever happens. */
  lemma NeverAgain(events: seq<Event>, more: seq<Event>, g: Ref)
    requires g in Execute(events).gens && !Execute(events).gens[g].live
    ensures var before, all := Execute(events).announced, Execute(events + more).announced;
            before <= all && g in before && g !in all[|before|..]
  {
    hide Execute, Distinct;
    var before, all := Execute(events).announced, Execute(events + more).announced;
    AnnouncedOnce(events, g);
    AnnouncedOnce(events + more, g);
    RunGrows(events, more);
    assert all == before + all[|before|..];
    assert multiset(all) == multiset(before) + multiset(all[|before|..]);
  }

  /** A timer that fires finds a generator with a model that still has children to generate. */
  lemma TimerFindsGenerator(events: seq<Event>, t: Ref)
    requires t in Execute(events).timers
    ensures var w := Execute(events); var g := w.timers[t];
            g in w.gens && w.gens[g].kind != Single && w.gens[g].live && !w.gens[g].ended && !w.gens[g].error
  {
    hide Held, Execute, Recorded, TalliesOk;
    RunQuiet(events);
    var w := Execute(events);
    assert GenOk(w, QUIET, w.timers[t]);
    HeldSome(w.timers, t);
  }

  /** The driver's totals: created is succeeded plus failed plus pending, for streams, flows and
      traffics. The heartbeat's subtractions never go below zero. */
  lemma TotalsAddUp(events: seq<Event>)
    ensures var w := Execute(events); var t := w.totals;
            t.streams.created == t.streams.succeeded + t.streams.failed + |w.running| + |w.passive| &&
            t.flows.created == t.flows.succeeded + t.flows.failed + |LiveOf(w, false)| &&
            t.traffics.created == t.traffics.succeeded + t.traffics.failed + |LiveOf(w, true)|
  {
    hide LiveOf, Execute, Recorded, LinksOk;
    RunQuiet(events);
  }

  /** Over every run, flows and traffics counted as succeeded are those announced without an error, those
      counted as failed are those announced with one; and a generator in memory still has the kind and
      the error that it was announced with. */
  lemma GeneratorsCounted(events: seq<Event>)
    ensures var w := Execute(events); var t, s := w.totals, w.outcomes;
            t.flows.succeeded == Announced(s, false, false) && t.flows.failed == Announced(s, false, true) &&
            t.traffics.succeeded == Announced(s, true, false) && t.traffics.failed == Announced(s, true, true) &&
            |s| == |w.announced| &&
            (forall i :: 0 <= i < |s| && w.announced[i] in w.gens ==>
               s[i].kind == w.gens[w.announced[i]].kind && s[i].error == w.gens[w.announced[i]].error)
  {
    hide LinksOk, GenOk, Execute, LiveOf, Announced, Carried;
    RunQuiet(events);
    var w := Execute(events);
    forall i | 0 <= i < |w.outcomes| && w.announced[i] in w.gens
      ensures w.outcomes[i].kind == w.gens[w.announced[i]].kind && w.outcomes[i].error == w.gens[w.announced[i]].error
    {
      assert Agrees(w, i);
    }
  }

  /** Over every run, the notification that carries a generator's completion has been sent; it says that
      a generator of this kind is complete, and says success exactly when there was no error. */
  lemma NoteSaysSuccess(events: seq<Event>, i: nat)
    requires i < |Execute(events).outcomes|
    ensures var w := Execute(events); var o := w.outcomes[i];
            o.note < |w.notes| &&
            var flags := w.notes[o.note].flags;
            if o.kind == Traffic then TrafficComplete in flags && (TrafficSuccess in flags <==> !o.error)
            else FlowComplete in flags && (FlowSuccess in flags <==> !o.error)
  {
    hide LinksOk, GenOk, Execute, LiveOf, Judged, Recorded;
    RunQuiet(events);
    var w := Execute(events);
    assert Told(w, QUIET, w.outcomes[i]);
  }

  /** In any state, a flow whose model ends at once is one more success, and a single stream that cannot
      be created is one more failed flow. */
  lemma SimplestFlows(events: seq<Event>)
    ensures var before := Execute(events).totals.flows;
            Execute(events + [StartFlow(FlowEnds)]).totals.flows ==
            before.(created := before.created + 1, succeeded := before.succeeded + 1) &&
            Execute(events + [StartSingle(false)]).totals.flows ==
            before.(created := before.created + 1, failed := before.failed + 1)
  {
    hide Execute, Quiet, Recorded, CompleteHelper, NewRoot;
    RunQuiet(events);
    ExecuteSnoc(events, StartFlow(FlowEnds));
    ExecuteSnoc(events, StartSingle(false));
    RootStops(Execute(events), Flow, false);
    RootStops(Execute(events), Single, true);
  }

  lemma RootStops(w: World, kind: Kind, error: bool)
    requires Quiet(w) && kind != Traffic
    ensures var n, g, t := NewRoot(w, kind), w.next, w.totals.flows;
            g in n.gens &&
            var r := CompleteHelper(Put(n, g, if error then n.gens[g].(error := true) else n.gens[g].(ended := true)), g, {});
            r.totals.flows ==
            if error then t.(created := t.created + 1, failed := t.failed + 1)
            else t.(created := t.created + 1, succeeded := t.succeeded + 1)
  {
    hide CompleteHelper, Inv, ToDriver;
    NextUnowned(w);
    var n, g := NewRoot(w, kind), w.next;
    ReportedFlow(NewGenerator(w, kind).(roots := w.roots + {w.next}), Announce(kind), None);
    RootCompletes(Put(n, g, if error then n.gens[g].(error := true) else n.gens[g].(ended := true)), g);
  }

  lemma ReportedFlow(w: World, flags: set<Flag>, done: Option<Ref>)
    ensures var r := ToDriver(w, flags, done);
            r.gens == w.gens && r.parent == w.parent &&
            r.totals.flows == Count1(w.totals.flows, FlowCreated in flags, FlowComplete in flags, FlowSuccess in flags)
  {
  }

  lemma RootCompletes(w: World, g: Ref)
    requires g in w.gens && g !in w.parent && Due(w.gens[g]) && w.gens[g].kind != Traffic
    ensures var t := w.totals.flows;
            CompleteHelper(w, g, {}).totals.flows ==
            if w.gens[g].error then t.(failed := t.failed + 1) else t.(succeeded := t.succeeded + 1)
  {
    hide Unref, Shrinks, KindsKept, ToDriver, OwnFlags, OneNote;
    var c, flags := Closed(w, g), {} + OwnFlags(w.gens[g]);
    assert Notify(c, g, flags, true) == ToDriver(c, flags, Some(g));
    ReportedFlow(c, flags, Some(g));
    OwnFlagsTell(w.gens[g], {}, 0);
    OwnFlagsAdd(w.gens[g], {});
  }

  lemma NextUnowned(w: World)
    requires Quiet(w)
    ensures w.next !in w.parent
  {
    hide TalliesOk, Recorded, GenOk;
  }

  lemma TotalsTallied(events: seq<Event>)
    ensures Execute(events).totals == Tallied(Execute(events).notes)
  {
    hide LinksOk, TalliesOk, GenOk, Execute;
    RunQuiet(events);
  }

  lemma NextUnused(events: seq<Event>)
    ensures Execute(events).next !in Execute(events).roots
  {
    hide LinksOk, TalliesOk, GenOk, Execute;
    RunQuiet(events);
  }

  /** Nothing leaks: once every generator has announced itself and every stream is freed, no generator
      is left in memory. */
  lemma NothingLeaks(events: seq<Event>)
    requires Execute(events).streams == map[] && forall g :: g in Execute(events).gens ==> !Execute(events).gens[g].live
    ensures Execute(events).gens == map[]
  {
    hide Execute, Quiet, Recorded;
    RunQuiet(events);
    NoHolders(Execute(events));
  }

  lemma NoHolders(w: World)
    requires Quiet(w) && w.streams == map[] && forall g :: g in w.gens ==> !w.gens[g].live
    ensures w.gens == map[]
  {
    hide Held, Recorded;
    if g :| g in w.gens {
      var f := Youngest(w, g);
      Unheld(w, f);
      assert false;
    }
    assert w.gens.Keys == {};
  }

  /** Below any generator there is one without child flows. */
  lemma Youngest(w: World, g: Ref) returns (f: Ref)
    requires LinksOk(w, QUIET) && g in w.gens
    ensures f in w.gens && Held(w.parent, f) == 0
  {
    if k :| k in w.parent && w.parent[k] == g {
      f := k;
    } else {
      f := g;
    }
    assert Pointing(w.parent, f) == {};
  }

  lemma Unheld(w: World, f: Ref)
    requires w.streams == map[]
    ensures Held(w.streams, f) == 0
  {
    assert Pointing(w.streams, f) == {};
  }

  // ---- Reports ----

  /** A generator whose parent, if any, has no parent itself. */
  predicate Rooted(w: World, g: Ref) {
    g in w.gens && (g in w.parent ==> w.parent[g] in w.gens && w.parent[g] !in w.parent)
  }

  function StreamsAfter(t: Tally, flags: set<Flag>): Tally {
    Count1(t, StreamCreated in flags, StreamComplete in flags, StreamSuccess in flags)
  }

  /** However far flags travel up and whatever they are combined with, the driver counts the stream in
      them exactly once. */
  lemma NotifyReports(w: World, g: Ref, flags: set<Flag>, finished: bool)
    requires Rooted(w, g) && flags != {} && !IsCreation(flags)
    ensures Notify(w, g, flags, finished).totals.streams == StreamsAfter(w.totals.streams, flags)
    decreases if g in w.parent then 1 else 0, 1
  {
    hide Unref, Shrinks, KindsKept;
    if g in w.parent {
      var p := w.parent[g];
      var gen := w.gens[p];
      HelperReports(if Counts(gen.kind, flags) then Put(w, p, gen.(completed := gen.completed + 1)) else w, p, flags);
    }
  }

  lemma HelperReports(w: World, g: Ref, flags: set<Flag>)
    requires Rooted(w, g) && flags != {} && !IsCreation(flags)
    ensures CompleteHelper(w, g, flags).totals.streams == StreamsAfter(w.totals.streams, flags)
    decreases if g in w.parent then 1 else 0, 2
  {
    hide Unref, Shrinks, KindsKept, Notify, OwnFlags;
    if Due(w.gens[g]) {
      var all := flags + OwnFlags(w.gens[g]);
      OwnIsNoStream(w.gens[g], flags);
      NotifyReports(Closed(w, g), g, all, true);
    } else {
      NotifyReports(w, g, flags, false);
    }
  }

  lemma OwnIsNoStream(gen: Gen, flags: set<Flag>)
    requires flags != {} && !IsCreation(flags)
    ensures var all := flags + OwnFlags(gen);
            all != {} && !IsCreation(all) &&
            (StreamComplete in all <==> StreamComplete in flags) && (StreamSuccess in all <==> StreamSuccess in flags)
  {
    var f :| f in flags;
    assert f in flags + OwnFlags(gen);
  }

  /** A stream that ends is counted once, as a success exactly when it was one. */
  lemma StreamEndCounted(events: seq<Event>, s: Ref, success: bool)
    requires s in Execute(events).running
    ensures var t := Execute(events).totals.streams;
            Execute(events + [StreamEnds(s, success)]).totals.streams ==
            if success then t.(succeeded := t.succeeded + 1) else t.(failed := t.failed + 1)
  {
    hide Generators.Execute, Quiet, CompleteHelper, Recorded;
    var w := Execute(events);
    RunQuiet(events);
    RunningRooted(w, s);
    ExecuteSnoc(events, StreamEnds(s, success));
    var r, g := Completed(w, s), w.running[s];
    HelperReports(Put(r, g, r.gens[g].(completed := r.gens[g].completed + 1)), g, EndFlags(success));
  }

  lemma ExecuteSnoc(events: seq<Event>, e: Event)
    ensures Execute(events + [e]) == Generators.Do(Execute(events), e)
  {
    assert (events + [e])[..|events|] == events;
  }

  lemma RunningRooted(w: World, s: Ref)
    requires Quiet(w) && s in w.running
    ensures Rooted(w, w.running[s]) && w.gens[w.running[s]].kind != Traffic
  {
    RunningIsLive(w, s);
  }

  // ---- Creations ----

  /** Streams, flows and traffics made by one event. */
  datatype Made = Made(streams: nat, flows: nat, traffics: nat)

  function CreatedOf(t: Totals): Made {
    Made(t.streams.created, t.flows.created, t.traffics.created)
  }

  function Sum(a: Made, b: Made): Made {
    Made(a.streams + b.streams, a.flows + b.flows, a.traffics + b.traffics)
  }

  function ByFlow(c: FlowChoice): Made {
    Made(One(c.FlowMakes? && c.created), 0, 0)
  }

  function ByTraffic(c: TrafficChoice): Made {
    if c.TrafficEnds? then Made(0, 0, 0) else ByFlow(c.first).(flows := 1)
  }

  /** A generator that is started or whose timer fires makes what its choice says, and nothing else makes
      anything. */
  function MadeBy(w: World, e: Event): Made {
    match e
    case StartTraffic(c) => ByTraffic(c).(traffics := 1)
    case StartFlow(c) => ByFlow(c).(flows := 1)
    case StartSingle(created) => Made(One(created), 1, 0)
    case TimerFires(t, c, d) =>
      if t !in w.timers then Made(0, 0, 0)
      else if w.timers[t] in w.gens && w.gens[w.timers[t]].kind == Traffic then ByTraffic(c)
      else ByFlow(d)
    case PassiveStarts => Made(1, 0, 0)
    case _ => Made(0, 0, 0)
  }

  lemma ReportCreates(t: Totals, flags: set<Flag>)
    ensures CreatedOf(Report(t, flags)) ==
            Sum(CreatedOf(t), Made(One(StreamCreated in flags), One(FlowCreated in flags), One(TrafficCreated in flags)))
  {
  }

  /** Completions create nothing, however far they travel. */
  lemma NotifyMakesNothing(w: World, g: Ref, flags: set<Flag>, finished: bool)
    requires !IsCreation(flags)
    ensures CreatedOf(Notify(w, g, flags, finished).totals) == CreatedOf(w.totals)
    decreases if g in w.parent then 1 else 0, 1
  {
    hide Report, Unref, Shrinks, KindsKept, CompleteHelper, CreatedOf;
    ReportCreates(w.totals, flags);
    if g !in w.parent {
      NoneCreated(w.totals);
    } else if w.parent[g] !in w.parent && w.parent[g] in w.gens {
      var p := w.parent[g];
      var gen := w.gens[p];
      HelperMakesNothing(if Counts(gen.kind, flags) then Put(w, p, gen.(completed := gen.completed + 1)) else w, p, flags);
    }
  }

  lemma NoneCreated(t: Totals)
    ensures Sum(CreatedOf(t), Made(0, 0, 0)) == CreatedOf(t)
  {
  }

  lemma HelperMakesNothing(w: World, g: Ref, flags: set<Flag>)
    requires !IsCreation(flags)
    ensures CreatedOf(CompleteHelper(w, g, flags).totals) == CreatedOf(w.totals)
    decreases if g in w.parent then 1 else 0, 2
  {
    hide Report, Unref, Shrinks, KindsKept, Notify, OwnFlags, CreatedOf;
    if g in w.gens {
      if Due(w.gens[g]) {
        OwnIsNoCreation(w.gens[g], flags);
        NotifyMakesNothing(Closed(w, g), g, flags + OwnFlags(w.gens[g]), true);
      } else {
        NotifyMakesNothing(w, g, flags, false);
      }
    }
  }

  lemma OwnIsNoCreation(gen: Gen, flags: set<Flag>)
    requires !IsCreation(flags)
    ensures !IsCreation(flags + OwnFlags(gen))
  {
  }

  lemma StreamMade(w: World, g: Ref)
    requires Rooted(w, g)
    ensures CreatedOf(CreateStream(w, g).totals) == Sum(CreatedOf(w.totals), Made(1, 0, 0))
  {
    hide CreateStream;
    StreamCreation(w, g);
  }

  lemma TimerMakesNothing(w: World, g: Ref, ok: bool)
    ensures CreatedOf(SetTimer(w, g, ok).totals) == CreatedOf(w.totals)
  {
    hide CompleteHelper, Shrinks, KindsKept;
    if !ok && g in w.gens { HelperMakesNothing(Put(w, g, w.gens[g].(error := true)), g, {}); }
  }

  lemma FlowMakesStream(w: World, g: Ref, c: FlowChoice)
    requires Rooted(w, g)
    ensures CreatedOf(FlowNext(w, g, c).totals) == Sum(CreatedOf(w.totals), ByFlow(c))
  {
    hide CreateStream, SetTimer, CompleteHelper, KindsKept;
    if c.FlowEnds? {
      HelperMakesNothing(Put(w, g, w.gens[g].(ended := true)), g, {});
    } else {
      if c.created { StreamMade(w, g); }
      TimerMakesNothing(if c.created then CreateStream(w, g) else w, g, c.timer);
    }
  }

  lemma TrafficMakesFlow(w: World, g: Ref, c: TrafficChoice)
    requires g in w.gens && g !in w.parent && w.next !in w.gens && w.next !in w.parent
    ensures CreatedOf(TrafficNext(w, g, c).totals) == Sum(CreatedOf(w.totals), ByTraffic(c))
  {
    hide CreateFlow, FlowNext, SetTimer, CompleteHelper, KindsKept, CreatedOf;
    if c.TrafficEnds? {
      HelperMakesNothing(Put(w, g, w.gens[g].(ended := true)), g, {});
      NoneCreated(w.totals);
    } else {
      FlowCreation(w, g, c.first);
      ReportCreates(w.totals, {FlowCreated});
      FlowMakesStream(WithFlow(w, g), w.next, c.first);
      TimerMakesNothing(CreateFlow(w, g, c.first), g, c.timer);
      var a, b := Made(0, 1, 0), ByFlow(c.first);
      assert Sum(Sum(CreatedOf(w.totals), a), b) == Sum(CreatedOf(w.totals), ByTraffic(c));
    }
  }

  lemma SingleMakesStream(w: World, g: Ref, created: bool)
    requires Rooted(w, g)
    ensures CreatedOf(SingleStart(w, g, created).totals) == Sum(CreatedOf(w.totals), Made(One(created), 0, 0))
  {
    hide CreateStream, CompleteHelper, KindsKept;
    if created { StreamMade(w, g); } else { HelperMakesNothing(Put(w, g, w.gens[g].(error := true)), g, {}); }
  }

  lemma RootMade(w: World, kind: Kind)
    requires Quiet(w)
    ensures var n := NewRoot(w, kind);
            CreatedOf(n.totals) == Sum(CreatedOf(w.totals), if kind == Traffic then Made(0, 0, 1) else Made(0, 1, 0)) &&
            Rooted(n, w.next) && w.next !in n.parent && n.next !in n.gens && n.next !in n.parent
  {
    hide TalliesOk, GenOk, Recorded, Report;
    ReportCreates(w.totals, Announce(kind));
  }

  lemma FiringMade(w: World, t: Ref, c: TrafficChoice, d: FlowChoice)
    requires Quiet(w) && t in w.timers
    ensures CreatedOf(Fire(w, t, c, d).totals) == Sum(CreatedOf(w.totals), MadeBy(w, TimerFires(t, c, d)))
  {
    hide TrafficNext, FlowNext, Unref, CreatedOf, Inv;
    var f, g := Expired(w, t), w.timers[t];
    ExpiredRooted(w, t);
    if f.gens[g].kind == Traffic { TrafficMakesFlow(f, g, c); } else { FlowMakesStream(f, g, d); }
  }

  lemma ExpiredRooted(w: World, t: Ref)
    requires Quiet(w) && t in w.timers
    ensures var f, g := Expired(w, t), w.timers[t];
            Rooted(f, g) && f.next !in f.gens && f.next !in f.parent && (f.gens[g].kind == Traffic ==> g !in f.parent)
  {
    hide TalliesOk, GenOk, Recorded;
  }

  /** The driver's counters of created streams, flows and traffics grow with each event by exactly what
      the event makes. */
  lemma CreationsCounted(events: seq<Event>, e: Event)
    ensures CreatedOf(Execute(events + [e]).totals) == Sum(CreatedOf(Execute(events).totals), MadeBy(Execute(events), e))
  {
    hide Execute, Quiet, CreatedOf, TrafficNext, FlowNext, SingleStart, Fire, CompleteHelper, OnNotify, NewRoot, Report, Unref;
    var w := Execute(events);
    RunQuiet(events);
    ExecuteSnoc(events, e);
    NoneCreated(w.totals);
    match e
    case StartTraffic(c) =>
      RootMade(w, Traffic);
      TrafficMakesFlow(NewRoot(w, Traffic), w.next, c);
    case StartFlow(c) =>
      RootMade(w, Flow);
      FlowMakesStream(NewRoot(w, Flow), w.next, c);
    case StartSingle(created) =>
      RootMade(w, Single);
      SingleMakesStream(NewRoot(w, Single), w.next, created);
    case TimerFires(t, c, d) => if t in w.timers { FiringMade(w, t, c, d); }
    case StreamEnds(s, ok) => if s in w.running { StreamEndMakesNothing(w, s, ok); }
    case StreamFreed(s) =>
    case PassiveStarts => ReportCreates(w.totals, {StreamCreated});
    case PassiveEnds(s, ok) => ReportCreates(w.totals, EndFlags(ok));
  }

  lemma StreamEndMakesNothing(w: World, s: Ref, success: bool)
    requires s in w.running
    ensures CreatedOf(EndStream(w, s, success).totals) == CreatedOf(w.totals)
  {
    hide CompleteHelper, CreatedOf;
    var r, g := Completed(w, s), w.running[s];
    if g in w.gens {
      var gen := r.gens[g];
      var counted := if Counts(gen.kind, EndFlags(success)) then Put(r, g, gen.(completed := gen.completed + 1)) else r;
      HelperMakesNothing(counted, g, EndFlags(success));
    }
  }

  // ---- What the driver is told ----

  /** The generators of actions that the driver is told of as complete, in order. */
  function Dones(notes: seq<Note>): seq<Ref> {
    if notes == [] then []
    else
      var last := notes[|notes| - 1].done;
      Dones(notes[..|notes| - 1]) + if last.Some? then [last.value] else []
  }

  function Among(s: seq<Ref>, roots: set<Ref>): seq<Ref> {
    if s == [] then [] else Among(s[..|s| - 1], roots) + if s[|s| - 1] in roots then [s[|s| - 1]] else []
  }

  /** The driver has been told of exactly the announced generators of actions, in the same order. */
  ghost predicate Lockstep(w: World) {
    Dones(w.notes) == Among(w.announced, w.roots)
  }

  lemma DonesSnoc(notes: seq<Note>, n: Note)
    ensures Dones(notes + [n]) == Dones(notes) + if n.done.Some? then [n.done.value] else []
  {
    assert (notes + [n])[..|notes|] == notes;
  }

  lemma AmongSnoc(s: seq<Ref>, g: Ref, roots: set<Ref>)
    ensures Among(s + [g], roots) == Among(s, roots) + if g in roots then [g] else []
  {
    assert (s + [g])[..|s|] == s;
  }

  lemma {:induction false} AmongMore(s: seq<Ref>, g: Ref, roots: set<Ref>)
    requires g !in s
    ensures Among(s, roots + {g}) == Among(s, roots)
  {
    if s != [] { AmongMore(s[..|s| - 1], g, roots); }
  }

  /** A generator of an action, or the flow of one. */
  ghost predicate Placed(w: World, g: Ref) {
    if g in w.parent then g !in w.roots && w.parent[g] in w.roots && w.parent[g] !in w.parent else g in w.roots
  }

  lemma TellingNothing(w: World, flags: set<Flag>)
    requires Lockstep(w)
    ensures Lockstep(ToDriver(w, flags, None))
  {
    DonesSnoc(w.notes, Note(flags, None));
  }

  lemma NotifyInStep(w: World, g: Ref, flags: set<Flag>, finished: bool)
    requires Lockstep(w) && Placed(w, g) && !IsCreation(flags) && (finished ==> g in w.parent)
    ensures Lockstep(Notify(w, g, flags, finished))
    decreases if g in w.parent then 1 else 0, 1
  {
    hide Report, Unref, Shrinks, KindsKept, CompleteHelper, Dones, Among;
    if g !in w.parent {
      TellingNothing(w, flags);
    } else if w.parent[g] in w.gens {
      var p := w.parent[g];
      var gen := w.gens[p];
      HelperInStep(if Counts(gen.kind, flags) then Put(w, p, gen.(completed := gen.completed + 1)) else w, p, flags);
    }
  }

  lemma HelperInStep(w: World, g: Ref, flags: set<Flag>)
    requires Lockstep(w) && Placed(w, g) && !IsCreation(flags)
    ensures Lockstep(CompleteHelper(w, g, flags))
    decreases if g in w.parent then 1 else 0, 2
  {
    hide Report, Unref, Notify, OwnFlags, Dones, Among;
    if g in w.gens {
      if Due(w.gens[g]) {
        var all := flags + OwnFlags(w.gens[g]);
        OwnIsNoCreation(w.gens[g], flags);
        AmongSnoc(w.announced, g, w.roots);
        if g in w.parent {
          NotifyInStep(Closed(w, g), g, all, true);
        } else {
          RootTold(Closed(w, g), g, all);
        }
      } else {
        NotifyInStep(w, g, flags, false);
      }
    }
  }

  lemma RootTold(w: World, g: Ref, flags: set<Flag>)
    requires g !in w.parent
    ensures var r := Notify(w, g, flags, true);
            Dones(r.notes) == Dones(w.notes) + [g] && r.announced == w.announced && r.roots == w.roots
  {
    DonesSnoc(w.notes, Note(flags, Some(g)));
  }

  lemma StreamInStep(w: World, g: Ref)
    requires Lockstep(w) && Rooted(w, g)
    ensures Lockstep(CreateStream(w, g)) && CreateStream(w, g).parent == w.parent && CreateStream(w, g).roots == w.roots
  {
    hide CreateStream, Dones, Among;
    StreamCreation(w, g);
    DonesSnoc(w.notes, Note({StreamCreated}, None));
  }

  lemma TimerInStep(w: World, g: Ref, ok: bool)
    requires Lockstep(w) && (g in w.gens ==> Placed(w, g))
    ensures Lockstep(SetTimer(w, g, ok))
  {
    hide CompleteHelper, Shrinks, KindsKept, Dones, Among;
    if !ok && g in w.gens { HelperInStep(Put(w, g, w.gens[g].(error := true)), g, {}); }
  }

  lemma FlowInStep(w: World, g: Ref, c: FlowChoice)
    requires Lockstep(w) && Rooted(w, g) && Placed(w, g)
    ensures Lockstep(FlowNext(w, g, c))
  {
    hide CreateStream, SetTimer, CompleteHelper, KindsKept, Dones, Among;
    if c.FlowEnds? {
      HelperInStep(Put(w, g, w.gens[g].(ended := true)), g, {});
    } else {
      if c.created { StreamInStep(w, g); }
      TimerInStep(if c.created then CreateStream(w, g) else w, g, c.timer);
    }
  }

  lemma WithFlowInStep(w: World, x: Stage, g: Ref)
    requires Inv(w, x) && Lockstep(w) && g in w.gens && g !in w.parent
    ensures var r := WithFlow(w, g); Lockstep(r) && Rooted(r, w.next) && Placed(r, w.next) && w.next !in w.gens && r.roots == w.roots
  {
    hide TalliesOk, GenOk, Dones, Among, Report;
    DonesSnoc(w.notes, Note({FlowCreated}, None));
  }

  lemma TrafficInStep(w: World, x: Stage, g: Ref, c: TrafficChoice)
    requires Inv(w, x) && Generating(x, g) && w.gens[g].kind == Traffic && g !in w.parent && g in w.roots && Lockstep(w)
    ensures Lockstep(TrafficNext(w, g, c))
  {
    hide Inv, CreateFlow, FlowNext, SetTimer, CompleteHelper, KindsKept, Lockstep, WithFlow;
    ActiveHere(w, x, g);
    if c.TrafficEnds? {
      HelperInStep(Put(w, g, w.gens[g].(ended := true)), g, {}) by { EndingInStep(w, g); }
    } else {
      WithFlowInStep(w, x, g);
      FlowCreation(w, g, c.first);
      FlowInStep(WithFlow(w, g), w.next, c.first);
      CreateFlowKeeps(w, x, g, c.first);
      StaysRoot(w, CreateFlow(w, g, c.first), x, g);
      TimerInStep(CreateFlow(w, g, c.first), g, c.timer);
    }
  }

  lemma EndingInStep(w: World, g: Ref)
    requires Lockstep(w) && g in w.gens
    ensures Lockstep(Put(w, g, w.gens[g].(ended := true)))
  {
  }

  lemma ActiveHere(w: World, x: Stage, g: Ref)
    requires Inv(w, x) && g in x.active
    ensures g in w.gens
  {
    hide TalliesOk, GenOk, Recorded;
  }

  lemma StaysRoot(w: World, r: World, x: Stage, g: Ref)
    requires Inv(r, x) && g in w.roots && r.roots == w.roots
    ensures g in r.gens ==> Placed(r, g)
  {
    hide TalliesOk, GenOk, LinksOk;
  }

  lemma RootInStep(w: World, kind: Kind)
    requires Quiet(w) && Lockstep(w)
    ensures var n := NewRoot(w, kind); Lockstep(n) && Rooted(n, w.next) && Placed(n, w.next)
  {
    hide TalliesOk, GenOk, Dones, Among, Report;
    AmongMore(w.announced, w.next, w.roots);
    DonesSnoc(w.notes, Note(Announce(kind), None));
  }

  lemma SingleInStep(w: World, g: Ref, created: bool)
    requires Lockstep(w) && Rooted(w, g) && Placed(w, g)
    ensures Lockstep(SingleStart(w, g, created))
  {
    hide CreateStream, CompleteHelper, KindsKept, Dones, Among;
    if created { StreamInStep(w, g); } else { HelperInStep(Put(w, g, w.gens[g].(error := true)), g, {}); }
  }

  /** Who is in memory between events has its place. */
  lemma InPlace(w: World, x: Stage, g: Ref)
    requires Inv(w, x) && g in w.gens
    ensures Rooted(w, g) && Placed(w, g) && (w.gens[g].kind == Traffic ==> g !in w.parent)
  {
    hide TalliesOk, GenOk;
  }

  lemma UnrefInStep(w: World, g: Ref)
    requires Lockstep(w)
    ensures Lockstep(Unref(w, g))
  {
    hide Unref, Dones, Among;
  }

  lemma FireInStep(w: World, t: Ref, c: TrafficChoice, d: FlowChoice)
    requires Quiet(w) && Lockstep(w) && t in w.timers
    ensures Lockstep(Fire(w, t, c, d))
  {
    hide TrafficNext, FlowNext, Unref, Inv, Lockstep;
    var f, g := Expired(w, t), w.timers[t];
    ExpireKeeps(w, t);
    InPlace(f, QUIET.(active := {g}), g);
    ExpiredInStep(w, t);
    if f.gens[g].kind == Traffic {
      TrafficInStep(f, QUIET.(active := {g}), g, c);
      ReleasedInStep(TrafficNext(f, g, c), g);
    } else {
      FlowInStep(f, g, d);
      ReleasedInStep(FlowNext(f, g, d), g);
    }
  }

  lemma ExpiredInStep(w: World, t: Ref)
    requires Lockstep(w) && t in w.timers
    ensures Lockstep(Expired(w, t))
  {
  }

  lemma ReleasedInStep(w: World, g: Ref)
    requires Lockstep(w)
    ensures Lockstep(Unref(w.(firing := None), g))
  {
    hide Dones, Among, Unref;
    UnrefInStep(w.(firing := None), g);
  }

  lemma StreamEndInStep(w: World, s: Ref, success: bool)
    requires Quiet(w) && Lockstep(w) && s in w.running
    ensures Lockstep(EndStream(w, s, success))
  {
    hide CompleteHelper, Dones, Among, Inv;
    var r, g := Completed(w, s), w.running[s];
    RunningIsLive(w, s);
    InPlace(w, QUIET, g);
    var gen := r.gens[g];
    var counted := if Counts(gen.kind, EndFlags(success)) then Put(r, g, gen.(completed := gen.completed + 1)) else r;
    HelperInStep(counted, g, EndFlags(success));
  }

  lemma DoInStep(w: World, e: Event)
    requires Quiet(w) && Lockstep(w)
    ensures Lockstep(Generators.Do(w, e))
  {
    hide Inv, TrafficNext, FlowNext, SingleStart, Fire, EndStream, NewRoot, Report, Unref, Lockstep;
    match e
    case StartTraffic(c) =>
      RootInStep(w, Traffic);
      NewRootKeeps(w, Traffic);
      InPlace(NewRoot(w, Traffic), QUIET.(active := {w.next}), w.next);
      RootIsTraffic(w);
      TrafficInStep(NewRoot(w, Traffic), QUIET.(active := {w.next}), w.next, c);
    case StartFlow(c) =>
      RootInStep(w, Flow);
      FlowInStep(NewRoot(w, Flow), w.next, c);
    case StartSingle(created) =>
      RootInStep(w, Single);
      SingleInStep(NewRoot(w, Single), w.next, created);
    case TimerFires(t, c, d) => if t in w.timers { FireInStep(w, t, c, d); }
    case StreamEnds(s, ok) => if s in w.running { StreamEndInStep(w, s, ok); }
    case StreamFreed(s) =>
      if s in w.streams && s !in w.running {
        StreamFreedInStep(w, s);
        UnrefInStep(w.(streams := w.streams - {s}), w.streams[s]);
      }
    case PassiveStarts =>
      PassiveInStep(w, w.passive + {w.next}, w.next + 1);
      TellingNothing(w.(passive := w.passive + {w.next}, next := w.next + 1), {StreamCreated});
    case PassiveEnds(s, ok) =>
      PassiveInStep(w, w.passive - {s}, w.next);
      TellingNothing(w.(passive := w.passive - {s}), EndFlags(ok));
  }

  lemma RootIsTraffic(w: World)
    ensures var n := NewRoot(w, Traffic); w.next in n.gens && n.gens[w.next].kind == Traffic && w.next in n.roots
  {
  }

  lemma StreamFreedInStep(w: World, s: Ref)
    requires Lockstep(w)
    ensures Lockstep(w.(streams := w.streams - {s}))
  {
  }

  lemma PassiveInStep(w: World, passive: set<Ref>, next: Ref)
    requires Lockstep(w)
    ensures Lockstep(w.(passive := passive, next := next))
  {
  }

  /** Over every run, the driver is told to go on from an action for exactly the generators of actions
      that were announced, once for each and in the same order. */
  lemma {:induction false} DriverToldInOrder(events: seq<Event>)
    ensures Dones(Execute(events).notes) == Among(Execute(events).announced, Execute(events).roots)
  {
    hide Quiet, Generators.Do, Generators.Start, Dones, Among;
    if events == [] {
      StartInStep();
    } else {
      var before := Execute(events[..|events| - 1]);
      DriverToldInOrder(events[..|events| - 1]);
      RunQuiet(events[..|events| - 1]);
      DoInStep(before, events[|events| - 1]);
    }
  }

  lemma StartInStep()
    ensures Lockstep(Generators.Start())
  {
  }

  // ---- The first choice of a flow ----

  /** What a flow generator that is started makes of its first choice, in any state: without a timer it
      has an error, and waits for its stream if it has one; with a timer it goes on. */
  lemma FirstChoice(events: seq<Event>, created: bool, timer: bool)
    requires created || timer
    ensures var g, r := Execute(events).next, Execute(events + [StartFlow(FlowMakes(created, timer))]);
            g in r.gens && r.gens[g].live && !r.gens[g].ended && r.gens[g].error == !timer &&
            r.gens[g].generated == One(created) && r.gens[g].completed == 0
  {
    hide Execute, Quiet, NewRoot, CreateStream, SetTimer;
    var w := Execute(events);
    RunQuiet(events);
    ExecuteSnoc(events, StartFlow(FlowMakes(created, timer)));
    NewFlowRoot(w);
    var n := NewRoot(w, Flow);
    if created { StreamCreation(n, w.next); }
    AfterTimer(if created then CreateStream(n, w.next) else n, w.next, timer);
  }

  lemma NewFlowRoot(w: World)
    requires Quiet(w)
    ensures var n := NewRoot(w, Flow);
            w.next in n.gens && n.gens[w.next] == Gen(Flow, 0, 0, false, false, true, 1) && w.next !in n.parent
  {
    hide TalliesOk, GenOk, Recorded, Report;
  }

  lemma AfterTimer(w: World, g: Ref, timer: bool)
    requires g in w.gens && (timer || w.gens[g].completed < w.gens[g].generated)
    ensures var r := SetTimer(w, g, timer);
            g in r.gens && r.gens[g] == w.gens[g].(refs := r.gens[g].refs, error := w.gens[g].error || !timer)
  {
    hide Notify, Unref, Shrinks, KindsKept;
  }

  /** A stream of the server side that ends is counted once, as a success exactly when it was one. */
  lemma PassiveEndCounted(events: seq<Event>, s: Ref, success: bool)
    requires s in Execute(events).passive
    ensures var t := Execute(events).totals.streams;
            Execute(events + [PassiveEnds(s, success)]).totals.streams ==
            if success then t.(succeeded := t.succeeded + 1) else t.(failed := t.failed + 1)
  {
    hide Execute;
    ExecuteSnoc(events, PassiveEnds(s, success));
  }
}
