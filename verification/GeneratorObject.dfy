/** The generators as objects on the heap: tgen-generator.c on records with counters, a reference
    count and a reference to the parent, refining module Generators. */
module GeneratorObject {
  import opened Options
  import opened Generators
  import Lifecycle

  /** One generator; `parent` is whom it notifies, null for the driver. */
  class Generator {
    const id: Ref
    const kind: Kind
    const parent: Generator?

    var numGenerated: nat
    var numCompleted: nat
    var reachedEndState: bool
    var hasError: bool
    var refcount: int

    /** Whether its completion has not been announced. */
    ghost var live: bool

    constructor (id: Ref, kind: Kind, parent: Generator?)
      ensures this.id == id && this.kind == kind && this.parent == parent
      ensures Record() == Gen(kind, 0, 0, false, false, true, 1)
    {
      this.id, this.kind, this.parent := id, kind, parent;
      numGenerated, numCompleted, reachedEndState, hasError, refcount, live := 0, 0, false, false, 1, true;
    }

    ghost function Record(): Gen
      reads this
    {
      Gen(kind, numGenerated, numCompleted, reachedEndState, hasError, live, refcount)
    }

    predicate IsDue()
      reads this
      ensures IsDue() == Due(Record())
    {
      (hasError || reachedEndState) && numCompleted >= numGenerated
    }

    function Done(): set<Flag>
      reads this
      ensures Done() == OwnFlags(Record())
    {
      if kind == Traffic then {TrafficComplete} + if hasError then {} else {TrafficSuccess}
      else {FlowComplete} + if hasError then {} else {FlowSuccess}
    }
  }

  function LaunchOf(kind: Kind, onTraffic: TrafficChoice, onFlow: FlowChoice, created: bool): Event {
    match kind
    case Traffic => StartTraffic(onTraffic)
    case Flow => StartFlow(onFlow)
    case Single => StartSingle(created)
  }

  function Ids(m: map<Ref, Generator>): map<Ref, Ref> {
    map k | k in m :: m[k].id
  }

  lemma PutDropped(w: World, g: Ref, gen: Gen)
    ensures Put(w, g, gen).gens - {g} == w.gens - {g}
  {
  }

  lemma IdsAdd(m: map<Ref, Generator>, k: Ref, g: Generator)
    ensures Ids(m[k := g]) == Ids(m)[k := g.id]
  {
  }

  /** A reference to a generator that is in memory, or was. */
  ghost predicate RefersIn(objects: map<Ref, Generator>, next: Ref, g: Generator) {
    g.id < next && (g.id in objects ==> objects[g.id] == g)
  }

  ghost predicate AllReferIn(objects: map<Ref, Generator>, next: Ref, m: map<Ref, Generator>) {
    forall k :: k in m ==> RefersIn(objects, next, m[k])
  }

  ghost predicate ParentsIn(objects: map<Ref, Generator>, next: Ref) {
    forall k :: k in objects ==>
      objects[k].id == k && k < next && (objects[k].parent != null ==> RefersIn(objects, next, objects[k].parent))
  }

  lemma StillRefer(objects: map<Ref, Generator>, next: Ref, f: Generator, m: map<Ref, Generator>)
    requires AllReferIn(objects, next, m) && f.id == next
    ensures AllReferIn(objects[next := f], next + 1, m)
  {
  }

  lemma StillParents(objects: map<Ref, Generator>, next: Ref, f: Generator)
    requires ParentsIn(objects, next) && f.id == next && (f.parent != null ==> RefersIn(objects, next, f.parent))
    ensures ParentsIn(objects[next := f], next + 1)
  {
  }

  /** The heap: the generators not yet freed by address, and the streams and timers that refer to
      them. */
  class Forest {
    var objects: map<Ref, Generator>
    var streams: map<Ref, Generator>
    var running: map<Ref, Generator>
    var timers: map<Ref, Generator>
    var passive: set<Ref>
    var totals: Totals
    var next: Ref

    /** Whether a freed generator was touched. */
    ghost var dangling: bool

    ghost var open: map<Ref, Ref>
    ghost var firing: Option<Ref>
    ghost var roots: set<Ref>
    ghost var notes: seq<Note>
    ghost var announced: seq<Ref>
    ghost var outcomes: seq<Outcome>

    constructor ()
      ensures State() == Generators.Start() && Valid()
    {
      objects, streams, running, timers, open := map[], map[], map[], map[], map[];
      passive, firing, totals, next, dangling := {}, None, Totals(NOTHING, NOTHING, NOTHING), 0, false;
      roots, notes, announced, outcomes := {}, [], [], [];
      new;
      Lifecycle.StartQuiet();
    }

    ghost function Gens(): map<Ref, Gen>
      reads this`objects, objects.Values
    {
      map g | g in objects :: objects[g].Record()
    }

    ghost function Parents(): map<Ref, Ref>
      reads this`objects
    {
      map g | g in objects && objects[g].parent != null :: objects[g].parent.id
    }

    /** The heap as a value. */
    ghost function State(): World
      reads this, objects.Values
    {
      World(Gens(), Parents(), open, Ids(streams), Ids(running), Ids(timers), passive, firing, totals,
            roots, notes, announced, outcomes, next, dangling)
    }

    ghost predicate Refers(g: Generator)
      reads this`objects, this`next
    {
      RefersIn(objects, next, g)
    }

    ghost predicate Linked()
      reads this
    {
      ParentsIn(objects, next) && AllReferIn(objects, next, streams) && AllReferIn(objects, next, running) &&
      AllReferIn(objects, next, timers)
    }

    ghost predicate Valid()
      reads this, objects.Values
    {
      Linked() && Lifecycle.Quiet(State())
    }

    /** Generators are new or where they were. */
    twostate predicate Later()
      reads this
    {
      old(next) <= next &&
      forall k :: k in objects ==> if k in old(objects) then objects[k] == old(objects[k]) else k >= old(next) && fresh(objects[k])
    }

    /** One object has changed and nothing else. */
    lemma OneChanged(before: World, g: Generator)
      requires Linked() && g.id in objects && objects[g.id] == g && before == State().(gens := before.gens)
      requires before.gens.Keys == objects.Keys && forall k :: k in objects && k != g.id ==> before.gens[k] == objects[k].Record()
      ensures State() == Put(before, g.id, g.Record())
    {
      assert State().gens == before.gens[g.id := g.Record()];
    }

    ghost predicate Here(g: Generator)
      reads this`objects
    {
      g.id in objects && objects[g.id] == g
    }

    /** The value seen through one reference. */
    lemma Seen(g: Generator)
      requires Linked() && Refers(g)
      ensures var w := State();
              (g.id in w.gens <==> g.id in objects) && (g.id in objects ==> Here(g) && w.gens[g.id] == g.Record()) &&
              (g.id in w.parent <==> g.id in objects && g.parent != null) &&
              (g.id in w.parent ==> w.parent[g.id] == g.parent.id && Refers(g.parent)) && w.next == next
    {
    }

    lemma NextAddress()
      ensures State().next == next
    {
    }

    // ---- Single assignments ----

    method Ref(g: Generator)
      requires Linked() && Here(g)
      modifies g
      ensures Linked() && State() == Put(old(State()), g.id, old(g.Record()).(refs := old(g.refcount) + 1))
    {
      ghost var before := State();
      g.refcount := g.refcount + 1;
      OneChanged(before, g);
    }

    method Release(g: Generator)
      requires Linked() && Here(g)
      modifies g
      ensures Linked() && State() == Put(old(State()), g.id, old(g.Record()).(refs := old(g.refcount) - 1))
      ensures g.refcount == old(g.refcount) - 1
    {
      ghost var before := State();
      g.refcount := g.refcount - 1;
      OneChanged(before, g);
    }

    method CountCompleted(g: Generator)
      requires Linked() && Here(g)
      modifies g
      ensures Linked() && State() == Put(old(State()), g.id, old(g.Record()).(completed := old(g.numCompleted) + 1))
    {
      ghost var before := State();
      g.numCompleted := g.numCompleted + 1;
      OneChanged(before, g);
    }

    method CountGenerated(g: Generator)
      requires Linked() && Here(g)
      modifies g
      ensures Linked() && State() == Put(old(State()), g.id, old(g.Record()).(generated := old(g.numGenerated) + 1))
    {
      ghost var before := State();
      g.numGenerated := g.numGenerated + 1;
      OneChanged(before, g);
    }

    method Fail(g: Generator)
      requires Linked() && Here(g)
      modifies g
      ensures Linked() && State() == Put(old(State()), g.id, old(g.Record()).(error := true))
    {
      ghost var before := State();
      g.hasError := true;
      OneChanged(before, g);
    }

    method Finish(g: Generator)
      requires Linked() && Here(g)
      modifies g
      ensures Linked() && State() == Put(old(State()), g.id, old(g.Record()).(ended := true))
    {
      ghost var before := State();
      g.reachedEndState := true;
      OneChanged(before, g);
    }

    ghost method Settle(g: Generator)
      requires Linked() && Here(g)
      modifies g`live
      ensures Linked() && State() == Put(old(State()), g.id, old(g.Record()).(live := false))
    {
      ghost var before := State();
      g.live := false;
      OneChanged(before, g);
    }

    /** The completion of a generator is about to be announced. */
    ghost method Announcing(g: Generator)
      requires Linked() && Here(g)
      modifies this`open, this`announced, this`outcomes
      ensures Linked()
      ensures var w := old(State());
              State() == w.(open := w.open - {g.id}, announced := w.announced + [g.id], outcomes := w.outcomes + [OutcomeOf(w, g.Record())])
    {
      open, announced := open - {g.id}, announced + [g.id];
      outcomes := outcomes + [OutcomeOf(old(State()), g.Record())];
    }

    method Touched()
      requires Linked()
      modifies this`dangling
      ensures Linked() && State() == old(State()).(dangling := true)
    {
      dangling := true;
    }

    method Free(g: Generator)
      requires Linked() && Here(g)
      modifies this`objects
      ensures Linked() && Later() && State() == old(State()).(gens := old(State()).gens - {g.id}, parent := old(State()).parent - {g.id})
      ensures objects == old(objects) - {g.id}
    {
      objects := objects - {g.id};
      assert Gens() == old(Gens()) - {g.id} && Parents() == old(Parents()) - {g.id};
    }

    // ---- References ----

    /** Give up a reference; with the last one the generator goes, and its reference to its parent. */
    method Unref(g: Generator)
      requires Linked() && Refers(g)
      modifies this, objects.Values
      ensures Linked() && Later() && State() == Generators.Unref(old(State()), g.id)
      decreases |objects|
    {
      hide State, Shrinks;
      Seen(g);
      if g.id !in objects {
        Touched();
        return;
      }
      Release(g);
      if g.refcount == 0 {
        Free(g);
        PutDropped(old(State()), g.id, old(g.Record()).(refs := 0));
        if g.parent != null {
          Unref(g.parent);
        }
      }
    }

    // ---- Completion ----

    method ReportToDriver(flags: set<Flag>, ghost done: Option<Ref>)
      requires Linked()
      modifies this`totals, this`notes
      ensures Linked() && State() == ToDriver(old(State()), flags, done)
    {
      hide Report;
      totals := Report(totals, flags);
      notes := notes + [Note(flags, done)];
    }

    method NotifyUp(g: Generator, flags: set<Flag>, ghost finished: bool)
      requires Linked() && Here(g)
      modifies this, objects.Values
      ensures Linked() && Later() && State() == Notify(old(State()), g.id, flags, finished)
      decreases if g.id in objects && g.parent != null then 1 else 0, 1
    {
      hide State, Shrinks, OneNote, ToDriver;
      Seen(g);
      if g.parent == null {
        ReportToDriver(flags, if finished then Some(g.id) else None);
      } else {
        Seen(g.parent);
        if g.parent.id in objects && g.parent.parent != null {
          Touched();
        } else {
          OnNotified(g.parent, flags);
        }
      }
    }

    /** Announce completion and give up the reference to itself; or pass the flags on. */
    method OnComplete(g: Generator, flags: set<Flag>)
      requires Linked() && Refers(g)
      modifies this, objects.Values
      ensures Linked() && Later() && State() == CompleteHelper(old(State()), g.id, flags)
      decreases if g.id in objects && g.parent != null then 1 else 0, 2
    {
      hide State, Shrinks, OneNote, ToDriver, Notify, Generators.Unref, Due, OwnFlags;
      Seen(g);
      if g.id !in objects {
        Touched();
      } else if g.IsDue() {
        var all := flags + g.Done();
        Settle(g);
        Announcing(g);
        NotifyUp(g, all, true);
        Unref(g);
      } else if flags != {} {
        NotifyUp(g, flags, false);
      }
    }

    method OnNotified(g: Generator, flags: set<Flag>)
      requires Linked() && Refers(g)
      modifies this, objects.Values
      ensures Linked() && Later() && State() == OnNotify(old(State()), g.id, flags)
      decreases if g.id in objects && g.parent != null then 1 else 0, 3
    {
      hide State, Shrinks, OneNote, Notify, CompleteHelper;
      Seen(g);
      if g.id !in objects {
        Touched();
        return;
      }
      if IsCreation(flags) {
        NotifyUp(g, flags, false);
        return;
      }
      if Counts(g.kind, flags) {
        CountCompleted(g);
      }
      OnComplete(g, flags);
    }

    // ---- Generating ----

    method Hold(g: Generator)
      requires Linked() && Refers(g)
      modifies this`dangling, objects.Values
      ensures Linked() && State() == AddRef(old(State()), g.id)
    {
      hide State;
      Seen(g);
      if g.id in objects {
        Ref(g);
      } else {
        Touched();
      }
    }

    /** One more address is in use. */
    method Allocate()
      requires Linked()
      modifies this`next
      ensures Linked() && Later() && State() == old(State()).(next := old(State()).next + 1) && next == old(next) + 1
    {
      hide Ids;
      next := next + 1;
    }

    /** A stream that refers to the generator. */
    method RegisterStream(g: Generator, s: Ref)
      requires Linked() && Refers(g)
      modifies this`streams, this`running
      ensures Linked()
      ensures var w := old(State()); State() == w.(streams := w.streams[s := g.id], running := w.running[s := g.id])
    {
      hide Ids;
      IdsAdd(streams, s, g);
      IdsAdd(running, s, g);
      streams, running := streams[s := g], running[s := g];
    }

    method RegisterTimer(g: Generator, t: Ref)
      requires Linked() && Refers(g)
      modifies this`timers
      ensures Linked()
      ensures var w := old(State()); State() == w.(timers := w.timers[t := g.id])
    {
      hide Ids;
      IdsAdd(timers, t, g);
      timers := timers[t := g];
    }

    /** A new stream with a reference to its generator. */
    method AddStream(g: Generator)
      requires Linked() && Refers(g)
      modifies this, objects.Values
      ensures Linked() && Later()
      ensures var w := old(State());
              State() == AddRef(w, g.id).(streams := w.streams[w.next := g.id], running := w.running[w.next := g.id], next := w.next + 1)
    {
      hide State, Ids;
      Seen(g);
      Hold(g);
      RegisterStream(g, next);
      Allocate();
    }

    method NewStream(g: Generator)
      requires Linked() && Refers(g)
      modifies this, objects.Values
      ensures Linked() && Later() && State() == CreateStream(old(State()), g.id)
    {
      hide State, KindsKept, Shrinks, OneNote, OnNotify, AddRef, Ids;
      Seen(g);
      if g.id !in objects {
        Touched();
        return;
      }
      AddStream(g);
      OnNotified(g, {StreamCreated});
      Seen(g);
      if g.id in objects {
        CountGenerated(g);
      } else {
        Touched();
      }
    }

    method ArmTimer(g: Generator, ok: bool)
      requires Linked() && Refers(g)
      modifies this, objects.Values
      ensures Linked() && Later() && State() == SetTimer(old(State()), g.id, ok)
    {
      hide State, KindsKept, Shrinks, OneNote, CompleteHelper;
      Seen(g);
      if ok {
        Hold(g);
        RegisterTimer(g, next);
        Allocate();
      } else if g.id !in objects {
        Touched();
      } else {
        Fail(g);
        OnComplete(g, {});
      }
    }

    method StopAtEnd(g: Generator)
      requires Linked() && Refers(g)
      modifies this, objects.Values
      ensures Linked() && Later() && State() == ReachEnd(old(State()), g.id)
    {
      hide State, KindsKept, Shrinks, OneNote, CompleteHelper;
      Seen(g);
      if g.id !in objects {
        Touched();
      } else {
        Finish(g);
        OnComplete(g, {});
      }
    }

    /** _tgengenerator_generateNext of a flow generator. */
    method NextStream(g: Generator, c: FlowChoice)
      requires Linked() && Refers(g)
      modifies this, objects.Values
      ensures Linked() && Later() && State() == FlowNext(old(State()), g.id, c)
    {
      hide State, KindsKept, ReachEnd, CreateStream, SetTimer;
      match c {
        case FlowEnds => StopAtEnd(g);
        case FlowMakes(created, timer) =>
          if created {
            NewStream(g);
          }
          ArmTimer(g, timer);
      }
    }

    lemma OneMore(before: World, f: Generator)
      requires f.id in objects && objects[f.id] == f && f.id !in before.gens && f.id !in before.parent
      requires forall k :: k in objects && k != f.id ==> k in before.gens && before.gens[k] == objects[k].Record()
      requires forall k :: k in before.gens ==> k in objects
      requires forall k :: k in objects && k != f.id ==> (k in before.parent <==> objects[k].parent != null)
      requires forall k :: k in before.parent ==> k in objects && before.parent[k] == objects[k].parent.id
      ensures Gens() == before.gens[f.id := f.Record()]
      ensures Parents() == if f.parent == null then before.parent else before.parent[f.id := f.parent.id]
    {
    }

    lemma NewAddress()
      requires Linked()
      ensures next !in objects
    {
    }

    method Insert(f: Generator)
      requires Linked() && f.id == next && (f.parent != null ==> Refers(f.parent)) && f.Record() == Gen(f.kind, 0, 0, false, false, true, 1)
      modifies this`objects, this`next
      ensures Linked() && objects == old(objects)[f.id := f] && next == old(next) + 1
      ensures var w := old(State());
              State() == NewGenerator(w, f.kind).(parent := if f.parent == null then w.parent else w.parent[w.next := f.parent.id])
    {
      hide Ids, Gens, Parents, AllReferIn, ParentsIn;
      ghost var w := State();
      assert next !in objects by { NewAddress(); }
      GensAre();
      StillParents(objects, next, f);
      StillRefer(objects, next, f, streams);
      StillRefer(objects, next, f, running);
      StillRefer(objects, next, f, timers);
      objects, next := objects[next := f], next + 1;
      OneMore(w, f);
    }

    method AddGenerator(kind: Kind, parent: Generator?) returns (f: Generator)
      requires Linked() && (parent != null ==> Refers(parent))
      modifies this`objects, this`next
      ensures Linked() && Later() && fresh(f) && Here(f) && f.id == old(next) && f.parent == parent && next == old(next) + 1
      ensures var w := old(State());
              State() == NewGenerator(w, kind).(parent := if parent == null then w.parent else w.parent[w.next := parent.id])
    {
      hide State, AllReferIn, ParentsIn;
      NewAddress();
      f := new Generator(next, kind, parent);
      Insert(f);
    }

    lemma GensAre()
      ensures Gens().Keys == objects.Keys && forall k :: k in objects ==> Gens()[k] == objects[k].Record()
      ensures forall k :: k in Parents() <==> k in objects && objects[k].parent != null
      ensures forall k :: k in Parents() ==> Parents()[k] == objects[k].parent.id
    {
    }

    method AdoptFlow(g: Generator) returns (f: Generator)
      requires Linked() && Here(g)
      modifies this, objects.Values
      ensures Linked() && Later() && Here(f) && f.id == old(next) < next && State() == Adopt(old(State()), g.id)
    {
      hide State;
      Seen(g);
      Hold(g);
      Seen(g);
      f := AddGenerator(Flow, g);
    }

    ghost method Opened(f: Generator, g: Generator)
      requires Linked()
      modifies this`open
      ensures Linked() && State() == old(State()).(open := old(State()).open[f.id := g.id])
    {
      open := open[f.id := g.id];
    }

    /** _tgengenerator_createFlow. */
    method NewFlow(g: Generator, first: FlowChoice)
      requires Linked() && Refers(g)
      modifies this, objects.Values
      ensures Linked() && Later() && State() == CreateFlow(old(State()), g.id, first)
    {
      hide State, Shrinks, KindsKept, Grows, FlowNext, OnNotify, Adopt, CountFlow, OneNote;
      Seen(g);
      NextAddress();
      if g.id !in objects {
        Touched();
        return;
      }
      var f := AdoptFlow(g);
      OnNotified(g, {FlowCreated});
      Seen(g);
      if g.id !in objects {
        Touched();
        return;
      }
      StartFlowOf(f, g, first);
    }

    /** A new flow is counted and started. */
    method StartFlowOf(f: Generator, g: Generator, first: FlowChoice)
      requires Linked() && Here(g) && Refers(f)
      modifies this, objects.Values
      ensures Linked() && Later()
      ensures g.id in old(State()).gens && State() == FlowNext(CountFlow(old(State()), g.id, f.id), f.id, first)
    {
      hide State, KindsKept, FlowNext;
      Seen(g);
      CountGenerated(g);
      Opened(f, g);
      NextStream(f, first);
    }

    /** _tgengenerator_generateNext of a traffic generator. */
    method NextFlow(g: Generator, c: TrafficChoice)
      requires Linked() && Refers(g)
      modifies this, objects.Values
      ensures Linked() && Later() && State() == TrafficNext(old(State()), g.id, c)
    {
      hide State, KindsKept, Grows, CreateFlow, SetTimer, ReachEnd;
      match c {
        case TrafficEnds => StopAtEnd(g);
        case TrafficMakes(first, timer) =>
          NewFlow(g, first);
          ArmTimer(g, timer);
      }
    }

    method StartOne(g: Generator, created: bool)
      requires Linked() && Refers(g)
      modifies this, objects.Values
      ensures Linked() && Later() && State() == SingleStart(old(State()), g.id, created)
    {
      hide State, KindsKept, Shrinks, OneNote, CreateStream, CompleteHelper;
      Seen(g);
      if g.id !in objects {
        Touched();
      } else if created {
        NewStream(g);
        Seen(g);
        if g.id in objects {
          Finish(g);
        } else {
          Touched();
        }
      } else {
        Fail(g);
        OnComplete(g, {});
      }
    }

    // ---- Events ----

    ghost method Rooted(g: Generator)
      requires Linked()
      modifies this`roots
      ensures Linked() && State() == old(State()).(roots := old(State()).roots + {g.id})
    {
      roots := roots + {g.id};
    }

    /** tgengenerator_new: the creation is announced. */
    method NewAction(kind: Kind) returns (g: Generator)
      requires Linked()
      modifies this
      ensures Linked() && Later() && Here(g) && g.id == old(next) < next && State() == NewRoot(old(State()), kind)
    {
      hide State, Report;
      NextAddress();
      g := AddGenerator(kind, null);
      Rooted(g);
      ReportToDriver(Announce(kind), None);
    }

    /** An action of the graph: a generator is created, announced and started. */
    method Launch(kind: Kind, onTraffic: TrafficChoice, onFlow: FlowChoice, created: bool)
      requires Valid()
      modifies this, objects.Values
      ensures Valid() && Later()
      ensures State() == Do(old(State()), LaunchOf(kind, onTraffic, onFlow, created))
    {
      hide State, Lifecycle.Quiet, TrafficNext, FlowNext, SingleStart, NewRoot;
      Lifecycle.DoKeeps(State(), LaunchOf(kind, onTraffic, onFlow, created));
      NextAddress();
      var g := NewAction(kind);
      match kind {
        case Traffic => NextFlow(g, onTraffic);
        case Flow => NextStream(g, onFlow);
        case Single => StartOne(g, created);
      }
    }

    ghost method Fires(t: Ref, g: Generator)
      requires Linked()
      modifies this`firing
      ensures Linked() && State() == old(State()).(firing := Some(g.id))
    {
      firing := Some(g.id);
    }

    ghost method Fired()
      requires Linked()
      modifies this`firing
      ensures Linked() && State() == old(State()).(firing := None)
    {
      firing := None;
    }

    method TakeTimer(t: Ref) returns (g: Generator)
      requires Linked() && t in timers
      modifies this`timers
      ensures Linked() && Refers(g) && t in old(State()).timers && g.id == old(State()).timers[t]
      ensures State() == old(State()).(timers := old(State()).timers - {t})
    {
      g := timers[t];
      assert Ids(timers - {t}) == Ids(timers) - {t};
      timers := timers - {t};
    }

    method FireTimer(t: Ref, onTraffic: TrafficChoice, onFlow: FlowChoice)
      requires Linked() && t in timers
      modifies this, objects.Values
      ensures Linked() && Later() && t in old(State()).timers && State() == Fire(old(State()), t, onTraffic, onFlow)
    {
      hide State, TrafficNext, FlowNext, Shrinks, KindsKept, Generators.Unref;
      var g := TakeTimer(t);
      Fires(t, g);
      GenerateNext(g, onTraffic, onFlow);
      Fired();
      Unref(g);
    }

    /** _tgengenerator_generateNext. */
    method GenerateNext(g: Generator, onTraffic: TrafficChoice, onFlow: FlowChoice)
      requires Linked() && Refers(g)
      modifies this, objects.Values
      ensures Linked() && Later()
      ensures var w := old(State());
              State() == if g.id in w.gens && w.gens[g.id].kind == Traffic then TrafficNext(w, g.id, onTraffic)
                         else FlowNext(w, g.id, onFlow)
    {
      hide State, TrafficNext, FlowNext;
      Seen(g);
      if g.id in objects && g.kind == Traffic {
        NextFlow(g, onTraffic);
      } else {
        NextStream(g, onFlow);
      }
    }

    /** A generator's timer expires; afterwards the timer is freed. */
    method OnTimerExpired(t: Ref, onTraffic: TrafficChoice, onFlow: FlowChoice)
      requires Valid() && t in timers
      modifies this, objects.Values
      ensures Valid() && Later() && State() == Do(old(State()), TimerFires(t, onTraffic, onFlow))
    {
      hide State, Lifecycle.Quiet, Fire;
      Lifecycle.DoKeeps(State(), TimerFires(t, onTraffic, onFlow));
      FireTimer(t, onTraffic, onFlow);
    }

    method TakeRunning(s: Ref) returns (g: Generator)
      requires Linked() && s in running
      modifies this`running
      ensures Linked() && Refers(g) && s in old(State()).running && g.id == old(State()).running[s]
      ensures State() == old(State()).(running := old(State()).running - {s})
    {
      g := running[s];
      assert Ids(running - {s}) == Ids(running) - {s};
      running := running - {s};
    }

    /** A stream reports its completion to its generator. */
    method OnStreamComplete(s: Ref, success: bool)
      requires Valid() && s in running
      modifies this, objects.Values
      ensures Valid() && Later() && State() == Do(old(State()), StreamEnds(s, success))
    {
      hide State, Lifecycle.Quiet, OnNotify;
      Lifecycle.DoKeeps(State(), StreamEnds(s, success));
      var g := TakeRunning(s);
      OnNotified(g, EndFlags(success));
    }

    method TakeStream(s: Ref) returns (g: Generator)
      requires Linked() && s in streams && s !in running
      modifies this`streams
      ensures Linked() && Refers(g) && s in old(State()).streams && s !in old(State()).running && g.id == old(State()).streams[s]
      ensures State() == old(State()).(streams := old(State()).streams - {s})
    {
      g := streams[s];
      assert Ids(streams - {s}) == Ids(streams) - {s};
      streams := streams - {s};
    }

    /** A completed stream is freed, and with it its reference to its generator. */
    method FreeStream(s: Ref)
      requires Valid() && s in streams && s !in running
      modifies this, objects.Values
      ensures Valid() && Later() && State() == Do(old(State()), StreamFreed(s))
    {
      hide State, Lifecycle.Quiet, Generators.Unref;
      Lifecycle.DoKeeps(State(), StreamFreed(s));
      var g := TakeStream(s);
      Unref(g);
    }
  }
}
