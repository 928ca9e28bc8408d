/** What one event tells the driver: any number of notifications that only count, and at most one, the
    last, that announces the completion of an action's generator. The driver can therefore go on from
    that action when the event is over. */
module Notices {
  import opened Options
  import opened Generators
  import opened Lifecycle

  /** The generator at the top: the parent of a flow that has one. */
  function Root(w: World, g: Ref): Ref {
    if g in w.parent then w.parent[g] else g
  }

  predicate Completed(n: Note) {
    FlowComplete in n.flags || TrafficComplete in n.flags
  }

  predicate Generates(w: World, g: Ref) {
    g in w.gens && !w.gens[g].ended && !w.gens[g].error
  }

  /** At most one more notification, announcing at most the completion of g, and only when g
      generates no more. */
  predicate OneOf(w: World, r: World, g: Ref) {
    OneNote(w, r) && (|r.notes| > |w.notes| ==> r.notes[|w.notes|].done in {None, Some(g)}) &&
    (|r.notes| > |w.notes| && r.notes[|w.notes|].done.Some? ==> !Generates(w, g) && Completed(r.notes[|w.notes|]))
  }

  lemma NotifyNote(w: World, g: Ref, flags: set<Flag>, finished: bool)
    requires Rooted(w, g) && !IsCreation(flags) && (finished ==> g in w.parent || (!Generates(w, g) && Completed(Note(flags, None))))
    ensures OneOf(w, Notify(w, g, flags, finished), Root(w, g))
    decreases if g in w.parent then 1 else 0, 1
  {
    hide Shrinks, Unref, Report;
    if g in w.parent {
      var p := w.parent[g];
      var gen := w.gens[p];
      var v := if Counts(gen.kind, flags) then Put(w, p, gen.(completed := gen.completed + 1)) else w;
      HelperNote(v, p, flags);
    }
  }

  lemma HelperNote(w: World, g: Ref, flags: set<Flag>)
    requires Rooted(w, g) && !IsCreation(flags)
    ensures OneOf(w, CompleteHelper(w, g, flags), Root(w, g))
    decreases if g in w.parent then 1 else 0, 2
  {
    hide Shrinks, Unref, Report, Notify, OwnFlags;
    if Due(w.gens[g]) {
      OwnNoCreation(w.gens[g], flags);
      NotifyNote(Closed(w, g), g, flags + OwnFlags(w.gens[g]), true);
    } else if flags != {} {
      NotifyNote(w, g, flags, false);
    }
  }

  lemma OwnNoCreation(gen: Gen, flags: set<Flag>)
    requires !IsCreation(flags)
    ensures !IsCreation(flags + OwnFlags(gen)) && Completed(Note(flags + OwnFlags(gen), None))
  {
  }

  // ---- Several notifications ----

  /** New notifications that announce nothing. */
  ghost predicate OnlyCounts(w: World, r: World) {
    w.notes <= r.notes && forall i :: |w.notes| <= i < |r.notes| ==> r.notes[i].done.None?
  }

  /** New notifications of which the last may announce g. */
  ghost predicate EndsWith(w: World, r: World, g: Ref) {
    w.notes <= r.notes &&
    forall i :: |w.notes| <= i < |r.notes| && r.notes[i].done.Some? ==>
      i == |r.notes| - 1 && r.notes[i].done == Some(g) && Completed(r.notes[i])
  }

  lemma StopNote(w: World, g: Ref, gen: Gen)
    requires Rooted(w, g) && gen.kind == w.gens[g].kind
    ensures EndsWith(w, Stop(w, g, gen), Root(w, g))
    ensures g in w.parent && Generates(w, Root(w, g)) ==> OnlyCounts(w, Stop(w, g, gen))
  {
    hide CompleteHelper, KindsKept;
    HelperNote(Put(w, g, gen), g, {});
  }

  lemma TimerNotes(w: World, g: Ref, ok: bool)
    requires Rooted(w, g)
    ensures EndsWith(w, SetTimer(w, g, ok), Root(w, g))
    ensures ok || (g in w.parent && Generates(w, Root(w, g))) ==> OnlyCounts(w, SetTimer(w, g, ok))
  {
    hide Stop, KindsKept;
    if !ok { StopNote(w, g, w.gens[g].(error := true)); }
  }

  lemma StreamNote(w: World, g: Ref)
    requires Rooted(w, g)
    ensures OnlyCounts(w, CreateStream(w, g)) && Rooted(CreateStream(w, g), g) && CreateStream(w, g).parent == w.parent
    ensures Generates(w, Root(w, g)) ==> Generates(CreateStream(w, g), Root(w, g))
  {
    hide CreateStream, Report;
    StreamCreation(w, g);
  }

  lemma FlowNotes(w: World, g: Ref, c: FlowChoice)
    requires Rooted(w, g)
    ensures EndsWith(w, FlowNext(w, g, c), Root(w, g))
    ensures g in w.parent && Generates(w, Root(w, g)) ==> OnlyCounts(w, FlowNext(w, g, c))
    ensures c.FlowMakes? && c.timer ==> OnlyCounts(w, FlowNext(w, g, c))
  {
    hide Stop, KindsKept, CreateStream, SetTimer, Rooted;
    RootedIn(w, g);
    if c.FlowEnds? {
      StopNote(w, g, w.gens[g].(ended := true));
    } else {
      if c.created { StreamNote(w, g); }
      TimerNotes(if c.created then CreateStream(w, g) else w, g, c.timer);
    }
  }

  lemma RootedIn(w: World, g: Ref)
    requires Rooted(w, g)
    ensures g in w.gens
  {
  }

  /** A new flow of a traffic generator that still generates. */
  lemma NewFlowNotes(w: World, x: Stage, g: Ref, c: FlowChoice)
    requires Inv(w, x) && Generating(x, g) && w.gens[g].kind == Traffic
    ensures OnlyCounts(w, CreateFlow(w, g, c))
  {
    hide Held, TalliesOk, Recorded, CreateFlow, FlowNext, Report;
    InLinks(w, x, g);
    assert GenOk(w, x, g);
    NextIsNew(w, x);
    WithFlowLinks(w, x, g);
    FlowCreation(w, g, c);
    FlowNotes(WithFlow(w, g), w.next, c);
  }

  lemma TrafficNotes(w: World, x: Stage, g: Ref, c: TrafficChoice)
    requires Inv(w, x) && Generating(x, g) && w.gens[g].kind == Traffic
    ensures EndsWith(w, TrafficNext(w, g, c), g) && g !in w.parent
    ensures c.TrafficMakes? && c.timer ==> OnlyCounts(w, TrafficNext(w, g, c))
  {
    hide Held, TalliesOk, Recorded, CreateFlow, FlowNext, SetTimer, Stop, LinksOk, GenOk;
    InLinks(w, x, g);
    TrafficOnTop(w, x, g);
    if c.TrafficEnds? {
      StopNote(w, g, w.gens[g].(ended := true));
    } else {
      var r := CreateFlow(w, g, c.first);
      CreateFlowKeeps(w, x, g, c.first);
      NewFlowNotes(w, x, g, c.first);
      InLinks(r, x, g);
      StaysTraffic(w, x, g, c.first);
      TrafficOnTop(r, x, g);
      TimerNotes(r, g, c.timer);
    }
  }

  lemma TrafficOnTop(w: World, x: Stage, g: Ref)
    requires LinksOk(w, x) && g in w.gens && w.gens[g].kind == Traffic
    ensures g !in w.parent && Rooted(w, g)
  {
  }

  lemma AllRooted(w: World, x: Stage, g: Ref)
    requires LinksOk(w, x) && g in w.gens
    ensures Rooted(w, g)
  {
  }

  // ---- Events ----

  /** The started generator cannot complete within its own start: it has set a timer or has made its
      one stream. */
  predicate Waits(e: Event) {
    match e
    case StartTraffic(c) => c.TrafficMakes? && c.timer
    case StartFlow(c) => c.FlowMakes? && c.timer
    case StartSingle(created) => created
    case _ => false
  }

  /** Only the last new notification may announce an action's generator: the one just started, or one
      that was started before. */
  ghost predicate Tells(w: World, e: Event, r: World) {
    w.notes <= r.notes &&
    forall i :: |w.notes| <= i < |r.notes| && r.notes[i].done.Some? ==>
      i == |r.notes| - 1 && Completed(r.notes[i]) && if Starts(e) then r.notes[i].done.value == w.next else r.notes[i].done.value in w.roots
  }

  lemma StartTells(w: World, e: Event)
    requires Quiet(w) && Starts(e)
    ensures EndsWith(w, Do(w, e), w.next) && (Waits(e) ==> OnlyCounts(w, Do(w, e)))
  {
    hide LinksOk, GenOk, TalliesOk, Recorded, TrafficNext, FlowNext, SingleStart, Report;
    match e
    case StartTraffic(c) =>
      NewRootKeeps(w, Traffic);
      TrafficNotes(NewRoot(w, Traffic), QUIET.(active := {w.next}), w.next, c);
    case StartFlow(c) =>
      NewRootKeeps(w, Flow);
      NewOnTop(w, Flow);
      FlowNotes(NewRoot(w, Flow), w.next, c);
    case StartSingle(created) =>
      NewRootKeeps(w, Single);
      NewOnTop(w, Single);
      SingleNotes(NewRoot(w, Single), w.next, created);
  }

  lemma NewOnTop(w: World, kind: Kind)
    requires LinksOk(w, QUIET)
    ensures Rooted(NewRoot(w, kind), w.next) && w.next !in NewRoot(w, kind).parent
  {
    hide Report;
    NextIsNew(w, QUIET);
  }

  lemma SingleNotes(w: World, g: Ref, created: bool)
    requires Rooted(w, g)
    ensures EndsWith(w, SingleStart(w, g, created), Root(w, g)) && (created ==> OnlyCounts(w, SingleStart(w, g, created)))
  {
    hide Stop, KindsKept, CreateStream;
    if created { StreamNote(w, g); } else { StopNote(w, g, w.gens[g].(error := true)); }
  }

  /** The top of a generator in memory was started for an action. */
  lemma RootStarted(w: World, x: Stage, g: Ref)
    requires Inv(w, x) && g in w.gens
    ensures Rooted(w, g) && Root(w, g) in w.roots
  {
    hide GenOk, TalliesOk;
  }

  lemma FireTells(w: World, t: Ref, c: TrafficChoice, d: FlowChoice)
    requires Quiet(w) && t in w.timers
    ensures w.timers[t] in w.gens && EndsWith(w, Fire(w, t, c, d), Root(w, w.timers[t]))
  {
    hide LinksOk, GenOk, TalliesOk, Recorded, TrafficNext, FlowNext, Unref;
    var g := w.timers[t];
    var f, y := Expired(w, t), QUIET.(active := {g});
    ExpireKeeps(w, t);
    if f.gens[g].kind == Traffic {
      TrafficNotes(f, y, g, c);
    } else {
      AllRooted(f, y, g);
      FlowNotes(f, g, d);
    }
  }

  lemma EndTells(w: World, s: Ref, success: bool)
    requires Quiet(w) && s in w.running
    ensures w.running[s] in w.gens && EndsWith(w, EndStream(w, s, success), Root(w, w.running[s]))
  {
    hide LinksOk, GenOk, TalliesOk, Recorded, CompleteHelper, Shrinks;
    RunningRooted(w, s);
    var r, g := Lifecycle.Completed(w, s), w.running[s];
    HelperNote(Put(r, g, r.gens[g].(completed := r.gens[g].completed + 1)), g, EndFlags(success));
  }

  /** What the driver is told by any event. */
  lemma DoTells(w: World, e: Event)
    requires Quiet(w)
    ensures Tells(w, e, Do(w, e)) && (Waits(e) ==> OnlyCounts(w, Do(w, e)))
  {
    hide Inv, Fire, EndStream, Unref, TrafficNext, FlowNext, SingleStart, Report, Root;
    if Starts(e) {
      StartTells(w, e);
    } else if e.TimerFires? && e.timer in w.timers {
      FireTells(w, e.timer, e.onTraffic, e.onFlow);
      RootStarted(w, QUIET, w.timers[e.timer]);
    } else if e.StreamEnds? && e.stream in w.running {
      EndTells(w, e.stream, e.success);
      RootStarted(w, QUIET, w.running[e.stream]);
    }
  }
}
