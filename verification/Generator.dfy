/** Generators: a traffic generator spawns flow generators, which spawn streams. Completion is counted
    upward, the driver keeps totals, and objects free themselves when the last reference goes. */
module Generators {
  import opened Options

  type Ref = nat

  datatype Kind = Traffic | Flow | Single

  datatype Flag =
    | StreamCreated | StreamComplete | StreamSuccess
    | FlowCreated | FlowComplete | FlowSuccess
    | TrafficCreated | TrafficComplete | TrafficSuccess

  /** `live` until the generator has announced its own completion, after which it gives up the
      reference to itself. */
  datatype Gen = Gen(kind: Kind, generated: nat, completed: nat, ended: bool, error: bool, live: bool, refs: int)

  datatype Tally = Tally(created: nat, succeeded: nat, failed: nat)

  /** The driver's totals. */
  datatype Totals = Totals(streams: Tally, flows: Tally, traffics: Tally)

  /** One notification of the driver; `done` is the generator of an action whose completion it
      announces, after which the driver goes on from that action. */
  datatype Note = Note(flags: set<Flag>, done: Option<Ref>)

  /** How a generator was announced: its kind and its error flag at that moment, and the position among
      all notifications of the one that carries its completion. */
  datatype Outcome = Outcome(kind: Kind, error: bool, note: nat)

  /** All generators in memory and everything that refers to one: child flows to their parent (`open`
      those whose completion is not yet announced), streams and timers to their generator
      (`running` the streams not yet complete). `passive` are the running streams of the server side,
      which report to the driver directly. `firing` is the generator whose expired timer is
      being handled. `roots` are the generators started for an action, `notes` is all that the driver
      has been told, `announced` the generators whose completion has been announced to their parent or
      the driver, with the `outcomes` announced. */
  datatype World = World(
    gens: map<Ref, Gen>,
    parent: map<Ref, Ref>,
    open: map<Ref, Ref>,
    streams: map<Ref, Ref>,
    running: map<Ref, Ref>,
    timers: map<Ref, Ref>,
    passive: set<Ref>,
    firing: Option<Ref>,
    totals: Totals,
    roots: set<Ref>,
    notes: seq<Note>,
    announced: seq<Ref>,
    outcomes: seq<Outcome>,
    next: Ref,
    dangling: bool)

  // ---- Reports to the driver ----

  function Count1(t: Tally, created: bool, complete: bool, success: bool): Tally {
    Tally(
      if created then t.created + 1 else t.created,
      if complete && success then t.succeeded + 1 else t.succeeded,
      if complete && !success then t.failed + 1 else t.failed)
  }

  /** The counters part of _tgendriver_onNotify. */
  function Report(t: Totals, flags: set<Flag>): Totals {
    Totals(
      Count1(t.streams, StreamCreated in flags, StreamComplete in flags, StreamSuccess in flags),
      Count1(t.flows, FlowCreated in flags, FlowComplete in flags, FlowSuccess in flags),
      Count1(t.traffics, TrafficCreated in flags, TrafficComplete in flags, TrafficSuccess in flags))
  }

  /** The totals after some notifications. */
  function Tallied(notes: seq<Note>): Totals {
    if notes == [] then Totals(NOTHING, NOTHING, NOTHING)
    else Report(Tallied(notes[..|notes| - 1]), notes[|notes| - 1].flags)
  }

  function ToDriver(w: World, flags: set<Flag>, done: Option<Ref>): World {
    w.(totals := Report(w.totals, flags), notes := w.notes + [Note(flags, done)])
  }

  predicate IsCreation(flags: set<Flag>) {
    StreamCreated in flags || FlowCreated in flags || TrafficCreated in flags
  }

  // ---- References ----

  function Put(w: World, g: Ref, gen: Gen): World {
    w.(gens := w.gens[g := gen])
  }

  /** Announcements and notifications are only ever added. */
  predicate Adds(w: World, r: World) {
    w.announced <= r.announced && w.notes <= r.notes
  }

  predicate Grows(w: World, r: World) {
    Adds(w, r) && r.roots == w.roots
  }

  /** Kinds never change. */
  predicate KindsKept(w: World, r: World) {
    r.firing == w.firing && Grows(w, r) && forall g :: g in w.gens && g in r.gens ==> r.gens[g].kind == w.gens[g].kind
  }

  /** Generators and parents are only ever forgotten. */
  predicate Shrinks(w: World, r: World) {
    KindsKept(w, r) && r.gens.Keys <= w.gens.Keys && (forall f :: f in r.parent ==> f in w.parent && r.parent[f] == w.parent[f])
  }

  function Unref(w: World, g: Ref): (r: World)
    ensures Shrinks(w, r) && r.totals == w.totals && r.notes == w.notes && r.announced == w.announced
    decreases |w.gens|
  {
    if g !in w.gens then w.(dangling := true)
    else
      var gen := w.gens[g].(refs := w.gens[g].refs - 1);
      if gen.refs != 0 then Put(w, g, gen)
      else
        var freed := w.(gens := w.gens - {g}, parent := w.parent - {g});
        if g in w.parent then Unref(freed, w.parent[g]) else freed
  }

  // ---- Completion ----

  predicate Due(gen: Gen) {
    (gen.error || gen.ended) && gen.completed >= gen.generated
  }

  function OwnFlags(gen: Gen): set<Flag> {
    if gen.kind == Traffic then {TrafficComplete} + if gen.error then {} else {TrafficSuccess}
    else {FlowComplete} + if gen.error then {} else {FlowSuccess}
  }

  /** At most one more notification has reached the driver. */
  predicate OneNote(w: World, r: World) {
    r.notes == w.notes || (|r.notes| == |w.notes| + 1 && w.notes <= r.notes)
  }

  /** Call the generator's notification function: its parent's, or the driver's. Only the driver makes
      use of the action that comes with a completion. */
  function Notify(w: World, g: Ref, flags: set<Flag>, finished: bool): (r: World)
    ensures Shrinks(w, r) && OneNote(w, r)
    decreases if g in w.parent then 1 else 0, 1
  {
    if g !in w.parent then ToDriver(w, flags, if finished then Some(g) else None)
    else if w.parent[g] in w.parent then w.(dangling := true)
    else OnNotify(w, w.parent[g], flags)
  }

  function OutcomeOf(w: World, gen: Gen): Outcome {
    Outcome(gen.kind, gen.error, |w.notes|)
  }

  /** _tgengenerator_onCompleteHelper. */
  function CompleteHelper(w: World, g: Ref, flags: set<Flag>): (r: World)
    ensures Shrinks(w, r) && OneNote(w, r)
    decreases if g in w.parent then 1 else 0, 2
  {
    if g !in w.gens then w.(dangling := true)
    else if Due(w.gens[g]) then
      var closed := Put(w, g, w.gens[g].(live := false))
        .(open := w.open - {g}, announced := w.announced + [g], outcomes := w.outcomes + [OutcomeOf(w, w.gens[g])]);
      Unref(Notify(closed, g, flags + OwnFlags(w.gens[g]), true), g)
    else if flags != {} then Notify(w, g, flags, false)
    else w
  }

  function Counts(kind: Kind, flags: set<Flag>): bool {
    (kind == Traffic && FlowComplete in flags) || (kind != Traffic && StreamComplete in flags)
  }

  /** _tgengenerator_onNotify. */
  function OnNotify(w: World, g: Ref, flags: set<Flag>): (r: World)
    ensures Shrinks(w, r) && OneNote(w, r)
    decreases if g in w.parent then 1 else 0, 3
  {
    if g !in w.gens then w.(dangling := true)
    else if IsCreation(flags) then Notify(w, g, flags, false)
    else
      var gen := w.gens[g];
      CompleteHelper(if Counts(gen.kind, flags) then Put(w, g, gen.(completed := gen.completed + 1)) else w, g, flags)
  }

  // ---- Generating ----

  /** What happens from outside when a flow generator asks for its next stream: its model ends, or
      it creates one (or fails to) and sets a timer (or fails to). */
  datatype FlowChoice = FlowEnds | FlowMakes(created: bool, timer: bool)

  /** The same for a traffic generator; a new flow starts at once and makes its own choice. */
  datatype TrafficChoice = TrafficEnds | TrafficMakes(first: FlowChoice, timer: bool)

  /** A new object with one reference, to itself. */
  function NewGenerator(w: World, kind: Kind): World {
    w.(gens := w.gens[w.next := Gen(kind, 0, 0, false, false, true, 1)], next := w.next + 1)
  }

  function AddRef(w: World, g: Ref): World {
    if g in w.gens then Put(w, g, w.gens[g].(refs := w.gens[g].refs + 1)) else w.(dangling := true)
  }

  /** _tgengenerator_createStream: the stream refers to its generator, and is announced. */
  function CreateStream(w: World, g: Ref): (r: World)
    ensures KindsKept(w, r)
  {
    if g !in w.gens then w.(dangling := true)
    else
      var s := AddRef(w, g).(streams := w.streams[w.next := g], running := w.running[w.next := g], next := w.next + 1);
      var a := OnNotify(s, g, {StreamCreated});
      if g in a.gens then Put(a, g, a.gens[g].(generated := a.gens[g].generated + 1)) else a.(dangling := true)
  }

  /** A generator that generates no more children may be done. */
  function Stop(w: World, g: Ref, gen: Gen): (r: World)
    requires g in w.gens && gen.kind == w.gens[g].kind
    ensures KindsKept(w, r)
  {
    CompleteHelper(Put(w, g, gen), g, {})
  }

  /** _tgengenerator_setTimer, or its failure: no more children then. */
  function SetTimer(w: World, g: Ref, ok: bool): (r: World)
    ensures KindsKept(w, r)
  {
    if ok then AddRef(w, g).(timers := w.timers[w.next := g], next := w.next + 1)
    else if g !in w.gens then w.(dangling := true)
    else Stop(w, g, w.gens[g].(error := true))
  }

  function ReachEnd(w: World, g: Ref): (r: World)
    ensures KindsKept(w, r)
  {
    if g !in w.gens then w.(dangling := true)
    else Stop(w, g, w.gens[g].(ended := true))
  }

  /** _tgengenerator_generateNext of a flow generator. */
  function FlowNext(w: World, g: Ref, c: FlowChoice): (r: World)
    ensures KindsKept(w, r)
  {
    if c.FlowEnds? then ReachEnd(w, g)
    else SetTimer(if c.created then CreateStream(w, g) else w, g, c.timer)
  }

  /** A new flow generator that refers to its parent. */
  function Adopt(w: World, g: Ref): World {
    var n := NewGenerator(AddRef(w, g), Flow);
    n.(parent := n.parent[w.next := g])
  }

  function CountFlow(w: World, g: Ref, f: Ref): World
    requires g in w.gens
  {
    Put(w, g, w.gens[g].(generated := w.gens[g].generated + 1)).(open := w.open[f := g])
  }

  /** _tgengenerator_createFlow: the new generator refers to its parent, is announced, counted and
      started. */
  function CreateFlow(w: World, g: Ref, first: FlowChoice): (r: World)
    ensures r.firing == w.firing && Grows(w, r)
  {
    if g !in w.gens then w.(dangling := true)
    else
      var a := OnNotify(Adopt(w, g), g, {FlowCreated});
      if g in a.gens then FlowNext(CountFlow(a, g, w.next), w.next, first) else a.(dangling := true)
  }

  /** _tgengenerator_generateNext of a traffic generator. */
  function TrafficNext(w: World, g: Ref, c: TrafficChoice): (r: World)
    ensures r.firing == w.firing && Grows(w, r)
  {
    if c.TrafficEnds? then ReachEnd(w, g) else SetTimer(CreateFlow(w, g, c.first), g, c.timer)
  }

  /** A generator without a model creates one stream only. */
  function SingleStart(w: World, g: Ref, created: bool): (r: World)
    ensures KindsKept(w, r)
  {
    if g !in w.gens then w.(dangling := true)
    else if created then
      var s := CreateStream(w, g);
      if g in s.gens then Put(s, g, s.gens[g].(ended := true)) else s.(dangling := true)
    else Stop(w, g, w.gens[g].(error := true))
  }

  // ---- Steps ----

  datatype Event =
    | StartTraffic(traffic: TrafficChoice)
    | StartFlow(flow: FlowChoice)
    | StartSingle(created: bool)
    | TimerFires(timer: Ref, onTraffic: TrafficChoice, onFlow: FlowChoice)
    | StreamEnds(stream: Ref, success: bool)
    | StreamFreed(stream: Ref)
    | PassiveStarts
    | PassiveEnds(stream: Ref, success: bool)

  /** The events that start a generator for an action. */
  predicate Starts(e: Event) {
    e.StartTraffic? || e.StartFlow? || e.StartSingle?
  }

  function Announce(kind: Kind): set<Flag> {
    if kind == Traffic then {TrafficCreated} else {FlowCreated}
  }

  /** A generator for an action: its creation is announced before it starts. */
  function NewRoot(w: World, kind: Kind): World {
    ToDriver(NewGenerator(w, kind).(roots := w.roots + {w.next}), Announce(kind), None)
  }

  /** A timer that is being handled still refers to its generator, and gives that up afterwards. */
  function Fire(w: World, t: Ref, onTraffic: TrafficChoice, onFlow: FlowChoice): (r: World)
    requires t in w.timers
    ensures Grows(w, r)
  {
    var g := w.timers[t];
    var f := w.(timers := w.timers - {t}, firing := Some(g));
    var r := if g in w.gens && w.gens[g].kind == Traffic then TrafficNext(f, g, onTraffic) else FlowNext(f, g, onFlow);
    Unref(r.(firing := None), g)
  }

  function EndFlags(success: bool): set<Flag> {
    {StreamComplete} + if success then {StreamSuccess} else {}
  }

  function EndStream(w: World, s: Ref, success: bool): World
    requires s in w.running
  {
    OnNotify(w.(running := w.running - {s}), w.running[s], EndFlags(success))
  }

  function StartPassive(w: World): World {
    ToDriver(w.(passive := w.passive + {w.next}, next := w.next + 1), {StreamCreated}, None)
  }

  function EndPassive(w: World, s: Ref, success: bool): World {
    ToDriver(w.(passive := w.passive - {s}), EndFlags(success), None)
  }

  /** One event; an event that is not possible changes nothing. */
  function Do(w: World, e: Event): (r: World)
    ensures Adds(w, r) && r.roots == if Starts(e) then w.roots + {w.next} else w.roots
  {
    match e
    case StartTraffic(c) => TrafficNext(NewRoot(w, Traffic), w.next, c)
    case StartFlow(c) => FlowNext(NewRoot(w, Flow), w.next, c)
    case StartSingle(created) => SingleStart(NewRoot(w, Single), w.next, created)
    case TimerFires(t, c, d) => if t in w.timers then Fire(w, t, c, d) else w
    case StreamEnds(s, ok) => if s in w.running then EndStream(w, s, ok) else w
    case StreamFreed(s) =>
      if s in w.streams && s !in w.running then Unref(w.(streams := w.streams - {s}), w.streams[s]) else w
    case PassiveStarts => StartPassive(w)
    case PassiveEnds(s, ok) => if s in w.passive then EndPassive(w, s, ok) else w
  }

  const NOTHING: Tally := Tally(0, 0, 0)

  function Start(): World {
    World(map[], map[], map[], map[], map[], map[], {}, None, Totals(NOTHING, NOTHING, NOTHING), {}, [], [], [], 0, false)
  }

  function Execute(events: seq<Event>): World {
    if events == [] then Start() else Do(Execute(events[..|events| - 1]), events[|events| - 1])
  }
}
