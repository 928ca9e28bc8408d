/** When exactly the walk on an accepted graph can fail an assertion, and when exactly an end it
    reports is the model's own: conditions on the graph, for one step and for whole runs. */
module WalkSafety {
  import opened Options
  import opened Labels
  import opened Markov

  // ---- Which edges can be chosen ----

  /** Some draw chooses this edge: it has weight, or it is the first of its kind at its source. */
  ghost predicate Choosable(g: Graph, kind: EdgeKind, e: nat) {
    e < |g.edges| && Matches(g.edges[e], kind) &&
    (Share(g.edges[e], kind) > 0.0 ||
     forall d :: 0 <= d < e && g.edges[d].source == g.edges[e].source ==> !Matches(g.edges[d], kind))
  }

  ghost predicate HasEdge(g: Graph, kind: EdgeKind, v: nat) {
    exists e :: 0 <= e < |g.edges| && g.edges[e].source == v && Matches(g.edges[e], kind)
  }

  lemma {:induction false} IncidentSorted(g: Graph, v: nat, from: nat, i: nat, j: nat)
    requires from <= |g.edges| && i < j < |Incident(g, v, from)|
    ensures from <= Incident(g, v, from)[i] < Incident(g, v, from)[j]
    decreases |g.edges| - from
  {
    if from < |g.edges| {
      var rest := Incident(g, v, from + 1);
      IncidentLater(g, v, from + 1);
      if g.edges[from].source == v {
        assert Incident(g, v, from) == [from] + rest;
        if i > 0 { IncidentSorted(g, v, from + 1, i - 1, j - 1); }
      } else {
        assert Incident(g, v, from) == rest;
        IncidentSorted(g, v, from + 1, i, j);
      }
    }
  }

  lemma {:induction false} IncidentLater(g: Graph, v: nat, from: nat)
    requires from <= |g.edges|
    ensures forall k :: 0 <= k < |Incident(g, v, from)| ==> Incident(g, v, from)[k] >= from
    decreases |g.edges| - from
  {
    if from < |g.edges| { IncidentLater(g, v, from + 1); }
  }

  /** First of its kind among the incident edges, said of indices. */
  lemma FirstAmong(g: Graph, kind: EdgeKind, v: nat, k: nat)
    requires k < |Incident(g, v)|
    ensures (forall j :: 0 <= j < k ==> !Matches(g.edges[Incident(g, v)[j]], kind)) <==>
            (forall d :: 0 <= d < Incident(g, v)[k] && g.edges[d].source == v ==> !Matches(g.edges[d], kind))
  {
    var es := Incident(g, v);
    forall d | 0 <= d < es[k] && g.edges[d].source == v ensures exists j :: 0 <= j < k && es[j] == d {
      IncidentComplete(g, v, 0, d);
      var j :| 0 <= j < |es| && es[j] == d;
      if k < j { IncidentSorted(g, v, 0, k, j); }
    }
    forall j | 0 <= j < k ensures es[j] < es[k] {
      IncidentSorted(g, v, 0, j, k);
    }
  }

  /** Every choosable edge has a draw that chooses it. */
  lemma DrawFor(g: Graph, kind: EdgeKind, e: nat) returns (r: real)
    requires Accepted(g) && Choosable(g, kind, e)
    ensures var es := Incident(g, g.edges[e].source);
            InRange(r, Total(g, kind, es)) && Choose(g, kind, es, r) == Some(e)
  {
    var v := g.edges[e].source;
    var es := Incident(g, v);
    AllEdgesReadable(g, kind, v);
    IncidentComplete(g, v, 0, e);
    var k :| 0 <= k < |es| && es[k] == e;
    r := if Share(g.edges[e], kind) > 0.0 then Total(g, kind, es[..k]) + Share(g.edges[e], kind) / 2.0 else 0.0;
    assert es[..|es|] == es;
    assert es[..k + 1][..k] == es[..k];
    TotalMonotone(g, kind, es, k, k + 1);
    TotalMonotone(g, kind, es, k + 1, |es|);
    ChoiceProportional(g, kind, es, r, k);
    FirstAmong(g, kind, v, k);
    assert Selected(g, kind, es, r, k);
    var c := ChooseFrom(g, kind, es, r, 0);
    if c < |es| { SelectedUnique(g, kind, es, r, k, c); }
  }

  /** Only choosable edges are chosen. */
  lemma ChosenIsChoosable(g: Graph, kind: EdgeKind, v: nat, r: real)
    requires Accepted(g) && r >= 0.0 && Choose(g, kind, Incident(g, v), r).Some?
    ensures var e := Choose(g, kind, Incident(g, v), r).value; Choosable(g, kind, e) && g.edges[e].source == v
  {
    var es := Incident(g, v);
    AllEdgesReadable(g, kind, v);
    var k := ChooseFrom(g, kind, es, r, 0);
    ChoiceProportional(g, kind, es, r, k);
    FirstAmong(g, kind, v, k);
  }

  /** Nothing is chosen exactly where there is nothing to choose. */
  lemma ChosenIfAny(g: Graph, kind: EdgeKind, v: nat, r: real)
    requires Accepted(g) && InRange(r, Total(g, kind, Incident(g, v)))
    ensures Choose(g, kind, Incident(g, v), r).Some? <==> HasEdge(g, kind, v)
  {
    hide Accepted, Choose, Total, Incident, Readable;
    var es := Incident(g, v);
    AllEdgesReadable(g, kind, v);
    ChoiceExists(g, kind, es, r);
    if HasEdge(g, kind, v) {
      var e :| 0 <= e < |g.edges| && g.edges[e].source == v && Matches(g.edges[e], kind);
      IncidentComplete(g, v, 0, e);
      var k :| 0 <= k < |es| && es[k] == e;
      assert Matches(g.edges[es[k]], kind);
    }
  }

  /** What a pick can be, for any random stream. */
  lemma PickFacts(m: Model, kind: EdgeKind, v: nat, draw: nat)
    requires Accepted(m.graph) && RngOk(m.rng)
    ensures CanPick(m, kind, v) && (Pick(m, kind, v, draw).Some? <==> HasEdge(m.graph, kind, v))
    ensures Pick(m, kind, v, draw).Some? ==>
              Choosable(m.graph, kind, Pick(m, kind, v, draw).value) && m.graph.edges[Pick(m, kind, v, draw).value].source == v
  {
    var es := Incident(m.graph, v);
    AllEdgesReadable(m.graph, kind, v);
    assert es[..|es|] == es && es[..0] == [];
    TotalMonotone(m.graph, kind, es, 0, |es|);
    var r := m.rng.range(draw, Total(m.graph, kind, es));
    ChosenIfAny(m.graph, kind, v, r);
    if Pick(m, kind, v, draw).Some? { ChosenIsChoosable(m.graph, kind, v, r); }
  }

  /** A random stream that follows a script of draws, and samples without drawing. */
  function Scripted(draws: seq<real>): (rng: Rng)
    ensures RngOk(rng)
  {
    Rng((n: nat, t: real) => if n < |draws| && InRange(draws[n], t) then draws[n] else 0.0, (n: nat, e: Edge) => (0.0, 0))
  }

  /** A scripted draw that chooses a choosable edge. */
  lemma ScriptPicks(m: Model, kind: EdgeKind, e: nat, draws: seq<real>, r: real, n: nat)
    requires Choosable(m.graph, kind, e) && n < |draws| && draws[n] == r && m.rng == Scripted(draws)
    requires var es := Incident(m.graph, m.graph.edges[e].source);
             InRange(r, Total(m.graph, kind, es)) && Choose(m.graph, kind, es, r) == Some(e)
    ensures Pick(m, kind, m.graph.edges[e].source, n) == Some(e)
  {
  }

  // ---- One step ----

  /** The walk at a vertex that has not met its end, on a graph with a random stream. */
  predicate Stands(rng: Rng, w: Walk, v: nat) {
    w.current == v && !w.found
  }

  /** No call from this vertex fails an assertion, whatever the random stream. */
  ghost predicate NeverAborts(g: Graph, start: nat, v: nat) {
    forall rng: Rng, w: Walk :: RngOk(rng) && Stands(rng, w, v) ==> Next(Model(g, start, rng), w).Emitted?
  }

  /** Every choosable emission behind every choosable transition leads to an observation vertex. */
  ghost predicate TypedAhead(g: Graph, v: nat) {
    forall d: nat, e: nat :: Ahead(g, v, d, e) ==> g.vertices[g.edges[e].target].kind == Some(ObservationKind)
  }

  /** A choosable transition from v and a choosable emission behind it. */
  ghost predicate Ahead(g: Graph, v: nat, d: nat, e: nat) {
    d < |g.edges| && g.edges[d].source == v && Choosable(g, Transition, d) &&
    e < |g.edges| && g.edges[e].source == g.edges[d].target && Choosable(g, Emission, e)
  }

  /** What an emission gives: an observation unless its vertex is mistyped. */
  lemma EmitFacts(m: Model, e: nat, w: Walk)
    requires Accepted(m.graph) && e < |m.graph.edges| && Matches(m.graph.edges[e], Emission)
    ensures Emit(m, m.graph.edges[e], w).Emitted? <==> m.graph.vertices[m.graph.edges[e].target].kind == Some(ObservationKind)
    ensures Emit(m, m.graph.edges[e], w).Emitted? ==>
              Emit(m, m.graph.edges[e], w).walk.current == w.current &&
              (Emit(m, m.graph.edges[e], w).walk.found <==> Emit(m, m.graph.edges[e], w).obs.End?)
  {
    assert EdgeOk(m.graph, m.graph.edges[e]);
  }

  lemma OneStep(m: Model, w: Walk)
    requires Accepted(m.graph) && RngOk(m.rng) && !w.found
    ensures var t := Pick(m, Transition, w.current, w.drawn);
            if t.None? then Next(m, w) == Emitted(End, 0, w.(drawn := w.drawn + 1))
            else
              var u := m.graph.edges[t.value].target;
              var x := Walk(u, false, w.drawn + 2);
              var e := Pick(m, Emission, u, w.drawn + 1);
              Next(m, w) == if e.None? then Emitted(End, 0, x) else Emit(m, m.graph.edges[e.value], x)
  {
    hide Pick, CanPick, Emit, Accepted;
    PickFacts(m, Transition, w.current, w.drawn);
    var t := Pick(m, Transition, w.current, w.drawn);
    if t.Some? { PickFacts(m, Emission, m.graph.edges[t.value].target, w.drawn + 1); }
  }

  /** Draws that lead over a transition, and then over an emission. */
  lemma TwoDraws(g: Graph, start: nat, d: nat, e: nat) returns (draws: seq<real>)
    requires Accepted(g) && Choosable(g, Transition, d) && Choosable(g, Emission, e) && g.edges[e].source == g.edges[d].target
    ensures |draws| == 2
    ensures var m := Model(g, start, Scripted(draws));
            Pick(m, Transition, g.edges[d].source, 0) == Some(d) && Pick(m, Emission, g.edges[d].target, 1) == Some(e)
  {
    var r := DrawFor(g, Transition, d);
    var s := DrawFor(g, Emission, e);
    draws := [r, s];
    ScriptPicks(Model(g, start, Scripted(draws)), Transition, d, draws, r, 0);
    ScriptPicks(Model(g, start, Scripted(draws)), Emission, e, draws, s, 1);
  }

  /** Exactly when one call can fail: a condition on the graph that validation does not check. */
  lemma AbortsExactly(g: Graph, start: nat, v: nat)
    requires Accepted(g)
    ensures NeverAborts(g, start, v) <==> TypedAhead(g, v)
  {
    hide Accepted, Choosable, Emit, Next, Scripted, Pick;
    if TypedAhead(g, v) {
      forall rng: Rng, w: Walk | RngOk(rng) && Stands(rng, w, v) ensures Next(Model(g, start, rng), w).Emitted? {
        StepEmits(Model(g, start, rng), w);
      }
    }
    if d: nat, e: nat :| Ahead(g, v, d, e) && g.vertices[g.edges[e].target].kind != Some(ObservationKind) {
      var draws := TwoDraws(g, start, d, e);
      var m, w := Model(g, start, Scripted(draws)), Walk(v, false, 0);
      OneStep(m, w);
      IsMatching(g, Emission, e);
      EmitFacts(m, e, Walk(g.edges[d].target, false, 2));
      assert Stands(m.rng, w, v) && RngOk(m.rng);
    }
  }

  lemma IsMatching(g: Graph, kind: EdgeKind, e: nat)
    requires Choosable(g, kind, e)
    ensures e < |g.edges| && Matches(g.edges[e], kind)
  {
  }

  lemma StepEmits(m: Model, w: Walk)
    requires Accepted(m.graph) && RngOk(m.rng) && !w.found && TypedAhead(m.graph, w.current)
    ensures Next(m, w).Emitted?
  {
    hide Accepted, Choosable, Emit, Next, Pick;
    OneStep(m, w);
    var t := Pick(m, Transition, w.current, w.drawn);
    if t.Some? {
      PickFacts(m, Transition, w.current, w.drawn);
      var u := m.graph.edges[t.value].target;
      var e := Pick(m, Emission, u, w.drawn + 1);
      if e.Some? {
        PickFacts(m, Emission, u, w.drawn + 1);
        IsMatching(m.graph, Emission, e.value);
        assert Ahead(m.graph, w.current, t.value, e.value);
        EmitFacts(m, e.value, Walk(u, false, w.drawn + 2));
      }
    }
  }

  // ---- Ends that are not the model's ----

  /** Every end reported from this vertex sets the end flag. */
  ghost predicate EndsProperly(g: Graph, start: nat, v: nat) {
    forall rng: Rng, w: Walk :: RngOk(rng) && Stands(rng, w, v) ==>
      var o := Next(Model(g, start, rng), w); o.Emitted? && o.obs.End? ==> o.walk.found
  }

  /** A transition leaves the vertex, and behind every choosable transition there is an emission. */
  ghost predicate GoesOn(g: Graph, v: nat) {
    HasEdge(g, Transition, v) &&
    forall d: nat :: d < |g.edges| && Choosable(g, Transition, d) && g.edges[d].source == v ==> HasEdge(g, Emission, g.edges[d].target)
  }

  /** Exactly when an end is the model's own: both kinds of dead end, a state without a transition and
      a state without an emission, are read off the graph. */
  lemma DeadEndsExactly(g: Graph, start: nat, v: nat)
    requires Accepted(g)
    ensures EndsProperly(g, start, v) <==> GoesOn(g, v)
  {
    hide Accepted, Choosable, Emit, Next, Scripted, Pick, HasEdge;
    if GoesOn(g, v) {
      forall rng: Rng, w: Walk | RngOk(rng) && Stands(rng, w, v)
        ensures var o := Next(Model(g, start, rng), w); o.Emitted? && o.obs.End? ==> o.walk.found
      {
        StepEnds(Model(g, start, rng), w);
      }
    }
    var w := Walk(v, false, 0);
    if !HasEdge(g, Transition, v) {
      var m := Model(g, start, Scripted([]));
      PickFacts(m, Transition, v, 0);
      OneStep(m, w);
      assert Stands(m.rng, w, v) && RngOk(m.rng);
    } else if d: nat :| d < |g.edges| && Choosable(g, Transition, d) && g.edges[d].source == v && !HasEdge(g, Emission, g.edges[d].target) {
      var r := DrawFor(g, Transition, d);
      var m := Model(g, start, Scripted([r]));
      ScriptPicks(m, Transition, d, [r], r, 0);
      PickFacts(m, Emission, g.edges[d].target, 1);
      OneStep(m, w);
      assert Stands(m.rng, w, v) && RngOk(m.rng);
    }
  }

  lemma StepEnds(m: Model, w: Walk)
    requires Accepted(m.graph) && RngOk(m.rng) && !w.found && GoesOn(m.graph, w.current)
    ensures Next(m, w).Emitted? && Next(m, w).obs.End? ==> Next(m, w).walk.found
  {
    hide Accepted, Choosable, Emit, Next, Pick, HasEdge;
    OneStep(m, w);
    PickFacts(m, Transition, w.current, w.drawn);
    var u := m.graph.edges[Pick(m, Transition, w.current, w.drawn).value].target;
    PickFacts(m, Emission, u, w.drawn + 1);
    var e := Pick(m, Emission, u, w.drawn + 1).value;
    IsMatching(m.graph, Emission, e);
    EmitFacts(m, e, Walk(u, false, w.drawn + 2));
  }

  /** An accepted graph whose start is a dead end: the start alone. */
  const LONE: Graph := Graph([Vertex(Some(StartName), None)], [], true)

  lemma LoneStartIsDeadEnd(start: nat)
    ensures Accepted(LONE) && ObservationsTyped(LONE) && !GoesOn(LONE, 0) && !EndsProperly(LONE, start, 0)
  {
    assert IsStart(LONE.vertices[0]);
    DeadEndsExactly(LONE, start, 0);
  }

  // ---- Whole runs ----

  /** A walk can go on from this state: it has no emission, or one that is not an end. */
  ghost predicate Passes(g: Graph, u: nat) {
    !HasEdge(g, Emission, u) || exists e: nat :: PassesBy(g, u, e)
  }

  ghost predicate PassesBy(g: Graph, u: nat, e: nat) {
    e < |g.edges| && g.edges[e].source == u && Choosable(g, Emission, e) &&
    VertexObservation(g.vertices[g.edges[e].target]) in {Some(ToServer), Some(ToOrigin)}
  }

  ghost predicate HopsBy(g: Graph, v: nat, u: nat, d: nat) {
    d < |g.edges| && g.edges[d].source == v && g.edges[d].target == u && Choosable(g, Transition, d) && Passes(g, u)
  }

  ghost predicate Hops(g: Graph, v: nat, u: nat) {
    exists d: nat :: HopsBy(g, v, u, d)
  }

  ghost predicate IsPath(g: Graph, start: nat, path: seq<nat>) {
    |path| > 0 && path[0] == start && forall i :: 0 <= i < |path| - 1 ==> Hops(g, path[i], path[i + 1])
  }

  ghost predicate PathTo(g: Graph, start: nat, path: seq<nat>, v: nat) {
    IsPath(g, start, path) && path[|path| - 1] == v
  }

  /** The states from which some run asks for an observation. */
  ghost predicate Reachable(g: Graph, start: nat, v: nat) {
    exists path: seq<nat> :: PathTo(g, start, path, v)
  }

  ghost predicate RunsNeverAbort(g: Graph, start: nat) {
    forall rng: Rng, calls: seq<Call> :: RngOk(rng) ==> RunCalls(Model(g, start, rng), Begin(Model(g, start, rng)), calls).Some?
  }

  lemma ReachOn(g: Graph, start: nat, v: nat, u: nat)
    requires Reachable(g, start, v) && Hops(g, v, u)
    ensures Reachable(g, start, u)
  {
    var path: seq<nat> :| PathTo(g, start, path, v);
    assert PathTo(g, start, path + [u], u);
  }

  lemma StartReachable(g: Graph, start: nat)
    ensures Reachable(g, start, start)
  {
    assert PathTo(g, start, [start], start);
  }

  /** A run can come to the model's own end by this transition and emission. */
  ghost predicate EndsBy(g: Graph, start: nat, v: nat, d: nat, e: nat) {
    Reachable(g, start, v) && Ahead(g, v, d, e) && VertexObservation(g.vertices[g.edges[e].target]) == Some(End)
  }

  /** A call leaves the walk at a reachable state, or finds an end that the graph has. */
  lemma StepReaches(m: Model, w: Walk)
    requires Accepted(m.graph) && RngOk(m.rng) && !w.found && Reachable(m.graph, m.start, w.current) && Next(m, w).Emitted?
    ensures !Next(m, w).walk.found ==> Reachable(m.graph, m.start, Next(m, w).walk.current)
    ensures Next(m, w).walk.found ==> exists v: nat, d: nat, e: nat :: EndsBy(m.graph, m.start, v, d, e)
  {
    hide Accepted, Choosable, Emit, Next, Pick, HasEdge, Reachable;
    OneStep(m, w);
    var t := Pick(m, Transition, w.current, w.drawn);
    if t.Some? {
      PickFacts(m, Transition, w.current, w.drawn);
      var u := m.graph.edges[t.value].target;
      PickFacts(m, Emission, u, w.drawn + 1);
      var e := Pick(m, Emission, u, w.drawn + 1);
      if e.Some? {
        IsMatching(m.graph, Emission, e.value);
        EmitFacts(m, e.value, Walk(u, false, w.drawn + 2));
        EmitPasses(m, u, e.value, Walk(u, false, w.drawn + 2));
        assert Ahead(m.graph, w.current, t.value, e.value);
        if Next(m, w).walk.found { assert EndsBy(m.graph, m.start, w.current, t.value, e.value); }
      }
      if !Next(m, w).walk.found {
        assert HopsBy(m.graph, w.current, u, t.value);
        ReachOn(m.graph, m.start, w.current, u);
      }
    }
  }

  lemma EmitPasses(m: Model, u: nat, e: nat, w: Walk)
    requires e < |m.graph.edges| && m.graph.edges[e].source == u && Choosable(m.graph, Emission, e)
    requires Emit(m, m.graph.edges[e], w).Emitted?
    ensures !Emit(m, m.graph.edges[e], w).obs.End? ==> PassesBy(m.graph, u, e)
    ensures Emit(m, m.graph.edges[e], w).obs.End? ==> VertexObservation(m.graph.vertices[m.graph.edges[e].target]) == Some(End)
  {
  }

  lemma {:induction false} TypedRuns(m: Model, w: Walk, calls: seq<Call>)
    requires Accepted(m.graph) && RngOk(m.rng) && (w.found || Reachable(m.graph, m.start, w.current))
    requires forall v: nat :: Reachable(m.graph, m.start, v) ==> TypedAhead(m.graph, v)
    ensures RunCalls(m, w, calls).Some?
    decreases |calls|
  {
    hide Accepted, TypedAhead, Reachable;
    if calls != [] {
      if calls[0].ResetCall? {
        StartReachable(m.graph, m.start);
        TypedRuns(m, Restart(m, w), calls[1..]);
      } else {
        if !w.found {
          StepEmits(m, w);
          StepReaches(m, w);
        }
        TypedRuns(m, Next(m, w).walk, calls[1..]);
      }
    }
  }

  function Nexts(n: nat): seq<Call> {
    seq(n, i => NextCall)
  }

  lemma {:induction false} OneMoreNext(m: Model, w: Walk, n: nat)
    ensures RunCalls(m, w, Nexts(n + 1)) ==
            var r := RunCalls(m, w, Nexts(n));
            if r.None? then None
            else match Next(m, r.value) case Aborted => None case Emitted(_, _, w') => Some(w')
    decreases n
  {
    hide Next;
    assert Nexts(n + 1)[1..] == Nexts(n);
    if n > 0 {
      assert Nexts(n)[1..] == Nexts(n - 1);
      var o := Next(m, w);
      if o.Emitted? { OneMoreNext(m, o.walk, n - 1); }
    } else {
      assert Nexts(1) == [NextCall] && Nexts(0) == [];
      if Next(m, w).Emitted? { assert RunCalls(m, Next(m, w).walk, Nexts(0)) == Some(Next(m, w).walk); }
    }
  }

  /** The script that leads a walk along a path, whatever it says afterwards. */
  ghost predicate Leads(g: Graph, start: nat, path: seq<nat>, draws: seq<real>)
    requires |path| > 0
  {
    |draws| == 2 * (|path| - 1) &&
    forall more: seq<real> :: LedBy(g, start, path, draws, more)
  }

  predicate LedBy(g: Graph, start: nat, path: seq<nat>, draws: seq<real>, more: seq<real>)
    requires |path| > 0
  {
    var m := Model(g, start, Scripted(draws + more));
    RunCalls(m, Begin(m), Nexts(|path| - 1)) == Some(Walk(path[|path| - 1], false, |draws|))
  }

  /** Two more draws that lead over a hop. */
  lemma HopDraws(g: Graph, start: nat, v: nat, u: nat) returns (r: real, s: real)
    requires Accepted(g) && Hops(g, v, u)
    ensures forall before: seq<real>, more: seq<real> :: HopLed(g, start, v, u, before, [r, s], more)
  {
    hide Accepted, Choosable, Scripted, HasEdge, Next;
    var d: nat :| HopsBy(g, v, u, d);
    r := DrawFor(g, Transition, d);
    if HasEdge(g, Emission, u) {
      var e: nat :| PassesBy(g, u, e);
      s := DrawFor(g, Emission, e);
      forall before: seq<real>, more: seq<real> ensures HopLed(g, start, v, u, before, [r, s], more) {
        HopByEmission(g, start, d, e, before, r, s, more);
      }
    } else {
      s := 0.0;
      forall before: seq<real>, more: seq<real> ensures HopLed(g, start, v, u, before, [r, s], more) {
        HopBySilence(g, start, d, before, r, s, more);
      }
    }
  }

  predicate HopLed(g: Graph, start: nat, v: nat, u: nat, before: seq<real>, two: seq<real>, more: seq<real>) {
    var o := Next(Model(g, start, Scripted(before + two + more)), Walk(v, false, |before|));
    o.Emitted? && o.walk == Walk(u, false, |before| + 2)
  }

  lemma HopBySilence(g: Graph, start: nat, d: nat, before: seq<real>, r: real, s: real, more: seq<real>)
    requires Accepted(g) && d < |g.edges| && Choosable(g, Transition, d) && !HasEdge(g, Emission, g.edges[d].target)
    requires var es := Incident(g, g.edges[d].source); InRange(r, Total(g, Transition, es)) && Choose(g, Transition, es, r) == Some(d)
    ensures HopLed(g, start, g.edges[d].source, g.edges[d].target, before, [r, s], more)
  {
    hide Accepted, Choosable, Scripted, HasEdge, Next, Pick, Emit;
    var draws := before + [r, s] + more;
    var m, n := Model(g, start, Scripted(draws)), |before|;
    ScriptPicks(m, Transition, d, draws, r, n);
    PickFacts(m, Emission, g.edges[d].target, n + 1);
    OneStep(m, Walk(g.edges[d].source, false, n));
  }

  lemma HopByEmission(g: Graph, start: nat, d: nat, e: nat, before: seq<real>, r: real, s: real, more: seq<real>)
    requires Accepted(g) && d < |g.edges| && Choosable(g, Transition, d) && PassesBy(g, g.edges[d].target, e)
    requires var es := Incident(g, g.edges[d].source); InRange(r, Total(g, Transition, es)) && Choose(g, Transition, es, r) == Some(d)
    requires var es := Incident(g, g.edges[e].source); InRange(s, Total(g, Emission, es)) && Choose(g, Emission, es, s) == Some(e)
    ensures HopLed(g, start, g.edges[d].source, g.edges[d].target, before, [r, s], more)
  {
    hide Accepted, Choosable, HasEdge, Next, Pick;
    var draws := before + [r, s] + more;
    var m, n := Model(g, start, Scripted(draws)), |before|;
    ScriptPicks(m, Transition, d, draws, r, n);
    ScriptPicks(m, Emission, e, draws, s, n + 1);
    OneStep(m, Walk(g.edges[d].source, false, n));
    IsMatching(g, Emission, e);
    EmitFacts(m, e, Walk(g.edges[d].target, false, n + 2));
  }

  lemma {:induction false} DrawsAlong(g: Graph, start: nat, path: seq<nat>) returns (draws: seq<real>)
    requires Accepted(g) && IsPath(g, start, path)
    ensures Leads(g, start, path, draws)
  {
    hide Accepted, Hops, Scripted, Next;
    var n := |path| - 1;
    if n == 0 {
      draws := [];
      assert Nexts(0) == [];
    } else {
      var shorter := path[..n];
      var before := DrawsAlong(g, start, shorter);
      var r, s := HopDraws(g, start, path[n - 1], path[n]);
      draws := before + [r, s];
      forall more: seq<real> ensures LedBy(g, start, path, draws, more) {
        assert draws + more == before + ([r, s] + more);
        assert LedBy(g, start, shorter, before, [r, s] + more);
        assert HopLed(g, start, path[n - 1], path[n], before, [r, s], more);
        var m := Model(g, start, Scripted(draws + more));
        OneMoreNext(m, Begin(m), n - 1);
      }
    }
  }

  /** Exactly when no run can fail an assertion: every state that a run can ask from is typed ahead. */
  lemma RunsAbortExactly(g: Graph, start: nat)
    requires Accepted(g)
    ensures RunsNeverAbort(g, start) <==> forall v: nat :: Reachable(g, start, v) ==> TypedAhead(g, v)
  {
    hide Accepted, TypedAhead, Reachable, RunCalls, Scripted;
    if forall v: nat :: Reachable(g, start, v) ==> TypedAhead(g, v) {
      forall rng: Rng, calls: seq<Call> | RngOk(rng) ensures RunCalls(Model(g, start, rng), Begin(Model(g, start, rng)), calls).Some? {
        StartReachable(g, start);
        TypedRuns(Model(g, start, rng), Begin(Model(g, start, rng)), calls);
      }
    } else {
      var v: nat :| Reachable(g, start, v) && !TypedAhead(g, v);
      var rng, calls := AbortingRun(g, start, v);
    }
  }

  /** A random stream that leads a run to a reachable state and over a transition and an emission:
      what the run's last call then gives is what the emission gives. */
  lemma RunTo(g: Graph, start: nat, v: nat, d: nat, e: nat) returns (rng: Rng, calls: seq<Call>, x: Walk)
    requires Accepted(g) && Reachable(g, start, v) && Ahead(g, v, d, e)
    ensures RngOk(rng)
    ensures var m := Model(g, start, rng);
            RunCalls(m, Begin(m), calls) ==
            match Emit(m, g.edges[e], x) case Aborted => None case Emitted(_, _, w) => Some(w)
  {
    hide Accepted, Choosable, Scripted, Next, Pick, Emit, Hops;
    var path: seq<nat> :| PathTo(g, start, path, v);
    var before := DrawsAlong(g, start, path);
    var r := DrawFor(g, Transition, d);
    var s := DrawFor(g, Emission, e);
    var draws := before + [r, s];
    rng := Scripted(draws);
    var m, n := Model(g, start, rng), |before|;
    calls := Nexts(|path|);
    x := Walk(g.edges[d].target, false, n + 2);
    assert LedBy(g, start, path, before, [r, s]);
    OneMoreNext(m, Begin(m), |path| - 1);
    ScriptPicks(m, Transition, d, draws, r, n);
    ScriptPicks(m, Emission, e, draws, s, n + 1);
    OneStep(m, Walk(v, false, n));
  }

  /** A random stream and calls that fail, for a reachable state that is not typed ahead. */
  lemma AbortingRun(g: Graph, start: nat, v: nat) returns (rng: Rng, calls: seq<Call>)
    requires Accepted(g) && Reachable(g, start, v) && !TypedAhead(g, v)
    ensures RngOk(rng) && RunCalls(Model(g, start, rng), Begin(Model(g, start, rng)), calls).None?
  {
    hide Accepted, Choosable, Reachable, Emit, RunCalls;
    var d: nat, e: nat :| Ahead(g, v, d, e) && g.vertices[g.edges[e].target].kind != Some(ObservationKind);
    var x;
    rng, calls, x := RunTo(g, start, v, d, e);
    IsMatching(g, Emission, e);
    EmitFacts(Model(g, start, rng), e, x);
  }

  // ---- Coming to the model's own end ----

  /** Some random stream and calls bring the walk to an emitted end. */
  ghost predicate CanEnd(g: Graph, start: nat) {
    exists rng: Rng, calls: seq<Call> :: RngOk(rng) && FoundAfter(Model(g, start, rng), Begin(Model(g, start, rng)), calls)
  }

  predicate FoundAfter(m: Model, w: Walk, calls: seq<Call>) {
    RunCalls(m, w, calls).Some? && RunCalls(m, w, calls).value.found
  }

  lemma {:induction false} FoundHasEnd(m: Model, w: Walk, calls: seq<Call>)
    requires Accepted(m.graph) && RngOk(m.rng) && !w.found && Reachable(m.graph, m.start, w.current) && FoundAfter(m, w, calls)
    ensures exists v: nat, d: nat, e: nat :: EndsBy(m.graph, m.start, v, d, e)
    decreases |calls|
  {
    hide Accepted, Reachable, EndsBy;
    if calls[0].ResetCall? {
      StartReachable(m.graph, m.start);
      FoundHasEnd(m, Restart(m, w), calls[1..]);
    } else {
      StepReaches(m, w);
      if !Next(m, w).walk.found { FoundHasEnd(m, Next(m, w).walk, calls[1..]); }
    }
  }

  /** Exactly when a model can end at all: from a reachable state a choosable transition leads to a
      choosable emission of an end. */
  lemma CanEndExactly(g: Graph, start: nat)
    requires Accepted(g)
    ensures CanEnd(g, start) <==> exists v: nat, d: nat, e: nat :: EndsBy(g, start, v, d, e)
  {
    hide Accepted, Choosable, Reachable, Emit, RunCalls;
    if CanEnd(g, start) {
      var rng: Rng, calls: seq<Call> :| RngOk(rng) && FoundAfter(Model(g, start, rng), Begin(Model(g, start, rng)), calls);
      StartReachable(g, start);
      FoundHasEnd(Model(g, start, rng), Begin(Model(g, start, rng)), calls);
    }
    if v: nat, d: nat, e: nat :| EndsBy(g, start, v, d, e) {
      var rng, calls, x := RunTo(g, start, v, d, e);
      IsMatching(g, Emission, e);
      EmitFacts(Model(g, start, rng), e, x);
      EmitObserves(Model(g, start, rng), e, x);
      assert FoundAfter(Model(g, start, rng), Begin(Model(g, start, rng)), calls);
    }
  }

  lemma EmitObserves(m: Model, e: nat, x: Walk)
    requires e < |m.graph.edges| && Emit(m, m.graph.edges[e], x).Emitted?
    ensures VertexObservation(m.graph.vertices[m.graph.edges[e].target]) == Some(Emit(m, m.graph.edges[e], x).obs)
  {
  }

  // ---- States from which nothing is ever observed ----

  /** Transitions out of these states stay among them, and no transition leads to an emission. */
  ghost predicate Silent(g: Graph, states: set<nat>) {
    forall d: nat :: d < |g.edges| && g.edges[d].source in states && Choosable(g, Transition, d) ==>
      g.edges[d].target in states && !HasEdge(g, Emission, g.edges[d].target)
  }

  /** A single state without a transition is such a set. */
  lemma DeadEndIsSilent(g: Graph, v: nat)
    requires !HasEdge(g, Transition, v)
    ensures Silent(g, {v})
  {
  }

  /** Among silent states every call reports an end that is not the model's own. */
  lemma SilentStep(m: Model, w: Walk, states: set<nat>)
    requires Accepted(m.graph) && RngOk(m.rng) && !w.found && Silent(m.graph, states) && w.current in states
    ensures Next(m, w).Emitted? && Next(m, w).obs.End? && Next(m, w).delay == 0
    ensures !Next(m, w).walk.found && Next(m, w).walk.current in states
  {
    hide Accepted, Choosable, Emit, Next, Pick, HasEdge;
    OneStep(m, w);
    PickFacts(m, Transition, w.current, w.drawn);
    var t := Pick(m, Transition, w.current, w.drawn);
    if t.Some? { PickFacts(m, Emission, m.graph.edges[t.value].target, w.drawn + 1); }
  }
}
