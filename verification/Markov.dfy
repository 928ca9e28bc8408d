/** The attribute texts of a Markov model graph. They are matched as case-insensitive prefixes;
    the classes below are what the rest of the model needs to know about them. */
module Labels {
  import opened Options
  import opened CStrings

  datatype Role = StartName | PlusName | MinusName | EndName | OtherName
  datatype VertexKind = StateKind | ObservationKind | OtherVertexKind
  datatype EdgeKind = Transition | Emission | OtherEdgeKind
  datatype Dist = Normal | LogNormal | Exponential | Pareto | Uniform | OtherDist

  /** g_ascii_strncasecmp against a known word, over the length of that word. */
  predicate Named(s: string, word: string) {
    CaseEqN(s, word, |word|)
  }

  lemma NamedStart(s: string, word: string)
    requires word != "" && Named(s, word)
    ensures s != "" && Lower(s[0]) == Lower(word[0])
  {
    assert Lower(Take(s, |word|)[0]) == Lower(Take(word, |word|)[0]);
  }

  /** Two words that start differently are not both prefixes of one text. */
  lemma FirstLetterDecides(s: string, a: string, b: string)
    requires a != "" && b != "" && Lower(a[0]) != Lower(b[0])
    ensures !(Named(s, a) && Named(s, b))
  {
    if Named(s, a) { NamedStart(s, a); }
    if Named(s, b) { NamedStart(s, b); }
  }

  function RoleOf(s: string): (r: Role)
    ensures r == StartName <==> Named(s, "start")
    ensures r == PlusName <==> Named(s, "+")
    ensures r == MinusName <==> Named(s, "-")
    ensures r == EndName <==> Named(s, "F")
  {
    FirstLetterDecides(s, "start", "+");
    FirstLetterDecides(s, "start", "-");
    FirstLetterDecides(s, "start", "F");
    FirstLetterDecides(s, "+", "-");
    FirstLetterDecides(s, "+", "F");
    FirstLetterDecides(s, "-", "F");
    if Named(s, "start") then StartName
    else if Named(s, "+") then PlusName
    else if Named(s, "-") then MinusName
    else if Named(s, "F") then EndName
    else OtherName
  }

  function VertexKindOf(s: string): (k: VertexKind)
    ensures k == StateKind <==> Named(s, "state")
    ensures k == ObservationKind <==> Named(s, "observation")
  {
    FirstLetterDecides(s, "state", "observation");
    if Named(s, "state") then StateKind
    else if Named(s, "observation") then ObservationKind
    else OtherVertexKind
  }

  function EdgeKindOf(s: string): (k: EdgeKind)
    ensures k == Transition <==> Named(s, "transition")
    ensures k == Emission <==> Named(s, "emission")
  {
    FirstLetterDecides(s, "transition", "emission");
    if Named(s, "transition") then Transition
    else if Named(s, "emission") then Emission
    else OtherEdgeKind
  }

  function DistOf(s: string): (d: Dist)
    ensures d == Normal <==> Named(s, "normal")
    ensures d == LogNormal <==> Named(s, "lognormal")
    ensures d == Exponential <==> Named(s, "exponential")
    ensures d == Pareto <==> Named(s, "pareto")
    ensures d == Uniform <==> Named(s, "uniform")
  {
    FirstLetterDecides(s, "normal", "lognormal");
    FirstLetterDecides(s, "normal", "exponential");
    FirstLetterDecides(s, "normal", "pareto");
    FirstLetterDecides(s, "normal", "uniform");
    FirstLetterDecides(s, "lognormal", "exponential");
    FirstLetterDecides(s, "lognormal", "pareto");
    FirstLetterDecides(s, "lognormal", "uniform");
    FirstLetterDecides(s, "exponential", "pareto");
    FirstLetterDecides(s, "exponential", "uniform");
    FirstLetterDecides(s, "pareto", "uniform");
    if Named(s, "normal") then Normal
    else if Named(s, "lognormal") then LogNormal
    else if Named(s, "exponential") then Exponential
    else if Named(s, "pareto") then Pareto
    else if Named(s, "uniform") then Uniform
    else OtherDist
  }
}

/** Markov models: validation of the parsed graph, the weighted choice of an edge, and the
    seeded walk that emits observations with delays. Weights and samples are exact reals; the
    random stream of a seed is a parameter. */
module Markov {
  import opened Options
  import opened Labels

  /** The vertex and edge attributes of a parsed graph; None is an absent or empty value. */
  datatype Vertex = Vertex(name: Option<Role>, kind: Option<VertexKind>)

  datatype Edge = Edge(
    source: nat,
    target: nat,
    weight: Option<real>,
    kind: Option<EdgeKind>,
    dist: Option<Dist>,
    location: Option<real>,
    scale: Option<real>,
    rate: Option<real>,
    shape: Option<real>,
    low: Option<real>,
    high: Option<real>)

  /** `kindDeclared`: the graph declares a vertex attribute called type at all. */
  datatype RawGraph = Graph(vertices: seq<Vertex>, edges: seq<Edge>, kindDeclared: bool)

  ghost predicate WellFormed(g: RawGraph) {
    forall i :: 0 <= i < |g.edges| ==> g.edges[i].source < |g.vertices| && g.edges[i].target < |g.vertices|
  }

  type Graph = g: RawGraph | WellFormed(g) witness Graph([], [], false)

  predicate IsEmissionName(r: Role) {
    r == PlusName || r == MinusName || r == EndName
  }

  // ---- Validation ----

  predicate VertexOk(g: Graph, v: Vertex) {
    v.name.Some? && g.kindDeclared &&
    (v.name.value == StartName ||
     (v.kind.Some? &&
      (v.kind.value == StateKind ||
       (v.kind.value == ObservationKind && IsEmissionName(v.name.value)))))
  }

  predicate IsStart(v: Vertex) {
    v.name.Some? && v.name.value == StartName
  }

  predicate AtLeast(x: Option<real>, bound: real) {
    x.Some? && x.value >= bound
  }

  predicate Above(x: Option<real>, bound: real) {
    x.Some? && x.value > bound
  }

  predicate DistributionOk(e: Edge) {
    e.dist.Some? &&
    if e.dist.value == Normal || e.dist.value == LogNormal then
      AtLeast(e.location, 0.0) && AtLeast(e.scale, 0.0)
    else if e.dist.value == Exponential then Above(e.rate, 0.0)
    else if e.dist.value == Pareto then AtLeast(e.scale, 0.0) && Above(e.shape, 0.0)
    else e.dist.value == Uniform && e.low.Some? && e.high.Some? && e.low.value <= e.high.value
  }

  predicate EdgeOk(g: Graph, e: Edge)
    requires e.source < |g.vertices| && e.target < |g.vertices|
  {
    var from := g.vertices[e.source].name;
    var to := g.vertices[e.target].name;
    from.Some? && to.Some? && AtLeast(e.weight, 0.0) && e.kind.Some? &&
    if e.kind.value == Transition then
      !IsEmissionName(from.value) && !IsEmissionName(to.value)
    else
      e.kind.value == Emission &&
      !IsEmissionName(from.value) && IsEmissionName(to.value) && DistributionOk(e)
  }

  ghost predicate Accepted(g: Graph) {
    (forall i :: 0 <= i < |g.vertices| ==> VertexOk(g, g.vertices[i])) &&
    (exists i :: 0 <= i < |g.vertices| && IsStart(g.vertices[i])) &&
    (forall i :: 0 <= i < |g.edges| ==> EdgeOk(g, g.edges[i]))
  }

  /** Both validators: accepted exactly when every vertex and edge passes and a start vertex
      exists; the start is then the last vertex named so. */
  method Validate(g: Graph) returns (ok: bool, start: nat)
    ensures ok <==> Accepted(g)
    ensures ok ==> start < |g.vertices| && IsStart(g.vertices[start])
    ensures ok ==> forall i :: start < i < |g.vertices| ==> !IsStart(g.vertices[i])
  {
    ok, start := true, 0;
    var foundStart := false;
    var i := 0;
    while i < |g.vertices|
      invariant 0 <= i <= |g.vertices|
      invariant ok && forall j :: 0 <= j < i ==> VertexOk(g, g.vertices[j])
      invariant foundStart <==> exists j :: 0 <= j < i && IsStart(g.vertices[j])
      invariant foundStart ==> start < i && IsStart(g.vertices[start])
      invariant foundStart ==> forall j :: start < j < i ==> !IsStart(g.vertices[j])
    {
      if !VertexOk(g, g.vertices[i]) {
        ok := false;
        return;
      }
      if IsStart(g.vertices[i]) {
        foundStart, start := true, i;
      }
      i := i + 1;
    }
    ok := foundStart;
    i := 0;
    while ok && i < |g.edges|
      invariant 0 <= i <= |g.edges|
      invariant ok ==> foundStart && forall j :: 0 <= j < i ==> EdgeOk(g, g.edges[j])
      invariant !ok ==> !foundStart || exists j :: 0 <= j < |g.edges| && !EdgeOk(g, g.edges[j])
    {
      ok := EdgeOk(g, g.edges[i]);
      i := i + 1;
    }
  }

  // ---- The weighted choice of an outgoing edge ----

  /** What acceptance means. Vertices are starts, states or typed observations, with one start at least;
      transitions run between states; emissions run from a state to an observation, with parameters that
      their distribution is defined for. */
  lemma AcceptedExact(g: Graph)
    ensures Accepted(g) <==>
            (exists i :: 0 <= i < |g.vertices| && g.vertices[i].name == Some(StartName)) &&
            (forall i :: 0 <= i < |g.vertices| ==> Admissible(g, g.vertices[i])) &&
            (forall i :: 0 <= i < |g.edges| ==> Usable(g, g.edges[i]))
  {
    forall i | 0 <= i < |g.vertices|
      ensures VertexOk(g, g.vertices[i]) <==> Admissible(g, g.vertices[i])
      ensures IsStart(g.vertices[i]) <==> g.vertices[i].name == Some(StartName)
    {
    }
    forall i | 0 <= i < |g.edges| ensures EdgeOk(g, g.edges[i]) <==> Usable(g, g.edges[i]) {
    }
  }

  predicate Admissible(g: Graph, v: Vertex) {
    v.name.Some? && g.kindDeclared &&
    match v.name.value
    case StartName => true
    case OtherName => v.kind == Some(StateKind)
    case _ => v.kind == Some(StateKind) || v.kind == Some(ObservationKind)
  }

  predicate Usable(g: Graph, e: Edge)
    requires e.source < |g.vertices| && e.target < |g.vertices|
  {
    var from, to := g.vertices[e.source].name, g.vertices[e.target].name;
    e.weight.Some? && e.weight.value >= 0.0 && to.Some? && from in {Some(StartName), Some(OtherName)} &&
    if to in {Some(PlusName), Some(MinusName), Some(EndName)} then e.kind == Some(Emission) && Sampleable(e)
    else e.kind == Some(Transition)
  }

  /** Standard deviations and scales are not negative, rates and shapes are positive, and an interval
      is not empty. */
  predicate Sampleable(e: Edge) {
    match e.dist
    case Some(Normal) => e.location.Some? && e.location.value >= 0.0 && e.scale.Some? && e.scale.value >= 0.0
    case Some(LogNormal) => e.location.Some? && e.location.value >= 0.0 && e.scale.Some? && e.scale.value >= 0.0
    case Some(Exponential) => e.rate.Some? && e.rate.value > 0.0
    case Some(Pareto) => e.scale.Some? && e.scale.value >= 0.0 && e.shape.Some? && e.shape.value > 0.0
    case Some(Uniform) => e.low.Some? && e.high.Some? && e.low.value <= e.high.value
    case _ => false
  }

  /** The random stream of one seed: `range(n, t)` is draw n scaled to [0, t); `sample(n, e)` is
      the value sampled for the delay of edge e starting at draw n and how many draws it used. */
  datatype Rng = Rng(range: (nat, real) -> real, sample: (nat, Edge) -> (real, nat))

  /** A draw from [0, t), which is 0 when the interval is empty. */
  predicate InRange(r: real, t: real) {
    0.0 <= r && (r < t || (r == 0.0 && t == 0.0))
  }

  ghost predicate RngOk(rng: Rng) {
    forall n: nat, t: real :: t >= 0.0 ==> InRange(rng.range(n, t), t)
  }

  /** The edges leaving `v`, as indices, in iteration order. */
  function Incident(g: Graph, v: nat, from: nat := 0): (r: seq<nat>)
    requires from <= |g.edges|
    ensures forall k :: 0 <= k < |r| ==> r[k] < |g.edges| && g.edges[r[k]].source == v
    decreases |g.edges| - from
  {
    if from == |g.edges| then []
    else (if g.edges[from].source == v then [from] else []) + Incident(g, v, from + 1)
  }

  lemma {:induction false} IncidentComplete(g: Graph, v: nat, from: nat, i: nat)
    requires from <= i < |g.edges| && g.edges[i].source == v
    ensures i in Incident(g, v, from)
    decreases |g.edges| - from
  {
    if from < i { IncidentComplete(g, v, from + 1, i); }
  }

  ghost predicate EdgeIds(g: Graph, es: seq<nat>) {
    forall k :: 0 <= k < |es| ==> es[k] < |g.edges|
  }

  predicate Matches(e: Edge, kind: EdgeKind) {
    e.kind == Some(kind)
  }

  /** The attributes that the choice asserts to be present. */
  predicate Readable(e: Edge, kind: EdgeKind) {
    e.kind.Some? && (Matches(e, kind) ==> e.weight.Some?)
  }

  predicate AllReadable(g: Graph, kind: EdgeKind, es: seq<nat>)
    requires EdgeIds(g, es)
  {
    forall k :: 0 <= k < |es| ==> Readable(g.edges[es[k]], kind)
  }

  function Share(e: Edge, kind: EdgeKind): real {
    if Matches(e, kind) && e.weight.Some? then e.weight.value else 0.0
  }

  /** S(k): the total weight of the matching edges in a list. */
  function Total(g: Graph, kind: EdgeKind, es: seq<nat>): real
    requires EdgeIds(g, es)
  {
    if es == [] then 0.0
    else Total(g, kind, es[..|es| - 1]) + Share(g.edges[es[|es| - 1]], kind)
  }

  /** Position k of the list is the choice for threshold r: it matches and is the first
      matching position whose inclusive running total reaches r. */
  ghost predicate Selected(g: Graph, kind: EdgeKind, es: seq<nat>, r: real, k: nat)
    requires EdgeIds(g, es)
  {
    k < |es| && Matches(g.edges[es[k]], kind) && r <= Total(g, kind, es[..k + 1]) &&
    NoneBefore(g, kind, es, r, k)
  }

  /** The selecting loop: the first matching edge at which the running total reaches r. */
  function Choose(g: Graph, kind: EdgeKind, es: seq<nat>, r: real, from: nat := 0): (choice: Option<nat>)
    requires EdgeIds(g, es) && from <= |es|
    ensures choice.Some? ==> choice.value < |g.edges|
    decreases |es| - from
  {
    if from == |es| then None
    else if Matches(g.edges[es[from]], kind) && Total(g, kind, es[..from + 1]) >= r then Some(es[from])
    else Choose(g, kind, es, r, from + 1)
  }

  ghost predicate NoneBefore(g: Graph, kind: EdgeKind, es: seq<nat>, r: real, k: nat)
    requires EdgeIds(g, es) && k <= |es|
  {
    forall j :: 0 <= j < k && Matches(g.edges[es[j]], kind) ==> Total(g, kind, es[..j + 1]) < r
  }

  lemma {:induction false} ChooseFrom(g: Graph, kind: EdgeKind, es: seq<nat>, r: real, from: nat) returns (k: nat)
    requires EdgeIds(g, es) && from <= |es| && NoneBefore(g, kind, es, r, from)
    ensures k <= |es| && NoneBefore(g, kind, es, r, k)
    ensures k < |es| ==> Selected(g, kind, es, r, k) && Choose(g, kind, es, r, from) == Some(es[k])
    ensures k == |es| ==> Choose(g, kind, es, r, from) == None
    decreases |es| - from
  {
    if from == |es| || (Matches(g.edges[es[from]], kind) && Total(g, kind, es[..from + 1]) >= r) {
      k := from;
    } else {
      k := ChooseFrom(g, kind, es, r, from + 1);
    }
  }

  lemma {:induction false} TotalMonotone(g: Graph, kind: EdgeKind, es: seq<nat>, i: nat, j: nat)
    requires EdgeIds(g, es) && i <= j <= |es|
    requires forall k :: 0 <= k < |es| ==> Share(g.edges[es[k]], kind) >= 0.0
    ensures 0.0 <= Total(g, kind, es[..i]) <= Total(g, kind, es[..j])
    decreases j
  {
    if j > 0 {
      assert es[..j][..j - 1] == es[..j - 1];
      if i == j { TotalMonotone(g, kind, es, i - 1, j - 1); }
      else { TotalMonotone(g, kind, es, i, j - 1); }
    }
  }

  /** The total is reached at the last matching edge. */
  lemma {:induction false} LastMatch(g: Graph, kind: EdgeKind, es: seq<nat>)
    requires EdgeIds(g, es)
    requires exists k :: 0 <= k < |es| && Matches(g.edges[es[k]], kind)
    ensures exists k :: 0 <= k < |es| && Matches(g.edges[es[k]], kind) && Total(g, kind, es[..k + 1]) == Total(g, kind, es)
  {
    var n := |es| - 1;
    if Matches(g.edges[es[n]], kind) {
      assert es[..n + 1] == es;
    } else {
      var rest := es[..n];
      LastMatch(g, kind, rest);
      var k :| 0 <= k < |rest| && Matches(g.edges[rest[k]], kind) && Total(g, kind, rest[..k + 1]) == Total(g, kind, rest);
      assert es[..k + 1] == rest[..k + 1] && es[k] == rest[k];
    }
  }

  ghost predicate Weighted(g: Graph, kind: EdgeKind, es: seq<nat>)
    requires EdgeIds(g, es)
  {
    forall k :: 0 <= k < |es| ==> Share(g.edges[es[k]], kind) >= 0.0
  }

  /** With non-negative weights and a threshold within the total, a choice is made exactly when
      some edge has the wanted type. */
  lemma ChoiceExists(g: Graph, kind: EdgeKind, es: seq<nat>, r: real)
    requires EdgeIds(g, es) && Weighted(g, kind, es) && r <= Total(g, kind, es)
    ensures Choose(g, kind, es, r).Some? <==> exists k :: 0 <= k < |es| && Matches(g.edges[es[k]], kind)
  {
    var c := ChooseFrom(g, kind, es, r, 0);
    if exists k :: 0 <= k < |es| && Matches(g.edges[es[k]], kind) {
      LastMatch(g, kind, es);
    }
  }

  lemma {:induction false} TotalBelow(g: Graph, kind: EdgeKind, es: seq<nat>, r: real, k: nat)
    requires EdgeIds(g, es) && r > 0.0 && k <= |es| && NoneBefore(g, kind, es, r, k)
    ensures Total(g, kind, es[..k]) < r
  {
    if k > 0 {
      assert es[..k][..k - 1] == es[..k - 1];
      if !Matches(g.edges[es[k - 1]], kind) { TotalBelow(g, kind, es, r, k - 1); }
    }
  }

  /** The choice is proportional: a matching edge at position k is chosen exactly for thresholds
      in the half-open interval (S(k), S(k+1)], an interval as long as the edge's weight; the
      first matching edge also takes the threshold 0. */
  lemma ChoiceProportional(g: Graph, kind: EdgeKind, es: seq<nat>, r: real, k: nat)
    requires EdgeIds(g, es) && Weighted(g, kind, es) && r >= 0.0
    requires k < |es| && Matches(g.edges[es[k]], kind)
    ensures Total(g, kind, es[..k + 1]) - Total(g, kind, es[..k]) == Share(g.edges[es[k]], kind)
    ensures r > 0.0 ==> (Selected(g, kind, es, r, k) <==>
                         Total(g, kind, es[..k]) < r <= Total(g, kind, es[..k + 1]))
    ensures r == 0.0 ==> (Selected(g, kind, es, r, k) <==>
                          forall j :: 0 <= j < k ==> !Matches(g.edges[es[j]], kind))
  {
    assert es[..k + 1][..k] == es[..k];
    TotalMonotone(g, kind, es, k, k + 1);
    forall j {:trigger es[..j + 1]} | 0 <= j < k
      ensures 0.0 <= Total(g, kind, es[..j + 1]) <= Total(g, kind, es[..k])
    {
      TotalMonotone(g, kind, es, j + 1, k);
    }
    if r > 0.0 && Selected(g, kind, es, r, k) {
      TotalBelow(g, kind, es, r, k);
    }
  }

  /** At most one position is selected, so the choice is determined by the threshold. */
  lemma SelectedUnique(g: Graph, kind: EdgeKind, es: seq<nat>, r: real, k: nat, l: nat)
    requires EdgeIds(g, es)
    requires Selected(g, kind, es, r, k) && Selected(g, kind, es, r, l)
    ensures k == l
  {
  }

  // ---- The walk ----

  datatype Observation = ToServer | ToOrigin | End

  /** The changing part of a model: where it is, whether it emitted its end, draws used. */
  datatype Walk = Walk(current: nat, found: bool, drawn: nat)

  datatype Model = Model(graph: Graph, start: nat, rng: Rng)

  const DELAY_CEILING: nat := 600000000
  const UINT64_MAX: nat := 0xFFFF_FFFF_FFFF_FFFF

  /** round(): to the nearest integer, halves away from zero. */
  function Round(x: real): int {
    if x >= 0.0 then (x + 0.5).Floor else -((0.5 - x).Floor)
  }

  function ToUInt64(x: real): nat {
    var r := Round(x);
    if r < 0 then 0 else if r > UINT64_MAX then UINT64_MAX else r
  }

  function ClampDelay(x: real): (d: nat)
    ensures d <= DELAY_CEILING
    ensures 0.0 <= x <= DELAY_CEILING as real ==> -0.5 <= d as real - x <= 0.5
    ensures x <= 0.0 ==> d == 0
    ensures x >= DELAY_CEILING as real ==> d == DELAY_CEILING
  {
    var d := ToUInt64(x);
    if d > DELAY_CEILING then DELAY_CEILING else d
  }

  datatype Outcome = Aborted | Emitted(obs: Observation, delay: nat, walk: Walk)

  function Begin(m: Model): Walk {
    Walk(m.start, false, 0)
  }

  function Restart(m: Model, w: Walk): Walk {
    w.(current := m.start, found := false)
  }

  /** The observation of an emission target, None when its type assertion fails. */
  function VertexObservation(v: Vertex): Option<Observation> {
    if v.kind.None? || v.kind.value != ObservationKind || v.name.None? then None
    else if v.name.value == MinusName then Some(ToOrigin)
    else if v.name.value == PlusName then Some(ToServer)
    else Some(End)
  }

  /** _tgenmarkovmodel_chooseEdge: one draw, then the selecting loop. */
  function Pick(m: Model, kind: EdgeKind, v: nat, draw: nat): (choice: Option<nat>)
    ensures choice.Some? ==> choice.value < |m.graph.edges|
  {
    var es := Incident(m.graph, v);
    Choose(m.graph, kind, es, m.rng.range(draw, Total(m.graph, kind, es)))
  }

  predicate CanPick(m: Model, kind: EdgeKind, v: nat) {
    AllReadable(m.graph, kind, Incident(m.graph, v))
  }

  function Emit(m: Model, edge: Edge, w: Walk): Outcome
    requires edge.target < |m.graph.vertices|
  {
    var obs := VertexObservation(m.graph.vertices[edge.target]);
    if obs.None? || !DistributionOk(edge) then Aborted
    else
      var (value, used) := m.rng.sample(w.drawn, edge);
      Emitted(obs.value, ClampDelay(value), Walk(w.current, obs.value.End?, w.drawn + used))
  }

  function NextEmission(m: Model, w: Walk): Outcome
  {
    var w1 := w.(drawn := w.drawn + 1);
    if !CanPick(m, Emission, w.current) then Aborted
    else
      match Pick(m, Emission, w.current, w.drawn)
      case None => Emitted(End, 0, w1)
      case Some(e) => Emit(m, m.graph.edges[e], w1)
  }

  /** One observation: a transition choice, then an emission choice, then a delay. Aborted is a
      failed assertion. */
  function Next(m: Model, w: Walk): Outcome
  {
    if w.found then Emitted(End, 0, w)
    else if !CanPick(m, Transition, w.current) then Aborted
    else
      var w1 := w.(drawn := w.drawn + 1);
      match Pick(m, Transition, w.current, w.drawn)
      case None => Emitted(End, 0, w1)
      case Some(e) => NextEmission(m, w1.(current := m.graph.edges[e].target))
  }

  // ---- What validation buys ----

  /** Vertices named like an observation are typed as one. Validation does not check this. */
  ghost predicate ObservationsTyped(g: Graph) {
    forall i :: 0 <= i < |g.vertices| && g.vertices[i].name.Some? && IsEmissionName(g.vertices[i].name.value) ==>
      g.vertices[i].kind == Some(ObservationKind)
  }

  ghost predicate IsStateVertex(g: Graph, v: nat) {
    v < |g.vertices| && g.vertices[v].name.Some? && !IsEmissionName(g.vertices[v].name.value)
  }

  ghost predicate Sound(m: Model) {
    Accepted(m.graph) && ObservationsTyped(m.graph) && RngOk(m.rng) &&
    m.start < |m.graph.vertices| && IsStart(m.graph.vertices[m.start])
  }

  lemma AllEdgesReadable(g: Graph, kind: EdgeKind, v: nat)
    requires Accepted(g)
    ensures AllReadable(g, kind, Incident(g, v)) && Weighted(g, kind, Incident(g, v))
  {
    var es := Incident(g, v);
    forall k | 0 <= k < |es|
      ensures Readable(g.edges[es[k]], kind) && Share(g.edges[es[k]], kind) >= 0.0
    {
      assert EdgeOk(g, g.edges[es[k]]);
    }
  }

  /** What the choice returns: an edge of the wanted type leaving the given vertex. */
  lemma PickedEdge(m: Model, kind: EdgeKind, v: nat, draw: nat)
    requires Pick(m, kind, v, draw).Some?
    ensures var e := m.graph.edges[Pick(m, kind, v, draw).value]; e.source == v && Matches(e, kind)
  {
    var es := Incident(m.graph, v);
    var k := ChooseFrom(m.graph, kind, es, m.rng.range(draw, Total(m.graph, kind, es)), 0);
  }

  lemma EmissionNeverAborts(m: Model, w: Walk)
    requires Sound(m)
    ensures NextEmission(m, w).Emitted?
    ensures NextEmission(m, w).walk.current == w.current
    ensures NextEmission(m, w).delay <= DELAY_CEILING
    ensures !NextEmission(m, w).obs.End? ==> !NextEmission(m, w).walk.found
  {
    AllEdgesReadable(m.graph, Emission, w.current);
    var e := Pick(m, Emission, w.current, w.drawn);
    if e.Some? {
      PickedEdge(m, Emission, w.current, w.drawn);
      assert EdgeOk(m.graph, m.graph.edges[e.value]);
    }
  }

  /** Validation soundness, one call: no assertion fails, the current state stays a state
      vertex, the delay is at most ten minutes, and the end flag is set only by an end. */
  lemma NextNeverAborts(m: Model, w: Walk)
    requires Sound(m)
    ensures Next(m, w).Emitted?
    ensures IsStateVertex(m.graph, w.current) ==> IsStateVertex(m.graph, Next(m, w).walk.current)
    ensures Next(m, w).delay <= DELAY_CEILING
    ensures !Next(m, w).obs.End? ==> !Next(m, w).walk.found
  {
    if !w.found {
      AllEdgesReadable(m.graph, Transition, w.current);
      var e := Pick(m, Transition, w.current, w.drawn);
      if e.Some? {
        PickedEdge(m, Transition, w.current, w.drawn);
        assert EdgeOk(m.graph, m.graph.edges[e.value]);
        EmissionNeverAborts(m, w.(drawn := w.drawn + 1, current := m.graph.edges[e.value].target));
      }
    }
  }

  // ---- What one observation means ----

  /** Edge `e` is the choice of that draw: it stands where the running total of the matching edges
      first reaches the draw. */
  ghost predicate Chosen(m: Model, kind: EdgeKind, v: nat, draw: nat, e: nat) {
    var es := Incident(m.graph, v);
    exists k: nat :: Selected(m.graph, kind, es, m.rng.range(draw, Total(m.graph, kind, es)), k) && es[k] == e
  }

  /** What an emission along `edge` from `state` must report: the direction by the name of the vertex
      it leads to, and the delay sampled for it, to the nearest microsecond and at most ten minutes. */
  ghost predicate Reports(m: Model, state: nat, edge: Edge, draw: nat, o: Outcome)
    requires edge.target < |m.graph.vertices|
  {
    var name, x := m.graph.vertices[edge.target].name, m.rng.sample(draw, edge);
    o.Emitted? &&
    (o.obs.ToServer? <==> name == Some(PlusName)) && (o.obs.ToOrigin? <==> name == Some(MinusName)) &&
    (o.obs.End? <==> name == Some(EndName)) && (o.walk.found <==> name == Some(EndName)) &&
    (0.0 <= x.0 <= 600000000.0 ==> -0.5 <= o.delay as real - x.0 <= 0.5) &&
    (x.0 < 0.0 ==> o.delay == 0) && (x.0 > 600000000.0 ==> o.delay == 600000000) &&
    o.walk.current == state && o.walk.drawn == draw + x.1
  }

  /** What one call must report: the end for good once it was emitted, an end that is not the model's
      when no transition or no emission can be chosen, and otherwise what was emitted. */
  ghost predicate Observes(m: Model, w: Walk, o: Outcome) {
    if w.found then o == Emitted(End, 0, w)
    else if !exists t: nat :: Chosen(m, Transition, w.current, w.drawn, t) then o == Emitted(End, 0, w.(drawn := w.drawn + 1))
    else
      forall t: nat :: Chosen(m, Transition, w.current, w.drawn, t) && t < |m.graph.edges| ==>
        ObservesAt(m, m.graph.edges[t].target, w.drawn + 1, o)
  }

  ghost predicate ObservesAt(m: Model, state: nat, draw: nat, o: Outcome) {
    if !exists e: nat :: Chosen(m, Emission, state, draw, e) then o == Emitted(End, 0, Walk(state, false, draw + 1))
    else
      forall e: nat :: Chosen(m, Emission, state, draw, e) && e < |m.graph.edges| ==> Reports(m, state, m.graph.edges[e], draw + 1, o)
  }

  /** The selecting loop finds the edge whose interval the draw falls into. */
  lemma PickChosen(m: Model, kind: EdgeKind, v: nat, draw: nat, e: nat)
    ensures Chosen(m, kind, v, draw, e) <==> Pick(m, kind, v, draw) == Some(e)
  {
    var es := Incident(m.graph, v);
    var k := ChooseFrom(m.graph, kind, es, m.rng.range(draw, Total(m.graph, kind, es)), 0);
    forall l: nat | Selected(m.graph, kind, es, m.rng.range(draw, Total(m.graph, kind, es)), l) ensures l == k {
      if k < |es| { SelectedUnique(m.graph, kind, es, m.rng.range(draw, Total(m.graph, kind, es)), k, l); }
    }
  }

  lemma EmissionMeans(m: Model, w: Walk)
    requires Sound(m) && !w.found
    ensures ObservesAt(m, w.current, w.drawn, NextEmission(m, w))
  {
    hide Chosen, Pick;
    AllEdgesReadable(m.graph, Emission, w.current);
    forall e: nat ensures Chosen(m, Emission, w.current, w.drawn, e) <==> Pick(m, Emission, w.current, w.drawn) == Some(e) {
      PickChosen(m, Emission, w.current, w.drawn, e);
    }
    var e := Pick(m, Emission, w.current, w.drawn);
    if e.Some? {
      PickedEdge(m, Emission, w.current, w.drawn);
      assert EdgeOk(m.graph, m.graph.edges[e.value]);
    }
  }

  /** One call reports the direction and the delay of the edges that its two draws choose. */
  lemma NextMeans(m: Model, w: Walk)
    requires Sound(m)
    ensures Observes(m, w, Next(m, w))
  {
    hide Chosen, Pick, ObservesAt, NextEmission;
    if !w.found {
      AllEdgesReadable(m.graph, Transition, w.current);
      forall t: nat ensures Chosen(m, Transition, w.current, w.drawn, t) <==> Pick(m, Transition, w.current, w.drawn) == Some(t) {
        PickChosen(m, Transition, w.current, w.drawn, t);
      }
      var t := Pick(m, Transition, w.current, w.drawn);
      if t.Some? { EmissionMeans(m, w.(drawn := w.drawn + 1, current := m.graph.edges[t.value].target)); }
    }
  }

  datatype Call = NextCall | ResetCall

  /** The walk after a sequence of calls, None once an assertion has failed. */
  function RunCalls(m: Model, w: Walk, calls: seq<Call>): Option<Walk>
    decreases |calls|
  {
    if calls == [] then Some(w)
    else if calls[0].ResetCall? then RunCalls(m, Restart(m, w), calls[1..])
    else
      match Next(m, w)
      case Aborted => None
      case Emitted(_, _, w') => RunCalls(m, w', calls[1..])
  }

  /** Validation soundness over every sequence of next and reset calls. */
  lemma {:induction false} WalkNeverAborts(m: Model, w: Walk, calls: seq<Call>)
    requires Sound(m) && IsStateVertex(m.graph, w.current)
    ensures RunCalls(m, w, calls).Some?
    ensures IsStateVertex(m.graph, RunCalls(m, w, calls).value.current)
    decreases |calls|
  {
    if calls != [] {
      if calls[0].ResetCall? {
        WalkNeverAborts(m, Restart(m, w), calls[1..]);
      } else {
        NextNeverAborts(m, w);
        WalkNeverAborts(m, Next(m, w).walk, calls[1..]);
      }
    }
  }

  /** An end emission is absorbing: until a reset every further call reports an end with no
      delay and draws nothing. */
  lemma {:induction false} EndAbsorbs(m: Model, w: Walk, calls: seq<Call>)
    requires w.found
    requires forall i :: 0 <= i < |calls| ==> calls[i].NextCall?
    ensures RunCalls(m, w, calls) == Some(w)
    ensures Next(m, w) == Emitted(End, 0, w)
    decreases |calls|
  {
    if calls != [] { EndAbsorbs(m, w, calls[1..]); }
  }

  function PlainEdge(from: nat, to: nat, kind: EdgeKind): Edge {
    Edge(from, to, Some(1.0), Some(kind), Some(Uniform), None, None, None, None, Some(0.0), Some(0.0))
  }

  /** A graph that both validators accept although its "+" vertex is typed as a state. */
  const UNTYPED: Graph := Graph(
    [Vertex(Some(StartName), None), Vertex(Some(OtherName), Some(StateKind)), Vertex(Some(PlusName), Some(StateKind))],
    [PlainEdge(0, 1, Transition), PlainEdge(1, 2, Emission)],
    true)

  lemma UntypedAccepted()
    ensures Accepted(UNTYPED) && !ObservationsTyped(UNTYPED)
  {
    assert IsStart(UNTYPED.vertices[0]) && IsEmissionName(UNTYPED.vertices[2].name.value);
  }

  /** The only edge leaving a vertex is picked whatever the draw. */
  lemma OnlyEdge(m: Model, kind: EdgeKind, v: nat, draw: nat, e: nat)
    requires RngOk(m.rng) && Incident(m.graph, v) == [e] && e < |m.graph.edges|
    requires m.graph.edges[e].kind == Some(kind) && m.graph.edges[e].weight == Some(1.0)
    ensures CanPick(m, kind, v) && Pick(m, kind, v, draw) == Some(e)
  {
    var total := Total(m.graph, kind, [e]);
    assert Matches(m.graph.edges[[e][0]], kind);
    assert [e][..0] == [];
    ChoiceExists(m.graph, kind, [e], m.rng.range(draw, total));
    var k := ChooseFrom(m.graph, kind, [e], m.rng.range(draw, total), 0);
  }

  lemma UntypedEdges()
    ensures Incident(UNTYPED, 0) == [0] && Incident(UNTYPED, 1) == [1]
  {
    var g := UNTYPED;
    assert Incident(g, 0, 2) == [] && Incident(g, 0, 1) == [];
    assert Incident(g, 1, 2) == [] && Incident(g, 1, 1) == [1];
  }

  /** ObservationsTyped is needed: on an accepted graph without it the walk can abort. */
  lemma AcceptedCanAbort(rng: Rng)
    requires RngOk(rng)
    ensures Accepted(UNTYPED) && !ObservationsTyped(UNTYPED)
    ensures Next(Model(UNTYPED, 0, rng), Walk(0, false, 0)) == Aborted
  {
    UntypedAccepted();
    UntypedEdges();
    var m := Model(UNTYPED, 0, rng);
    OnlyEdge(m, Transition, 0, 0, 0);
    OnlyEdge(m, Emission, 1, 1, 1);
    assert VertexObservation(UNTYPED.vertices[2]) == None;
    assert NextEmission(m, Walk(1, false, 1)) == Aborted;
  }
}
