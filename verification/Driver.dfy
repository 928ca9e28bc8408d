/** The action graph: which actions come next, and the barrier of a synchronising pause. */
module ActionGraph {
  import opened Options

  /** A pause without times synchronises: it waits for all its incoming edges. */
  datatype Action = StartAction | StreamAction | FlowAction | TrafficAction | EndAction | TimedPause | Barrier

  datatype Arc = Arc(target: nat, weight: Option<real>)

  /** Vertices with their actions (None where there is none) and outgoing edges. */
  datatype RawGraph = Graph(actions: seq<Option<Action>>, out: seq<seq<Arc>>)

  ghost predicate WellFormed(g: RawGraph) {
    |g.out| == |g.actions| && forall v, i :: 0 <= v < |g.out| && 0 <= i < |g.out[v]| ==> g.out[v][i].target < |g.actions|
  }

  type Graph = g: RawGraph | WellFormed(g) witness Graph([], [])

  function Sum(weights: seq<real>): real {
    if weights == [] then 0.0 else Sum(weights[..|weights| - 1]) + weights[|weights| - 1]
  }

  predicate Known(g: Graph, a: Arc)
    requires a.target < |g.actions|
  {
    g.actions[a.target].Some?
  }

  /** The targets of the edges without a weight, and the edges with one, in order. */
  function Plain(g: Graph, arcs: seq<Arc>): (r: seq<nat>)
    requires forall i :: 0 <= i < |arcs| ==> arcs[i].target < |g.actions|
    ensures forall i :: 0 <= i < |r| ==> exists j :: 0 <= j < |arcs| && arcs[j].target == r[i] && Known(g, arcs[j])
  {
    if arcs == [] then []
    else
      var a := arcs[|arcs| - 1];
      Plain(g, arcs[..|arcs| - 1]) + if Known(g, a) && a.weight.None? then [a.target] else []
  }

  function Weighted(g: Graph, arcs: seq<Arc>): (r: seq<Arc>)
    requires forall i :: 0 <= i < |arcs| ==> arcs[i].target < |g.actions|
    ensures forall i :: 0 <= i < |r| ==> r[i] in arcs && Known(g, r[i]) && r[i].weight.Some?
  {
    if arcs == [] then []
    else
      var a := arcs[|arcs| - 1];
      Weighted(g, arcs[..|arcs| - 1]) + if Known(g, a) && a.weight.Some? then [a] else []
  }

  function Weights(arcs: seq<Arc>): (w: seq<real>)
    requires forall i :: 0 <= i < |arcs| ==> arcs[i].weight.Some?
    ensures |w| == |arcs| && forall i :: 0 <= i < |w| ==> w[i] == arcs[i].weight.value
  {
    seq(|arcs|, i requires 0 <= i < |arcs| => arcs[i].weight.value)
  }

  /** S(n): the total of the first n weights. */
  function S(weights: seq<real>, n: nat): real
    requires n <= |weights|
  {
    Sum(weights[..n])
  }

  lemma SNext(weights: seq<real>, n: nat)
    requires n < |weights|
    ensures S(weights, n + 1) == S(weights, n) + weights[n] && S(weights, 0) == 0.0
  {
    assert weights[..n + 1][..n] == weights[..n];
  }

  /** No running total up to the n-th exceeds the draw. */
  ghost predicate Low(weights: seq<real>, r: real, n: nat)
    requires n <= |weights|
  {
    forall j :: 1 <= j <= n ==> S(weights, j) <= r
  }

  /** Position k is chosen for the draw r: the first whose running total exceeds r. */
  ghost predicate Chosen(weights: seq<real>, r: real, k: nat) {
    k < |weights| && Low(weights, r, k) && r < S(weights, k + 1)
  }

  ghost predicate NonNegative(weights: seq<real>) {
    forall i :: 0 <= i < |weights| ==> weights[i] >= 0.0
  }

  lemma {:induction false} SumGrows(weights: seq<real>, i: nat, j: nat)
    requires i <= j <= |weights| && NonNegative(weights)
    ensures 0.0 <= S(weights, i) <= S(weights, j)
    decreases j
  {
    if j > 0 {
      SNext(weights, j - 1);
      if i == j { SumGrows(weights, i - 1, j - 1); } else { SumGrows(weights, i, j - 1); }
    }
  }

  /** Proportional: with non-negative weights, position k is chosen exactly for draws in
      [S(k), S(k+1)), an interval as long as its weight. */
  lemma ChosenInterval(weights: seq<real>, r: real, k: nat)
    requires NonNegative(weights) && r >= 0.0 && k < |weights|
    ensures Chosen(weights, r, k) <==> S(weights, k) <= r < S(weights, k + 1)
    ensures S(weights, k + 1) - S(weights, k) == weights[k]
  {
    SNext(weights, k);
    forall j | 1 <= j <= k ensures S(weights, j) <= S(weights, k) {
      SumGrows(weights, j, k);
    }
  }

  /** A weighted edge is chosen exactly when the draw is below the total. With a total of zero there
      is no such draw, and the selecting loop runs out of weights. */
  lemma ChoiceExists(weights: seq<real>, r: real)
    requires NonNegative(weights) && r >= 0.0
    ensures (exists k: nat :: Chosen(weights, r, k)) <==> r < S(weights, |weights|)
  {
    if k: nat :| Chosen(weights, r, k) {
      SumGrows(weights, k + 1, |weights|);
    }
    if r < S(weights, |weights|) {
      var k := FirstAbove(weights, r, 0);
    }
  }

  lemma {:induction false} FirstAbove(weights: seq<real>, r: real, n: nat) returns (k: nat)
    requires n <= |weights| && r < S(weights, |weights|) && r >= 0.0 && Low(weights, r, n)
    ensures Chosen(weights, r, k)
    decreases |weights| - n
  {
    assert S(weights, 0) == 0.0 && n < |weights|;
    if r < S(weights, n + 1) {
      k := n;
    } else {
      k := FirstAbove(weights, r, n + 1);
    }
  }

  /** Sort the successors into the plain ones and the weighted ones with their weights. */
  method SortSuccessors(g: Graph, v: nat) returns (next: seq<nat>, actions: seq<nat>, weights: seq<real>)
    requires v < |g.actions|
    ensures next == Plain(g, g.out[v]) && weights == Weights(Weighted(g, g.out[v])) && |actions| == |weights|
    ensures forall j :: 0 <= j < |actions| ==> actions[j] == Weighted(g, g.out[v])[j].target
  {
    var arcs := g.out[v];
    next, actions, weights := [], [], [];
    var i := 0;
    while i < |arcs|
      invariant 0 <= i <= |arcs|
      invariant next == Plain(g, arcs[..i])
      invariant weights == Weights(Weighted(g, arcs[..i])) && |actions| == |weights|
      invariant forall j :: 0 <= j < |actions| ==> actions[j] == Weighted(g, arcs[..i])[j].target
    {
      var a := arcs[i];
      assert arcs[..i + 1][..i] == arcs[..i];
      if g.actions[a.target].Some? {
        if a.weight.Some? {
          actions, weights := actions + [a.target], weights + [a.weight.value];
        } else {
          next := next + [a.target];
        }
      }
      i := i + 1;
    }
    assert arcs[..i] == arcs;
  }

  lemma NoneChosen(weights: seq<real>, r: real)
    requires Low(weights, r, |weights|)
    ensures forall k: nat :: !Chosen(weights, r, k)
  {
  }

  /** Take weights off the queue until their total exceeds the draw. None when they run out first,
      which is a failed assertion. */
  method ChoosePosition(weights: seq<real>, r: real) returns (k: Option<nat>)
    requires weights != []
    ensures k.Some? ==> Chosen(weights, r, k.value)
    ensures k.None? ==> Low(weights, r, |weights|)
  {
    var cumulative, n := weights[0], 1;
    SNext(weights, 0);
    while cumulative <= r
      invariant 1 <= n <= |weights| && cumulative == S(weights, n) && Low(weights, r, n - 1)
      decreases |weights| - n
    {
      if n == |weights| {
        return None;
      }
      SNext(weights, n);
      cumulative, n := cumulative + weights[n], n + 1;
    }
    k := Some(n - 1);
  }

  /** What the next actions may be for a draw. */
  ghost predicate Follows(g: Graph, v: nat, r: real, next: seq<nat>)
    requires v < |g.actions|
  {
    var w := Weighted(g, g.out[v]);
    if w == [] then next == Plain(g, g.out[v])
    else exists k: nat :: Chosen(Weights(w), r, k) && next == Plain(g, g.out[v]) + [w[k].target]
  }

  /** An action that an edge from v leads to. */
  ghost predicate Successor(g: Graph, v: nat, u: nat) {
    v < |g.actions| && u < |g.actions| && g.actions[u].Some? && exists j :: 0 <= j < |g.out[v]| && g.out[v][j].target == u
  }

  /** Only known successors follow. */
  lemma FollowersKnown(g: Graph, v: nat, r: real, next: seq<nat>)
    requires v < |g.actions| && Follows(g, v, r, next)
    ensures forall i :: 0 <= i < |next| ==> Successor(g, v, next[i])
  {
    var w, plain := Weighted(g, g.out[v]), Plain(g, g.out[v]);
    forall i | 0 <= i < |next| ensures Successor(g, v, next[i]) {
      if i < |plain| {
        assert next[i] == plain[i];
      } else {
        var k: nat :| Chosen(Weights(w), r, k) && next == plain + [w[k].target];
        assert w[k] in g.out[v];
      }
    }
  }

  /** The edges without a weight that lead to an action u. */
  function EdgesTo(g: Graph, arcs: seq<Arc>, u: nat): set<nat>
    requires u < |g.actions|
  {
    set j: nat | j < |arcs| && arcs[j].target == u && arcs[j].weight.None? && g.actions[u].Some?
  }

  lemma {:induction false} PlainExact(g: Graph, arcs: seq<Arc>, u: nat)
    requires u < |g.actions| && forall i :: 0 <= i < |arcs| ==> arcs[i].target < |g.actions|
    ensures multiset(Plain(g, arcs))[u] == |EdgesTo(g, arcs, u)|
  {
    hide EdgesTo;
    if arcs == [] {
      NoEdges(g, u);
    } else {
      var n := |arcs| - 1;
      PlainExact(g, arcs[..n], u);
      EdgesMore(g, arcs, u);
    }
  }

  lemma NoEdges(g: Graph, u: nat)
    requires u < |g.actions|
    ensures EdgesTo(g, [], u) == {}
  {
  }

  lemma EdgesMore(g: Graph, arcs: seq<Arc>, u: nat)
    requires arcs != [] && u < |g.actions|
    ensures var n, a := |arcs| - 1, arcs[|arcs| - 1];
            |EdgesTo(g, arcs, u)| ==
            |EdgesTo(g, arcs[..n], u)| + if a.target == u && a.weight.None? && g.actions[u].Some? then 1 else 0
  {
    var n, a := |arcs| - 1, arcs[|arcs| - 1];
    assert EdgesTo(g, arcs, u) ==
           EdgesTo(g, arcs[..n], u) + if a.target == u && a.weight.None? && g.actions[u].Some? then {n} else {};
  }

  lemma {:induction false} WeightedExact(g: Graph, arcs: seq<Arc>, a: Arc)
    requires a in arcs && forall i :: 0 <= i < |arcs| ==> arcs[i].target < |g.actions|
    ensures a in Weighted(g, arcs) <==> g.actions[a.target].Some? && a.weight.Some?
  {
    var n := |arcs| - 1;
    if a != arcs[n] {
      assert a in arcs[..n];
      WeightedExact(g, arcs[..n], a);
    } else if a in arcs[..n] {
      WeightedExact(g, arcs[..n], a);
    }
  }

  /** How often each action follows: once for each edge without a weight that leads to it, and once more
      if the chosen weighted edge does. One is chosen exactly if some edge to an action has a weight. */
  lemma FollowersExact(g: Graph, v: nat, r: real, next: seq<nat>) returns (chosen: Option<Arc>)
    requires v < |g.actions| && Follows(g, v, r, next)
    ensures chosen.Some? <==> exists a :: a in g.out[v] && g.actions[a.target].Some? && a.weight.Some?
    ensures chosen.Some? ==> chosen.value in g.out[v] && g.actions[chosen.value.target].Some? && chosen.value.weight.Some?
    ensures forall u: nat :: u < |g.actions| ==>
              multiset(next)[u] == |EdgesTo(g, g.out[v], u)| + if chosen.Some? && chosen.value.target == u then 1 else 0
  {
    hide Plain, Weighted, EdgesTo;
    var w, arcs := Weighted(g, g.out[v]), g.out[v];
    forall a | a in arcs ensures a in w <==> g.actions[a.target].Some? && a.weight.Some? {
      WeightedExact(g, arcs, a);
    }
    chosen := None;
    if w != [] {
      var k: nat :| Chosen(Weights(w), r, k) && next == Plain(g, arcs) + [w[k].target];
      chosen := Some(w[k]);
      assert w[k] in arcs;
    }
    forall u: nat | u < |g.actions|
      ensures multiset(next)[u] == |EdgesTo(g, arcs, u)| + if chosen.Some? && chosen.value.target == u then 1 else 0
    {
      PlainExact(g, arcs, u);
    }
  }

  /** tgengraph_getNextActionIDs: every unweighted successor, and exactly one weighted one chosen by
      the draw. Not ok only when no position is chosen. */
  method GetNextActions(g: Graph, v: nat, r: real) returns (ok: bool, next: seq<nat>)
    requires v < |g.actions|
    ensures ok ==> Follows(g, v, r, next)
    ensures !ok ==> forall next' :: !Follows(g, v, r, next')
  {
    var actions, weights;
    next, actions, weights := SortSuccessors(g, v);
    ok := true;
    if actions != [] {
      var k := ChoosePosition(weights, r);
      ok := k.Some?;
      if ok {
        var w := Weighted(g, g.out[v]);
        assert w[k.value] in g.out[v];
        next := next + [actions[k.value]];
        assert Chosen(Weights(w), r, k.value) && next == Plain(g, g.out[v]) + [w[k.value].target];
      } else {
        NoneChosen(weights, r);
      }
    }
  }
}

/** The driver: counters and heartbeats, the walk over the action graph, and its end. */
module Driver {
  import opened Options
  import opened ActionGraph
  import opened Generators
  import Lifecycle
  import Notices

  // ---- Barriers ----

  /** tgengraph_incrementPauseVisited for a pause with k incoming edges: the new count, and whether
      all edges have visited. */
  function Visit(k: nat, completed: nat): (nat, bool) {
    if completed + 1 >= k then (0, true) else (completed + 1, false)
  }

  /** The count and the number of releases after n visits. */
  function Visits(k: nat, n: nat): (nat, nat) {
    if n == 0 then (0, 0)
    else
      var (c, r) := Visits(k, n - 1);
      var (d, all) := Visit(k, c);
      (d, if all then r + 1 else r)
  }

  lemma NoVisits(k: nat)
    ensures Visits(k, 0) == (0, 0)
  {
  }

  /** A pause with k incoming edges has let its successors go exactly floor(n / k) times after n
      visits. */
  lemma {:induction false} VisitsFloor(k: nat, n: nat)
    requires k > 0
    ensures Visits(k, n) == (n % k, n / k)
  {
    if n > 0 {
      VisitsFloor(k, n - 1);
      NextQuotient(k, n - 1);
    }
  }

  lemma NextQuotient(k: nat, n: nat)
    requires k > 0
    ensures n % k + 1 < k ==> (n + 1) % k == n % k + 1 && (n + 1) / k == n / k
    ensures n % k + 1 >= k ==> (n + 1) % k == 0 && (n + 1) / k == n / k + 1
  {
    var q, r := n / k, n % k;
    assert n == q * k + r && 0 <= r < k;
    if r + 1 < k {
      Quotient(k, n + 1, q, r + 1);
    } else {
      assert (q + 1) * k == q * k + k;
      Quotient(k, n + 1, q + 1, 0);
    }
  }

  lemma Quotient(k: nat, n: nat, q: nat, r: nat)
    requires k > 0 && n == q * k + r && r < k
    ensures n / k == q && n % k == r
  {
    var a, b := n / k, n % k;
    assert n == a * k + b;
    OneQuotient(k, a, b, q, r);
  }

  lemma OneQuotient(k: nat, a: nat, b: nat, q: nat, r: nat)
    requires a * k + b == q * k + r && b < k && r < k
    ensures a == q && b == r
  {
    if a < q {
      AtLeastOne(k, q - a, q, a);
    } else if a > q {
      AtLeastOne(k, a - q, a, q);
    }
  }

  lemma AtLeastOne(k: nat, d: nat, x: nat, y: nat)
    requires d >= 1 && x == y + d
    ensures x * k >= y * k + k
  {
    assert x * k == y * k + d * k;
  }

  // ---- Counters ----

  datatype Counters = Counters(totals: Totals, bytesRead: nat, bytesWritten: nat)

  function Zero(): Counters {
    Counters(Totals(NOTHING, NOTHING, NOTHING), 0, 0)
  }

  function PlusTally(a: Tally, b: Tally): Tally {
    Tally(a.created + b.created, a.succeeded + b.succeeded, a.failed + b.failed)
  }

  function Plus(a: Counters, b: Counters): Counters {
    Counters(
      Totals(PlusTally(a.totals.streams, b.totals.streams), PlusTally(a.totals.flows, b.totals.flows),
                        PlusTally(a.totals.traffics, b.totals.traffics)),
      a.bytesRead + b.bytesRead, a.bytesWritten + b.bytesWritten)
  }

  function Counted(c: Counters, flags: set<Flag>): Counters {
    c.(totals := Report(c.totals, flags))
  }

  lemma PlusZero(a: Counters)
    ensures Plus(a, Zero()) == a
  {
  }

  lemma PlusCounted(a: Counters, b: Counters, flags: set<Flag>)
    ensures Plus(a, Counted(b, flags)) == Counted(Plus(a, b), flags)
  {
  }

  predicate Completes(flags: set<Flag>) {
    StreamComplete in flags || FlowComplete in flags || TrafficComplete in flags
  }

  /** The limits of an end action. */
  datatype Limits = Limits(sendSize: Option<nat>, recvSize: Option<nat>, count: Option<nat>, timeNanos: Option<nat>)

  predicate Reached(limit: Option<nat>, value: nat) {
    limit.Some? && value >= limit.value
  }

  predicate EndMet(l: Limits, c: Counters, elapsedNanos: nat) {
    Reached(l.sendSize, c.bytesWritten) || Reached(l.recvSize, c.bytesRead) ||
    Reached(l.count, c.totals.streams.succeeded + c.totals.streams.failed) || Reached(l.timeNanos, elapsedNanos)
  }

  // ---- The walk ----

  /** The number of edges into a vertex. */
  function Incoming(out: seq<seq<Arc>>, v: nat): nat {
    if out == [] then 0 else Incoming(out[..|out| - 1], v) + Into(out[|out| - 1], v)
  }

  function Into(arcs: seq<Arc>, v: nat): nat {
    if arcs == [] then 0 else Into(arcs[..|arcs| - 1], v) + if arcs[|arcs| - 1].target == v then 1 else 0
  }

  /** Actions that complete within their own start. Start, end and barrier always may. */
  ghost predicate SyncOk(g: Graph, sync: set<nat>, rank: nat -> nat) {
    (forall v :: 0 <= v < |g.actions| && g.actions[v].Some? && g.actions[v].value in {StartAction, EndAction, Barrier} ==> v in sync) &&
    (forall v, i :: 0 <= v < |g.out| && 0 <= i < |g.out[v]| && v in sync && g.out[v][i].target in sync ==>
      rank(g.out[v][i].target) < rank(v))
  }

  /** Weighted choices have a positive total, and a barrier has an incoming edge. */
  ghost predicate GraphOk(g: Graph) {
    (forall v :: 0 <= v < |g.actions| ==>
      var w := Weights(Weighted(g, g.out[v])); NonNegative(w) && (w != [] ==> S(w, |w|) > 0.0)) &&
    (forall v :: 0 <= v < |g.actions| && g.actions[v] == Some(Barrier) ==> Incoming(g.out, v) > 0)
  }

  /** One continuation: from an action, for a random draw, to the next actions. */
  datatype Step = Step(from: nat, draw: real, next: seq<nat>)

  ghost predicate StepOk(g: Graph, s: Step) {
    s.from < |g.actions| && Follows(g, s.from, s.draw, s.next)
  }

  /** All actions that some steps lead to. */
  function Led(steps: seq<Step>): multiset<nat> {
    if steps == [] then multiset{} else Led(steps[..|steps| - 1]) + multiset(steps[|steps| - 1].next)
  }

  lemma LedSnoc(steps: seq<Step>, s: Step)
    ensures Led(steps + [s]) == Led(steps) + multiset(s.next)
  {
    assert (steps + [s])[..|steps|] == steps;
  }

  /** The walk went on from an action. */
  ghost predicate Continued(steps: seq<Step>, steps': seq<Step>, v: nat) {
    steps <= steps' && |steps| < |steps'| && steps'[|steps|].from == v
  }

  /** How often the walk went on from an action. */
  function Continuations(steps: seq<Step>, v: nat): nat {
    if steps == [] then 0
    else Continuations(steps[..|steps| - 1], v) + if steps[|steps| - 1].from == v then 1 else 0
  }

  lemma ContinuationsSnoc(steps: seq<Step>, s: Step, v: nat)
    ensures Continuations(steps + [s], v) == Continuations(steps, v) + if s.from == v then 1 else 0
  {
    assert (steps + [s])[..|steps|] == steps;
  }

  /** What a driver has done: its continuations, the actions processed, the events of its generators
      and the action of each generator it started. */
  datatype Log = Log(steps: seq<Step>, processed: multiset<nat>, events: seq<Event>, actionOf: map<Ref, nat>)

  /** More steps were taken, all that they lead to was processed, and `extra`; nothing was forgotten. */
  ghost predicate Advanced(a: Log, extra: multiset<nat>, b: Log) {
    a.steps <= b.steps && b.processed + Led(a.steps) == a.processed + extra + Led(b.steps) &&
    a.events <= b.events && forall g :: g in a.actionOf ==> g in b.actionOf && b.actionOf[g] == a.actionOf[g]
  }

  lemma AdvancedTwice(a: Log, x: multiset<nat>, b: Log, y: multiset<nat>, c: Log)
    requires Advanced(a, x, b) && Advanced(b, y, c)
    ensures Advanced(a, x + y, c)
  {
    hide Led;
    var p, q := c.processed + Led(a.steps), a.processed + (x + y) + Led(c.steps);
    forall n ensures p[n] == q[n] {
      assert (b.processed + Led(a.steps))[n] == (a.processed + x + Led(b.steps))[n];
      assert (c.processed + Led(b.steps))[n] == (b.processed + y + Led(c.steps))[n];
    }
    assert p == q;
  }

  /** Taking one action off the queue and processing it keeps the books. */
  lemma OneProcessed(
    p0: multiset<nat>, l0: multiset<nat>, p: multiset<nat>, l: multiset<nat>, u: nat, rest: seq<nat>, p': multiset<nat>, l': multiset<nat>)
    requires p + multiset([u] + rest) + l0 == p0 + l && p' + l == p + multiset{u} + l'
    ensures p' + multiset(rest) + l0 == p0 + l'
  {
    var a, b := p' + multiset(rest) + l0, p0 + l';
    assert multiset([u] + rest) == multiset{u} + multiset(rest);
    forall x ensures a[x] == b[x] {
      assert (p + multiset([u] + rest) + l0)[x] == (p0 + l)[x] && (p' + l)[x] == (p + multiset{u} + l')[x];
    }
    assert a == b;
  }

  lemma NothingQueued(p0: multiset<nat>, l0: multiset<nat>, queue: seq<nat>, p: multiset<nat>, l: multiset<nat>)
    requires p + multiset(queue) + l0 == p0 + l && queue == []
    ensures p + l0 == p0 + multiset{} + l
  {
    assert p + multiset(queue) + l0 == p + l0;
    assert p0 + multiset{} + l == p0 + l;
  }

  lemma JustEvents(a: Log, b: Log)
    requires a.steps == b.steps && a.processed == b.processed && a.events <= b.events
    requires forall g :: g in a.actionOf ==> g in b.actionOf && b.actionOf[g] == a.actionOf[g]
    ensures Advanced(a, multiset{}, b)
  {
    hide Led;
    assert a.processed + multiset{} == a.processed;
  }

  function At(m: map<nat, nat>, v: nat): nat {
    if v in m then m[v] else 0
  }

  /** The generator that an action starts. */
  predicate StartsFor(a: Action, e: Event) {
    match a
    case StreamAction => e.StartSingle?
    case FlowAction => e.StartFlow?
    case TrafficAction => e.StartTraffic?
    case _ => false
  }

  predicate Generates(a: Option<Action>) {
    a.Some? && (a.value.StreamAction? || a.value.FlowAction? || a.value.TrafficAction?)
  }

  /** The generator whose completion the last of some new notifications announces. */
  function Finished(w: World, r: World): Option<Ref> {
    if |r.notes| > |w.notes| then r.notes[|r.notes| - 1].done else None
  }

  lemma TalliedNext(notes: seq<Note>, n: nat)
    requires n < |notes|
    ensures Tallied(notes[..n + 1]) == Report(Tallied(notes[..n]), notes[n].flags)
  {
    hide Report;
    assert notes[..n + 1][..n] == notes[..n];
  }

  class TrafficDriver {
    const graph: Graph
    const limits: map<nat, Limits>
    const sync: set<nat>
    ghost const rank: nat -> nat

    var clientHasEnded: bool
    var serverHasEnded: bool
    var total: Counters
    var heartbeat: Counters
    var visited: map<nat, nat>

    /** The generators in memory, and the action that each was started for. */
    var world: World
    var actionOf: map<Ref, nat>

    /** Bookkeeping: what heartbeats have reported, the actions whose pause timers are pending, the
        events of the generators, the continuations so far, and every action processed. */
    ghost var reported: Counters
    ghost var pausing: multiset<nat>
    ghost var events: seq<Event>
    ghost var steps: seq<Step>
    ghost var processed: multiset<nat>

    constructor (graph: Graph, limits: map<nat, Limits>, sync: set<nat>, ghost rank: nat -> nat)
      requires GraphOk(graph) && SyncOk(graph, sync, rank)
      ensures Valid() && !clientHasEnded && total == Zero() && Book() == Log([], multiset{}, [], map[]) && pausing == multiset{}
    {
      hide GraphOk, SyncOk, Incoming, Visits, Plus;
      PlusZero(Zero());
      this.graph, this.limits, this.sync, this.rank := graph, limits, sync, rank;
      clientHasEnded, serverHasEnded, total, heartbeat, reported := false, false, Zero(), Zero(), Zero();
      visited, world, actionOf := map[], Generators.Start(), map[];
      pausing, events, steps, processed := multiset{}, [], [], multiset{};
      new;
      assert world == Execute(events);
      forall v: nat ensures BarrierOk(v, None) {
        NoVisits(Incoming(graph.out, v));
      }
    }

    ghost function Book(): Log
      reads this`steps, this`processed, this`events, this`actionOf
    {
      Log(steps, processed, events, actionOf)
    }

    predicate IsBarrier(v: nat) {
      v < |graph.actions| && graph.actions[v] == Some(Barrier)
    }

    /** The successors of a barrier have been released once for each time that all its edges have
        visited; `due` is a barrier about to release them. Once the client has ended it releases
        nothing. */
    ghost predicate BarrierOk(v: nat, due: Option<nat>)
      reads this`visited, this`processed, this`steps, this`clientHasEnded
    {
      var (count, full) := Visits(Incoming(graph.out, v), processed[v]);
      var released := Continuations(steps, v) + if due == Some(v) then 1 else 0;
      IsBarrier(v) ==> At(visited, v) == count && released <= full && (!clientHasEnded ==> released == full)
    }

    /** Generators were started for actions of the graph that start one. */
    ghost predicate ActionsOk()
      reads this`world, this`actionOf
    {
      actionOf.Keys == world.roots &&
      forall g :: g in actionOf ==> actionOf[g] < |graph.actions| && Generates(graph.actions[actionOf[g]])
    }

    ghost predicate Core(due: Option<nat>)
      reads this
    {
      GraphOk(graph) && SyncOk(graph, sync, rank) && Plus(reported, heartbeat) == total && ActionsOk() &&
      world == Execute(events) && (forall v: nat :: BarrierOk(v, due)) && forall i :: 0 <= i < |steps| ==> StepOk(graph, steps[i])
    }

    /** The first n notifications have been counted. */
    ghost predicate Told(n: nat)
      reads this
    {
      n <= |world.notes| && total.totals == Tallied(world.notes[..n])
    }

    ghost predicate ValidFor(due: Option<nat>)
      reads this
    {
      Core(due) && total.totals == Tallied(world.notes)
    }

    ghost predicate Valid()
      reads this
    {
      ValidFor(None)
    }

    /** While the client has not ended, the successors of a barrier with k incoming edges have been
        released floor(n / k) times after n visits; afterwards, no more than that. */
    lemma BarrierFloor(v: nat)
      requires Valid() && IsBarrier(v)
      ensures Continuations(steps, v) <= processed[v] / Incoming(graph.out, v)
      ensures !clientHasEnded ==> Continuations(steps, v) == processed[v] / Incoming(graph.out, v)
    {
      hide Visits, Plus, SyncOk, StepOk, ActionsOk;
      assert BarrierOk(v, None);
      VisitsFloor(Incoming(graph.out, v), processed[v]);
    }

    /** The driver's counters add up with the streams and generators that are there. */
    lemma CountersAddUp()
      requires Valid()
      ensures var t := total.totals;
              t.streams.created == t.streams.succeeded + t.streams.failed + |world.running| + |world.passive| &&
              t.flows.created == t.flows.succeeded + t.flows.failed + |Lifecycle.LiveOf(world, false)| &&
              t.traffics.created == t.traffics.succeeded + t.traffics.failed + |Lifecycle.LiveOf(world, true)|
    {
      hide Execute, Lifecycle.LiveOf, Report, GraphOk, SyncOk, Plus, BarrierOk, StepOk, ActionsOk, Tallied;
      Lifecycle.TotalsAddUp(events);
      Lifecycle.TotalsTallied(events);
    }

    method OnBytesTransferred(read: nat, written: nat)
      requires Valid()
      modifies this`total, this`heartbeat
      ensures Valid()
      ensures total == old(total).(bytesRead := old(total).bytesRead + read, bytesWritten := old(total).bytesWritten + written)
    {
      hide GraphOk, SyncOk, BarrierOk, StepOk, ActionsOk, Execute, Tallied;
      total := total.(bytesRead := total.bytesRead + read, bytesWritten := total.bytesWritten + written);
      heartbeat := heartbeat.(bytesRead := heartbeat.bytesRead + read, bytesWritten := heartbeat.bytesWritten + written);
    }

    /** The heartbeat reports what was counted since the last one; the pending numbers, computed by
        subtraction, are the numbers of streams, flow and traffic generators that are not complete. */
    method OnHeartbeat() returns (report: Counters, streams: nat, flows: nat, traffics: nat)
      requires Valid()
      modifies this`heartbeat, this`reported
      ensures Valid() && heartbeat == Zero() && report == old(heartbeat) && reported == Plus(old(reported), report) == total
      ensures streams == |world.running| + |world.passive|
      ensures flows == |Lifecycle.LiveOf(world, false)| && traffics == |Lifecycle.LiveOf(world, true)|
    {
      hide GraphOk, SyncOk, BarrierOk, StepOk, ActionsOk, Execute, Tallied, Lifecycle.LiveOf;
      CountersAddUp();
      var t := total.totals;
      report := heartbeat;
      streams := t.streams.created - t.streams.succeeded - t.streams.failed;
      flows := t.flows.created - t.flows.succeeded - t.flows.failed;
      traffics := t.traffics.created - t.traffics.succeeded - t.traffics.failed;
      reported, heartbeat := Plus(reported, heartbeat), Zero();
    }

    /** A random draw below the total weight of the weighted successors. */
    method Draw(v: nat) returns (r: real)
      requires GraphOk(graph) && v < |graph.actions|
      ensures exists next :: Follows(graph, v, r, next)
    {
      var w := Weights(Weighted(graph, graph.out[v]));
      r := 0.0;
      if w != [] {
        var total := S(w, |w|);
        r :| 0.0 <= r < total;
        ChoiceExists(w, r);
        ghost var k: nat :| Chosen(w, r, k);
        assert Follows(graph, v, r, Plain(graph, graph.out[v]) + [Weighted(graph, graph.out[v])[k].target]);
      } else {
        assert Follows(graph, v, r, Plain(graph, graph.out[v]));
      }
    }

    // What bounds the mutual recursion: actions that may complete at once, by rank.

    ghost function Rank(v: nat): nat {
      if v in sync then rank(v) else 0
    }

    ghost function Outer(v: nat): nat {
      if v in sync then 0 else 1
    }

    ghost function Owing(v: nat): Option<nat> {
      if IsBarrier(v) then Some(v) else None
    }

    /** The first step of a continuation pays what a barrier owes. */
    method Record(v: nat, r: real, ghost queue: seq<nat>)
      requires ValidFor(Owing(v)) && v < |graph.actions| && Follows(graph, v, r, queue) && !clientHasEnded
      modifies this`steps
      ensures Valid() && steps == old(steps) + [Step(v, r, queue)]
    {
      hide GraphOk, SyncOk, Visits, Incoming, Plus, Follows, ActionsOk, Tallied, Execute, Continuations;
      ghost var first := Step(v, r, queue);
      steps := steps + [first];
      forall b: nat ensures BarrierOk(b, None) {
        assert old(BarrierOk(b, Owing(v)));
        ContinuationsSnoc(old(steps), first, b);
      }
    }

    /** Nothing is released any more. */
    lemma EndedOwesNothing(v: nat)
      requires ValidFor(Owing(v)) && clientHasEnded
      ensures Valid()
    {
      hide GraphOk, SyncOk, Visits, Incoming, Plus, ActionsOk, Tallied, Execute, Continuations, StepOk;
      forall b: nat ensures BarrierOk(b, None) {
        assert BarrierOk(b, Owing(v));
      }
    }

    /** _tgendriver_continueNextActions: all next actions, each once and in order, unless the client
        has ended. */
    method ContinueNextActions(v: nat)
      requires ValidFor(Owing(v)) && v < |graph.actions|
      modifies this
      ensures Valid() && Advanced(old(Book()), multiset{}, Book())
      ensures if old(clientHasEnded) then clientHasEnded && Book() == old(Book()) else Continued(old(steps), steps, v)
      decreases Outer(v), Rank(v), 2
    {
      hide GraphOk, SyncOk, Visits, Incoming, Plus, Follows, Led, BarrierOk, ActionsOk, Tallied, Execute, StepOk;
      if clientHasEnded {
        EndedOwesNothing(v);
        return;
      }
      var r := Draw(v);
      var ok, queue := GetNextActions(graph, v, r);
      assert ok;
      FollowersKnown(graph, v, r, queue);
      ghost var first := Step(v, r, queue);
      Record(v, r, queue);
      LedSnoc(old(steps), first);
      while queue != []
        invariant Valid() && old(steps) + [first] <= steps && old(events) <= events
        invariant forall g :: g in old(actionOf) ==> g in actionOf && actionOf[g] == old(actionOf)[g]
        invariant forall i :: 0 <= i < |queue| ==> Successor(graph, v, queue[i])
        invariant processed + multiset(queue) + Led(old(steps)) == old(processed) + Led(steps)
        decreases |queue|
      {
        var u := queue[0];
        ghost var rest := queue[1..];
        assert queue == [u] + rest && Successor(graph, v, u);
        Descends(v, u);
        ghost var done, walked := processed, Led(steps);
        queue := queue[1..];
        ProcessAction(u);
        OneProcessed(old(processed), Led(old(steps)), done, walked, u, rest, processed, Led(steps));
      }
      NothingQueued(old(processed), Led(old(steps)), queue, processed, Led(steps));
      assert old(steps) <= old(steps) + [first];
    }

    /** Among actions that complete at once the rank goes down. */
    lemma Descends(v: nat, u: nat)
      requires SyncOk(graph, sync, rank) && Successor(graph, v, u)
      ensures v in sync && u in sync ==> Rank(u) < Rank(v)
      ensures graph.actions[u].value in {StartAction, EndAction, Barrier} ==> u in sync
    {
    }

    /** _tgendriver_processAction. A start goes on; a stream, flow or traffic action starts its
        generator; a timed pause waits for its timer or goes on. */
    method ProcessAction(u: nat)
      requires Valid() && u < |graph.actions| && graph.actions[u].Some?
      modifies this
      ensures Valid() && Advanced(old(Book()), multiset{u}, Book())
      ensures graph.actions[u] == Some(StartAction) && !old(clientHasEnded) ==> Continued(old(steps), steps, u)
      ensures Generates(graph.actions[u]) ==>
                |events| > |old(events)| && StartsFor(graph.actions[u].value, events[|old(events)|]) &&
                old(world).next in actionOf && actionOf[old(world).next] == u
      ensures graph.actions[u] == Some(TimedPause) && !old(clientHasEnded) ==>
                (pausing == old(pausing) + multiset{u} && steps == old(steps)) || Continued(old(steps), steps, u)
      ensures graph.actions[u] == Some(EndAction) ==> clientHasEnded || Continued(old(steps), steps, u)
      ensures graph.actions[u] == Some(EndAction) && u in limits && EndMet(limits[u], old(total), 0) ==>
                clientHasEnded && serverHasEnded && steps == old(steps)
      ensures graph.actions[u] == Some(EndAction) && !old(clientHasEnded) && u !in limits ==> Continued(old(steps), steps, u)
      ensures graph.actions[u] == Some(EndAction) && !old(clientHasEnded) && u in limits && limits[u].timeNanos.None? ==>
                EndMet(limits[u], old(total), 0) || Continued(old(steps), steps, u)
      ensures IsBarrier(u) && old(At(visited, u)) + 1 < Incoming(graph.out, u) ==>
                steps == old(steps) && visited == old(visited)[u := old(At(visited, u)) + 1]
      ensures IsBarrier(u) && old(At(visited, u)) + 1 >= Incoming(graph.out, u) && !old(clientHasEnded) ==> Continued(old(steps), steps, u)
      decreases 0, Rank(u), if u in sync then 5 else 1, 1
    {
      hide GraphOk, SyncOk, Visits, Incoming, Plus, Led, BarrierOk, ActionsOk, Tallied, Execute, StepOk;
      InstantInSync(u);
      if graph.actions[u].value == Barrier {
        HandleBarrier(u);
        return;
      }
      Processed(u);
      ghost var a := Book();
      match graph.actions[u].value {
        case StartAction => ContinueNextActions(u);
        case EndAction => var _, _ := CheckEndConditions(u);
        case TimedPause => HandleTimedPause(u);
        case StreamAction => Initiate(u);
        case FlowAction => Initiate(u);
        case TrafficAction => Initiate(u);
      }
      AdvancedTwice(old(Book()), multiset{u}, a, multiset{}, Book());
      assert multiset{u} + multiset{} == multiset{u};
    }

    lemma InstantInSync(u: nat)
      requires SyncOk(graph, sync, rank) && u < |graph.actions| && graph.actions[u].Some?
      ensures graph.actions[u].value in {StartAction, EndAction, Barrier} ==> u in sync
    {
    }

    ghost method Processed(u: nat)
      requires Valid() && !IsBarrier(u)
      modifies this`processed
      ensures Valid() && processed == old(processed) + multiset{u}
      ensures Advanced(old(Book()), multiset{u}, Book())
    {
      hide GraphOk, SyncOk, Visits, Incoming, Plus, Led, ActionsOk, Tallied, Execute, Continuations;
      processed := processed + multiset{u};
      forall b: nat ensures BarrierOk(b, None) {
        assert old(BarrierOk(b, None));
      }
    }

    /** _tgendriver_initiateStream, Flow and Traffic: a generator of the action's kind is announced and
        started; it may complete within its own start, and then the walk goes on at once. */
    method Initiate(u: nat)
      requires Valid() && u < |graph.actions| && Generates(graph.actions[u])
      modifies this
      ensures Valid() && Advanced(old(Book()), multiset{}, Book())
      ensures |events| > |old(events)| && StartsFor(graph.actions[u].value, events[|old(events)|])
      ensures old(world).next in actionOf && actionOf[old(world).next] == u
      decreases 0, Rank(u), if u in sync then 5 else 1, 0
    {
      hide GraphOk, SyncOk, Visits, Incoming, Plus, Led, BarrierOk, ActionsOk, Tallied, Execute, StepOk;
      var traffic: TrafficChoice, flow: FlowChoice, created: bool := *, *, *;
      if u !in sync {
        traffic, flow, created := TrafficMakes(flow, true), FlowMakes(created, true), true;
      }
      var e := match graph.actions[u].value
               case StreamAction => StartSingle(created)
               case FlowAction => StartFlow(flow)
               case _ => StartTraffic(traffic);
      Happens(e, Some(u));
    }

    /** An event of the generators: the driver counts all that it is told, and goes on from the action
        whose generator the last notification announces as complete. */
    method Happens(e: Event, started: Option<nat>)
      requires Valid() && (Starts(e) <==> started.Some?)
      requires started.Some? ==> started.value < |graph.actions| && graph.actions[started.value].Some?
      requires started.Some? ==> StartsFor(graph.actions[started.value].value, e) && (Notices.Waits(e) || started.value in sync)
      modifies this
      ensures Valid() && Advanced(old(Book()), multiset{}, Book()) && old(events) + [e] <= events
      ensures started.Some? ==> old(world).next in actionOf && actionOf[old(world).next] == started.value
      ensures var r := Generators.Do(old(world), e); var done := Finished(old(world), r);
              if done.None? then world == r && steps == old(steps) && pausing == old(pausing)
              else done.value in actionOf && (!old(clientHasEnded) ==> Continued(old(steps), steps, actionOf[done.value]))
      decreases if started.Some? then 0 else 2, if started.Some? then Rank(started.value) else 0,
                if started.Some? && started.value in sync then 4 else 0, 1
    {
      hide GraphOk, SyncOk, Visits, Incoming, Plus, Led, BarrierOk, ActionsOk, Tallied, Execute, StepOk, Generators.Do, Report,
        Notices.Waits, Notices.Tells, Notices.OnlyCounts;
      var n := |world.notes|;
      Occurs(e, started);
      var last := |world.notes|;
      while n < last && world.notes[n].done.None?
        invariant Core(None) && n <= last == |world.notes| && Told(n)
        invariant Book() == old(Book()).(events := events, actionOf := actionOf) && old(events) + [e] == events
        invariant pausing == old(pausing) && clientHasEnded == old(clientHasEnded) && world == Generators.Do(old(world), e)
        invariant actionOf == if started.Some? then old(actionOf)[old(world).next := started.value] else old(actionOf)
        invariant old(|world.notes|) <= n && forall i :: old(|world.notes|) <= i < n ==> world.notes[i].done.None?
      {
        OnNotify(n, world.notes[n].flags, None);
        n := n + 1;
      }
      assert world.notes[..last] == world.notes;
      ghost var a := Book();
      JustEvents(old(Book()), a);
      if n < last {
        DoneAction(old(world), e, n, started);
        OnNotify(n, world.notes[n].flags, Some(actionOf[world.notes[n].done.value]));
        AdvancedTwice(old(Book()), multiset{}, a, multiset{}, Book());
        ghost var none: multiset<nat> := multiset{};
        assert none + none == none;
      }
    }

    /** The generators have done their part; the driver has not been told yet. */
    method Occurs(e: Event, started: Option<nat>)
      requires Valid() && (Starts(e) <==> started.Some?)
      requires started.Some? ==> started.value < |graph.actions| && Generates(graph.actions[started.value])
      modifies this`world, this`actionOf, this`events
      ensures Core(None) && Told(|old(world).notes|) && old(world).notes <= world.notes
      ensures world == Generators.Do(old(world), e) && events == old(events) + [e]
      ensures Notices.Tells(old(world), e, world) && (Notices.Waits(e) ==> Notices.OnlyCounts(old(world), world))
      ensures actionOf == if started.Some? then old(actionOf)[old(world).next := started.value] else old(actionOf)
      ensures old(world).next !in old(actionOf)
    {
      hide GraphOk, SyncOk, Visits, Incoming, Plus, Led, BarrierOk, Tallied, Execute, StepOk, Generators.Do, Report, Notices.Waits,
        Lifecycle.Quiet, Notices.Tells, Notices.OnlyCounts;
      Lifecycle.RunQuiet(events);
      Lifecycle.NextUnused(events);
      Lifecycle.ExecuteSnoc(events, e);
      Notices.DoTells(world, e);
      if started.Some? {
        actionOf := actionOf[world.next := started.value];
      }
      assert Generators.Do(world, e).notes[..|world.notes|] == world.notes;
      world := Generators.Do(world, e);
      events := events + [e];
    }

    /** A notification that announces a generator: it is the last one, and the generator's action is known. */
    lemma DoneAction(before: World, e: Event, n: nat, started: Option<nat>)
      requires ActionsOk() && Notices.Tells(before, e, world) && |before.notes| <= n < |world.notes| && world.notes[n].done.Some?
      requires started.Some? <==> Starts(e)
      requires started.Some? ==> before.next in actionOf && actionOf[before.next] == started.value
      requires world.roots == if Starts(e) then before.roots + {before.next} else before.roots
      requires Notices.Waits(e) ==> Notices.OnlyCounts(before, world)
      ensures !Notices.Waits(e)
      ensures n + 1 == |world.notes| && world.notes[n].done.value in actionOf && Completes(world.notes[n].flags)
      ensures var v := actionOf[world.notes[n].done.value]; v < |graph.actions| && Generates(graph.actions[v])
      ensures started.Some? ==> actionOf[world.notes[n].done.value] == started.value
    {
    }

    /** _tgendriver_onNotify: count, and go on after a completed action of the graph. */
    method OnNotify(ghost n: nat, flags: set<Flag>, action: Option<nat>)
      requires Core(None) && Told(n) && n < |world.notes| && flags == world.notes[n].flags
      requires action.Some? ==> n + 1 == |world.notes| && action.value < |graph.actions| && Generates(graph.actions[action.value])
      modifies this
      ensures action.None? ==>
                Core(None) && Told(n + 1) && total == Counted(old(total), flags) && Book() == old(Book()) && world == old(world) &&
                pausing == old(pausing) && clientHasEnded == old(clientHasEnded)
      ensures action.Some? ==> Valid() && Advanced(old(Book()), multiset{}, Book())
      ensures action.Some? && Completes(flags) && !old(clientHasEnded) ==> Continued(old(steps), steps, action.value)
      decreases if action.Some? then Outer(action.value) else 0, if action.Some? then Rank(action.value) else 0,
                if action.Some? then 3 else 0, 0
    {
      hide GraphOk, SyncOk, Visits, Incoming, Plus, Led, BarrierOk, ActionsOk, Tallied, Execute, StepOk, Report;
      PlusCounted(reported, heartbeat, flags);
      TalliedNext(world.notes, n);
      total, heartbeat := Counted(total, flags), Counted(heartbeat, flags);
      if action.Some? {
        assert world.notes[..n + 1] == world.notes;
        if Completes(flags) {
          ContinueNextActions(action.value);
        }
      }
    }

    /** _tgendriver_handlePause of a pause with times: without a timer it goes on at once. */
    method HandleTimedPause(u: nat)
      requires Valid() && u < |graph.actions| && graph.actions[u] == Some(TimedPause)
      modifies this
      ensures Valid() && Advanced(old(Book()), multiset{}, Book())
      ensures (pausing == old(pausing) + multiset{u} && Book() == old(Book())) || old(clientHasEnded) || Continued(old(steps), steps, u)
      decreases 0, Rank(u), if u in sync then 5 else 1, 0
    {
      hide GraphOk, SyncOk, Visits, Incoming, Plus, Led, BarrierOk, ActionsOk, Tallied, Execute, StepOk;
      var timer: bool := *;
      if timer || u !in sync {
        pausing := pausing + multiset{u};
      } else {
        ContinueNextActions(u);
      }
    }

    /** _tgendriver_handlePause of a synchronising pause. */
    method HandleBarrier(u: nat)
      requires Valid() && IsBarrier(u) && u in sync
      modifies this
      ensures Valid() && Advanced(old(Book()), multiset{u}, Book())
      ensures old(At(visited, u)) + 1 < Incoming(graph.out, u) ==>
                steps == old(steps) && visited == old(visited)[u := old(At(visited, u)) + 1]
      ensures old(At(visited, u)) + 1 >= Incoming(graph.out, u) && !old(clientHasEnded) ==> Continued(old(steps), steps, u)
      decreases 0, Rank(u), 3
    {
      hide GraphOk, SyncOk, Incoming, Plus, Follows, Led, ActionsOk, Tallied, Execute, Continuations, BarrierOk, StepOk;
      var (count, all) := Visit(Incoming(graph.out, u), At(visited, u));
      Visited(u, count, all);
      ghost var a := Book();
      if all {
        ContinueNextActions(u);
        AdvancedTwice(old(Book()), multiset{u}, a, multiset{}, Book());
        assert multiset{u} + multiset{} == multiset{u};
      }
    }

    method Visited(u: nat, count: nat, all: bool)
      requires Valid() && IsBarrier(u) && (count, all) == Visit(Incoming(graph.out, u), At(visited, u))
      modifies this`visited, this`processed
      ensures ValidFor(if all then Some(u) else None) && visited == old(visited)[u := count] && processed == old(processed) + multiset{u}
      ensures Advanced(old(Book()), multiset{u}, Book())
    {
      hide GraphOk, SyncOk, Incoming, Plus, Follows, Led, ActionsOk, Tallied, Execute, Continuations, StepOk;
      visited := visited[u := count];
      processed := processed + multiset{u};
      ghost var due := if all then Some(u) else None;
      forall v: nat ensures BarrierOk(v, due) {
        assert old(BarrierOk(v, None));
      }
    }

    /** _tgendriver_checkEndConditions. */
    method CheckEndConditions(u: nat) returns (met: bool, elapsed: nat)
      requires Valid() && u < |graph.actions| && graph.actions[u] == Some(EndAction) && u in sync
      modifies this
      ensures Valid() && Advanced(old(Book()), multiset{}, Book())
      ensures met ==> u in limits
      ensures u in limits ==>
                var l, c := limits[u], old(total);
                met <==> (l.sendSize.Some? && c.bytesWritten >= l.sendSize.value) ||
                         (l.recvSize.Some? && c.bytesRead >= l.recvSize.value) ||
                         (l.count.Some? && c.totals.streams.succeeded + c.totals.streams.failed >= l.count.value) ||
                         (l.timeNanos.Some? && elapsed >= l.timeNanos.value)
      ensures met ==> clientHasEnded && serverHasEnded
      ensures if met || old(clientHasEnded) then clientHasEnded && Book() == old(Book()) else Continued(old(steps), steps, u)
      decreases 0, Rank(u), 3
    {
      hide GraphOk, SyncOk, Incoming, Plus, Follows, Led, ActionsOk, Tallied, Execute, Continuations, BarrierOk, StepOk;
      hide Visits;
      elapsed := *;
      met := u in limits && EndMet(limits[u], total, elapsed);
      if met {
        EndClient();
      }
      if !clientHasEnded {
        ContinueNextActions(u);
      }
    }

    method EndClient()
      requires Valid()
      modifies this`clientHasEnded, this`serverHasEnded
      ensures Valid() && clientHasEnded && serverHasEnded
    {
      hide GraphOk, SyncOk, Incoming, Plus, ActionsOk, Tallied, Execute, Continuations, Visits, StepOk;
      clientHasEnded, serverHasEnded := true, true;
      forall v: nat ensures BarrierOk(v, None) {
        assert old(BarrierOk(v, None));
      }
    }

    // ---- Events from outside ----

    /** The client starts to walk the graph. */
    method OnStartClient(start: nat)
      requires Valid() && start < |graph.actions| && graph.actions[start] == Some(StartAction)
      modifies this
      ensures Valid() && Advanced(old(Book()), multiset{}, Book())
      ensures !old(clientHasEnded) ==> Continued(old(steps), steps, start)
    {
      ContinueNextActions(start);
    }

    /** A pause timer expires: the walk goes on behind the pause. */
    method OnPauseTimer(u: nat)
      requires Valid() && u in pausing && u < |graph.actions| && graph.actions[u] == Some(TimedPause)
      modifies this
      ensures Valid() && Advanced(old(Book()), multiset{}, Book())
      ensures !old(clientHasEnded) ==> Continued(old(steps), steps, u)
    {
      hide GraphOk, SyncOk, Incoming, Plus, ActionsOk, Tallied, Execute, BarrierOk, StepOk;
      pausing := pausing - multiset{u};
      ContinueNextActions(u);
    }

    /** A timer of a generator fires, a stream completes or is freed, a stream of the server side starts
        or completes: the driver counts, and goes on exactly when an action's generator is complete. */
    method OnGeneratorEvent(e: Event)
      requires Valid() && !Starts(e)
      modifies this
      ensures Valid() && Advanced(old(Book()), multiset{}, Book()) && old(events) + [e] <= events
      ensures var r := Generators.Do(old(world), e); var done := Finished(old(world), r);
              if done.None? then world == r && steps == old(steps)
              else done.value in actionOf && (!old(clientHasEnded) ==> Continued(old(steps), steps, actionOf[done.value]))
    {
      hide GraphOk, SyncOk, Incoming, Plus, ActionsOk, Tallied, Execute, BarrierOk, StepOk, Generators.Do;
      Happens(e, None);
    }
  }
}
