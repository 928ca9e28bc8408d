/** The Markov model object: the walk of module Markov carried out on mutable fields. */
module MarkovObject {
  import opened Options
  import opened Labels
  import opened Markov

  class MarkovModel {
    const model: Model
    var currentState: nat
    var foundEnd: bool
    var drawn: nat

    ghost predicate Valid()
      reads this
    {
      Sound(model) && IsStateVertex(model.graph, currentState)
    }

    function State(): Walk
      reads this
    {
      Walk(currentState, foundEnd, drawn)
    }

    constructor (model: Model)
      requires Sound(model)
      ensures Valid() && this.model == model && State() == Begin(model)
    {
      this.model := model;
      currentState, foundEnd, drawn := model.start, false, 0;
    }

    /** The first loop: the total weight of the matching edges. */
    method SumWeights(kind: EdgeKind, es: seq<nat>) returns (total: real)
      requires EdgeIds(model.graph, es) && AllReadable(model.graph, kind, es)
      ensures total == Total(model.graph, kind, es)
    {
      var i := 0;
      total := 0.0;
      while i < |es|
        invariant 0 <= i <= |es|
        invariant total == Total(model.graph, kind, es[..i])
      {
        var e := model.graph.edges[es[i]];
        assert Readable(e, kind) && es[..i + 1][..i] == es[..i];
        if Matches(e, kind) {
          total := total + e.weight.value;
        }
        i := i + 1;
      }
      assert es[..i] == es;
    }

    /** The second loop: the first matching edge whose running total reaches r. */
    method SelectEdge(kind: EdgeKind, es: seq<nat>, r: real) returns (choice: Option<nat>)
      requires EdgeIds(model.graph, es) && AllReadable(model.graph, kind, es)
      ensures choice == Choose(model.graph, kind, es, r)
      ensures choice.Some? ==> exists k: nat :: Selected(model.graph, kind, es, r, k) && choice.value == es[k]
      ensures choice.None? ==> NoneBefore(model.graph, kind, es, r, |es|)
    {
      ghost var _ := ChooseFrom(model.graph, kind, es, r, 0);
      var cumulative, i := 0.0, 0;
      while i < |es|
        invariant 0 <= i <= |es|
        invariant cumulative == Total(model.graph, kind, es[..i])
        invariant Choose(model.graph, kind, es, r) == Choose(model.graph, kind, es, r, i)
      {
        var e := model.graph.edges[es[i]];
        assert Readable(e, kind) && es[..i + 1][..i] == es[..i];
        if Matches(e, kind) {
          cumulative := cumulative + e.weight.value;
          if cumulative >= r {
            return Some(es[i]);
          }
        }
        i := i + 1;
      }
      choice := None;
    }

    method ChooseEdge(kind: EdgeKind, from: nat) returns (choice: Option<nat>)
      requires Valid()
      modifies this`drawn
      ensures drawn == old(drawn) + 1
      ensures choice == Pick(model, kind, from, old(drawn))
    {
      var es := Incident(model.graph, from);
      AllEdgesReadable(model.graph, kind, from);
      var total := SumWeights(kind, es);
      var r := model.rng.range(drawn, total);
      drawn := drawn + 1;
      choice := SelectEdge(kind, es, r);
    }

    /** The next observation and its delay; a missing transition or emission ends early, without
        setting the end flag. */
    method GetNextObservation() returns (obs: Observation, delay: nat)
      requires Valid()
      modifies this
      ensures Valid()
      ensures Next(model, old(State())) == Emitted(obs, delay, State())
      ensures Observes(model, old(State()), Emitted(obs, delay, State()))
      ensures delay <= DELAY_CEILING
    {
      hide Pick, DistributionOk, AllReadable, Weighted, Observes;
      NextMeans(model, State());
      NextNeverAborts(model, State());
      if foundEnd {
        return End, 0;
      }
      ghost var start := State();
      AllEdgesReadable(model.graph, Transition, currentState);
      var transition := ChooseEdge(Transition, currentState);
      if transition.None? {
        return End, 0;
      }
      currentState := model.graph.edges[transition.value].target;
      ghost var moved := State();
      EmissionNeverAborts(model, moved);
      AllEdgesReadable(model.graph, Emission, currentState);
      var emission := ChooseEdge(Emission, currentState);
      if emission.None? {
        return End, 0;
      }
      var edge := model.graph.edges[emission.value];
      assert Emit(model, edge, State()) == NextEmission(model, moved);
      var target := VertexObservation(model.graph.vertices[edge.target]);
      obs := target.value;
      var (value, used) := model.rng.sample(drawn, edge);
      drawn := drawn + used;
      delay := ClampDelay(value);
      if obs.End? {
        foundEnd := true;
      }
    }

    method Reset()
      requires Valid()
      modifies this`currentState, this`foundEnd
      ensures Valid() && State() == Restart(model, old(State()))
    {
      foundEnd := false;
      currentState := model.start;
    }
  }
}
