/**
 * The process-wide gauge vectors, as one object that every `Counter` shares.
 */
module Registry {
  import opened Wrappers
  import opened Gauges

  class GaugeRegistry {
    var state: State

    ghost predicate Valid()
      reads this
    {
      Gauges.Valid(state)
    }

    /** Registration at process start: all ten gauges, no tuples yet. */
    constructor ()
      ensures Valid() && state == Empty()
    {
      state := Empty();
    }

    /** `gauge.With(labels).Set(v)` on one gauge vector. */
    method Set(k: MetricKind, labels: map<string, string>, v: int)
      requires Valid()
      requires With(k, labels).Some?
      requires v == 0 || v == 1
      modifies this
      ensures Valid()
      ensures state == SetGauge(old(state), k, With(k, labels).value, v)
    {
      var t := With(k, labels).value;
      state := state[k := state[k][t := v]];
    }

    /** `gauge.Reset()` on one gauge vector. */
    method Reset(k: MetricKind)
      requires Valid()
      modifies this
      ensures Valid()
      ensures state == ResetGauge(old(state), k)
    {
      state := state[k := map[]];
    }
  }
}
