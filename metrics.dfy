/** The part of the Prometheus client library's contract that the probe
    handler relies on: a gauge is an object holding a real value that starts
    at zero and is overwritten by `Set`; a registry is a collection of
    gauges with distinct names, filled by `MustRegister`, whose current
    values are what the exposition handler renders. */
module Metrics {

  class Gauge {
    const name: string
    var value: real

    /** `prometheus.NewGauge`: a fresh gauge reads 0. */
    constructor (name: string)
      ensures this.name == name && value == 0.0
    {
      this.name := name;
      value := 0.0;
    }

    /** `Gauge.Set`: overwrites the gauge's value. */
    method Set(v: real)
      modifies this
      ensures value == v
    {
      value := v;
    }
  }

  /** The names of the gauges, in registration order. */
  function Names(gs: seq<Gauge>): (ns: seq<string>)
    ensures |ns| == |gs|
    ensures forall i :: 0 <= i < |gs| ==> ns[i] == gs[i].name
  {
    if gs == [] then [] else Names(gs[..|gs| - 1]) + [gs[|gs| - 1].name]
  }

  /** The metrics a registry over `gs` exposes: each gauge's name mapped to
      its current value. */
  function Gather(gs: seq<Gauge>): (m: map<string, real>)
    reads gs
    ensures m.Keys == set i | 0 <= i < |gs| :: gs[i].name
  {
    if gs == [] then map[]
    else Gather(gs[..|gs| - 1])[gs[|gs| - 1].name := gs[|gs| - 1].value]
  }

  /** A gauge whose name no later gauge reuses is exposed with its value. */
  lemma {:induction false} GatherValue(gs: seq<Gauge>, i: nat)
    requires i < |gs|
    requires forall j :: i < j < |gs| ==> gs[j].name != gs[i].name
    ensures gs[i].name in Gather(gs) && Gather(gs)[gs[i].name] == gs[i].value
  {
    if i < |gs| - 1 {
      GatherValue(gs[..|gs| - 1], i);
    }
  }

  /** The snapshot of three gauges with distinct names. */
  lemma GatherThree(a: Gauge, b: Gauge, c: Gauge)
    requires a.name != b.name && a.name != c.name && b.name != c.name
    ensures Gather([a, b, c]) == map[a.name := a.value, b.name := b.value, c.name := c.value]
  {
    var gs := [a, b, c];
    GatherValue(gs, 0);
    GatherValue(gs, 1);
    GatherValue(gs, 2);
    assert Gather(gs).Keys == {a.name, b.name, c.name} by {
      assert (set i | 0 <= i < 3 :: gs[i].name) == {a.name, b.name, c.name} by {
        assert gs[0].name == a.name && gs[1].name == b.name && gs[2].name == c.name;
      }
    }
  }

  class Registry {
    var gauges: seq<Gauge>

    /** `prometheus.NewRegistry`: an empty registry. */
    constructor ()
      ensures gauges == []
    {
      gauges := [];
    }

    /** `Registry.MustRegister`: the library panics on a duplicate name, so
        callers must register each name once. */
    method MustRegister(g: Gauge)
      requires g.name !in Names(gauges)
      modifies this
      ensures gauges == old(gauges) + [g]
    {
      gauges := gauges + [g];
    }

    /** What the exposition handler renders for this registry. */
    function Snapshot(): (m: map<string, real>)
      reads this, gauges
    {
      Gather(gauges)
    }
  }
}
