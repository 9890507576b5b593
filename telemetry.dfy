/** The in-memory metrics sink: named counters that accumulate and named
    gauges that keep the last observation, in separate namespaces. */
module Telemetry {
  import opened Common

  /** The counters after adding each value to its name, in order. */
  function Accumulated(counters: map<string, real>, incs: seq<(string, real)>): map<string, real>
  {
    if incs == [] then counters
    else
      var c := Accumulated(counters, incs[..|incs| - 1]);
      var last := incs[|incs| - 1];
      c[last.0 := GetReal(c, last.0) + last.1]
  }

  /** The sum of the values recorded against `name`. */
  function AddedTo(incs: seq<(string, real)>, name: string): real
  {
    if incs == [] then 0.0
    else AddedTo(incs[..|incs| - 1], name) + (if incs[|incs| - 1].0 == name then incs[|incs| - 1].1 else 0.0)
  }

  /** A counter holds its starting value plus everything added to it, in
      whatever order and however interleaved with other names. */
  lemma {:induction false} CounterIsSum(counters: map<string, real>, incs: seq<(string, real)>, name: string)
    ensures GetReal(Accumulated(counters, incs), name) == GetReal(counters, name) + AddedTo(incs, name)
  {
    if incs != [] {
      CounterIsSum(counters, incs[..|incs| - 1], name);
    }
  }

  class MetricsSink {
    var counters: map<string, real>
    var gauges: map<string, real>

    constructor ()
      ensures counters == map[] && gauges == map[]
    {
      counters := map[];
      gauges := map[];
    }

    /** `incr` (the source's default value is 1.0): only this counter moves. */
    method Incr(name: string, value: real)
      modifies this
      ensures counters == old(counters)[name := GetReal(old(counters), name) + value]
      ensures gauges == old(gauges)
    {
      counters := counters[name := GetReal(counters, name) + value];
    }

    /** `observe`: the gauge is overwritten; counters are untouched. */
    method Observe(name: string, value: real)
      modifies this
      ensures gauges == old(gauges)[name := value]
      ensures counters == old(counters)
    {
      gauges := gauges[name := value];
    }

    /** `snapshot`: copies of both tables. */
    function Snapshot(): (s: (map<string, real>, map<string, real>))
      reads this
      ensures s.0 == counters && s.1 == gauges
    {
      (counters, gauges)
    }
  }

  /** Two increments of one counter and an observation under the same name
      leave the counter at 3 and the gauge at 7. */
  method SinkScenario()
  {
    var sink := new MetricsSink();
    sink.Incr("orders", 1.0);
    sink.Observe("orders", 7.0);
    sink.Incr("orders", 2.0);
    var s := sink.Snapshot();
    assert s.0["orders"] == 3.0 && s.1["orders"] == 7.0;
  }
}
