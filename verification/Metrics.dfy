/** The Prometheus counters as state. Before Register the collectors are nil and nothing is recorded. */
module Metrics {
  import opened Objects
  import opened Wrappers

  datatype Counters = Counters(
    filters: map<(string, string), nat>,
    violations: map<string, nat>,
    evaluations: map<(string, string), nat>)

  const ZERO := Counters(map[], map[], map[])

  function Count<K>(m: map<K, nat>, key: K): nat {
    if key in m then m[key] else 0
  }

  function Inc<K>(m: map<K, nat>, key: K): map<K, nat> {
    m[key := Count(m, key) + 1]
  }

  function AddFilter(c: Counters, plugin: string, result: string): Counters {
    c.(filters := Inc(c.filters, (plugin, result)))
  }

  function AddViolation(c: Counters, reason: string): Counters {
    c.(violations := Inc(c.violations, reason))
  }

  function AddEvaluation(c: Counters, plugin: string, result: string): Counters {
    c.(evaluations := Inc(c.evaluations, (plugin, result)))
  }

  class Registry {
    var registered: bool
    var counters: Counters

    constructor ()
      ensures !registered && counters == ZERO
    {
      registered, counters := false, ZERO;
    }

    method Register()
      modifies this
      ensures registered && counters == ZERO
    {
      registered, counters := true, ZERO;
    }

    method RecordFilter(plugin: string, result: string)
      modifies this`counters
      ensures counters == if registered then AddFilter(old(counters), plugin, result) else old(counters)
    {
      if registered {
        counters := AddFilter(counters, plugin, result);
      }
    }

    method RecordViolation(reason: string)
      modifies this`counters
      ensures counters == if registered then AddViolation(old(counters), reason) else old(counters)
    {
      if registered {
        counters := AddViolation(counters, reason);
      }
    }

    method RecordPolicyEval(plugin: string, result: string)
      modifies this`counters
      ensures counters == if registered then AddEvaluation(old(counters), plugin, result) else old(counters)
    {
      if registered {
        counters := AddEvaluation(counters, plugin, result);
      }
    }
  }

  /** What one Filter call that ends with the given verdict, without a violation, adds to the counters. */
  function AddCall(c: Counters, plugin: string, verdict: Verdict): Counters {
    match verdict
    case Errored => AddFilter(AddEvaluation(c, plugin, "error"), plugin, "error")
    case Accepted => AddFilter(AddEvaluation(c, plugin, "success"), plugin, "accepted")
    case Rejected => AddFilter(AddEvaluation(c, plugin, "success"), plugin, "rejected")
  }

  /** The shared part of every plugin: fetching the policy and recording how that went. The
      provider's answer is a parameter; None stands for its error. */
  class Base {
    const pluginName: string
    const metrics: Registry

    constructor (pluginName: string, metrics: Registry)
      ensures this.pluginName == pluginName && this.metrics == metrics
    {
      this.pluginName := pluginName;
      this.metrics := metrics;
    }

    method GetPolicyOrFail(provided: Option<Policy>) returns (policy: Option<Policy>)
      modifies metrics`counters
      ensures policy == provided
      ensures metrics.counters ==
              if !metrics.registered then old(metrics.counters)
              else if provided.None? then AddCall(old(metrics.counters), pluginName, Errored)
              else AddEvaluation(old(metrics.counters), pluginName, "success")
    {
      if provided.None? {
        metrics.RecordPolicyEval(pluginName, "error");
        metrics.RecordFilter(pluginName, "error");
      } else {
        metrics.RecordPolicyEval(pluginName, "success");
      }
      policy := provided;
    }
  }
}
