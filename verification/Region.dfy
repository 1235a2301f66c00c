/** The NexaRegion plugin: region and zone affinity. */
module Region {
  import opened Labels
  import opened Metrics
  import opened Objects
  import opened Wrappers

  const NAME := "NexaRegion"

  function WantedRegion(policy: RegionPolicy, pod: Pod): string {
    PodLabelOr(pod, LABEL_REGION, policy.defaultRegion)
  }

  function WantedZone(policy: RegionPolicy, pod: Pod): string {
    PodLabelOr(pod, LABEL_ZONE, policy.defaultZone)
  }

  /** The node meets every affinity the pod, or the policy on its behalf, asks for. */
  predicate Admits(policy: RegionPolicy, pod: Pod, node: LabelMap) {
    policy.enabled ==>
      && WantedRegion(policy, pod) in {"", Value(node, LABEL_REGION)}
      && WantedZone(policy, pod) in {"", Value(node, LABEL_ZONE)}
  }

  /** What the pod asks for under a label key: its own label if it has one, else the policy's default;
      "" asks for nothing. */
  function Asked(pod: Pod, key: string, default: string): string {
    if key in pod.labels && pod.labels[key] != "" then pod.labels[key] else default
  }

  /** The admissible nodes in terms of the labels of pod and node. */
  lemma AdmitsByLabels(policy: RegionPolicy, pod: Pod, node: LabelMap)
    ensures var region := Asked(pod, "nexa.io/region", policy.defaultRegion);
            var zone := Asked(pod, "nexa.io/zone", policy.defaultZone);
            Admits(policy, pod, node) <==>
            || !policy.enabled
            || ((region == "" || Carries(node, "nexa.io/region", region)) && (zone == "" || Carries(node, "nexa.io/zone", zone)))
  {
  }

  method Filter(base: Base, provided: Option<Policy>, pod: Pod, node: LabelMap) returns (verdict: Verdict)
    requires base.pluginName == NAME
    modifies base.metrics`counters
    ensures verdict.Errored? <==> provided.None?
    ensures provided.Some? ==> (verdict.Accepted? <==> Admits(provided.value.region, pod, node))
    ensures verdict.Accepted? && provided.value.region.enabled
            && "nexa.io/region" in pod.labels && pod.labels["nexa.io/region"] != ""
            ==> Carries(node, "nexa.io/region", pod.labels["nexa.io/region"])
    ensures verdict.Accepted? && provided.value.region.enabled
            && "nexa.io/zone" in pod.labels && pod.labels["nexa.io/zone"] != ""
            ==> Carries(node, "nexa.io/zone", pod.labels["nexa.io/zone"])
    ensures base.metrics.counters ==
            if base.metrics.registered then AddCall(old(base.metrics.counters), "NexaRegion", verdict)
            else old(base.metrics.counters)
  {
    var got := base.GetPolicyOrFail(provided);
    if got.None? {
      return Errored;
    }
    var policy := got.value.region;
    if !policy.enabled {
      base.metrics.RecordFilter(NAME, "accepted");
      return Accepted;
    }
    var podRegion, podZone := WantedRegion(policy, pod), WantedZone(policy, pod);
    if podRegion == "" && podZone == "" {
      base.metrics.RecordFilter(NAME, "accepted");
      return Accepted;
    }
    if podRegion != "" && Value(node, LABEL_REGION) != podRegion {
      base.metrics.RecordFilter(NAME, "rejected");
      return Rejected;
    }
    if podZone != "" && Value(node, LABEL_ZONE) != podZone {
      base.metrics.RecordFilter(NAME, "rejected");
      return Rejected;
    }
    base.metrics.RecordFilter(NAME, "accepted");
    return Accepted;
  }

  function Score(policy: RegionPolicy, pod: Pod, node: LabelMap): int {
    var podRegion, podZone := WantedRegion(policy, pod), WantedZone(policy, pod);
    if !policy.enabled || (podRegion == "" && podZone == "") then 0
    else
      var score := if podRegion != "" && Value(node, LABEL_REGION) == podRegion then MAX_NODE_SCORE / 2 else 0;
      if podZone != "" && Value(node, LABEL_ZONE) == podZone then MAX_NODE_SCORE else score
  }

  /** The score in terms of the labels: a zone asked for and met decides, then a region. */
  lemma ScoreByLabels(policy: RegionPolicy, pod: Pod, node: LabelMap)
    ensures var region := Asked(pod, "nexa.io/region", policy.defaultRegion);
            var zone := Asked(pod, "nexa.io/zone", policy.defaultZone);
            && (Score(policy, pod, node) == 100 <==> policy.enabled && zone != "" && Carries(node, "nexa.io/zone", zone))
            && (Score(policy, pod, node) == 50 <==>
                && policy.enabled && region != "" && Carries(node, "nexa.io/region", region)
                && !(zone != "" && Carries(node, "nexa.io/zone", zone)))
            && Score(policy, pod, node) in {0, 50, 100}
  {
  }
}
