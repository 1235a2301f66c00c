/** What is left for scoring once filtering is done. */
module Ranking {
  import opened Labels
  import opened Objects
  import opened Rfc3339
  import Confidential
  import Privacy
  import Region

  /** A node as the plugins see it: its labels and the pods running on it. */
  datatype Candidate = Candidate(labels: LabelMap, running: set<Pod>)

  /** The region and privacy Filters accept the placement; the confidential one need not be enabled. */
  predicate Feasible(policy: Policy, pod: Pod, node: Candidate, now: int, codec: TimeCodec) {
    && Region.Admits(policy.region, pod, node.labels)
    && Privacy.Admits(policy.privacy, pod, node.labels, node.running, now, codec)
  }

  function Total(policy: Policy, pod: Pod, node: Candidate, weights: (int, int, int)): int {
    weights.0 * Region.Score(policy.region, pod, node.labels)
    + weights.1 * Privacy.Score(policy.privacy, pod, node.labels)
    + weights.2 * Confidential.Score(policy.confidential, pod, node.labels)
  }

  /** A feasible node's region score depends on the request alone: full marks if the pod or the policy
      asks for a zone, half if only for a region, none otherwise. */
  function RegionMarks(policy: RegionPolicy, pod: Pod): int {
    if !policy.enabled then 0
    else if Region.WantedZone(policy, pod) != "" then 100
    else if Region.WantedRegion(policy, pod) != "" then 50
    else 0
  }

  /** A feasible node's privacy score: full marks for a high-privacy pod, none otherwise. */
  function PrivacyMarks(policy: PrivacyPolicy, pod: Pod): int {
    if policy.enabled && Privacy.Level(policy, pod) == Privacy.HIGH then 100 else 0
  }

  /** The TEE type the pod, or the policy for it, prefers. */
  function WantedTee(policy: ConfidentialPolicy, pod: Pod): string {
    PodLabelOr(pod, LABEL_TEE_TYPE, policy.defaultTeeType)
  }

  /** No node, feasible or not, gets better region or privacy marks than the feasible ones. */
  lemma FeasibleScoresHighest(policy: Policy, pod: Pod, a: Candidate, other: LabelMap, now: int, codec: TimeCodec)
    requires Feasible(policy, pod, a, now, codec)
    ensures Region.Score(policy.region, pod, other) <= Region.Score(policy.region, pod, a.labels)
    ensures Privacy.Score(policy.privacy, pod, other) <= Privacy.Score(policy.privacy, pod, a.labels)
  {
  }

  /** Among nodes that pass the region and privacy Filters only the confidential score can tell two
      nodes apart, whatever the plugin weights. */
  lemma FilterDeterminesScore(policy: Policy, pod: Pod, a: Candidate, b: Candidate,
                              now: int, codec: TimeCodec, weights: (int, int, int))
    requires Feasible(policy, pod, a, now, codec) && Feasible(policy, pod, b, now, codec)
    ensures Region.Score(policy.region, pod, a.labels) == RegionMarks(policy.region, pod)
    ensures Privacy.Score(policy.privacy, pod, a.labels) == PrivacyMarks(policy.privacy, pod)
    ensures Total(policy, pod, a, weights) - Total(policy, pod, b, weights) ==
            weights.2 * (Confidential.Score(policy.confidential, pod, a.labels)
                         - Confidential.Score(policy.confidential, pod, b.labels))
  {
  }

  /** And a pod that needs a TEE scores 50 or 100, never zero, where the confidential Filter passes. */
  lemma ConfidentialMarks(policy: ConfidentialPolicy, pod: Pod, node: LabelMap, now: int, codec: TimeCodec)
    requires Confidential.Admits(policy, pod, node, now, codec)
    ensures Confidential.Score(policy, pod, node) ==
            if !policy.enabled || !Confidential.NeedsTee(policy, pod) then 0
            else if WantedTee(policy, pod) in {"", Value(node, LABEL_TEE)} then 100 else 50
  {
  }
}
