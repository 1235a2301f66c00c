/** The NexaConfidential plugin: trusted execution environments and remote attestation. */
module Confidential {
  import opened Instants
  import opened Labels
  import opened Metrics
  import opened Objects
  import opened Rfc3339
  import opened Wrappers

  const NAME := "NexaConfidential"

  predicate Required(pod: Pod) {
    PodLabel(pod, LABEL_CONFIDENTIAL) == "required"
  }

  predicate NeedsTee(policy: ConfidentialPolicy, pod: Pod) {
    Required(pod) || (PodLabel(pod, LABEL_PRIVACY) == "high" && policy.requireTeeForHigh)
  }

  predicate HasTee(node: LabelMap) {
    Value(node, LABEL_TEE) !in {"", "none"}
  }

  predicate Attested(policy: ConfidentialPolicy, node: LabelMap, now: int, codec: TimeCodec) {
    && Value(node, LABEL_TEE_ATTESTED) == "true"
    && (policy.attestationMaxAgeHours > 0 ==>
          Fresh(Value(node, LABEL_TEE_TIME), now, policy.attestationMaxAgeHours, codec))
    && policy.attestationTrustAnchor in {"", Value(node, LABEL_TEE_ANCHOR)}
  }

  predicate Admits(policy: ConfidentialPolicy, pod: Pod, node: LabelMap, now: int, codec: TimeCodec) {
    policy.enabled && NeedsTee(policy, pod) ==>
      && HasTee(node)
      && (policy.requireEncryptedDisk ==> Value(node, LABEL_DISK_ENCRYPTED) == "true")
      && (Required(pod) ==> policy.requireRuntimeClass in {"", RuntimeClass(pod)})
      && (policy.requireAttestation ==> Attested(policy, node, now, codec))
  }

  /** An attestation a policy can rely on, read off the node's labels. */
  ghost predicate Vouched(policy: ConfidentialPolicy, node: LabelMap, now: int, codec: TimeCodec) {
    && Carries(node, "nexa.io/tee-attested", "true")
    && (policy.attestationMaxAgeHours > 0 ==>
          && "nexa.io/tee-attestation-time" in node && node["nexa.io/tee-attestation-time"] != ""
          && var at := codec.parse(node["nexa.io/tee-attestation-time"]);
             at.Some? && !OlderThan(now, at.value, policy.attestationMaxAgeHours))
    && (policy.attestationTrustAnchor != "" ==> Carries(node, "nexa.io/tee-trust-anchor", policy.attestationTrustAnchor))
  }

  /** The admissible nodes in terms of the labels of pod and node, the policy and the clock. */
  lemma AdmitsByLabels(policy: ConfidentialPolicy, pod: Pod, node: LabelMap, now: int, codec: TimeCodec)
    ensures var required := Carries(pod.labels, "nexa.io/confidential", "required");
            Admits(policy, pod, node, now, codec) <==>
            || !policy.enabled
            || !(required || (policy.requireTeeForHigh && Carries(pod.labels, "nexa.io/privacy", "high")))
            || (&& "nexa.io/tee" in node && node["nexa.io/tee"] !in {"", "none"}
                && (policy.requireEncryptedDisk ==> Carries(node, "nexa.io/disk-encrypted", "true"))
                && (required && policy.requireRuntimeClass != "" ==> pod.runtimeClass == Some(policy.requireRuntimeClass))
                && (policy.requireAttestation ==> Vouched(policy, node, now, codec)))
  {
    assert Attested(policy, node, now, codec) <==> Vouched(policy, node, now, codec);
  }

  function RuntimeClass(pod: Pod): string {
    if pod.runtimeClass.Some? then pod.runtimeClass.value else ""
  }

  method Filter(base: Base, codec: TimeCodec, provided: Option<Policy>, pod: Pod, node: LabelMap, now: int)
    returns (verdict: Verdict)
    requires base.pluginName == NAME
    modifies base.metrics`counters
    ensures verdict.Errored? <==> provided.None?
    ensures provided.Some? ==> (verdict.Accepted? <==> Admits(provided.value.confidential, pod, node, now, codec))
    ensures base.metrics.counters ==
            if base.metrics.registered then AddCall(old(base.metrics.counters), "NexaConfidential", verdict)
            else old(base.metrics.counters)
  {
    var got := base.GetPolicyOrFail(provided);
    if got.None? {
      return Errored;
    }
    var policy := got.value.confidential;
    var ok := Checks(policy, codec, pod, node, now);
    if ok {
      base.metrics.RecordFilter(NAME, "accepted");
      verdict := Accepted;
    } else {
      base.metrics.RecordFilter(NAME, "rejected");
      verdict := Rejected;
    }
  }

  /** The chain of checks behind Filter; every early return of false is a rejection. */
  method Checks(policy: ConfidentialPolicy, codec: TimeCodec, pod: Pod, node: LabelMap, now: int) returns (ok: bool)
    ensures ok <==> Admits(policy, pod, node, now, codec)
  {
    if !policy.enabled {
      return true;
    }
    var isConfidentialPod := PodLabel(pod, LABEL_CONFIDENTIAL) == "required";
    var isHighPrivacy := PodLabel(pod, LABEL_PRIVACY) == "high";
    if !(isConfidentialPod || (isHighPrivacy && policy.requireTeeForHigh)) {
      return true;
    }
    var tee := Value(node, LABEL_TEE);
    if tee == "" || tee == "none" {
      return false;
    }
    if policy.requireEncryptedDisk && Value(node, LABEL_DISK_ENCRYPTED) != "true" {
      return false;
    }
    if isConfidentialPod && policy.requireRuntimeClass != "" && RuntimeClass(pod) != policy.requireRuntimeClass {
      return false;
    }
    if policy.requireAttestation {
      if Value(node, LABEL_TEE_ATTESTED) != "true" {
        return false;
      }
      if policy.attestationMaxAgeHours > 0 {
        var stamp := Value(node, LABEL_TEE_TIME);
        if stamp == "" {
          return false;
        }
        var parsed := codec.parse(stamp);
        if parsed.None? || OlderThan(now, parsed.value, policy.attestationMaxAgeHours) {
          return false;
        }
      }
      if policy.attestationTrustAnchor != "" && Value(node, LABEL_TEE_ANCHOR) != policy.attestationTrustAnchor {
        return false;
      }
    }
    return true;
  }

  function Score(policy: ConfidentialPolicy, pod: Pod, node: LabelMap): int {
    if !policy.enabled || !NeedsTee(policy, pod) || !HasTee(node) then 0
    else
      var podType := PodLabel(pod, LABEL_TEE_TYPE);
      var wanted := if podType == "" then policy.defaultTeeType else podType;
      if wanted != "" && Value(node, LABEL_TEE) != wanted then MAX_NODE_SCORE / 2 else MAX_NODE_SCORE
  }

  /** The score in terms of the labels: full marks where any TEE will do or the wanted one is there. */
  lemma ScoreByLabels(policy: ConfidentialPolicy, pod: Pod, node: LabelMap)
    ensures var needs := Carries(pod.labels, "nexa.io/confidential", "required")
                         || (policy.requireTeeForHigh && Carries(pod.labels, "nexa.io/privacy", "high"));
            var scored := policy.enabled && needs && "nexa.io/tee" in node && node["nexa.io/tee"] !in {"", "none"};
            var wanted := if "nexa.io/tee-type" in pod.labels && pod.labels["nexa.io/tee-type"] != ""
                          then pod.labels["nexa.io/tee-type"] else policy.defaultTeeType;
            && (Score(policy, pod, node) == 100 <==> scored && wanted in {"", node["nexa.io/tee"]})
            && (Score(policy, pod, node) == 50 <==> scored && wanted !in {"", node["nexa.io/tee"]})
            && Score(policy, pod, node) in {0, 50, 100}
  {
  }
}
