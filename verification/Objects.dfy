/** Pods, scheduling policies and filter verdicts, as the scheduler plugins and controllers see them. */
module Objects {
  import opened Instants
  import opened Labels
  import opened Rfc3339
  import opened Wrappers

  datatype Phase = Pending | Running | Succeeded | Failed | Unknown

  /** The container list keeps, per container, the finish time of its terminated state, if it has one. */
  datatype Pod = Pod(
    name: string,
    namespace: string,
    nodeName: string,
    labels: LabelMap,
    phase: Phase,
    finishTimes: seq<Option<int>>,
    startTime: Option<int>,
    runtimeClass: Option<string>)

  predicate Terminated(pod: Pod) {
    pod.phase == Succeeded || pod.phase == Failed
  }

  function PodLabel(pod: Pod, key: string): string {
    Value(pod.labels, key)
  }

  function PodLabelOr(pod: Pod, key: string, default: string): string {
    if PodLabel(pod, key) != "" then PodLabel(pod, key) else default
  }

  function Org(pod: Pod): string {
    PodLabel(pod, LABEL_ORG)
  }

  datatype RegionPolicy = RegionPolicy(enabled: bool, defaultRegion: string, defaultZone: string)

  datatype PrivacyPolicy = PrivacyPolicy(
    enabled: bool,
    defaultPrivacy: string,
    strictOrgIsolation: bool,
    cooldownHours: int64)

  datatype ConfidentialPolicy = ConfidentialPolicy(
    enabled: bool,
    requireTeeForHigh: bool,
    requireEncryptedDisk: bool,
    defaultTeeType: string,
    requireRuntimeClass: string,
    requireAttestation: bool,
    attestationMaxAgeHours: int64,
    attestationTrustAnchor: string)

  datatype Policy = Policy(region: RegionPolicy, privacy: PrivacyPolicy, confidential: ConfidentialPolicy)

  datatype Verdict = Accepted | Rejected | Errored

  const MAX_NODE_SCORE := 100

  /** The text is present, parses, and is at most the given number of hours old. */
  predicate Fresh(stamp: string, now: int, hours: int64, codec: TimeCodec) {
    && stamp != ""
    && codec.parse(stamp).Some?
    && !OlderThan(now, codec.parse(stamp).value, hours)
  }

  /** For every limit a Duration can hold, freshness is exact arithmetic on the parsed instant. */
  lemma FreshExactly(stamp: string, now: int, hours: int64, codec: TimeCodec)
    requires 0 < hours <= MAX_HOURS
    ensures Fresh(stamp, now, hours, codec) <==>
            stamp != "" && codec.parse(stamp).Some? && now - codec.parse(stamp).value <= hours * HOUR
  {
    if codec.parse(stamp).Some? {
      FreshnessInRange(now, codec.parse(stamp).value, hours);
    }
  }
}
