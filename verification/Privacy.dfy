/** The NexaPrivacy plugin: clean nodes and organisation isolation. */
module Privacy {
  import opened Instants
  import opened Labels
  import opened Metrics
  import opened Objects
  import opened Rfc3339
  import opened Wrappers

  const NAME := "NexaPrivacy"
  const HIGH := "high"

  datatype Reason = StrictOrg | NodeNotWiped | StaleWipe | CrossOrg

  function ReasonText(reason: Reason): string {
    match reason
    case StrictOrg => "strict_org"
    case NodeNotWiped => "node_not_wiped"
    case StaleWipe => "stale_wipe"
    case CrossOrg => "cross_org"
  }

  datatype Decision = PolicyError | Accept | Deny(reason: Reason)

  /** Everything one Filter call looks at: the policy provider's answer, the pod, the node's labels,
      the pods running on the node, and the clock. */
  datatype Request = Request(policy: Option<Policy>, pod: Pod, node: LabelMap, running: set<Pod>, now: int)

  function Level(policy: PrivacyPolicy, pod: Pod): string {
    PodLabelOr(pod, LABEL_PRIVACY, policy.defaultPrivacy)
  }

  /** The node's history or one of its running pods belongs to another organisation. */
  predicate OrgConflict(org: string, node: LabelMap, running: set<Pod>) {
    || Value(node, LABEL_LAST_ORG) !in {"", org}
    || exists pod :: pod in running && Org(pod) !in {"", org}
  }

  predicate WipeFresh(policy: PrivacyPolicy, node: LabelMap, now: int, codec: TimeCodec) {
    policy.cooldownHours > 0 ==> Fresh(Value(node, LABEL_WIPE_TIMESTAMP), now, policy.cooldownHours, codec)
  }

  /** What the plugin promises, as one condition without an order of checks: an org-labelled pod meets
      no other organisation when isolation is strict or its level is high, and a high-level pod lands
      only on a freshly wiped node. */
  predicate Admits(policy: PrivacyPolicy, pod: Pod, node: LabelMap, running: set<Pod>, now: int, codec: TimeCodec) {
    policy.enabled ==>
      && (Org(pod) != "" && (policy.strictOrgIsolation || Level(policy, pod) == HIGH) ==> !OrgConflict(Org(pod), node, running))
      && (Level(policy, pod) == HIGH ==> Value(node, LABEL_WIPED) == "true" && WipeFresh(policy, node, now, codec))
  }

  function Decide(r: Request, codec: TimeCodec): Decision {
    if r.policy.None? then PolicyError
    else
      var policy := r.policy.value.privacy;
      var conflict := Org(r.pod) != "" && OrgConflict(Org(r.pod), r.node, r.running);
      if !policy.enabled then Accept
      else if policy.strictOrgIsolation && conflict then Deny(StrictOrg)
      else if Level(policy, r.pod) != HIGH then Accept
      else if Value(r.node, LABEL_WIPED) != "true" then Deny(NodeNotWiped)
      else if !WipeFresh(policy, r.node, r.now, codec) then Deny(StaleWipe)
      else if conflict then Deny(CrossOrg)
      else Accept
  }

  /** The chain of checks accepts exactly the admissible placements, and the reason is that of the
      first check that failed; only non-strict policies reach the late organisation checks. */
  lemma DecideIsAdmission(r: Request, codec: TimeCodec)
    requires r.policy.Some?
    ensures var p := r.policy.value.privacy;
            && (Decide(r, codec) == Accept <==> Admits(p, r.pod, r.node, r.running, r.now, codec))
            && (Decide(r, codec) == Deny(StrictOrg) <==>
                p.enabled && p.strictOrgIsolation && Org(r.pod) != "" && OrgConflict(Org(r.pod), r.node, r.running))
            && (Decide(r, codec) == Deny(NodeNotWiped) <==>
                p.enabled && Decide(r, codec) != Deny(StrictOrg) && Level(p, r.pod) == HIGH && Value(r.node, LABEL_WIPED) != "true")
            && (Decide(r, codec) == Deny(StaleWipe) <==>
                p.enabled && Decide(r, codec) != Deny(StrictOrg) && Level(p, r.pod) == HIGH && Value(r.node, LABEL_WIPED) == "true"
                && !WipeFresh(p, r.node, r.now, codec))
            && (Decide(r, codec) == Deny(CrossOrg) <==>
                p.enabled && !p.strictOrgIsolation && Org(r.pod) != "" && OrgConflict(Org(r.pod), r.node, r.running)
                && Level(p, r.pod) == HIGH && Value(r.node, LABEL_WIPED) == "true" && WipeFresh(p, r.node, r.now, codec))
  {
  }

  /** The privacy level is the pod's own label if it has one, and only otherwise the policy's default:
      a pod without the label is treated as one that carries the default. */
  lemma OwnLevelFirst(policy: PrivacyPolicy, pod: Pod)
    ensures "nexa.io/privacy" in pod.labels && pod.labels["nexa.io/privacy"] != "" ==>
              Level(policy, pod) == pod.labels["nexa.io/privacy"]
    ensures ("nexa.io/privacy" in pod.labels ==> pod.labels["nexa.io/privacy"] == "") ==>
              Level(policy, pod) == policy.defaultPrivacy
              && Level(policy, Labelled(pod, policy.defaultPrivacy)) == policy.defaultPrivacy
  {
  }

  function Labelled(pod: Pod, level: string): Pod {
    pod.(labels := pod.labels["nexa.io/privacy" := level])
  }

  /** What a pod that insists on privacy can rely on, read off the labels themselves. */
  ghost predicate Clean(policy: PrivacyPolicy, node: LabelMap, now: int, codec: TimeCodec) {
    && Carries(node, "nexa.io/wiped", "true")
    && (policy.cooldownHours > 0 ==>
          && "nexa.io/wipe-timestamp" in node && node["nexa.io/wipe-timestamp"] != ""
          && var wiped := codec.parse(node["nexa.io/wipe-timestamp"]);
             wiped.Some? && !OlderThan(now, wiped.value, policy.cooldownHours))
  }

  /** Neither the node's history nor a running pod names an organisation other than the given one. */
  ghost predicate Friendly(org: string, node: LabelMap, running: set<Pod>) {
    && ("nexa.io/last-workload-org" in node ==> node["nexa.io/last-workload-org"] in {"", org})
    && forall other :: other in running && "nexa.io/org" in other.labels ==> other.labels["nexa.io/org"] in {"", org}
  }

  /** The admissible placements in terms of the labels of pod and node, the policy and the clock. */
  lemma AdmitsByLabels(policy: PrivacyPolicy, pod: Pod, node: LabelMap, running: set<Pod>, now: int, codec: TimeCodec)
    ensures var own := if "nexa.io/privacy" in pod.labels then pod.labels["nexa.io/privacy"] else "";
            var org := if "nexa.io/org" in pod.labels then pod.labels["nexa.io/org"] else "";
            var high := own == "high" || (own == "" && policy.defaultPrivacy == "high");
            Admits(policy, pod, node, running, now, codec) <==>
            || !policy.enabled
            || (&& (high ==> Clean(policy, node, now, codec))
                && (org != "" && (high || policy.strictOrgIsolation) ==> Friendly(org, node, running)))
  {
    OwnLevelFirst(policy, pod);
    assert Value(node, LABEL_WIPED) == "true" && WipeFresh(policy, node, now, codec) <==> Clean(policy, node, now, codec);
    assert !OrgConflict(Org(pod), node, running) <==> Friendly(Org(pod), node, running);
  }

  /** What one call adds to the counters. */
  function AddDecision(c: Counters, decision: Decision): Counters {
    match decision
    case PolicyError => AddCall(c, NAME, Errored)
    case Accept => AddCall(c, NAME, Accepted)
    case Deny(reason) => AddCall(AddViolation(c, ReasonText(reason)), NAME, Rejected)
  }

  class Plugin {
    const base: Base
    const codec: TimeCodec

    constructor (metrics: Registry, codec: TimeCodec)
      ensures base.pluginName == NAME && base.metrics == metrics && this.codec == codec
    {
      base := new Base(NAME, metrics);
      this.codec := codec;
    }

    method Deny(reason: Reason) returns (decision: Decision)
      modifies base.metrics`counters
      ensures decision == Decision.Deny(reason)
      ensures base.metrics.counters ==
              if base.metrics.registered
              then AddFilter(AddViolation(old(base.metrics.counters), ReasonText(reason)), NAME, "rejected")
              else old(base.metrics.counters)
    {
      base.metrics.RecordViolation(ReasonText(reason));
      base.metrics.RecordFilter(NAME, "rejected");
      decision := Decision.Deny(reason);
    }

    method Accepts() returns (decision: Decision)
      modifies base.metrics`counters
      ensures decision == Accept
      ensures base.metrics.counters ==
              if base.metrics.registered then AddFilter(old(base.metrics.counters), NAME, "accepted")
              else old(base.metrics.counters)
    {
      base.metrics.RecordFilter(NAME, "accepted");
      decision := Accept;
    }

    /** The scan over the node's pods that both organisation checks run. */
    method ForeignPod(org: string, running: seq<Pod>) returns (found: bool)
      ensures found <==> exists pod :: pod in running && Org(pod) !in {"", org}
    {
      for i := 0 to |running|
        invariant forall j :: 0 <= j < i ==> Org(running[j]) in {"", org}
      {
        if Org(running[i]) != "" && Org(running[i]) != org {
          return true;
        }
      }
      return false;
    }

    /** Cleanliness: the wipe mark and, under a cooldown, the age of the wipe. */
    method CheckWipe(policy: PrivacyPolicy, node: LabelMap, now: int) returns (failed: Option<Reason>)
      ensures failed == if Value(node, LABEL_WIPED) != "true" then Some(NodeNotWiped)
                        else if !WipeFresh(policy, node, now, codec) then Some(StaleWipe) else None
    {
      if Value(node, LABEL_WIPED) != "true" {
        return Some(NodeNotWiped);
      }
      if policy.cooldownHours > 0 {
        var stamp := Value(node, LABEL_WIPE_TIMESTAMP);
        if stamp == "" {
          return Some(StaleWipe);
        }
        var parsed := codec.parse(stamp);
        if parsed.None? || OlderThan(now, parsed.value, policy.cooldownHours) {
          return Some(StaleWipe);
        }
      }
      return None;
    }

    /** The organisation checks: the node's history first, then its pods. */
    method MeetsOtherOrg(podOrg: string, node: LabelMap, running: seq<Pod>) returns (conflict: bool)
      requires podOrg != ""
      ensures conflict <==> OrgConflict(podOrg, node, set p | p in running)
    {
      var lastOrg := Value(node, LABEL_LAST_ORG);
      if lastOrg != "" && lastOrg != podOrg {
        return true;
      }
      conflict := ForeignPod(podOrg, running);
    }

    method Filter(provided: Option<Policy>, pod: Pod, node: LabelMap, running: seq<Pod>, now: int)
      returns (decision: Decision)
      requires base.pluginName == NAME
      modifies base.metrics`counters
      ensures decision == Decide(Request(provided, pod, node, (set p | p in running), now), codec)
      ensures decision == PolicyError <==> provided.None?
      ensures provided.Some? && provided.value.privacy.enabled && decision == Accept
              && Carries(pod.labels, "nexa.io/privacy", "high")
              ==> Carries(node, "nexa.io/wiped", "true")
      ensures provided.Some? && !provided.value.privacy.strictOrgIsolation
              && "nexa.io/privacy" in pod.labels && pod.labels["nexa.io/privacy"] !in {"", "high"}
              ==> decision == Accept
      ensures provided.Some? && "nexa.io/privacy" !in pod.labels
              ==> decision == Decide(Request(provided, Labelled(pod, provided.value.privacy.defaultPrivacy), node,
                                             (set p | p in running), now), codec)
      ensures base.metrics.counters ==
              if base.metrics.registered then AddDecision(old(base.metrics.counters), decision)
              else old(base.metrics.counters)
    {
      var got := base.GetPolicyOrFail(provided);
      if got.None? {
        return PolicyError;
      }
      var policy := got.value.privacy;
      if !policy.enabled {
        decision := Accepts();
        return;
      }
      var level, podOrg := PodLabelOr(pod, LABEL_PRIVACY, policy.defaultPrivacy), Org(pod);
      if policy.strictOrgIsolation && podOrg != "" {
        var conflict := MeetsOtherOrg(podOrg, node, running);
        if conflict {
          decision := Deny(StrictOrg);
          return;
        }
      }
      if level != HIGH {
        decision := Accepts();
        return;
      }
      var failed := CheckWipe(policy, node, now);
      if failed.Some? {
        decision := Deny(failed.value);
        return;
      }
      if podOrg == "" {
        decision := Accepts();
        return;
      }
      var conflict := MeetsOtherOrg(podOrg, node, running);
      if conflict {
        decision := Deny(CrossOrg);
        return;
      }
      decision := Accepts();
    }
  }

  function Score(policy: PrivacyPolicy, pod: Pod, node: LabelMap): int {
    if !policy.enabled || Level(policy, pod) != HIGH then 0
    else if Value(node, LABEL_WIPED) == "true" then MAX_NODE_SCORE
    else if Org(pod) != "" && Value(node, LABEL_LAST_ORG) in {"", Org(pod)} then MAX_NODE_SCORE / 2
    else 0
  }

  /** The score in terms of the labels: only pods that insist on privacy are scored, by whether the node
      is wiped and, if not, whether its history is their own. */
  lemma ScoreByLabels(policy: PrivacyPolicy, pod: Pod, node: LabelMap)
    ensures var own := if "nexa.io/privacy" in pod.labels then pod.labels["nexa.io/privacy"] else "";
            var org := if "nexa.io/org" in pod.labels then pod.labels["nexa.io/org"] else "";
            var high := policy.enabled && (own == "high" || (own == "" && policy.defaultPrivacy == "high"));
            var wiped := Carries(node, "nexa.io/wiped", "true");
            && (Score(policy, pod, node) == 100 <==> high && wiped)
            && (Score(policy, pod, node) == 50 <==>
                && high && !wiped && org != ""
                && ("nexa.io/last-workload-org" in node ==> node["nexa.io/last-workload-org"] in {"", org}))
            && Score(policy, pod, node) in {0, 50, 100}
  {
  }

  // ---- Counters over any history of Filter calls ---------------------------------------

  function AddCalls(c: Counters, calls: seq<Request>, codec: TimeCodec): Counters {
    if calls == [] then c
    else
      var last := |calls| - 1;
      AddDecision(AddCalls(c, calls[..last], codec), Decide(calls[last], codec))
  }

  function Filtered(c: Counters, result: string): nat { Count(c.filters, (NAME, result)) }

  function Evaluated(c: Counters, result: string): nat { Count(c.evaluations, (NAME, result)) }

  function Violated(c: Counters, reason: Reason): nat { Count(c.violations, ReasonText(reason)) }

  function AllViolations(c: Counters): nat {
    Violated(c, StrictOrg) + Violated(c, NodeNotWiped) + Violated(c, StaleWipe) + Violated(c, CrossOrg)
  }

  /** The books balance: every call ends in one result, every successful policy read in an acceptance
      or a rejection, and every rejection has exactly one reason. */
  ghost predicate Balanced(c: Counters, calls: nat) {
    && Filtered(c, "accepted") + Filtered(c, "rejected") + Filtered(c, "error") == calls
    && Evaluated(c, "success") == Filtered(c, "accepted") + Filtered(c, "rejected")
    && Evaluated(c, "error") == Filtered(c, "error")
    && AllViolations(c) == Filtered(c, "rejected")
  }

  lemma AddCallCounts(c: Counters, verdict: Verdict)
    ensures var d := AddCall(c, NAME, verdict);
            && Filtered(d, "accepted") == Filtered(c, "accepted") + (if verdict.Accepted? then 1 else 0)
            && Filtered(d, "rejected") == Filtered(c, "rejected") + (if verdict.Rejected? then 1 else 0)
            && Filtered(d, "error") == Filtered(c, "error") + (if verdict.Errored? then 1 else 0)
            && Evaluated(d, "success") == Evaluated(c, "success") + (if verdict.Errored? then 0 else 1)
            && Evaluated(d, "error") == Evaluated(c, "error") + (if verdict.Errored? then 1 else 0)
            && d.violations == c.violations
  {
  }

  lemma AddViolationCounts(c: Counters, reason: Reason)
    ensures var d := AddViolation(c, ReasonText(reason));
            && (forall r: Reason :: Violated(d, r) == Violated(c, r) + if r == reason then 1 else 0)
            && d.filters == c.filters && d.evaluations == c.evaluations
  {
  }

  /** Which counters a call moves, by their names. */
  lemma DecisionCounted(c: Counters, decision: Decision)
    ensures var d := AddDecision(c, decision);
            var result := if decision.PolicyError? then "error" else if decision.Accept? then "accepted" else "rejected";
            && d.filters == c.filters[("NexaPrivacy", result) := Count(c.filters, ("NexaPrivacy", result)) + 1]
            && var evaluation := ("NexaPrivacy", if decision.PolicyError? then "error" else "success");
            && d.evaluations == c.evaluations[evaluation := Count(c.evaluations, evaluation) + 1]
            && (decision.Deny? ==>
                  var reason := match decision.reason
                                case StrictOrg => "strict_org" case NodeNotWiped => "node_not_wiped"
                                case StaleWipe => "stale_wipe" case CrossOrg => "cross_org";
                  d.violations == c.violations[reason := Count(c.violations, reason) + 1])
            && (!decision.Deny? ==> d.violations == c.violations)
  {
  }

  lemma AddDecisionBalanced(c: Counters, decision: Decision, calls: nat)
    requires Balanced(c, calls)
    ensures Balanced(AddDecision(c, decision), calls + 1)
    ensures Violated(AddDecision(c, decision), CrossOrg) ==
            Violated(c, CrossOrg) + if decision == Deny(CrossOrg) then 1 else 0
  {
    match decision {
      case PolicyError => AddCallCounts(c, Errored);
      case Accept => AddCallCounts(c, Accepted);
      case Deny(reason) =>
        AddViolationCounts(c, reason);
        AddCallCounts(AddViolation(c, ReasonText(reason)), Rejected);
    }
  }

  predicate NonStrict(call: Request) {
    call.policy.Some? && call.policy.value.privacy.enabled && !call.policy.value.privacy.strictOrgIsolation
  }

  function NonStrictCalls(calls: seq<Request>): nat {
    if calls == [] then 0
    else NonStrictCalls(calls[..|calls| - 1]) + if NonStrict(calls[|calls| - 1]) then 1 else 0
  }

  /** Counter conservation over every sequence of calls, from any books that balance, such as those at
      registration; the cross-org counter never falls, and grows by at most the calls made without
      strict isolation, because under it the late organisation checks cannot fire. */
  lemma {:induction false} CountersBalance(start: Counters, earlier: nat, calls: seq<Request>, codec: TimeCodec)
    requires Balanced(start, earlier)
    ensures Balanced(ZERO, 0)
    ensures var c := AddCalls(start, calls, codec);
            && Balanced(c, earlier + |calls|)
            && Violated(start, CrossOrg) <= Violated(c, CrossOrg) <= Violated(start, CrossOrg) + NonStrictCalls(calls)
  {
    if calls != [] {
      var last := |calls| - 1;
      CountersBalance(start, earlier, calls[..last], codec);
      AddDecisionBalanced(AddCalls(start, calls[..last], codec), Decide(calls[last], codec), earlier + last);
    }
  }

  lemma {:induction false} NonStrictCallsCount(calls: seq<Request>)
    ensures NonStrictCalls(calls) == 0 <==> forall call :: call in calls ==> !NonStrict(call)
  {
    if calls != [] {
      var last := |calls| - 1;
      NonStrictCallsCount(calls[..last]);
      assert calls == calls[..last] + [calls[last]];
    }
  }
}
