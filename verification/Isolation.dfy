/**
 Organisation isolation over whole runs, when bindings go through the privacy Filter and the Filter
 looks at organisations: organisations never share a node, and a node keeps its organisation for good.
 */
module Isolation {
  import opened Agreement
  import opened Cluster
  import opened Controller
  import opened Labels
  import opened NodeState
  import opened Objects
  import opened Rfc3339
  import opened WorkQueue
  import opened Wrappers
  import Privacy

  /** At most one organisation has running pods on the node. */
  ghost predicate CoResident(pods: map<string, Pod>, node: string) {
    forall p, q :: p in RunningOn(pods, node) && q in RunningOn(pods, node) && Org(p) != "" && Org(q) != ""
                   ==> Org(p) == Org(q)
  }

  /** No other pod running on the node belongs to an organisation other than the given one. */
  predicate Apart(pods: map<string, Pod>, id: string, org: string, node: string) {
    org != "" ==> forall other :: other in pods && other != id && Runs(pods[other], node) ==> Org(pods[other]) in {"", org}
  }

  /** Placing a pod on the node, or giving it other labels there, keeps the node to one organisation
      exactly when the pod ends up unlabelled or no other running pod belongs to another organisation. */
  lemma PlacingCoResidency(pods: map<string, Pod>, id: string, after: Pod, node: string)
    requires Runs(after, node) && CoResident(pods, node)
    ensures CoResident(pods[id := after], node) <==> Apart(pods, id, Org(after), node)
  {
    var now := pods[id := after];
    assert now[id] in RunningOn(now, node);
    forall other | other in pods && other != id && Runs(pods[other], node)
      ensures pods[other] in RunningOn(now, node) && pods[other] in RunningOn(pods, node)
    {
      assert now[other] == pods[other];
    }
  }

  /** The event lets no two organisations meet on the node. */
  predicate KeepsApart(s: State, e: PodEvent, node: string) {
    match e
    case Bind(id, n, _) => id in s.pods && n == node ==> Apart(s.pods, id, Org(s.pods[id]), node)
    case BindElsewhere(id, n) => id in s.pods && n == node ==> Apart(s.pods, id, Org(s.pods[id]), node)
    case Edit(id, labels) => id in s.pods && Runs(s.pods[id], node) ==> Apart(s.pods, id, Value(labels, LABEL_ORG), node)
    case _ => true
  }

  lemma FewerRunning(a: map<string, Pod>, b: map<string, Pod>, node: string)
    requires CoResident(a, node)
    requires forall id :: id in b && Runs(b[id], node) ==> id in a && Runs(a[id], node) && Org(b[id]) == Org(a[id])
    ensures CoResident(b, node)
  {
  }

  /** Whoever takes the step, from a node kept to one organisation: it stays so if and only if the
      step keeps organisations apart. */
  lemma StepCoResidency(setup: Setup, s: State, e: PodEvent, node: string)
    requires PodEnabled(setup, s, e) && node != "" && CoResident(s.pods, node)
    ensures CoResident(ApplyPod(setup, s, e).pods, node) <==> KeepsApart(s, e, node)
  {
    var t := ApplyPod(setup, s, e);
    var id := e.id;
    if id in t.pods && Runs(t.pods[id], node) && !e.Report? && !e.Create? {
      PlacingCoResidency(s.pods, id, t.pods[id], node);
    } else {
      FewerRunning(s.pods, t.pods, node);
    }
  }

  /** What a caller can check: the Nexa scheduler binds only unlabelled pods, or it has the Filter look
      at the node's organisations, because the policy is strict or the pod's level is high; and nobody
      else binds or labels a pod where another organisation runs. */
  predicate Shielded(s: State, e: PodEvent, node: string) {
    match e
    case Bind(id, n, policy) => id in s.pods && n == node ==> ChecksOrg(policy.privacy, s.pods[id])
    case _ => KeepsApart(s, e, node)
  }

  predicate ChecksOrg(policy: PrivacyPolicy, pod: Pod) {
    Org(pod) == "" || (policy.enabled && (policy.strictOrgIsolation || Privacy.Level(policy, pod) == Privacy.HIGH))
  }

  lemma ShieldedKeepsApart(plugins: set<string>, codec: TimeCodec, s: State, e: PodEvent, node: string)
    requires PodEnabled(Nexa(plugins, codec), s, e) && Privacy.NAME in plugins && Shielded(s, e, node)
    ensures KeepsApart(s, e, node)
  {
  }

  ghost predicate ShieldedRun(setup: Setup, s: State, events: seq<Event>, node: string)
    requires Legal(setup, s, events)
    decreases |events|
  {
    events != [] ==>
      && (events[0].PodStep? ==> Shielded(s, events[0].p, node))
      && ShieldedRun(setup, Apply(setup, s, events[0]), events[1..], node)
  }

  lemma StepCoResident(plugins: set<string>, codec: TimeCodec, s: State, e: Event, node: string)
    requires Enabled(Nexa(plugins, codec), Ticked(s), e) && Privacy.NAME in plugins
    requires e.PodStep? ==> Shielded(s, e.p, node)
    requires node != "" && CoResident(s.pods, node)
    ensures CoResident(Apply(Nexa(plugins, codec), s, e).pods, node)
  {
    if e.PodStep? {
      assert Shielded(Ticked(s), e.p, node);
      ShieldedKeepsApart(plugins, codec, Ticked(s), e.p, node);
      StepCoResidency(Nexa(plugins, codec), Ticked(s), e.p, node);
    }
  }

  /** Co-residency over every run, by induction over its events. */
  lemma {:induction false} OrganisationsNeverShareANode(plugins: set<string>, codec: TimeCodec, s: State,
                                                        events: seq<Event>, node: string)
    requires Privacy.NAME in plugins && Legal(Nexa(plugins, codec), s, events)
    requires ShieldedRun(Nexa(plugins, codec), s, events, node)
    requires node != "" && CoResident(s.pods, node)
    ensures CoResident(After(Nexa(plugins, codec), s, events).pods, node)
    decreases |events|
  {
    if events != [] {
      StepCoResident(plugins, codec, s, events[0], node);
      OrganisationsNeverShareANode(plugins, codec, Apply(Nexa(plugins, codec), s, events[0]), events[1..], node);
    }
  }

  /** Without strict isolation it fails: the Filter lets every pod below the high level join any node,
      so a standard pod of one organisation can join another's high-privacy pod. */
  lemma NonStrictAdmitsAnyStandardPod(policy: PrivacyPolicy, pod: Pod, node: LabelMap, running: set<Pod>,
                                      now: int, codec: TimeCodec)
    requires policy.enabled
    ensures !policy.strictOrgIsolation && Privacy.Level(policy, pod) != Privacy.HIGH ==>
              Privacy.Admits(policy, pod, node, running, now, codec)
    ensures policy.strictOrgIsolation || Privacy.Level(policy, pod) == Privacy.HIGH ==>
              Privacy.Admits(policy, pod, node, running, now, codec) ==>
                Org(pod) == "" || forall other :: other in running ==> Org(other) in {"", Org(pod)}
  {
  }

  /** Looking at organisations is exactly what the Filter needs for a promise about them: it accepts the
      pod only where no other organisation runs if and only if the policy is strict, the pod's level is
      high, or the pod has no organisation; otherwise it accepts it next to any pod, on any node. */
  lemma ChecksOrgExactly(policy: PrivacyPolicy, pod: Pod, foreign: Pod, codec: TimeCodec)
    requires Org(foreign) !in {"", Org(pod)}
    ensures ChecksOrg(policy, pod) <==>
            forall node: LabelMap, running: set<Pod>, now: int :: Privacy.Admits(policy, pod, node, running, now, codec) ==>
              Org(pod) == "" || forall other :: other in running ==> Org(other) in {"", Org(pod)}
  {
    if !ChecksOrg(policy, pod) {
      assert Privacy.Admits(policy, pod, map[], {foreign}, 0, codec) && foreign in {foreign};
    }
  }

  const LOOSE := Policy(RegionPolicy(false, "", ""), PrivacyPolicy(true, "", false, 0),
                        ConfidentialPolicy(false, false, false, "", "", false, 0, ""))
  const HIGH_ALPHA := Pod("a", "ns", "", map[LABEL_ORG := "alpha", LABEL_PRIVACY := "high"], Phase.Pending, [], None, None)
  const PLAIN_BETA := Pod("b", "ns", "", map[LABEL_ORG := "beta"], Phase.Pending, [], None, None)

  function WipedNode(pods: map<string, Pod>, tick: nat): State {
    State(map["n" := map[LABEL_WIPED := "true"]], pods, [], EMPTY, map[], None, 0, History(tick, map[], [], {}, map[], map[]))
  }

  lemma LooseBinding(codec: TimeCodec, pods: map<string, Pod>, tick: nat, id: string)
    requires id in pods && pods[id].nodeName == "" && !Terminated(pods[id])
    requires Privacy.Admits(LOOSE.privacy, pods[id], map[LABEL_WIPED := "true"], RunningOn(pods, "n"), 0, codec)
    ensures var setup, s, e := Nexa({Privacy.NAME}, codec), WipedNode(pods, tick), PodStep(Bind(id, "n", LOOSE));
            Enabled(setup, Ticked(s), e) && Apply(setup, s, e) == WipedNode(pods[id := pods[id].(nodeName := "n")], tick + 1)
  {
  }

  lemma LooseFilterAccepts(codec: TimeCodec, start: map<string, Pod>, next: map<string, Pod>)
    requires start == map["a" := HIGH_ALPHA, "b" := PLAIN_BETA]
    ensures RunningOn(start, "n") == {}
    ensures Privacy.Admits(LOOSE.privacy, HIGH_ALPHA, map[LABEL_WIPED := "true"], {}, 0, codec)
    ensures Privacy.Admits(LOOSE.privacy, PLAIN_BETA, map[LABEL_WIPED := "true"], RunningOn(next, "n"), 0, codec)
  {
  }

  lemma BothPlaced()
    ensures !CoResident(map["a" := HIGH_ALPHA.(nodeName := "n"), "b" := PLAIN_BETA.(nodeName := "n")], "n")
  {
    var pods := map["a" := HIGH_ALPHA.(nodeName := "n"), "b" := PLAIN_BETA.(nodeName := "n")];
    assert pods["a"] in RunningOn(pods, "n") && pods["b"] in RunningOn(pods, "n");
    assert Org(pods["a"]) == "alpha" && Org(pods["b"]) == "beta";
  }

  /** A run of two bindings that a non-strict policy admits and that mixes organisations: alpha's
      high-privacy pod goes to an empty wiped node, and beta's standard pod follows it there. */
  lemma NonStrictMixes(codec: TimeCodec)
    ensures var setup, s := Nexa({Privacy.NAME}, codec), WipedNode(map["a" := HIGH_ALPHA, "b" := PLAIN_BETA], 0);
            var events := [PodStep(Bind("a", "n", LOOSE))] + ([PodStep(Bind("b", "n", LOOSE))] + []);
            && RunningOn(s.pods, "n") == {} && Legal(setup, s, events) && !CoResident(After(setup, s, events).pods, "n")
  {
    var setup := Nexa({Privacy.NAME}, codec);
    var start := map["a" := HIGH_ALPHA, "b" := PLAIN_BETA];
    var next := start["a" := HIGH_ALPHA.(nodeName := "n")];
    var e := PodStep(Bind("b", "n", LOOSE));
    LooseFilterAccepts(codec, start, next);
    LooseBinding(codec, start, 0, "a");
    LooseBinding(codec, next, 1, "b");
    BothPlaced();
    assert next["b" := PLAIN_BETA.(nodeName := "n")] ==
           map["a" := HIGH_ALPHA.(nodeName := "n"), "b" := PLAIN_BETA.(nodeName := "n")];
    OneMore(setup, WipedNode(next, 1), e, []);
    OneMore(setup, WipedNode(start, 0), PodStep(Bind("a", "n", LOOSE)), [e] + []);
  }

  // ---- A node keeps its organisation -----------------------------------------------------

  /** The node's history and every pod listed on it, running or finished, belong to the organisation,
      and so does all that a worker has read about it. */
  ghost predicate BelongsTo(s: State, node: string, org: string) {
    && org != "" && node in s.nodes && Value(s.nodes[node], LABEL_LAST_ORG) == org
    && (forall id :: id in s.pods && s.pods[id].nodeName == node ==> Org(s.pods[id]) in {"", org})
    && (node in s.work ==>
          match s.work[node]
          case Claimed => true
          case NodeRead(labels) => Value(labels, LABEL_LAST_ORG) == org
          case PodsListed(labels, listing) =>
            Value(labels, LABEL_LAST_ORG) == org && forall pod :: pod in FinishedIn(listing, node) ==> Org(pod) == org)
  }

  /** Nobody brings another organisation to the node past the Filter: its own bindings are of unlabelled
      pods or have the Filter look at the organisations, others bind or label pods for this one only. */
  predicate Loyal(s: State, e: PodEvent, node: string, org: string) {
    match e
    case Bind(id, n, policy) => id in s.pods && n == node ==> ChecksOrg(policy.privacy, s.pods[id])
    case BindElsewhere(id, n) => id in s.pods && n == node ==> Org(s.pods[id]) in {"", org}
    case Edit(id, labels) => id in s.pods && s.pods[id].nodeName == node ==> Value(labels, LABEL_ORG) in {"", org}
    case _ => true
  }

  ghost predicate LoyalRun(setup: Setup, s: State, events: seq<Event>, node: string, org: string)
    requires Legal(setup, s, events)
    decreases |events|
  {
    events != [] ==>
      && (events[0].PodStep? ==> Loyal(s, events[0].p, node, org))
      && LoyalRun(setup, Apply(setup, s, events[0]), events[1..], node, org)
  }

  lemma PodStepBelongs(plugins: set<string>, codec: TimeCodec, s: State, e: PodEvent, node: string, org: string)
    requires PodEnabled(Nexa(plugins, codec), s, e) && Privacy.NAME in plugins && Loyal(s, e, node, org)
    requires node != "" && BelongsTo(s, node, org)
    ensures BelongsTo(ApplyPod(Nexa(plugins, codec), s, e), node, org)
  {
  }

  lemma PatchBelongs(s: State, key: string, reply: Reply, node: string, org: string)
    requires WorkEnabled(s, SendPatch(key, reply)) && BelongsTo(s, node, org)
    ensures BelongsTo(ApplyWork(s, SendPatch(key, reply)), node, org)
  {
    if key == node {
      var stage := s.work[node];
      PatchEffect(stage.labels, s.nodes[node], stage.listing, node);
      var patch := ReconcilePatch(stage.labels, stage.listing, node);
      var nodes := RoundNodes(RoundOf(node, stage, reply), s.nodes, node);
      assert nodes[node] in {s.nodes[node], Merge(s.nodes[node], patch)};
    }
  }

  lemma ListBelongs(s: State, key: string, listing: seq<Pod>, node: string, org: string)
    requires WorkEnabled(s, ListPods(key, listing)) && BelongsTo(s, node, org)
    ensures BelongsTo(ApplyWork(s, ListPods(key, listing)), node, org)
  {
  }

  lemma WorkStepBelongs(s: State, e: WorkEvent, node: string, org: string)
    requires WorkEnabled(s, e) && BelongsTo(s, node, org)
    ensures BelongsTo(ApplyWork(s, e), node, org)
  {
    match e {
      case SendPatch(key, reply) => PatchBelongs(s, key, reply, node, org);
      case ListPods(key, listing) => ListBelongs(s, key, listing, node, org);
      case _ =>
    }
  }

  lemma StepBelongs(plugins: set<string>, codec: TimeCodec, s: State, e: Event, node: string, org: string)
    requires Enabled(Nexa(plugins, codec), Ticked(s), e) && Privacy.NAME in plugins
    requires e.PodStep? ==> Loyal(s, e.p, node, org)
    requires node != "" && BelongsTo(s, node, org)
    ensures BelongsTo(Apply(Nexa(plugins, codec), s, e), node, org)
  {
    var t := Ticked(s);
    assert BelongsTo(t, node, org);
    match e {
      case PodStep(p) => PodStepBelongs(plugins, codec, t, p, node, org);
      case NodeStep(n) => NodeStepKeepsOrg(Nexa(plugins, codec), t, n, node);
      case WorkStep(w) => WorkStepBelongs(t, w, node, org);
    }
  }

  /** A node that belongs to one organisation does so for ever: binding, finishing, deleting,
      reconciling and wiping included. */
  lemma {:induction false} OrganisationIsSticky(plugins: set<string>, codec: TimeCodec, s: State,
                                                events: seq<Event>, node: string, org: string)
    requires Privacy.NAME in plugins && Legal(Nexa(plugins, codec), s, events)
    requires LoyalRun(Nexa(plugins, codec), s, events, node, org)
    requires node != "" && BelongsTo(s, node, org)
    ensures BelongsTo(After(Nexa(plugins, codec), s, events), node, org)
    decreases |events|
  {
    if events != [] {
      StepBelongs(plugins, codec, s, events[0], node, org);
      OrganisationIsSticky(plugins, codec, Apply(Nexa(plugins, codec), s, events[0]), events[1..], node, org);
    }
  }

  /** Even under a non-strict policy a wipe alone does not open a node to another organisation's
      high-privacy pods: on a freshly wiped node without running pods such a pod is admitted exactly
      when the last-workload-org label is absent, empty, or its own. */
  lemma WipeDoesNotChangeOrganisation(policy: PrivacyPolicy, pod: Pod, node: LabelMap, stamp: string, now: int, codec: TimeCodec)
    requires policy.enabled && Privacy.Level(policy, pod) == Privacy.HIGH && Org(pod) != ""
    requires policy.cooldownHours > 0 ==> Fresh(stamp, now, policy.cooldownHours, codec)
    ensures Privacy.Admits(policy, pod, Merge(node, WipePatch(stamp)), {}, now, codec) <==>
            Value(node, LABEL_LAST_ORG) in {"", Org(pod)}
  {
  }

  /** Half marks in scoring go exactly to the org-labelled high-privacy pods on nodes that a wipe would
      open to them, as far as the node's labels go. */
  lemma HalfMarksMeanWipeOpens(policy: PrivacyPolicy, pod: Pod, node: LabelMap, stamp: string, now: int, codec: TimeCodec)
    requires policy.enabled && (policy.cooldownHours > 0 ==> Fresh(stamp, now, policy.cooldownHours, codec))
    ensures Privacy.Score(policy, pod, node) == MAX_NODE_SCORE / 2 <==>
            && Privacy.Level(policy, pod) == Privacy.HIGH && Org(pod) != "" && Value(node, LABEL_WIPED) != "true"
            && Privacy.Admits(policy, pod, Merge(node, WipePatch(stamp)), {}, now, codec)
  {
    if Privacy.Level(policy, pod) == Privacy.HIGH && Org(pod) != "" {
      WipeDoesNotChangeOrganisation(policy, pod, node, stamp, now, codec);
    }
  }
}
