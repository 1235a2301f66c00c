/**
 The last-workload-org label against the pod list: in every reachable state a node is still on its
 way through the controller, was dropped after its last retry, or carries the org of a workload that
 finished last on it.
 */
module Agreement {
  import opened Cluster
  import opened Controller
  import opened Labels
  import opened NodeState
  import opened Objects
  import opened WorkQueue

  ghost predicate Noticed(s: State, node: string) {
    exists i :: 0 <= i < |s.notices| && Target(s.notices[i]) == node
  }

  /** Queued, being processed, waiting for a retry, or on its way from the informer. */
  ghost predicate Unsettled(s: State, node: string) {
    node in s.queue.dirty || node in s.queue.processing || node in s.queue.waiting || Noticed(s, node)
  }

  /** Something happened to the node that no worker has picked up yet. */
  ghost predicate Unseen(s: State, node: string) {
    node in s.queue.dirty || Noticed(s, node)
  }

  ghost function FinishedOn(pods: map<string, Pod>, node: string): set<Pod> {
    set id | id in pods && Finished(pods[id], node) :: pods[id]
  }

  ghost predicate Agrees(s: State, node: string)
    requires node in s.nodes
  {
    FinishedOn(s.pods, node) != {} ==>
      exists pod :: Latest(pod, FinishedOn(s.pods, node)) && Value(s.nodes[node], LABEL_LAST_ORG) == Org(pod)
  }

  /** What a worker holds is current: the org label always, the pod list unless the node was touched. */
  ghost predicate InFlight(s: State, node: string)
    requires node in s.nodes
  {
    node in s.work ==>
      match s.work[node]
      case Claimed => true
      case NodeRead(labels) => Value(labels, LABEL_LAST_ORG) == Value(s.nodes[node], LABEL_LAST_ORG)
      case PodsListed(labels, listing) =>
        && Value(labels, LABEL_LAST_ORG) == Value(s.nodes[node], LABEL_LAST_ORG)
        && (Unseen(s, node) || FinishedIn(listing, node) == FinishedOn(s.pods, node))
  }

  ghost predicate QueuedOrAgrees(s: State, node: string)
    requires node in s.nodes
  {
    Unsettled(s, node) || node in s.history.dropped || Agrees(s, node)
  }

  ghost predicate Invariant(s: State, node: string) {
    node in s.nodes ==> InFlight(s, node) && QueuedOrAgrees(s, node)
  }

  // ---- Steps ---------------------------------------------------------------------------

  /** A change of pods either leaves the node's finished pods alone or sends a notice for the node. */
  lemma PodStepNoticed(setup: Setup, s: State, e: PodEvent, node: string)
    requires PodEnabled(setup, s, e) && node != ""
    ensures var t := ApplyPod(setup, s, e);
            && (Noticed(s, node) ==> Noticed(t, node))
            && (Noticed(t, node) || FinishedOn(t.pods, node) == FinishedOn(s.pods, node))
            && t.nodes == s.nodes && t.queue == s.queue && t.work == s.work && t.history.dropped == s.history.dropped
  {
    var t := ApplyPod(setup, s, e);
    assert forall i :: 0 <= i < |s.notices| ==> t.notices[i] == s.notices[i];
    match e {
      case Create(id, pod) => SamePods(s.pods, t.pods, id, node);
      case Bind(id, _, _) => SamePods(s.pods, t.pods, id, node);
      case BindElsewhere(id, _) => SamePods(s.pods, t.pods, id, node);
      case Edit(id, _) => SamePods(s.pods, t.pods, id, node);
      case Report(id, _, _, _) =>
        assert t.notices[|s.notices|] == Updated(s.pods[id], t.pods[id]);
        if !Finished(t.pods[id], node) {
          SamePods(s.pods, t.pods, id, node);
        }
      case Remove(id) =>
        assert t.notices[|s.notices|] == Removed(PodObject(s.pods[id]));
        if !Finished(s.pods[id], node) {
          SamePods(s.pods, t.pods, id, node);
        }
    }
  }

  lemma SamePods(a: map<string, Pod>, b: map<string, Pod>, id: string, node: string)
    requires forall other :: other != id ==> (other in a <==> other in b) && (other in a ==> a[other] == b[other])
    requires id in a ==> !Finished(a[id], node)
    requires id in b ==> !Finished(b[id], node)
    ensures FinishedOn(a, node) == FinishedOn(b, node)
  {
  }

  /** Neither operators nor the attestation controller move the org label. */
  lemma NodeStepKeepsOrg(setup: Setup, s: State, e: NodeEvent, node: string)
    requires NodeEnabled(s, e) && node in s.nodes
    ensures var t := ApplyNode(setup, s, e);
            && node in t.nodes && Value(t.nodes[node], LABEL_LAST_ORG) == Value(s.nodes[node], LABEL_LAST_ORG)
            && t.pods == s.pods && t.queue == s.queue && t.work == s.work && t.notices == s.notices
            && t.history.dropped == s.history.dropped
  {
    match e {
      case Attest(_) =>
        var (other, result) := s.verification.value;
        Attestation.AttestationPatchKeys(result, setup.codec);
        assert LABEL_LAST_ORG !in ATTESTATION_KEYS;
        assert LABEL_LAST_ORG !in Attestation.AttestationPatch(result, setup.codec).Keys;
      case _ =>
    }
  }

  lemma PodStepKeeps(setup: Setup, s: State, e: PodEvent, node: string)
    requires PodEnabled(setup, s, e) && Invariant(s, node) && "" !in s.nodes
    ensures Invariant(ApplyPod(setup, s, e), node)
  {
    if node in s.nodes {
      PodStepNoticed(setup, s, e, node);
    }
  }

  lemma NodeStepKeeps(setup: Setup, s: State, e: NodeEvent, node: string)
    requires NodeEnabled(s, e) && Invariant(s, node)
    ensures Invariant(ApplyNode(setup, s, e), node)
  {
    if node in s.nodes {
      NodeStepKeepsOrg(setup, s, e, node);
    }
  }

  lemma DeliverKeeps(s: State, node: string)
    requires s.notices != [] && Invariant(s, node) && node in s.nodes && node != ""
    ensures Invariant(ApplyWork(s, Deliver), node)
  {
  }

  lemma ListKeeps(s: State, key: string, listing: seq<Pod>, node: string)
    requires WorkEnabled(s, ListPods(key, listing)) && Invariant(s, node) && node in s.nodes
    ensures Invariant(ApplyWork(s, ListPods(key, listing)), node)
  {
  }

  /** The end of a round of another key leaves the node alone. */
  lemma OtherRoundKeeps(s: State, key: string, failed: bool, nodes: map<string, LabelMap>, node: string)
    requires Invariant(s, node) && node in s.nodes && key != node && key in s.queue.processing
    requires node in nodes && nodes[node] == s.nodes[node]
    ensures Invariant(EndRound(s, key, failed, nodes), node)
  {
  }

  /** A failed round keeps the node waiting, or it was the last retry. */
  lemma FailedRoundKeeps(s: State, nodes: map<string, LabelMap>, node: string)
    requires Sound(s) && Invariant(s, node) && node in s.work && node in nodes
    ensures Invariant(EndRound(s, node, true, nodes), node)
  {
  }

  /** The end of a successful round: the node's patch is in, so it agrees unless it was touched meanwhile. */
  lemma GoodRoundAgrees(s: State, reply: Reply, node: string)
    requires Sound(s) && Invariant(s, node) && node in s.nodes && WorkEnabled(s, SendPatch(node, reply))
    requires !RoundFails(RoundOf(node, s.work[node], reply), s.nodes, node)
    ensures var t := EndRound(s, node, false, RoundNodes(RoundOf(node, s.work[node], reply), s.nodes, node));
            && Invariant(t, node) && node !in t.history.dropped
            && (Unseen(t, node) || Agrees(t, node))
  {
    var stage := s.work[node];
    PatchEffect(stage.labels, s.nodes[node], stage.listing, node);
    var nodes := RoundNodes(RoundOf(node, stage, reply), s.nodes, node);
    var patch := ReconcilePatch(stage.labels, stage.listing, node);
    assert Value(nodes[node], LABEL_LAST_ORG) == Value(Merge(s.nodes[node], patch), LABEL_LAST_ORG);
  }

  lemma PatchKeeps(s: State, key: string, reply: Reply, node: string)
    requires Sound(s) && Invariant(s, node) && node in s.nodes && WorkEnabled(s, SendPatch(key, reply))
    ensures Invariant(ApplyWork(s, SendPatch(key, reply)), node)
  {
    var round := RoundOf(key, s.work[key], reply);
    var nodes := RoundNodes(round, s.nodes, key);
    if key != node {
      OtherRoundKeeps(s, key, RoundFails(round, s.nodes, key), nodes, node);
    } else if RoundFails(round, s.nodes, node) {
      FailedRoundKeeps(s, nodes, node);
    } else {
      GoodRoundAgrees(s, reply, node);
    }
  }

  lemma ListerErrorKeeps(s: State, key: string, node: string)
    requires Sound(s) && Invariant(s, node) && node in s.nodes && WorkEnabled(s, ListerError(key))
    ensures Invariant(ApplyWork(s, ListerError(key)), node)
  {
    if key != node {
      OtherRoundKeeps(s, key, true, s.nodes, node);
    } else {
      FailedRoundKeeps(s, s.nodes, node);
    }
  }

  lemma WorkStepKeeps(s: State, e: WorkEvent, node: string)
    requires Sound(s) && WorkEnabled(s, e) && Invariant(s, node)
    ensures Invariant(ApplyWork(s, e), node)
  {
    if node in s.nodes {
      match e {
        case Deliver => DeliverKeeps(s, node);
        case ListPods(key, listing) => ListKeeps(s, key, listing, node);
        case SendPatch(key, reply) => PatchKeeps(s, key, reply, node);
        case ListerError(key) => ListerErrorKeeps(s, key, node);
        case _ =>
      }
    } else {
      NodesStay(s, e, node);
    }
  }

  lemma NodesStay(s: State, e: WorkEvent, node: string)
    requires WorkEnabled(s, e)
    ensures node in ApplyWork(s, e).nodes <==> node in s.nodes
  {
  }

  lemma StepKeeps(setup: Setup, s: State, e: Event, node: string)
    requires Sound(s) && Enabled(setup, Ticked(s), e) && Invariant(s, node)
    ensures Invariant(Apply(setup, s, e), node)
    ensures node in Apply(setup, s, e).nodes <==> node in s.nodes
  {
    var t := Ticked(s);
    assert Invariant(t, node);
    match e {
      case PodStep(p) => PodStepKeeps(setup, t, p, node);
      case NodeStep(n) => NodeStepKeeps(setup, t, n, node);
      case WorkStep(w) =>
        WorkStepKeeps(t, w, node);
        NodesStay(t, w, node);
    }
  }

  // ---- Runs ----------------------------------------------------------------------------

  /** A start in which nothing is under way and the node agrees with the pod list. No handler is
      registered for pods that are already there, so agreement at the start has to be given. */
  ghost predicate AgreeingStart(s: State, node: string) {
    && s.queue == EMPTY && s.work == map[] && s.notices == [] && "" !in s.nodes
    && node in s.nodes && Agrees(s, node)
  }

  lemma {:induction false} InvariantOverRuns(setup: Setup, s: State, events: seq<Event>, node: string)
    requires Sound(s) && Invariant(s, node) && Legal(setup, s, events)
    ensures Sound(After(setup, s, events)) && Invariant(After(setup, s, events), node)
    ensures node in After(setup, s, events).nodes <==> node in s.nodes
    decreases |events|
  {
    if events != [] {
      StepSound(setup, s, events[0]);
      StepKeeps(setup, s, events[0], node);
      InvariantOverRuns(setup, Apply(setup, s, events[0]), events[1..], node);
    }
  }

  /** In every reachable state, whatever lands between a worker's reads and its patch: pending,
      dropped after the last retry, or in agreement with the pods still listed. */
  lemma QueuedOrAgreesAlways(setup: Setup, s: State, events: seq<Event>, node: string)
    requires AgreeingStart(s, node) && Legal(setup, s, events)
    ensures node in After(setup, s, events).nodes && QueuedOrAgrees(After(setup, s, events), node)
  {
    InvariantOverRuns(setup, s, events, node);
  }
}
