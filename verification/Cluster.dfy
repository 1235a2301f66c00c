/**
 The cluster as one state machine. The scheduler binds pods under the three Filters, pods finish and
 are deleted, informers deliver notices later, workers of the node state controller reconcile in
 separate read, list and patch steps, the attestation controller verifies and patches, and operators
 wipe and relabel nodes. Any event may fall between any two others.
 */
module Cluster {
  import opened Attestation
  import opened Controller
  import opened Labels
  import opened NodeState
  import opened Objects
  import opened Rfc3339
  import opened WorkQueue
  import opened Wrappers
  import Confidential
  import Privacy
  import Region

  /** How far a worker has come with its key. */
  datatype Stage = Claimed | NodeRead(labels: LabelMap) | PodsListed(labels: LabelMap, listing: seq<Pod>)

  /** A pod that stopped running on its node: it reached a terminal phase, or it was deleted while
      alive. The pod is as it was last seen, the tick says when. */
  datatype Departure = Departure(pod: Pod, tick: nat)

  /** What has happened, kept only to state properties: the number of events so far; when each node
      was last wiped; every departure; the nodes dropped after their last retry and not reconciled
      since; the outcome behind each node's last attestation patch; and the anchor of the last patched
      success that named one. */
  datatype History = History(
    tick: nat,
    wipedAt: map<string, nat>,
    departed: seq<Departure>,
    dropped: set<string>,
    verdicts: map<string, Option<Result>>,
    anchors: map<string, string>)

  datatype State = State(
    nodes: map<string, LabelMap>,
    pods: map<string, Pod>,
    notices: seq<Notice>,
    queue: Queue,
    work: map<string, Stage>,
    verification: Option<(string, Option<Result>)>,
    clock: int,
    history: History)

  /** One scheduling attempt as the filters see it. */
  datatype Placement = Placement(policy: Policy, pod: Pod, node: LabelMap, running: set<Pod>, now: int)

  /** What a run does not change: the verdict of the enabled filters, and how timestamps become text. */
  datatype Setup = Setup(admits: Placement -> bool, codec: TimeCodec)

  /** The scheduler with the given Nexa plugins enabled. */
  function Nexa(plugins: set<string>, codec: TimeCodec): Setup {
    Setup((p: Placement) => AdmittedBy(plugins, codec, p), codec)
  }

  predicate AdmittedBy(plugins: set<string>, codec: TimeCodec, p: Placement) {
    && (Region.NAME in plugins ==> Region.Admits(p.policy.region, p.pod, p.node))
    && (Privacy.NAME in plugins ==> Privacy.Admits(p.policy.privacy, p.pod, p.node, p.running, p.now, codec))
    && (Confidential.NAME in plugins ==> Confidential.Admits(p.policy.confidential, p.pod, p.node, p.now, codec))
  }

  /** What happens to pods: users create, relabel and delete them, schedulers bind them, kubelets report status. */
  datatype PodEvent =
    | Create(id: string, pod: Pod)
    | Bind(id: string, node: string, policy: Policy)
    | BindElsewhere(id: string, node: string)
    | Edit(id: string, labels: LabelMap)
    | Report(id: string, phase: Phase, finishTimes: seq<Option<int>>, startTime: Option<int>)
    | Remove(id: string)

  /** What happens to nodes outside the node state controller, and the passing of time. */
  datatype NodeEvent =
    | Wipe(node: string, stamp: string)
    | Relabel(node: string, key: string, change: Change)
    | Verify(node: string, result: Option<Result>)
    | Attest(reply: Reply)
    | Advance(duration: nat)

  /** The node state controller: an informer notice is handled, a worker takes a key, reads the node,
      lists the pods and patches; a lister may fail; a retry's delay passes. */
  datatype WorkEvent =
    | Deliver
    | Get
    | ReadNode(node: string)
    | ListPods(node: string, listing: seq<Pod>)
    | SendPatch(node: string, reply: Reply)
    | ListerError(node: string)
    | DelayOver(node: string)

  datatype Event = PodStep(p: PodEvent) | NodeStep(n: NodeEvent) | WorkStep(w: WorkEvent)

  predicate Runs(pod: Pod, node: string) {
    pod.nodeName == node && !Terminated(pod)
  }

  function RunningOn(pods: map<string, Pod>, node: string): set<Pod> {
    set id | id in pods && Runs(pods[id], node) :: pods[id]
  }

  function PlacementOf(s: State, id: string, node: string, policy: Policy): Placement
    requires id in s.pods && node in s.nodes
  {
    Placement(policy, s.pods[id], s.nodes[node], RunningOn(s.pods, node), s.clock)
  }

  predicate Unbound(s: State, id: string) {
    id in s.pods && s.pods[id].nodeName == "" && !Terminated(s.pods[id])
  }

  /** Operators and other software leave the labels the controllers own alone. */
  const OWNED_KEYS := NODE_STATE_KEYS + ATTESTATION_KEYS

  ghost predicate PodEnabled(setup: Setup, s: State, e: PodEvent) {
    match e
    case Create(id, pod) => id !in s.pods && pod.nodeName == "" && !Terminated(pod)
    case Bind(id, node, policy) => Unbound(s, id) && node in s.nodes && setup.admits(PlacementOf(s, id, node, policy))
    case BindElsewhere(id, node) => Unbound(s, id) && node != ""
    case Edit(id, _) => id in s.pods && !Terminated(s.pods[id])
    case Report(id, _, _, _) => id in s.pods && !Terminated(s.pods[id])
    case Remove(id) => id in s.pods
  }

  /** A live pod is updated; the informer will report it. */
  function Updating(s: State, id: string, after: Pod): State
    requires id in s.pods
  {
    var h := s.history;
    s.(pods := s.pods[id := after],
       notices := s.notices + [Updated(s.pods[id], after)],
       history := if Terminated(after) then h.(departed := h.departed + [Departure(after, h.tick)]) else h)
  }

  /** A pod object is deleted; a live pod stops running with it. */
  function Removing(s: State, id: string): State
    requires id in s.pods
  {
    var h, pod := s.history, s.pods[id];
    s.(pods := s.pods - {id},
       notices := s.notices + [Removed(PodObject(pod))],
       history := if Terminated(pod) then h else h.(departed := h.departed + [Departure(pod, h.tick)]))
  }

  function ApplyPod(setup: Setup, s: State, e: PodEvent): State
    requires PodEnabled(setup, s, e)
  {
    match e
    case Create(id, pod) => s.(pods := s.pods[id := pod])
    case Bind(id, node, _) => s.(pods := s.pods[id := s.pods[id].(nodeName := node)])
    case BindElsewhere(id, node) => s.(pods := s.pods[id := s.pods[id].(nodeName := node)])
    case Edit(id, labels) => Updating(s, id, s.pods[id].(labels := labels))
    case Report(id, phase, finishTimes, startTime) =>
      Updating(s, id, s.pods[id].(phase := phase, finishTimes := finishTimes, startTime := startTime))
    case Remove(id) => Removing(s, id)
  }

  /** An attestation patch reached the node. */
  function Attesting(h: History, node: string, result: Option<Result>): History {
    h.(verdicts := h.verdicts[node := result],
       anchors := if Success(result) && result.value.trustAnchor != "" then h.anchors[node := result.value.trustAnchor]
                  else h.anchors)
  }

  ghost predicate NodeEnabled(s: State, e: NodeEvent) {
    match e
    case Wipe(node, _) => node in s.nodes
    case Relabel(node, key, _) => node in s.nodes && key !in OWNED_KEYS
    case Verify(node, result) =>
      node in s.nodes && s.verification.None? && (Success(result) ==> InRange(result.value.timestamp))
    case Attest(_) => s.verification.Some?
    case Advance(_) => true
  }

  function Relabelled(s: State, node: string, patch: Patch): State
    requires node in s.nodes
  {
    s.(nodes := s.nodes[node := Merge(s.nodes[node], patch)])
  }

  function WipePatch(stamp: string): Patch {
    map[LABEL_WIPED := Put("true"), LABEL_WIPE_TIMESTAMP := Put(stamp)]
  }

  function ApplyNode(setup: Setup, s: State, e: NodeEvent): State
    requires NodeEnabled(s, e)
  {
    var h := s.history;
    match e
    case Wipe(node, stamp) => Relabelled(s, node, WipePatch(stamp)).(history := h.(wipedAt := h.wipedAt[node := h.tick]))
    case Relabel(node, key, change) => Relabelled(s, node, map[key := change])
    case Verify(node, result) => s.(verification := Some((node, result)))
    case Attest(reply) =>
      var (node, result) := s.verification.value;
      s.(nodes := AfterPatch(s.nodes, node, AttestationPatch(result, setup.codec), reply),
         verification := None,
         history := if reply.Refused? then h else Attesting(h, node, result))
    case Advance(duration) => s.(clock := s.clock + duration)
  }

  ghost predicate WorkEnabled(s: State, e: WorkEvent) {
    match e
    case Deliver => s.notices != []
    case Get => s.queue.order != []
    case ReadNode(node) => node in s.work && s.work[node].Claimed? && node in s.nodes
    case ListPods(node, listing) =>
      node in s.work && s.work[node].NodeRead? && forall pod :: pod in listing <==> pod in s.pods.Values
    case SendPatch(node, _) => node in s.work && s.work[node].PodsListed?
    case ListerError(node) => node in s.work && !s.work[node].PodsListed?
    case DelayOver(node) => node in s.queue.waiting
  }

  /** The end of a worker's round. */
  function EndRound(s: State, node: string, failed: bool, nodes: map<string, LabelMap>): State {
    var h := s.history;
    s.(nodes := nodes,
       queue := Settle(s.queue, node, failed),
       work := s.work - {node},
       history := h.(dropped := if !failed then h.dropped - {node}
                                else if NumRequeues(s.queue, node) < MAX_RETRIES then h.dropped
                                else h.dropped + {node}))
  }

  /** The round of a worker that has read the node and listed the pods. */
  function RoundOf(node: string, stage: Stage, reply: Reply): Round
    requires stage.PodsListed?
  {
    Round(map[node := stage.labels], Some(stage.listing), reply)
  }

  function ApplyWork(s: State, e: WorkEvent): State
    requires WorkEnabled(s, e)
  {
    match e
    case Deliver => s.(queue := Handle(s.queue, s.notices[0]), notices := s.notices[1..])
    case Get => s.(queue := Take(s.queue), work := s.work[s.queue.order[0] := Claimed])
    case ReadNode(node) => s.(work := s.work[node := NodeRead(s.nodes[node])])
    case ListPods(node, listing) => s.(work := s.work[node := PodsListed(s.work[node].labels, listing)])
    case SendPatch(node, reply) =>
      var round := RoundOf(node, s.work[node], reply);
      EndRound(s, node, RoundFails(round, s.nodes, node), RoundNodes(round, s.nodes, node))
    case ListerError(node) => EndRound(s, node, true, s.nodes)
    case DelayOver(node) => s.(queue := Elapse(s.queue, node))
  }

  ghost predicate Enabled(setup: Setup, s: State, e: Event) {
    match e
    case PodStep(p) => PodEnabled(setup, s, p)
    case NodeStep(n) => NodeEnabled(s, n)
    case WorkStep(w) => WorkEnabled(s, w)
  }

  /** One event; the history counts it first, so that it has a time of its own. */
  function Apply(setup: Setup, s: State, e: Event): State
    requires Enabled(setup, Ticked(s), e)
  {
    match e
    case PodStep(p) => ApplyPod(setup, Ticked(s), p)
    case NodeStep(n) => ApplyNode(setup, Ticked(s), n)
    case WorkStep(w) => ApplyWork(Ticked(s), w)
  }

  function Ticked(s: State): State {
    s.(history := s.history.(tick := s.history.tick + 1))
  }

  // ---- Runs ----------------------------------------------------------------------------

  ghost predicate Legal(setup: Setup, s: State, events: seq<Event>)
    decreases |events|
  {
    events != [] ==> Enabled(setup, Ticked(s), events[0]) && Legal(setup, Apply(setup, s, events[0]), events[1..])
  }

  ghost function After(setup: Setup, s: State, events: seq<Event>): State
    requires Legal(setup, s, events)
    decreases |events|
  {
    if events == [] then s else After(setup, Apply(setup, s, events[0]), events[1..])
  }

  lemma OneMore(setup: Setup, s: State, e: Event, rest: seq<Event>)
    ensures Legal(setup, s, [e] + rest) <==> Enabled(setup, Ticked(s), e) && Legal(setup, Apply(setup, s, e), rest)
    ensures Legal(setup, s, [e] + rest) ==> After(setup, s, [e] + rest) == After(setup, Apply(setup, s, e), rest)
  {
  }

  /** The work queue's contract holds, a worker holds exactly the keys being processed, and nodes have names. */
  ghost predicate Sound(s: State) {
    && WellFormed(s.queue)
    && s.work.Keys == s.queue.processing
    && "" !in s.nodes
  }

  lemma EndSound(s: State, node: string, failed: bool, nodes: map<string, LabelMap>)
    requires Sound(s) && node in s.work && nodes.Keys == s.nodes.Keys
    ensures Sound(EndRound(s, node, failed, nodes))
  {
    OperationsWellFormed(s.queue, node, failed);
  }

  lemma WorkSound(s: State, e: WorkEvent)
    requires Sound(s) && WorkEnabled(s, e)
    ensures Sound(ApplyWork(s, e))
  {
    match e {
      case Deliver => OperationsWellFormed(s.queue, Target(s.notices[0]), false);
      case Get => OperationsWellFormed(s.queue, "", false);
      case SendPatch(node, reply) =>
        var round := RoundOf(node, s.work[node], reply);
        EndSound(s, node, RoundFails(round, s.nodes, node), RoundNodes(round, s.nodes, node));
      case ListerError(node) => EndSound(s, node, true, s.nodes);
      case DelayOver(node) => OperationsWellFormed(s.queue, node, true);
      case _ =>
    }
  }

  lemma StepSound(setup: Setup, s: State, e: Event)
    requires Sound(s) && Enabled(setup, Ticked(s), e)
    ensures Sound(Apply(setup, s, e))
  {
    if e.WorkStep? {
      WorkSound(Ticked(s), e.w);
    }
  }

  /** The state once a worker has taken the head of the line, read its node and listed the pods. */
  function AfterReads(s: State, listing: seq<Pod>): State
    requires s.queue.order != [] && s.queue.order[0] in s.nodes
  {
    var node := s.queue.order[0];
    s.(queue := Take(s.queue), work := s.work[node := PodsListed(s.nodes[node], listing)])
  }

  lemma ReadsInOneGo(s: State, listing: seq<Pod>)
    requires s.queue.order != [] && s.queue.order[0] in s.nodes
    requires forall pod :: pod in listing <==> pod in s.pods.Values
    ensures WorkEnabled(s, Get)
    ensures WorkEnabled(ApplyWork(s, Get), ReadNode(s.queue.order[0]))
    ensures var node := s.queue.order[0];
            var read := ApplyWork(ApplyWork(s, Get), ReadNode(node));
            WorkEnabled(read, ListPods(node, listing)) && ApplyWork(read, ListPods(node, listing)) == AfterReads(s, listing)
  {
  }

  /** A round depends on the node lister only through the node's own labels. */
  lemma RoundReadsOwnNode(nodes: map<string, LabelMap>, node: string, listing: seq<Pod>, reply: Reply)
    requires node in nodes
    ensures var a, b := RoundOf(node, PodsListed(nodes[node], listing), reply), Round(nodes, Some(listing), reply);
            RoundFails(a, nodes, node) == RoundFails(b, nodes, node) && RoundNodes(a, nodes, node) == RoundNodes(b, nodes, node)
  {
  }

  /** Without events in between, the machine's worker steps are one turn of the controller's loop. */
  lemma UninterruptedTurn(s: State, listing: seq<Pod>, reply: Reply)
    requires Sound(s) && s.queue.order != [] && s.queue.order[0] in s.nodes
    ensures var node := s.queue.order[0];
            var turned := ApplyWork(AfterReads(s, listing), SendPatch(node, reply));
            var round := Round(s.nodes, Some(listing), reply);
            && turned.queue == Settle(Take(s.queue), node, RoundFails(round, s.nodes, node))
            && turned.nodes == RoundNodes(round, s.nodes, node)
            && turned.work == s.work && turned.pods == s.pods
  {
    OperationsWellFormed(s.queue, "", false);
    var node := s.queue.order[0];
    RoundReadsOwnNode(s.nodes, node, listing, reply);
    assert AfterReads(s, listing).work - {node} == s.work;
  }

  /** The same for a turn in which a lister fails: the node lister at once, or the pod lister after the
      node was read. */
  lemma UninterruptedFailure(s: State, round: Round)
    requires Sound(s) && s.queue.order != []
    requires s.queue.order[0] !in round.cached || round.listed.None?
    ensures var node := s.queue.order[0];
            var claimed := ApplyWork(s, Get);
            && WorkEnabled(claimed, ListerError(node))
            && var turned := ApplyWork(claimed, ListerError(node));
            && turned.queue == Settle(Take(s.queue), node, RoundFails(round, s.nodes, node))
            && turned.nodes == RoundNodes(round, s.nodes, node) == s.nodes
            && turned.work == s.work && turned.pods == s.pods
            && (node in s.nodes ==>
                  && WorkEnabled(claimed, ReadNode(node))
                  && var read := ApplyWork(claimed, ReadNode(node));
                  && WorkEnabled(read, ListerError(node)) && ApplyWork(read, ListerError(node)) == turned)
  {
    OperationsWellFormed(s.queue, "", false);
    RoundOutcome(round, s.nodes, s.queue.order[0]);
    var node := s.queue.order[0];
    var claimed := ApplyWork(s, Get);
    assert claimed.work - {node} == s.work;
    if node in s.nodes {
      assert ApplyWork(claimed, ReadNode(node)).work - {node} == s.work;
    }
  }

  /** The node's notice is the only one, and nothing else is on the queue. */
  ghost predicate AboutToReconcile(s: State, node: string) {
    && node in s.nodes && node != ""
    && |s.notices| == 1 && Target(s.notices[0]) == node
    && s.queue.order == (if node in s.queue.dirty then [node] else [])
    && node !in s.queue.processing && node !in s.queue.waiting
  }

  /** A worker is given the node's key. */
  ghost function Picking(s: State, node: string): State
    requires AboutToReconcile(s, node)
  {
    s.(notices := [], queue := Take(Add(s.queue, node)), work := s.work[node := Claimed],
       history := s.history.(tick := s.history.tick + 2))
  }

  lemma PicksUp(setup: Setup, s: State, node: string, rest: seq<Event>)
    requires AboutToReconcile(s, node)
    ensures var events := [WorkStep(Deliver)] + ([WorkStep(Get)] + rest);
            && (Legal(setup, s, events) <==> Legal(setup, Picking(s, node), rest))
            && (Legal(setup, s, events) ==> After(setup, s, events) == After(setup, Picking(s, node), rest))
  {
    var noticed := Apply(setup, s, WorkStep(Deliver));
    assert noticed.queue.order == [node];
    OneMore(setup, noticed, WorkStep(Get), rest);
    OneMore(setup, s, WorkStep(Deliver), [WorkStep(Get)] + rest);
    assert Apply(setup, noticed, WorkStep(Get)) == Picking(s, node);
  }

  /** It reads the node and lists the pods. */
  function Reading(s: State, node: string, listing: seq<Pod>): State
    requires node in s.nodes
  {
    s.(work := s.work[node := PodsListed(s.nodes[node], listing)], history := s.history.(tick := s.history.tick + 2))
  }

  lemma ReadsOn(setup: Setup, s: State, node: string, listing: seq<Pod>, rest: seq<Event>)
    requires node in s.nodes && node in s.work && s.work[node].Claimed?
    requires forall pod :: pod in listing <==> pod in s.pods.Values
    ensures var events := [WorkStep(ReadNode(node))] + ([WorkStep(ListPods(node, listing))] + rest);
            && (Legal(setup, s, events) <==> Legal(setup, Reading(s, node, listing), rest))
            && (Legal(setup, s, events) ==> After(setup, s, events) == After(setup, Reading(s, node, listing), rest))
  {
    var read := Apply(setup, s, WorkStep(ReadNode(node)));
    OneMore(setup, read, WorkStep(ListPods(node, listing)), rest);
    OneMore(setup, s, WorkStep(ReadNode(node)), [WorkStep(ListPods(node, listing))] + rest);
    assert Apply(setup, read, WorkStep(ListPods(node, listing))) == Reading(s, node, listing);
  }

  /** The controller's way with one notice when nothing comes in between. */
  function WholeRound(node: string, listing: seq<Pod>): seq<Event> {
    [WorkStep(Deliver)] + ([WorkStep(Get)] + ([WorkStep(ReadNode(node))] +
    ([WorkStep(ListPods(node, listing))] + ([WorkStep(SendPatch(node, Applied))] + []))))
  }

  /** Nothing is under way for the node, and what is stored is what the given state stored but for
      one reconcile of the node. */
  ghost predicate Reconciled(s: State, t: State, node: string, listing: seq<Pod>)
    requires node in s.nodes
  {
    && t.nodes == s.nodes[node := Merge(s.nodes[node], ReconcilePatch(s.nodes[node], listing, node))]
    && t.pods == s.pods && t.clock == s.clock && t.notices == []
    && node !in t.queue.dirty && node !in t.queue.processing && node !in t.queue.waiting
    && t.history.departed == s.history.departed && t.history.wipedAt == s.history.wipedAt
    && t.history.dropped == s.history.dropped - {node}
  }

  lemma PatchReconciles(s: State, node: string, listing: seq<Pod>)
    requires node in s.nodes && s.notices == [] && node in s.work && s.work[node] == PodsListed(s.nodes[node], listing)
    requires node !in s.queue.dirty && node !in s.queue.waiting
    ensures Reconciled(s, ApplyWork(s, SendPatch(node, Applied)), node, listing)
  {
    var patch := ReconcilePatch(s.nodes[node], listing, node);
    assert patch == map[] ==> Merge(s.nodes[node], patch) == s.nodes[node];
  }

  /** Such a round is possible, applies its patch to the node, and leaves it with nothing more to do. */
  lemma WholeRoundReconciles(setup: Setup, s: State, node: string, listing: seq<Pod>)
    requires AboutToReconcile(s, node) && forall pod :: pod in listing <==> pod in s.pods.Values
    ensures Legal(setup, s, WholeRound(node, listing))
    ensures Reconciled(s, After(setup, s, WholeRound(node, listing)), node, listing)
  {
    var picked := Picking(s, node);
    var read := Reading(picked, node, listing);
    var patch := [WorkStep(SendPatch(node, Applied))] + [];
    PicksUp(setup, s, node, [WorkStep(ReadNode(node))] + ([WorkStep(ListPods(node, listing))] + patch));
    ReadsOn(setup, picked, node, listing, patch);
    OneMore(setup, read, WorkStep(SendPatch(node, Applied)), []);
    PatchReconciles(Ticked(read), node, listing);
  }
}
