/**
 The clean mark on wipe-on-complete nodes: on a node the controller has settled, wiped=true means
 that the operator wiped it after the last org-labelled workload finished there. This rests on what
 operators and the garbage collector do, and the steps that break it are named exactly.
 */
module WipeSafety {
  import opened Agreement
  import opened Cluster
  import opened Controller
  import opened Labels
  import opened NodeState
  import opened Objects
  import opened Rfc3339
  import opened WorkQueue
  import opened Wrappers
  import Attestation
  import Privacy

  /** The departure came before the last wipe of the node. */
  predicate WipedSince(s: State, d: Departure, node: string) {
    node in s.history.wipedAt && d.tick < s.history.wipedAt[node]
  }

  /** A departure that the controller can see, that is a finish, has not been followed by a wipe. */
  predicate Dirty(s: State, node: string) {
    exists d :: d in s.history.departed && Finished(d.pod, node) && !WipedSince(s, d, node)
  }

  /** Nothing that ran on the node has gone without a wipe after it. */
  predicate FollowsNoUnwiped(s: State, node: string) {
    forall d :: d in s.history.departed && d.pod.nodeName == node ==> WipedSince(s, d, node)
  }

  /** The times in the history are in the past. */
  predicate Dated(s: State, node: string) {
    && (forall d :: d in s.history.departed ==> d.tick <= s.history.tick)
    && (node in s.history.wipedAt ==> s.history.wipedAt[node] <= s.history.tick)
  }

  predicate ShowsWiped(s: State, node: string)
    requires node in s.nodes
  {
    Value(s.nodes[node], LABEL_WIPED) == "true"
  }

  predicate WillMark(labels: LabelMap) {
    Value(labels, LABEL_WIPE_ON_COMPLETE) == "true" && Value(labels, LABEL_WIPED) == "true"
  }

  /** A worker is going to take the clean mark away, or the node will get to a worker first. */
  ghost predicate Promised(s: State, node: string) {
    || Unseen(s, node)
    || node in s.queue.waiting
    || (node in s.work &&
          match s.work[node]
          case Claimed => true
          case NodeRead(labels) => WillMark(labels)
          case PodsListed(labels, listing) => WillMark(labels) && FinishedIn(listing, node) != {})
  }

  ghost predicate Guarded(s: State, node: string) {
    && node in s.nodes
    && Value(s.nodes[node], LABEL_WIPE_ON_COMPLETE) == "true"
    && Dated(s, node)
    && (ShowsWiped(s, node) && Dirty(s, node) ==> Promised(s, node) && FinishedOn(s.pods, node) != {})
  }

  /** The finished pod is the only one still listed on a marked node that no wipe has followed yet. */
  ghost predicate OnlyTrace(s: State, id: string, node: string)
    requires node in s.nodes && id in s.pods
  {
    Finished(s.pods[id], node) && ShowsWiped(s, node) && Dirty(s, node) && FinishedOn(s.pods - {id}, node) == {}
  }

  /** The last retry of a marked node that no wipe has followed yet fails, its patch is not applied, and
      nothing else will bring the node back to the queue. */
  ghost predicate GivesUpMarked(s: State, e: WorkEvent, node: string)
    requires node in s.nodes && WorkEnabled(s, e)
  {
    && (e.SendPatch? || e.ListerError?) && e.node == node && NumRequeues(s.queue, node) >= MAX_RETRIES
    && (e.SendPatch? ==> RoundFails(RoundOf(node, s.work[node], e.reply), s.nodes, node) && e.reply.Refused?)
    && ShowsWiped(s, node) && Dirty(s, node) && !Unseen(s, node) && node !in s.queue.waiting
  }

  /** What operators, the garbage collector and the API server must respect: the wipe-on-complete label
      stays, the only trace of an un-wiped workload stays listed as long as the node shows the mark, and
      the controller does not have to give such a node up. */
  ghost predicate Careful(setup: Setup, s: State, e: Event, node: string)
    requires Enabled(setup, Ticked(s), e)
  {
    && (e.NodeStep? && e.n.Relabel? && e.n.node == node && e.n.key == LABEL_WIPE_ON_COMPLETE ==> e.n.change == Put("true"))
    && (e.PodStep? && e.p.Remove? && node in s.nodes ==> !OnlyTrace(s, e.p.id, node))
    && (e.WorkStep? && node in s.nodes ==> !GivesUpMarked(Ticked(s), e.w, node))
  }

  ghost predicate CarefulRun(setup: Setup, s: State, events: seq<Event>, node: string)
    requires Legal(setup, s, events)
    decreases |events|
  {
    events != [] ==> Careful(setup, s, events[0], node) && CarefulRun(setup, Apply(setup, s, events[0]), events[1..], node)
  }

  lemma OneMoreCareful(setup: Setup, s: State, e: Event, rest: seq<Event>, node: string)
    requires Legal(setup, s, [e] + rest) && Enabled(setup, Ticked(s), e) && Legal(setup, Apply(setup, s, e), rest)
    ensures CarefulRun(setup, s, [e] + rest, node) <==>
            Careful(setup, s, e, node) && CarefulRun(setup, Apply(setup, s, e), rest, node)
  {
  }

  // ---- Steps ---------------------------------------------------------------------------

  lemma StillFinished(a: map<string, Pod>, b: map<string, Pod>, id: string, node: string)
    requires forall other :: other != id && other in a ==> other in b && a[other] == b[other]
    requires id in a ==> !Finished(a[id], node)
    requires FinishedOn(a, node) != {}
    ensures FinishedOn(b, node) != {}
  {
  }

  lemma FinishGuarded(setup: Setup, s: State, e: PodEvent, node: string)
    requires PodEnabled(setup, s, e) && Guarded(s, node) && node != ""
    requires e.Report? && Finished(ApplyPod(setup, s, e).pods[e.id], node)
    ensures Guarded(ApplyPod(setup, s, e), node)
  {
    var t := ApplyPod(setup, s, e);
    assert t.notices[|s.notices|] == Updated(s.pods[e.id], t.pods[e.id]);
    assert t.pods[e.id] in FinishedOn(t.pods, node);
  }

  lemma NoFinishKeepsClean(setup: Setup, s: State, e: PodEvent, node: string)
    requires PodEnabled(setup, s, e) && !(e.Report? && Finished(ApplyPod(setup, s, e).pods[e.id], node))
    ensures Dirty(ApplyPod(setup, s, e), node) <==> Dirty(s, node)
  {
  }

  /** Removing a finished pod keeps the promise about the mark if and only if the pod is not the only
      trace of an un-wiped workload on a node that shows the mark. */
  lemma RemovalGuardedExactly(setup: Setup, s: State, id: string, node: string)
    requires PodEnabled(setup, s, Remove(id)) && Guarded(s, node) && Finished(s.pods[id], node) && node != ""
    ensures Guarded(ApplyPod(setup, s, Remove(id)), node) <==> !OnlyTrace(s, id, node)
  {
    var t := ApplyPod(setup, s, Remove(id));
    assert t.notices[|s.notices|] == Removed(PodObject(s.pods[id]));
    NoFinishKeepsClean(setup, s, Remove(id), node);
  }

  lemma PodStepGuarded(setup: Setup, s: State, e: PodEvent, node: string)
    requires Sound(s) && PodEnabled(setup, s, e) && Guarded(s, node)
    ensures Guarded(ApplyPod(setup, s, e), node) <==> !(e.Remove? && OnlyTrace(s, e.id, node))
  {
    PodStepNoticed(setup, s, e, node);
    var t := ApplyPod(setup, s, e);
    if e.Report? && Finished(t.pods[e.id], node) {
      FinishGuarded(setup, s, e, node);
    } else if e.Remove? && Finished(s.pods[e.id], node) {
      RemovalGuardedExactly(setup, s, e.id, node);
    } else {
      NoFinishKeepsClean(setup, s, e, node);
      if ShowsWiped(s, node) && Dirty(s, node) {
        StillFinished(s.pods, t.pods, e.id, node);
      }
    }
  }

  lemma NodeStepKeepsMarks(setup: Setup, s: State, e: NodeEvent, node: string)
    requires NodeEnabled(s, e) && node in s.nodes
    ensures var t := ApplyNode(setup, s, e);
            && node in t.nodes
            && (!(e.Wipe? && e.node == node) ==> Value(t.nodes[node], LABEL_WIPED) == Value(s.nodes[node], LABEL_WIPED))
            && (!(e.Relabel? && e.node == node && e.key == LABEL_WIPE_ON_COMPLETE) ==>
                  Value(t.nodes[node], LABEL_WIPE_ON_COMPLETE) == Value(s.nodes[node], LABEL_WIPE_ON_COMPLETE))
  {
    match e {
      case Attest(_) =>
        var (other, result) := s.verification.value;
        Attestation.AttestationPatchKeys(result, setup.codec);
        assert LABEL_WIPED !in ATTESTATION_KEYS && LABEL_WIPE_ON_COMPLETE !in ATTESTATION_KEYS;
        assert LABEL_WIPED !in Attestation.AttestationPatch(result, setup.codec).Keys;
        assert LABEL_WIPE_ON_COMPLETE !in Attestation.AttestationPatch(result, setup.codec).Keys;
      case _ =>
    }
  }

  /** The history's share of a node step, with a tick of its own. */
  lemma NodeStepGuarded(setup: Setup, s: State, e: NodeEvent, node: string)
    requires NodeEnabled(Ticked(s), e) && Guarded(s, node)
    ensures Guarded(ApplyNode(setup, Ticked(s), e), node) <==>
            (e.Relabel? && e.node == node && e.key == LABEL_WIPE_ON_COMPLETE ==> e.change == Put("true"))
  {
    NodeStepKeepsMarks(setup, Ticked(s), e, node);
    NodeStepKeepsOrg(setup, Ticked(s), e, node);
  }

  lemma OtherEndGuarded(s: State, key: string, failed: bool, nodes: map<string, LabelMap>, node: string)
    requires Guarded(s, node) && key != node && node in nodes && nodes[node] == s.nodes[node]
    ensures Guarded(EndRound(s, key, failed, nodes), node)
  {
  }

  /** The end of the node's own round: the promise is kept exactly if there is a retry, the mark is gone
      or honest, or the node comes back anyway. */
  lemma OwnEndGuarded(s: State, failed: bool, nodes: map<string, LabelMap>, node: string)
    requires Sound(s) && Guarded(s, node) && node in s.work && node in nodes
    requires Value(nodes[node], LABEL_WIPE_ON_COMPLETE) == "true"
    requires Value(nodes[node], LABEL_WIPED) in {"false", Value(s.nodes[node], LABEL_WIPED)}
    ensures Guarded(EndRound(s, node, failed, nodes), node) <==>
            || (failed && NumRequeues(s.queue, node) < MAX_RETRIES)
            || Value(nodes[node], LABEL_WIPED) != "true" || !Dirty(s, node)
            || Unseen(s, node) || node in s.queue.waiting
  {
  }

  lemma RoundTakesMark(nodes: map<string, LabelMap>, stage: Stage, reply: Reply, node: string)
    requires node in nodes && stage.PodsListed? && Value(stage.labels, LABEL_LAST_ORG) == Value(nodes[node], LABEL_LAST_ORG)
    ensures var round := RoundOf(node, stage, reply);
            var after := RoundNodes(round, nodes, node);
            && node in after && Value(after[node], LABEL_WIPED) in {"false", Value(nodes[node], LABEL_WIPED)}
            && Value(after[node], LABEL_WIPE_ON_COMPLETE) == Value(nodes[node], LABEL_WIPE_ON_COMPLETE)
            && (WillMark(stage.labels) && FinishedIn(stage.listing, node) != {} ==>
                  && RoundPatch(round, node) != Some(map[])
                  && (!reply.Refused? ==> Value(after[node], LABEL_WIPED) == "false" && LABEL_WIPE_TIMESTAMP !in after[node]))
  {
    PatchEffect(stage.labels, nodes[node], stage.listing, node);
    ScanFindsLatest(stage.listing, node);
    assert LABEL_WIPE_ON_COMPLETE !in NODE_STATE_KEYS;
    var patch := ReconcilePatch(stage.labels, stage.listing, node);
    assert WillMark(stage.labels) && FinishedIn(stage.listing, node) != {} ==> LABEL_WIPED in patch;
  }

  /** The patch of a round that saw the mark and a finished pod takes the mark away, whatever came in
      between; and if the node is dirty when a round ends well and nothing new is pending, the mark is gone. */
  lemma OwnPatchTakesMark(s: State, reply: Reply, node: string)
    requires Sound(s) && Guarded(s, node) && WorkEnabled(s, SendPatch(node, reply)) && InFlight(s, node)
    ensures var t := ApplyWork(s, SendPatch(node, reply));
            && node in t.nodes
            && (!reply.Refused? && WillMark(s.work[node].labels) && FinishedIn(s.work[node].listing, node) != {}
                ==> Value(t.nodes[node], LABEL_WIPED) == "false" && LABEL_WIPE_TIMESTAMP !in t.nodes[node])
            && (Dirty(s, node) && !Unseen(s, node) && node !in t.queue.waiting && node !in t.history.dropped
                ==> !ShowsWiped(t, node))
  {
    var round := RoundOf(node, s.work[node], reply);
    RoundTakesMark(s.nodes, s.work[node], reply, node);
    if !RoundFails(round, s.nodes, node) && reply.Refused? {
      assert RoundPatch(round, node) == Some(map[]);
    }
  }

  lemma OwnPatchGuarded(s: State, reply: Reply, node: string)
    requires Sound(s) && Guarded(s, node) && WorkEnabled(s, SendPatch(node, reply))
    requires InFlight(s, node)
    ensures Guarded(ApplyWork(s, SendPatch(node, reply)), node) <==> !GivesUpMarked(s, SendPatch(node, reply), node)
  {
    var round := RoundOf(node, s.work[node], reply);
    RoundTakesMark(s.nodes, s.work[node], reply, node);
    OwnEndGuarded(s, RoundFails(round, s.nodes, node), RoundNodes(round, s.nodes, node), node);
  }

  lemma EndGuarded(s: State, e: WorkEvent, node: string)
    requires Sound(s) && WorkEnabled(s, e) && Guarded(s, node) && InFlight(s, node)
    requires e.SendPatch? || e.ListerError?
    ensures Guarded(ApplyWork(s, e), node) <==> !GivesUpMarked(s, e, node)
  {
    if e.node != node {
      var failed := if e.ListerError? then true else RoundFails(RoundOf(e.node, s.work[e.node], e.reply), s.nodes, e.node);
      var nodes := if e.ListerError? then s.nodes else RoundNodes(RoundOf(e.node, s.work[e.node], e.reply), s.nodes, e.node);
      OtherEndGuarded(s, e.node, failed, nodes, node);
    } else if e.ListerError? {
      OwnEndGuarded(s, true, s.nodes, node);
    } else {
      OwnPatchGuarded(s, e.reply, node);
    }
  }

  lemma DeliverGuarded(s: State, node: string)
    requires Sound(s) && s.notices != [] && Guarded(s, node)
    ensures Guarded(ApplyWork(s, Deliver), node)
  {
  }

  lemma ListGuarded(s: State, key: string, listing: seq<Pod>, node: string)
    requires WorkEnabled(s, ListPods(key, listing)) && Guarded(s, node)
    ensures Guarded(ApplyWork(s, ListPods(key, listing)), node)
  {
  }

  lemma WorkStepGuarded(s: State, e: WorkEvent, node: string)
    requires Sound(s) && WorkEnabled(s, e) && Guarded(s, node) && InFlight(s, node)
    ensures Guarded(ApplyWork(s, e), node) <==> !GivesUpMarked(s, e, node)
  {
    match e {
      case Deliver => DeliverGuarded(s, node);
      case ListPods(key, listing) => ListGuarded(s, key, listing, node);
      case SendPatch(_, _) => EndGuarded(s, e, node);
      case ListerError(_) => EndGuarded(s, e, node);
      case _ =>
    }
  }

  /** A step keeps the promise about the mark if and only if it is careful: nothing less will do. */
  lemma StepGuardedExactly(setup: Setup, s: State, e: Event, node: string)
    requires Sound(s) && Enabled(setup, Ticked(s), e) && Guarded(s, node) && InFlight(s, node)
    ensures Guarded(Apply(setup, s, e), node) <==> Careful(setup, s, e, node)
  {
    var t := Ticked(s);
    match e {
      case PodStep(p) =>
        assert Guarded(t, node);
        PodStepGuarded(setup, t, p, node);
      case NodeStep(n) => NodeStepGuarded(setup, s, n, node);
      case WorkStep(w) =>
        assert Guarded(t, node) && InFlight(t, node);
        WorkStepGuarded(t, w, node);
    }
  }

  // ---- Runs ----------------------------------------------------------------------------

  lemma {:induction false} GuardedOverRuns(setup: Setup, s: State, events: seq<Event>, node: string)
    requires Sound(s) && Agreement.Invariant(s, node) && Guarded(s, node)
    requires Legal(setup, s, events) && CarefulRun(setup, s, events, node)
    ensures Guarded(After(setup, s, events), node)
    decreases |events|
  {
    if events != [] {
      StepSound(setup, s, events[0]);
      StepKeeps(setup, s, events[0], node);
      StepGuardedExactly(setup, s, events[0], node);
      GuardedOverRuns(setup, Apply(setup, s, events[0]), events[1..], node);
    }
  }

  /** A start in which nothing is under way, the node agrees with the pod list, and a clean mark is honest. */
  ghost predicate CleanStart(s: State, node: string) {
    && AgreeingStart(s, node)
    && Value(s.nodes[node], LABEL_WIPE_ON_COMPLETE) == "true"
    && Dated(s, node)
    && (ShowsWiped(s, node) ==> !Dirty(s, node))
  }

  /** Every departure from the node since its last wipe was a finish that the controller can see. */
  predicate NothingEscaped(s: State, node: string) {
    forall d :: d in s.history.departed && d.pod.nodeName == node && !Finished(d.pod, node) ==> WipedSince(s, d, node)
  }

  /** No org-labelled pod of the node was deleted while alive, and none ended without a time. */
  predicate LabelledPodsFinish(s: State, node: string) {
    forall d :: d in s.history.departed && d.pod.nodeName == node && Org(d.pod) != "" ==>
      Terminated(d.pod) && TerminationTime(d.pod) > 0
  }

  predicate LabelledDeparturesWiped(s: State, node: string) {
    forall d :: d in s.history.departed && d.pod.nodeName == node && Org(d.pod) != "" ==> WipedSince(s, d, node)
  }

  /** The mark can be trusted: the controller has settled the node, or no finished pod is listed there. */
  ghost predicate Trusted(s: State, node: string) {
    !Unsettled(s, node) || FinishedOn(s.pods, node) == {}
  }

  /** In every reachable state: a wipe-on-complete node that the controller has settled, or that has no
      finished pod listed, and that shows wiped=true was wiped after the last org-labelled workload
      finished on it. That is after its last org-labelled departure of any kind if none was deleted
      alive or left no time, and after every departure if and only if none has escaped the controller
      since the wipe. */
  lemma SettledCleanNodeWasWiped(setup: Setup, s: State, events: seq<Event>, node: string)
    requires CleanStart(s, node) && Legal(setup, s, events) && CarefulRun(setup, s, events, node)
    ensures var t := After(setup, s, events);
            && node in t.nodes
            && (ShowsWiped(t, node) && Trusted(t, node) ==>
                  && !Dirty(t, node)
                  && (LabelledPodsFinish(t, node) ==> LabelledDeparturesWiped(t, node))
                  && (FollowsNoUnwiped(t, node) <==> NothingEscaped(t, node)))
  {
    GuardedOverRuns(setup, s, events, node);
    InvariantOverRuns(setup, s, events, node);
  }

  /** So for a high-privacy pod, by its own label or by default, that the Nexa scheduler may bind to such
      a node: it follows no un-wiped workload exactly when none has escaped the controller since the wipe. */
  lemma HighPrivacyBindIsClean(plugins: set<string>, codec: TimeCodec, s: State, events: seq<Event>,
                               id: string, node: string, policy: Policy)
    requires Privacy.NAME in plugins && policy.privacy.enabled
    requires var setup := Nexa(plugins, codec);
             && CleanStart(s, node) && Legal(setup, s, events) && CarefulRun(setup, s, events, node)
             && var t := After(setup, s, events);
             && PodEnabled(setup, t, Bind(id, node, policy))
             && (var own := Value(t.pods[id].labels, "nexa.io/privacy");
                 own == "high" || (own == "" && policy.privacy.defaultPrivacy == "high"))
             && Trusted(t, node)
    ensures var t := After(Nexa(plugins, codec), s, events);
            && !Dirty(t, node)
            && (LabelledPodsFinish(t, node) ==> LabelledDeparturesWiped(t, node))
            && (FollowsNoUnwiped(t, node) <==> NothingEscaped(t, node))
  {
    SettledCleanNodeWasWiped(Nexa(plugins, codec), s, events, node);
    Privacy.OwnLevelFirst(policy.privacy, After(Nexa(plugins, codec), s, events).pods[id]);
  }
}
