/**
 What the clean mark does not show: the workloads that escape the node state controller, exactly when
 one does, and runs on which the privacy Filter trusts a mark it should not.
 */
module WipeEscapes {
  import opened Agreement
  import opened Cluster
  import opened Controller
  import opened Labels
  import opened NodeState
  import opened Objects
  import opened Rfc3339
  import opened WipeSafety
  import opened WorkQueue
  import opened Wrappers
  import Privacy
  import Retry

  // ---- What escapes the controller -----------------------------------------------------

  /** The event ends a pod's running on the node. */
  predicate Ends(s: State, e: PodEvent, node: string) {
    match e
    case Report(id, phase, _, _) => id in s.pods && s.pods[id].nodeName == node && (phase == Succeeded || phase == Failed)
    case Remove(id) => id in s.pods && Runs(s.pods[id], node)
    case _ => false
  }

  /** It does so in the one way that the controller reacts to: an org-labelled pod reports a terminal
      phase, with the time at which a container finished or the pod started. */
  predicate EndsVisibly(s: State, e: PodEvent, node: string) {
    match e
    case Report(id, phase, finishTimes, startTime) =>
      id in s.pods && Finished(s.pods[id].(phase := phase, finishTimes := finishTimes, startTime := startTime), node)
    case _ => false
  }

  /** A wipe-on-complete node that shows wiped=true while nothing is pending for it anywhere. */
  ghost predicate MarkedAndIdle(s: State, node: string) {
    && Sound(s) && node in s.nodes && Value(s.nodes[node], LABEL_WIPE_ON_COMPLETE) == "true" && ShowsWiped(s, node)
    && s.notices == [] && s.queue.order == [] && !Unsettled(s, node) && Dated(s, node)
  }

  lemma EndNoticed(setup: Setup, s: State, e: PodEvent, node: string)
    requires MarkedAndIdle(s, node) && PodEnabled(setup, Ticked(s), e) && Ends(s, e, node)
    ensures var t := Apply(setup, s, PodStep(e));
            && AboutToReconcile(t, node) && t.nodes == s.nodes && !FollowsNoUnwiped(t, node)
            && (FinishedOn(t.pods, node) == {} <==> FinishedOn(s.pods, node) == {} && !EndsVisibly(s, e, node))
  {
    var t := Apply(setup, s, PodStep(e));
    assert t.history.departed[|s.history.departed|].tick == s.history.tick + 1;
    assert Target(t.notices[0]) == node;
    if EndsVisibly(s, e, node) {
      assert t.pods[e.id] in FinishedOn(t.pods, node);
    } else {
      SamePods(s.pods, t.pods, e.id, node);
    }
  }

  lemma ReconcileMark(s: State, t: State, node: string, listing: seq<Pod>)
    requires node in s.nodes && Reconciled(s, t, node, listing) && !FollowsNoUnwiped(s, node)
    requires forall pod :: pod in listing <==> pod in s.pods.Values
    requires Value(s.nodes[node], LABEL_WIPE_ON_COMPLETE) == "true" && ShowsWiped(s, node)
    ensures node in t.nodes && !Unsettled(t, node) && !FollowsNoUnwiped(t, node)
    ensures ShowsWiped(t, node) <==> FinishedOn(s.pods, node) == {}
  {
    assert FinishedIn(listing, node) == FinishedOn(s.pods, node);
    PatchEffect(s.nodes[node], s.nodes[node], listing, node);
  }

  /** Worker steps without a failure. */
  predicate AllGood(events: seq<Event>, node: string) {
    forall i :: 0 <= i < |events| ==>
      && events[i].WorkStep? && !events[i].w.ListerError?
      && (events[i].w.SendPatch? ==> events[i].w.node == node && events[i].w.reply == Applied)
  }

  lemma WholeRoundIsGood(node: string, listing: seq<Pod>)
    ensures AllGood(WholeRound(node, listing), node)
  {
  }

  lemma {:induction false} GoodRoundIsCareful(setup: Setup, s: State, events: seq<Event>, node: string)
    requires Legal(setup, s, events) && node in s.nodes
    requires AllGood(events, node)
    ensures CarefulRun(setup, s, events, node)
    decreases |events|
  {
    if events != [] {
      GoodRoundIsCareful(setup, Apply(setup, s, events[0]), events[1..], node);
    }
  }

  lemma EndIsCareful(setup: Setup, s: State, e: PodEvent, node: string, listing: seq<Pod>)
    requires PodEnabled(setup, Ticked(s), e) && Ends(s, e, node) && node in s.nodes
    requires Legal(setup, s, [PodStep(e)] + WholeRound(node, listing))
    requires Legal(setup, Apply(setup, s, PodStep(e)), WholeRound(node, listing))
    ensures CarefulRun(setup, s, [PodStep(e)] + WholeRound(node, listing), node)
  {
    WholeRoundIsGood(node, listing);
    GoodRoundIsCareful(setup, Apply(setup, s, PodStep(e)), WholeRound(node, listing), node);
    OneMoreCareful(setup, s, PodStep(e), WholeRound(node, listing), node);
  }

  /** The controller's whole reaction to the end of a workload, undisturbed, in every idle state: it leaves the mark
      on the node, which now follows an un-wiped workload, if and only if the workload went invisibly
      and no pod that finished there earlier is still listed. */
  lemma MarkStaysExactly(setup: Setup, s: State, e: PodEvent, node: string, listing: seq<Pod>)
    requires MarkedAndIdle(s, node) && PodEnabled(setup, Ticked(s), e) && Ends(s, e, node)
    requires forall pod :: pod in listing <==> pod in Apply(setup, s, PodStep(e)).pods.Values
    ensures var events := [PodStep(e)] + WholeRound(node, listing);
            && Legal(setup, s, events)
            && CarefulRun(setup, s, events, node)
            && var t := After(setup, s, events);
            && node in t.nodes && !Unsettled(t, node) && t.history.dropped == s.history.dropped - {node}
            && !FollowsNoUnwiped(t, node)
            && (ShowsWiped(t, node) <==> FinishedOn(s.pods, node) == {} && !EndsVisibly(s, e, node))
  {
    EndNoticed(setup, s, e, node);
    var u := Apply(setup, s, PodStep(e));
    WholeRoundReconciles(setup, u, node, listing);
    OneMore(setup, s, PodStep(e), WholeRound(node, listing));
    ReconcileMark(u, After(setup, u, WholeRound(node, listing)), node, listing);
    EndIsCareful(setup, s, e, node, listing);
  }

  /** A marked node on which nothing is listed as finished, also in what a worker has read. */
  ghost predicate Unsuspecting(s: State, node: string) {
    && node in s.nodes && ShowsWiped(s, node) && FinishedOn(s.pods, node) == {}
    && (node in s.work && s.work[node].PodsListed? ==> FinishedIn(s.work[node].listing, node) == {})
  }

  lemma PodStepUnsuspecting(setup: Setup, s: State, e: PodEvent, node: string)
    requires PodEnabled(setup, s, e) && Unsuspecting(s, node) && !EndsVisibly(s, e, node)
    ensures Unsuspecting(ApplyPod(setup, s, e), node)
  {
  }

  lemma WorkStepUnsuspecting(s: State, e: WorkEvent, node: string)
    requires WorkEnabled(s, e) && Unsuspecting(s, node)
    ensures Unsuspecting(ApplyWork(s, e), node)
  {
    match e {
      case SendPatch(key, reply) =>
        ScanFindsLatest(s.work[key].listing, key);
      case ListPods(key, listing) =>
        assert key == node ==> forall pod :: pod in FinishedIn(listing, node) ==> pod in FinishedOn(s.pods, node);
      case _ =>
    }
  }

  lemma StepUnsuspecting(setup: Setup, s: State, e: Event, node: string)
    requires Enabled(setup, Ticked(s), e) && Unsuspecting(s, node)
    requires e.PodStep? ==> !EndsVisibly(s, e.p, node)
    ensures Unsuspecting(Apply(setup, s, e), node)
  {
    var t := Ticked(s);
    assert Unsuspecting(t, node);
    match e {
      case PodStep(p) => PodStepUnsuspecting(setup, t, p, node);
      case NodeStep(n) => NodeStepKeepsMarks(setup, t, n, node);
      case WorkStep(w) => WorkStepUnsuspecting(t, w, node);
    }
  }

  ghost predicate NoVisibleEnd(setup: Setup, s: State, events: seq<Event>, node: string)
    requires Legal(setup, s, events)
    decreases |events|
  {
    events != [] ==>
      && (events[0].PodStep? ==> !EndsVisibly(s, events[0].p, node))
      && NoVisibleEnd(setup, Apply(setup, s, events[0]), events[1..], node)
  }

  /** Over whole runs, with anything in between: as long as no workload ends visibly, the mark stays,
      however many are deleted alive or end without an org label or a time. */
  lemma {:induction false} InvisibleEndsKeepMark(setup: Setup, s: State, events: seq<Event>, node: string)
    requires Legal(setup, s, events) && NoVisibleEnd(setup, s, events, node) && Unsuspecting(s, node)
    ensures Unsuspecting(After(setup, s, events), node)
    decreases |events|
  {
    if events != [] {
      StepUnsuspecting(setup, s, events[0], node);
      InvisibleEndsKeepMark(setup, Apply(setup, s, events[0]), events[1..], node);
    }
  }

  /** Once the only trace of an un-wiped workload is removed before a worker lists it, nothing takes the
      mark away any more: it stays over every run until another workload ends visibly. */
  lemma LostTraceKeepsMark(setup: Setup, s: State, id: string, events: seq<Event>, node: string)
    requires node in s.nodes && PodEnabled(setup, Ticked(s), Remove(id)) && OnlyTrace(s, id, node)
    requires node in s.work && s.work[node].PodsListed? ==> FinishedIn(s.work[node].listing, node) == {}
    requires var t := Apply(setup, s, PodStep(Remove(id))); Legal(setup, t, events) && NoVisibleEnd(setup, t, events, node)
    ensures var t := Apply(setup, s, PodStep(Remove(id)));
            Dirty(t, node) && Unsuspecting(t, node) && Unsuspecting(After(setup, t, events), node)
  {
    var t := Apply(setup, s, PodStep(Remove(id)));
    NoFinishKeepsClean(setup, Ticked(s), Remove(id), node);
    InvisibleEndsKeepMark(setup, t, events, node);
  }

  // ---- Runs on which the clean mark misleads ---------------------------------------------

  const RUNNING := Pod("a", "ns", "n", map[LABEL_ORG := "alpha"], Running, [], None, None)
  const ENDED := RUNNING.(phase := Succeeded, finishTimes := [Some(5)])
  const WAITING := Pod("b", "ns", "", map[LABEL_ORG := "beta", LABEL_PRIVACY := "high"], Phase.Pending, [], None, None)
  const MARKED := map[LABEL_WIPED := "true", LABEL_WIPE_ON_COMPLETE := "true"]
  const STRICT := Policy(RegionPolicy(false, "", ""), PrivacyPolicy(true, "", true, 0),
                         ConfidentialPolicy(false, false, false, "", "", false, 0, ""))

  function CleanNode(): State {
    State(map["n" := MARKED], map["a" := RUNNING, "b" := WAITING], [], EMPTY, map[], None, 0,
          History(1, map["n" := 1], [], {}, map[], map[]))
  }

  lemma CleanNodeStarts()
    ensures CleanStart(CleanNode(), "n")
  {
  }

  lemma WaitingPodAdmitted(codec: TimeCodec)
    ensures Privacy.Admits(STRICT.privacy, WAITING, MARKED, {}, 0, codec)
    ensures Privacy.Level(STRICT.privacy, WAITING) == Privacy.HIGH
  {
  }

  lemma WorkloadEnds(setup: Setup)
    ensures var e := PodStep(Report("a", Succeeded, [Some(5)], None));
            && Enabled(setup, Ticked(CleanNode()), e)
            && var t := Apply(setup, CleanNode(), e);
            && t.pods == map["a" := ENDED, "b" := WAITING] && t.nodes == CleanNode().nodes && t.clock == 0
            && Dirty(t, "n") && Unsettled(t, "n")
  {
    var t := Apply(setup, CleanNode(), PodStep(Report("a", Succeeded, [Some(5)], None)));
    assert Finished(ENDED, "n");
    assert Target(t.notices[0]) == "n";
  }

  /** Between a workload's end and the reconcile the node still shows its old mark, so the theorem
      needs a settled node: a clean start, one event, and the Filter accepts a high-privacy pod on a
      node that has not been wiped since. */
  lemma UnsettledNodeAccepts(codec: TimeCodec)
    ensures var setup := Nexa({Privacy.NAME}, codec);
            var e := PodStep(Report("a", Succeeded, [Some(5)], None));
            && CleanStart(CleanNode(), "n") && Enabled(setup, Ticked(CleanNode()), e)
            && var t := Apply(setup, CleanNode(), e);
            && PodEnabled(setup, t, Bind("b", "n", STRICT))
            && Privacy.Level(STRICT.privacy, t.pods["b"]) == Privacy.HIGH
            && Dirty(t, "n") && Unsettled(t, "n")
  {
    CleanNodeStarts();
    WaitingPodAdmitted(codec);
    WorkloadEnds(Nexa({Privacy.NAME}, codec));
    var t := Apply(Nexa({Privacy.NAME}, codec), CleanNode(), PodStep(Report("a", Succeeded, [Some(5)], None)));
    assert RunningOn(t.pods, "n") == {};
    assert AdmittedBy({Privacy.NAME}, codec, PlacementOf(t, "b", "n", STRICT));
  }

  /** The deletion of the running pod and all that the controller does about it. */
  const DELETED: seq<Event> := [PodStep(Remove("a"))] + WholeRound("n", [WAITING])

  lemma DeletionNoticed(setup: Setup)
    ensures var e := PodStep(Remove("a"));
            && Enabled(setup, Ticked(CleanNode()), e)
            && var t := Apply(setup, CleanNode(), e);
            && t.pods == map["b" := WAITING] && t.nodes == map["n" := MARKED] && t.clock == 0
            && t.history.departed == [Departure(RUNNING, 2)] && t.history.wipedAt == map["n" := 1]
            && "n" !in t.history.dropped && AboutToReconcile(t, "n")
  {
  }

  lemma NothingToReconcile()
    ensures Merge(MARKED, ReconcilePatch(MARKED, [WAITING], "n")) == MARKED
  {
    ScanFindsLatest([WAITING], "n");
    assert ReconcilePatch(MARKED, [WAITING], "n") == map[];
  }

  lemma DeletionKeepsMark(setup: Setup)
    ensures Legal(setup, CleanNode(), DELETED)
    ensures Enabled(setup, Ticked(CleanNode()), DELETED[0])
    ensures Legal(setup, Apply(setup, CleanNode(), DELETED[0]), DELETED[1..])
    ensures var t := After(setup, CleanNode(), DELETED);
            && !Unsettled(t, "n") && "n" !in t.history.dropped && t.nodes == CleanNode().nodes
            && t.pods == map["b" := WAITING] && t.clock == 0
            && t.history.departed == [Departure(RUNNING, 2)] && t.history.wipedAt == map["n" := 1]
  {
    DeletionNoticed(setup);
    var u := Apply(setup, CleanNode(), PodStep(Remove("a")));
    assert u.pods["b"] == WAITING;
    WholeRoundReconciles(setup, u, "n", [WAITING]);
    OneMore(setup, CleanNode(), PodStep(Remove("a")), WholeRound("n", [WAITING]));
    NothingToReconcile();
  }

  lemma DeletionIsCareful(setup: Setup)
    ensures Legal(setup, CleanNode(), DELETED) && CarefulRun(setup, CleanNode(), DELETED, "n")
  {
    DeletionNoticed(setup);
    DeletionKeepsMark(setup);
    EndIsCareful(setup, CleanNode(), Remove("a"), "n", [WAITING]);
  }

  lemma WaitingPodBinds(t: State, codec: TimeCodec)
    requires t.pods in {map["b" := WAITING], map["a" := ENDED, "b" := WAITING]}
    requires t.nodes == map["n" := MARKED] && t.clock == 0
    ensures PodEnabled(Nexa({Privacy.NAME}, codec), t, Bind("b", "n", STRICT))
  {
    WaitingPodAdmitted(codec);
    assert RunningOn(t.pods, "n") == {};
    assert AdmittedBy({Privacy.NAME}, codec, PlacementOf(t, "b", "n", STRICT));
  }

  /** And a node that is settled may follow an un-wiped workload if its pod was deleted alive: from a
      clean start, by a run that respects all that operators must, the node ends settled and marked,
      and the Filter admits beta's high-privacy pod right behind alpha's workload. */
  lemma DeletedWorkloadIsFollowed(codec: TimeCodec)
    ensures var setup := Nexa({Privacy.NAME}, codec);
            && CleanStart(CleanNode(), "n") && Legal(setup, CleanNode(), DELETED)
            && CarefulRun(setup, CleanNode(), DELETED, "n")
            && var t := After(setup, CleanNode(), DELETED);
            && !Unsettled(t, "n") && "n" !in t.history.dropped && t.nodes == CleanNode().nodes
            && !FollowsNoUnwiped(t, "n") && !Dirty(t, "n")
            && PodEnabled(setup, t, Bind("b", "n", STRICT))
            && Privacy.Level(STRICT.privacy, t.pods["b"]) == Privacy.HIGH && Org(t.pods["b"]) != Org(RUNNING)
  {
    var setup := Nexa({Privacy.NAME}, codec);
    CleanNodeStarts();
    WaitingPodAdmitted(codec);
    DeletionKeepsMark(setup);
    DeletionIsCareful(setup);
    var t := After(setup, CleanNode(), DELETED);
    WaitingPodBinds(t, codec);
    assert !WipedSince(t, t.history.departed[0], "n") && !Finished(RUNNING, "n");
  }

  /** The running pod finishes visibly but is removed before any worker lists the pods. */
  const REMOVED: seq<Event> :=
    [PodStep(Report("a", Succeeded, [Some(5)], None))] + REMOVED_AFTER
  const REMOVED_AFTER: seq<Event> := [PodStep(Remove("a"))] + ([WorkStep(Deliver)] + WholeRound("n", [WAITING]))

  /** The state after the finish. */
  ghost predicate JustFinished(t: State) {
    && t.pods == map["a" := ENDED, "b" := WAITING] && t.nodes == map["n" := MARKED] && t.clock == 0
    && t.history.departed == [Departure(ENDED, 2)] && t.history.wipedAt == map["n" := 1] && t.history.dropped == {}
    && t.queue == EMPTY && t.work == map[] && t.notices == [Updated(RUNNING, ENDED)]
  }

  lemma FinishNoticed(setup: Setup)
    ensures Enabled(setup, Ticked(CleanNode()), REMOVED[0]) && JustFinished(Apply(setup, CleanNode(), REMOVED[0]))
  {
    WorkloadEnds(setup);
  }

  lemma RemovalNoticed(setup: Setup, t: State)
    requires JustFinished(t)
    ensures Enabled(setup, Ticked(t), PodStep(Remove("a"))) && OnlyTrace(t, "a", "n")
    ensures var u := Apply(setup, t, PodStep(Remove("a")));
            && Enabled(setup, Ticked(u), WorkStep(Deliver))
            && var v := Apply(setup, u, WorkStep(Deliver));
            && AboutToReconcile(v, "n") && v.pods == map["b" := WAITING] && v.nodes == t.nodes && v.clock == 0
            && v.history.departed == t.history.departed && v.history.wipedAt == t.history.wipedAt && v.history.dropped == {}
  {
    EndedIsOnlyTrace(t);
    var u := Apply(setup, t, PodStep(Remove("a")));
    assert u.notices == [Updated(RUNNING, ENDED), Removed(PodObject(ENDED))];
  }

  lemma EndedIsOnlyTrace(t: State)
    requires JustFinished(t)
    ensures OnlyTrace(t, "a", "n")
  {
    assert t.history.departed[0] == Departure(ENDED, 2) && Finished(ENDED, "n");
  }

  lemma RemovalHandled(setup: Setup, t: State)
    requires JustFinished(t)
    ensures Legal(setup, t, REMOVED_AFTER)
    ensures var u := After(setup, t, REMOVED_AFTER);
            && !Unsettled(u, "n") && "n" !in u.history.dropped && u.nodes == map["n" := MARKED]
            && u.pods == map["b" := WAITING] && u.clock == 0
            && u.history.departed == [Departure(ENDED, 2)] && u.history.wipedAt == map["n" := 1]
  {
    var round, remove := WholeRound("n", [WAITING]), PodStep(Remove("a"));
    RemovalNoticed(setup, t);
    var u := Apply(setup, t, remove);
    var v := Apply(setup, u, WorkStep(Deliver));
    assert v.pods["b"] == WAITING;
    WholeRoundReconciles(setup, v, "n", [WAITING]);
    NothingToReconcile();
    OneMore(setup, u, WorkStep(Deliver), round);
    OneMore(setup, t, remove, [WorkStep(Deliver)] + round);
  }

  lemma RemovalKeepsMark(setup: Setup)
    ensures Legal(setup, CleanNode(), REMOVED)
    ensures var t := After(setup, CleanNode(), REMOVED);
            && !Unsettled(t, "n") && "n" !in t.history.dropped && t.nodes == map["n" := MARKED]
            && t.pods == map["b" := WAITING] && t.clock == 0
            && t.history.departed == [Departure(ENDED, 2)] && t.history.wipedAt == map["n" := 1]
  {
    FinishNoticed(setup);
    var t := Apply(setup, CleanNode(), REMOVED[0]);
    RemovalHandled(setup, t);
    OneMore(setup, CleanNode(), REMOVED[0], REMOVED_AFTER);
  }

  /** The other way: the pod finishes as it should, but is removed as the only trace. From a clean start
      the node ends settled and marked, and the Filter admits beta's high-privacy pod behind alpha's. */
  lemma RemovedWorkloadIsFollowed(codec: TimeCodec)
    ensures var setup := Nexa({Privacy.NAME}, codec);
            && CleanStart(CleanNode(), "n") && Legal(setup, CleanNode(), REMOVED)
            && Enabled(setup, Ticked(CleanNode()), REMOVED[0])
            && var finished := Apply(setup, CleanNode(), REMOVED[0]);
            && JustFinished(finished) && OnlyTrace(finished, "a", "n")
            && var t := After(setup, CleanNode(), REMOVED);
            && !Unsettled(t, "n") && "n" !in t.history.dropped && t.nodes == CleanNode().nodes && Dirty(t, "n")
            && PodEnabled(setup, t, Bind("b", "n", STRICT))
            && Privacy.Level(STRICT.privacy, t.pods["b"]) == Privacy.HIGH && Org(t.pods["b"]) != Org(ENDED)
  {
    var setup := Nexa({Privacy.NAME}, codec);
    CleanNodeStarts();
    WaitingPodAdmitted(codec);
    FinishNoticed(setup);
    EndedIsOnlyTrace(Apply(setup, CleanNode(), REMOVED[0]));
    RemovalKeepsMark(setup);
    var t := After(setup, CleanNode(), REMOVED);
    WaitingPodBinds(t, codec);
    assert Finished(t.history.departed[0].pod, "n") && !WipedSince(t, t.history.departed[0], "n");
  }

  /** Round after round a lister fails, from a given number of earlier failures until the key is dropped. */
  function Failing(node: string, failures: nat): seq<Event>
    decreases MAX_RETRIES - failures
  {
    [WorkStep(Get)] + ([WorkStep(ListerError(node))] +
      if failures < MAX_RETRIES then [WorkStep(DelayOver(node))] + Failing(node, failures + 1) else [])
  }

  /** The state once the node has been dropped. */
  function GivenUp(s: State, node: string, steps: nat): State {
    s.(queue := EMPTY, history := s.history.(tick := s.history.tick + steps, dropped := s.history.dropped + {node}))
  }

  lemma FailedSettle(node: string, failures: nat)
    requires failures <= MAX_RETRIES
    ensures var q := Take(Retry.OnlyKey(node, failures));
            && q.processing == {node} && NumRequeues(q, node) == failures
            && Settle(q, node, true) == if failures < MAX_RETRIES then Queue([], {}, {}, {node}, map[node := failures + 1]) else EMPTY
  {
  }

  /** The end of one failed round; its retry has not come back yet, or there is none. */
  function RoundFailed(s: State, node: string, failures: nat): State {
    var h := s.history.(tick := s.history.tick + 2);
    if failures < MAX_RETRIES
    then s.(queue := Queue([], {}, {}, {node}, map[node := failures + 1]), history := h)
    else s.(queue := EMPTY, history := h.(dropped := h.dropped + {node}))
  }

  lemma OneFailure(setup: Setup, s: State, node: string, failures: nat, rest: seq<Event>)
    requires s.queue == Retry.OnlyKey(node, failures) && s.work == map[] && failures <= MAX_RETRIES
    requires Legal(setup, RoundFailed(s, node, failures), rest)
    ensures var events := [WorkStep(Get)] + ([WorkStep(ListerError(node))] + rest);
            Legal(setup, s, events) && After(setup, s, events) == After(setup, RoundFailed(s, node, failures), rest)
  {
    FailedSettle(node, failures);
    var claimed := Apply(setup, s, WorkStep(Get));
    assert claimed.work == map[node := Claimed] && claimed.work - {node} == s.work;
    assert Apply(setup, claimed, WorkStep(ListerError(node))) == RoundFailed(s, node, failures);
    OneMore(setup, claimed, WorkStep(ListerError(node)), rest);
    OneMore(setup, s, WorkStep(Get), [WorkStep(ListerError(node))] + rest);
  }

  /** The delay of the retry passes. */
  function Retried(s: State, node: string, failures: nat): State {
    s.(queue := Retry.OnlyKey(node, failures), history := s.history.(tick := s.history.tick + 1))
  }

  lemma DelayPasses(setup: Setup, s: State, node: string, failures: nat, rest: seq<Event>)
    requires s.queue == Queue([], {}, {}, {node}, map[node := failures]) && failures > 0
    requires Legal(setup, Retried(s, node, failures), rest)
    ensures var events := [WorkStep(DelayOver(node))] + rest;
            Legal(setup, s, events) && After(setup, s, events) == After(setup, Retried(s, node, failures), rest)
  {
    assert Elapse(s.queue, node) == Retry.OnlyKey(node, failures);
    OneMore(setup, s, WorkStep(DelayOver(node)), rest);
  }

  lemma {:induction false} FailuresDrop(setup: Setup, s: State, node: string, failures: nat)
    requires s.queue == Retry.OnlyKey(node, failures) && s.work == map[] && failures <= MAX_RETRIES
    ensures Legal(setup, s, Failing(node, failures))
    ensures After(setup, s, Failing(node, failures)) == GivenUp(s, node, 3 * (MAX_RETRIES - failures) + 2)
    decreases MAX_RETRIES - failures
  {
    if failures < MAX_RETRIES {
      var rest := Failing(node, failures + 1);
      var waiting := RoundFailed(s, node, failures);
      FailuresDrop(setup, Retried(waiting, node, failures + 1), node, failures + 1);
      DelayPasses(setup, waiting, node, failures + 1, rest);
      OneFailure(setup, s, node, failures, [WorkStep(DelayOver(node))] + rest);
    } else {
      OneFailure(setup, s, node, failures, []);
    }
  }

  /** The running pod finishes visibly, but a lister fails in every round until the node is dropped. */
  const DROPPED: seq<Event> :=
    [PodStep(Report("a", Succeeded, [Some(5)], None))] + ([WorkStep(Deliver)] + Failing("n", 0))

  lemma FinishDelivered(setup: Setup, t: State)
    requires JustFinished(t)
    ensures Enabled(setup, Ticked(t), WorkStep(Deliver))
    ensures var u := Apply(setup, t, WorkStep(Deliver));
            && u.queue == Retry.OnlyKey("n", 0) && u.work == map[] && u.notices == []
            && u.pods == t.pods && u.nodes == t.nodes && u.clock == 0
            && u.history.departed == t.history.departed && u.history.wipedAt == t.history.wipedAt
  {
    assert Target(t.notices[0]) == "n";
  }

  lemma DropKeepsMark(setup: Setup)
    ensures Legal(setup, CleanNode(), DROPPED)
    ensures var t := After(setup, CleanNode(), DROPPED);
            && !Unsettled(t, "n") && t.nodes == map["n" := MARKED]
            && t.pods == map["a" := ENDED, "b" := WAITING] && t.clock == 0
            && t.history.departed == [Departure(ENDED, 2)] && t.history.wipedAt == map["n" := 1]
  {
    FinishNoticed(setup);
    var t := Apply(setup, CleanNode(), DROPPED[0]);
    FinishDelivered(setup, t);
    FailuresDrop(setup, Apply(setup, t, WorkStep(Deliver)), "n", 0);
    OneMore(setup, t, WorkStep(Deliver), Failing("n", 0));
    OneMore(setup, CleanNode(), DROPPED[0], [WorkStep(Deliver)] + Failing("n", 0));
  }

  /** And the third: the controller has to give the node up. Nothing is pending any more, the mark is
      still there, and the Filter admits beta's high-privacy pod behind alpha's finished workload. */
  lemma DroppedNodeMisleads(codec: TimeCodec)
    ensures var setup := Nexa({Privacy.NAME}, codec);
            && CleanStart(CleanNode(), "n") && Legal(setup, CleanNode(), DROPPED)
            && var t := After(setup, CleanNode(), DROPPED);
            && !Unsettled(t, "n") && t.nodes == CleanNode().nodes && Dirty(t, "n")
            && PodEnabled(setup, t, Bind("b", "n", STRICT))
            && Privacy.Level(STRICT.privacy, t.pods["b"]) == Privacy.HIGH && Org(t.pods["b"]) != Org(ENDED)
  {
    var setup := Nexa({Privacy.NAME}, codec);
    CleanNodeStarts();
    WaitingPodAdmitted(codec);
    DropKeepsMark(setup);
    var t := After(setup, CleanNode(), DROPPED);
    WaitingPodBinds(t, codec);
    assert Finished(t.history.departed[0].pod, "n") && !WipedSince(t, t.history.departed[0], "n");
  }
}
