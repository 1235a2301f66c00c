/** What the node state controller computes from a node's labels and the pod list. */
module NodeState {
  import opened Labels
  import opened Objects
  import opened Wrappers

  /** The finish time of the first terminated container that has one; else the start time; else Go's
      zero time. */
  function TerminationTime(pod: Pod): int {
    var finish := FirstFinish(pod.finishTimes);
    if finish.Some? then finish.value else if pod.startTime.Some? then pod.startTime.value else 0
  }

  function FirstFinish(times: seq<Option<int>>): Option<int> {
    if times == [] then None
    else if times[0].Some? && times[0].value != 0 then times[0]
    else FirstFinish(times[1..])
  }

  /** The time is that of the first container that has terminated at a real time, however late others
      finish; only a pod without one falls back on its start. */
  lemma {:induction false} FirstContainerDecides(times: seq<Option<int>>, i: nat)
    requires i < |times| && times[i].Some? && times[i].value != 0
    requires forall j :: 0 <= j < i ==> times[j] in {None, Some(0)}
    ensures FirstFinish(times) == times[i]
  {
    if i > 0 {
      assert times[0] in {None, Some(0)};
      assert forall j :: 0 <= j < i - 1 ==> times[1..][j] == times[j + 1];
      FirstContainerDecides(times[1..], i - 1);
    }
  }

  lemma {:induction false} StartTimeDecides(pod: Pod)
    requires forall j :: 0 <= j < |pod.finishTimes| ==> pod.finishTimes[j] in {None, Some(0)}
    ensures TerminationTime(pod) == if pod.startTime.Some? then pod.startTime.value else 0
    decreases |pod.finishTimes|
  {
    if pod.finishTimes != [] {
      assert pod.finishTimes[0] in {None, Some(0)};
      assert forall j :: 0 <= j < |pod.finishTimes| - 1 ==> pod.finishTimes[1..][j] == pod.finishTimes[j + 1];
      StartTimeDecides(pod.(finishTimes := pod.finishTimes[1..]));
    }
  }

  /** A pod that counts for the node's history: terminated there, org-labelled, and finished at a
      time after Go's zero time. */
  predicate Finished(pod: Pod, node: string) {
    pod.nodeName == node && Terminated(pod) && Org(pod) != "" && TerminationTime(pod) > 0
  }

  /** The scan over the pod list: the org and finish time of the first pod that no earlier pod ties. */
  function Scan(listing: seq<Pod>, node: string): (string, int) {
    if listing == [] then ("", 0)
    else
      var last := |listing| - 1;
      var (org, time) := Scan(listing[..last], node);
      var pod := listing[last];
      if Finished(pod, node) && TerminationTime(pod) > time then (Org(pod), TerminationTime(pod)) else (org, time)
  }

  ghost function FinishedIn(listing: seq<Pod>, node: string): set<Pod> {
    set pod | pod in listing && Finished(pod, node)
  }

  /** The pod finished last among those given; ties are possible. */
  ghost predicate Latest(pod: Pod, finished: set<Pod>) {
    pod in finished && forall other :: other in finished ==> TerminationTime(other) <= TerminationTime(pod)
  }

  /** The scan finds the org and time of a latest finished pod, and nothing only when there is none. */
  lemma {:induction false} ScanFindsLatest(listing: seq<Pod>, node: string)
    ensures FinishedIn(listing, node) == {} ==> Scan(listing, node) == ("", 0)
    ensures FinishedIn(listing, node) != {} ==>
              exists pod :: Latest(pod, FinishedIn(listing, node)) && Scan(listing, node) == (Org(pod), TerminationTime(pod))
  {
    if listing != [] {
      var last := |listing| - 1;
      var pod, before := listing[last], FinishedIn(listing[..last], node);
      ScanFindsLatest(listing[..last], node);
      var now := FinishedIn(listing, node);
      assert now == before + if Finished(pod, node) then {pod} else {} by {
        assert listing == listing[..last] + [pod];
      }
      if now != {} {
        if Finished(pod, node) && TerminationTime(pod) > Scan(listing[..last], node).1 {
          assert Latest(pod, now);
        } else {
          assert before != {};
          var kept :| Latest(kept, before) && Scan(listing[..last], node) == (Org(kept), TerminationTime(kept));
          assert Latest(kept, now);
        }
      }
    }
  }

  /** The pod at the place is the first of those finished last. */
  ghost predicate FirstOfLatest(listing: seq<Pod>, node: string, i: nat) {
    && i < |listing| && Latest(listing[i], FinishedIn(listing, node))
    && forall j :: 0 <= j < i && Finished(listing[j], node) ==> TerminationTime(listing[j]) < TerminationTime(listing[i])
  }

  /** When several pods tie, the one listed first decides. */
  lemma {:induction false} TiesGoToFirst(listing: seq<Pod>, node: string)
    requires FinishedIn(listing, node) != {}
    ensures exists i: nat :: FirstOfLatest(listing, node, i) && Scan(listing, node) == (Org(listing[i]), TerminationTime(listing[i]))
  {
    var last := |listing| - 1;
    var init, pod := listing[..last], listing[last];
    assert listing == init + [pod];
    ScanFindsLatest(init, node);
    if Finished(pod, node) && TerminationTime(pod) > Scan(init, node).1 {
      assert forall j :: 0 <= j < last && Finished(listing[j], node) ==> listing[j] in FinishedIn(init, node);
      assert FirstOfLatest(listing, node, last);
    } else {
      assert FinishedIn(init, node) != {};
      TiesGoToFirst(init, node);
      var i: nat :| FirstOfLatest(init, node, i) && Scan(init, node) == (Org(init[i]), TerminationTime(init[i]));
      assert forall p :: p in FinishedIn(listing, node) ==> p == pod || p in FinishedIn(init, node);
      assert FirstOfLatest(listing, node, i);
    }
  }

  /** The same pods in another order give the same latest time, and the same org too unless pods of
      different orgs tie for the latest time. */
  lemma ScanOrderIndependent(a: seq<Pod>, b: seq<Pod>, node: string)
    requires forall pod :: pod in a <==> pod in b
    ensures Scan(a, node).1 == Scan(b, node).1
    ensures (forall p, q :: Latest(p, FinishedIn(a, node)) && Latest(q, FinishedIn(a, node)) ==> Org(p) == Org(q))
            ==> Scan(a, node) == Scan(b, node)
  {
    assert FinishedIn(a, node) == FinishedIn(b, node);
    ScanFindsLatest(a, node);
    ScanFindsLatest(b, node);
  }

  /** The label patch of one reconcile; an empty patch is not sent. */
  function ReconcilePatch(labels: LabelMap, listing: seq<Pod>, node: string): Patch {
    var (org, time) := Scan(listing, node);
    (if org != "" && Value(labels, LABEL_LAST_ORG) != org then map[LABEL_LAST_ORG := Put(org)] else map[])
    + (if Value(labels, LABEL_WIPE_ON_COMPLETE) == "true" && Value(labels, LABEL_WIPED) == "true" && time != 0
       then map[LABEL_WIPED := Put("false"), LABEL_WIPE_TIMESTAMP := Change.Delete] else map[])
  }

  lemma ReconcilePatchKeys(labels: LabelMap, listing: seq<Pod>, node: string)
    ensures ReconcilePatch(labels, listing, node).Keys <= NODE_STATE_KEYS
  {
  }

  /** What a reconcile that read the given labels does to the labels it patches, even when the node
      has been relabelled in between: the org is the latest finished pod's, a stale clean mark goes
      together with its timestamp, and nothing else moves. */
  lemma PatchEffect(read: LabelMap, current: LabelMap, listing: seq<Pod>, node: string)
    requires Value(read, "nexa.io/last-workload-org") == Value(current, "nexa.io/last-workload-org")
    ensures var after := Merge(current, ReconcilePatch(read, listing, node));
            && (FinishedIn(listing, node) == {} ==> Value(after, "nexa.io/last-workload-org") == Value(current, "nexa.io/last-workload-org"))
            && (FinishedIn(listing, node) != {} ==>
                  exists pod :: Latest(pod, FinishedIn(listing, node)) && Value(after, "nexa.io/last-workload-org") == Org(pod))
            && (if Value(read, "nexa.io/wipe-on-complete") == "true" && Value(read, "nexa.io/wiped") == "true"
                   && FinishedIn(listing, node) != {}
                then Value(after, "nexa.io/wiped") == "false" && "nexa.io/wipe-timestamp" !in after
                else SameOn({"nexa.io/wiped", "nexa.io/wipe-timestamp"}, after, current))
            && (forall key :: key !in NODE_STATE_KEYS ==> Value(after, key) == Value(current, key))
  {
    ScanFindsLatest(listing, node);
    ReconcilePatchKeys(read, listing, node);
    var patch := ReconcilePatch(read, listing, node);
    forall key | key !in NODE_STATE_KEYS
      ensures Value(Merge(current, patch), key) == Value(current, key)
    {
      assert key !in patch.Keys;
    }
  }

  /** Reconciling again on the same pod list finds nothing left to do. */
  lemma ReconcileFixpoint(labels: LabelMap, listing: seq<Pod>, node: string)
    ensures ReconcilePatch(Merge(labels, ReconcilePatch(labels, listing, node)), listing, node) == map[]
  {
    ScanFindsLatest(listing, node);
    PatchEffect(labels, labels, listing, node);
  }

  /** With another order of the list it can flip the org, but only between pods that tie. */
  lemma ReconcileFixpointAnyOrder(labels: LabelMap, a: seq<Pod>, b: seq<Pod>, node: string)
    requires forall pod :: pod in a <==> pod in b
    ensures var again := ReconcilePatch(Merge(labels, ReconcilePatch(labels, a, node)), b, node);
            again != map[] <==> Scan(a, node).0 != Scan(b, node).0
    ensures Scan(a, node).0 != Scan(b, node).0 ==>
              exists p, q :: Latest(p, FinishedIn(a, node)) && Latest(q, FinishedIn(a, node)) && Org(p) != Org(q)
  {
    assert FinishedIn(a, node) == FinishedIn(b, node);
    ScanFindsLatest(a, node);
    ScanFindsLatest(b, node);
    PatchEffect(labels, labels, a, node);
    var after := Merge(labels, ReconcilePatch(labels, a, node));
    if Scan(a, node).0 != Scan(b, node).0 {
      assert Value(after, LABEL_LAST_ORG) == Scan(a, node).0;
      assert LABEL_LAST_ORG in ReconcilePatch(after, b, node);
    }
  }
}
