/** The node state controller: event handlers, the reconcile loop over its work queue, and the patches it sends. */
module Controller {
  import opened Labels
  import opened NodeState
  import opened Objects
  import opened WorkQueue
  import opened Wrappers

  /** How the API server answers a patch: done, refused, or done although the client sees an error. */
  datatype Reply = Applied | Refused | AppliedUnseen

  class ApiServer {
    var nodes: map<string, LabelMap>

    constructor (nodes: map<string, LabelMap>)
      ensures this.nodes == nodes
    {
      this.nodes := nodes;
    }

    method PatchNode(name: string, patch: Patch, reply: Reply) returns (ok: bool)
      modifies this
      ensures nodes == AfterPatch(old(nodes), name, patch, reply)
      ensures name !in old(nodes) || reply.Refused? ==> nodes == old(nodes)
      ensures name in old(nodes) && !reply.Refused? ==> nodes == old(nodes)[name := Merge(old(nodes)[name], patch)]
      ensures ok <==> name in old(nodes) && reply.Applied?
    {
      if name in nodes && !reply.Refused? {
        nodes := nodes[name := Merge(nodes[name], patch)];
      }
      ok := name in nodes && reply.Applied?;
    }
  }

  function AfterPatch(nodes: map<string, LabelMap>, name: string, patch: Patch, reply: Reply): map<string, LabelMap> {
    if name in nodes && !reply.Refused? then nodes[name := Merge(nodes[name], patch)] else nodes
  }

  /** What the informer delivers. A deleted object is the pod, or a tombstone that may hold the pod. */
  datatype DeletedObject = PodObject(pod: Pod) | Tombstone(last: Option<Pod>) | OtherObject

  datatype Notice = Updated(before: Pod, after: Pod) | Removed(deleted: DeletedObject)

  /** The node a notice puts on the queue, or "" for none. */
  function Target(notice: Notice): string {
    match notice
    case Updated(before, after) => if Terminated(after) && !Terminated(before) then after.nodeName else ""
    case Removed(PodObject(pod)) => pod.nodeName
    case Removed(Tombstone(Some(pod))) => pod.nodeName
    case Removed(_) => ""
  }

  function Handle(q: Queue, notice: Notice): Queue {
    if Target(notice) != "" then Add(q, Target(notice)) else q
  }

  /** What a reconcile round can learn from its environment: the node lister's view, the pod lister's
      answer (None for an error) and the reply to its patch. */
  datatype Round = Round(cached: map<string, LabelMap>, listed: Option<seq<Pod>>, reply: Reply)

  /** The patch a round arrives at; None if a lister fails first. */
  function RoundPatch(round: Round, node: string): Option<Patch> {
    if node !in round.cached || round.listed.None? then None
    else Some(ReconcilePatch(round.cached[node], round.listed.value, node))
  }

  predicate RoundFails(round: Round, nodes: map<string, LabelMap>, node: string) {
    match RoundPatch(round, node)
    case None => true
    case Some(patch) => patch != map[] && !(node in nodes && round.reply.Applied?)
  }

  function RoundNodes(round: Round, nodes: map<string, LabelMap>, node: string): map<string, LabelMap> {
    match RoundPatch(round, node)
    case None => nodes
    case Some(patch) => if patch == map[] then nodes else AfterPatch(nodes, node, patch, round.reply)
  }

  class NodeStateController {
    const api: ApiServer
    var queue: Queue

    constructor (api: ApiServer)
      ensures this.api == api && queue == EMPTY
    {
      this.api := api;
      queue := EMPTY;
    }

    method PodUpdated(before: Pod, after: Pod)
      modifies this`queue
      ensures queue == Handle(old(queue), Updated(before, after))
      ensures queue == if after.phase in {Succeeded, Failed} && before.phase !in {Succeeded, Failed} && after.nodeName != ""
                       then Add(old(queue), after.nodeName) else old(queue)
    {
      if Terminated(after) && !Terminated(before) && after.nodeName != "" {
        queue := Add(queue, after.nodeName);
      }
    }

    method HandlePodDelete(deleted: DeletedObject)
      modifies this`queue
      ensures queue == Handle(old(queue), Removed(deleted))
      ensures match deleted
              case PodObject(pod) => queue == if pod.nodeName != "" then Add(old(queue), pod.nodeName) else old(queue)
              case Tombstone(Some(pod)) => queue == if pod.nodeName != "" then Add(old(queue), pod.nodeName) else old(queue)
              case _ => queue == old(queue)
    {
      var pod: Pod;
      match deleted {
        case PodObject(p) => pod := p;
        case Tombstone(Some(p)) => pod := p;
        case _ => return;
      }
      if pod.nodeName != "" {
        queue := Add(queue, pod.nodeName);
      }
    }

    method PodTerminationTime(pod: Pod) returns (time: int)
      ensures time == TerminationTime(pod)
    {
      for i := 0 to |pod.finishTimes|
        invariant FirstFinish(pod.finishTimes) == FirstFinish(pod.finishTimes[i..])
      {
        if pod.finishTimes[i].Some? && pod.finishTimes[i].value != 0 {
          return pod.finishTimes[i].value;
        }
        assert pod.finishTimes[i..][1..] == pod.finishTimes[i + 1..];
      }
      if pod.startTime.Some? {
        return pod.startTime.value;
      }
      return 0;
    }

    /** The scan of the pod list for the last finished workload on the node. */
    method LastWorkload(listing: seq<Pod>, node: string) returns (lastOrg: string, latestTermination: int)
      ensures (lastOrg, latestTermination) == Scan(listing, node)
      ensures lastOrg == "" <==> forall pod :: pod in listing ==> !EndedHere(pod, node)
      ensures lastOrg != "" ==> exists i: nat ::
                && EndedLast(listing, node, i)
                && lastOrg == listing[i].labels["nexa.io/org"] && latestTermination == TerminationTime(listing[i])
    {
      FoundLatest(listing, node);
      lastOrg, latestTermination := "", 0;
      ScanTimeNonNegative(listing[..0], node);
      for i := 0 to |listing|
        invariant (lastOrg, latestTermination) == Scan(listing[..i], node)
      {
        var pod := listing[i];
        assert listing[..i + 1][..i] == listing[..i];
        ScanTimeNonNegative(listing[..i], node);
        if pod.nodeName != node || !Terminated(pod) {
          continue;
        }
        var org := PodLabel(pod, LABEL_ORG);
        if org == "" {
          continue;
        }
        var termTime := PodTerminationTime(pod);
        if termTime > latestTermination {
          latestTermination, lastOrg := termTime, org;
        }
      }
      assert listing[..|listing|] == listing;
    }

    method ReconcileNode(node: string, round: Round) returns (failed: bool)
      modifies api
      ensures failed <==> RoundFails(round, old(api.nodes), node)
      ensures api.nodes == RoundNodes(round, old(api.nodes), node)
      ensures node !in round.cached || round.listed.None? ==> failed && api.nodes == old(api.nodes)
      ensures node in round.cached && round.listed.Some? ==>
                var stale := Stale(round.cached[node], round.listed.value, node);
                && (failed <==> stale && !(node in old(api.nodes) && round.reply.Applied?))
                && (!stale ==> api.nodes == old(api.nodes))
    {
      if node in round.cached && round.listed.Some? {
        NoPatchExactly(round.cached[node], round.listed.value, node);
      }
      if node !in round.cached {
        return true;
      }
      var labels := round.cached[node];
      if round.listed.None? {
        return true;
      }
      var lastOrg, latestTermination := LastWorkload(round.listed.value, node);
      var patch: Patch := map[];
      var changed := false;
      if lastOrg != "" && Value(labels, LABEL_LAST_ORG) != lastOrg {
        patch := patch[LABEL_LAST_ORG := Put(lastOrg)];
        changed := true;
      }
      if Value(labels, LABEL_WIPE_ON_COMPLETE) == "true" && Value(labels, LABEL_WIPED) == "true" && latestTermination != 0 {
        patch := patch[LABEL_WIPED := Put("false")];
        patch := patch[LABEL_WIPE_TIMESTAMP := Change.Delete];
        changed := true;
      }
      assert patch == ReconcilePatch(labels, round.listed.value, node);
      assert changed <==> patch != map[] by {
        if changed { assert LABEL_LAST_ORG in patch || LABEL_WIPED in patch; }
      }
      if !changed {
        return false;
      }
      var ok := api.PatchNode(node, patch, round.reply);
      failed := !ok;
    }

    /** One turn of a worker. Get blocks on an empty queue, so a key is in line unless the queue is
        shut down. */
    method ProcessNextWorkItem(shutdown: bool, round: Round) returns (more: bool)
      requires shutdown || queue.order != []
      modifies this`queue, api
      ensures more == !shutdown
      ensures shutdown ==> queue == old(queue) && api.nodes == old(api.nodes)
      ensures !shutdown ==>
                var node := old(queue).order[0];
                && queue == Settle(Take(old(queue)), node, RoundFails(round, old(api.nodes), node))
                && api.nodes == RoundNodes(round, old(api.nodes), node)
      ensures !shutdown && (old(queue).order[0] !in round.cached || round.listed.None?) ==>
                var node := old(queue).order[0];
                && api.nodes == old(api.nodes) && node !in queue.processing
                && (NumRequeues(old(queue), node) < 5 ==>
                      node in queue.waiting && NumRequeues(queue, node) == NumRequeues(old(queue), node) + 1)
                && (NumRequeues(old(queue), node) >= 5 ==> queue.waiting == old(queue).waiting && NumRequeues(queue, node) == 0)
    {
      if shutdown {
        return false;
      }
      var node := queue.order[0];
      queue := Take(queue);
      var failed := ReconcileNode(node, round);
      if failed {
        if NumRequeues(queue, node) < MAX_RETRIES {
          queue := AddRateLimited(queue, node);
          queue := Done(queue, node);
          return true;
        }
      }
      queue := Forget(queue, node);
      queue := Done(queue, node);
      return true;
    }
  }

  lemma {:induction false} ScanTimeNonNegative(listing: seq<Pod>, node: string)
    ensures Scan(listing, node).1 >= 0
  {
    if listing != [] {
      ScanTimeNonNegative(listing[..|listing| - 1], node);
    }
  }

  /** The pod counts for the node's history, field by field. */
  ghost predicate EndedHere(pod: Pod, node: string) {
    && pod.nodeName == node && pod.phase in {Succeeded, Failed}
    && "nexa.io/org" in pod.labels && pod.labels["nexa.io/org"] != ""
    && TerminationTime(pod) > 0
  }

  /** No pod listed ended later on the node, and none listed before it as late. */
  ghost predicate EndedLast(listing: seq<Pod>, node: string, i: nat) {
    && i < |listing| && EndedHere(listing[i], node)
    && forall j :: 0 <= j < |listing| && EndedHere(listing[j], node) ==>
         TerminationTime(listing[j]) <= TerminationTime(listing[i])
         && (j < i ==> TerminationTime(listing[j]) < TerminationTime(listing[i]))
  }

  lemma FoundLatest(listing: seq<Pod>, node: string)
    ensures var (org, time) := Scan(listing, node);
            && (org == "" <==> forall pod :: pod in listing ==> !EndedHere(pod, node))
            && (org != "" ==> exists i: nat ::
                  EndedLast(listing, node, i) && org == listing[i].labels["nexa.io/org"] && time == TerminationTime(listing[i]))
  {
    ScanFindsLatest(listing, node);
    assert forall pod :: pod in FinishedIn(listing, node) <==> pod in listing && EndedHere(pod, node);
    if FinishedIn(listing, node) != {} {
      TiesGoToFirst(listing, node);
      var i: nat :| FirstOfLatest(listing, node, i) && Scan(listing, node) == (Org(listing[i]), TerminationTime(listing[i]));
      assert EndedLast(listing, node, i);
    }
  }

  /** What was read calls for a patch: the recorded organisation is not that of the workload found
      last, or a node to be wiped on completion still carries its mark although a workload finished. */
  ghost predicate Stale(read: LabelMap, listing: seq<Pod>, node: string) {
    && (exists pod :: pod in listing && EndedHere(pod, node))
    && (|| !Carries(read, "nexa.io/last-workload-org", Scan(listing, node).0)
        || (Carries(read, "nexa.io/wipe-on-complete", "true") && Carries(read, "nexa.io/wiped", "true")))
  }

  lemma NoPatchExactly(read: LabelMap, listing: seq<Pod>, node: string)
    ensures ReconcilePatch(read, listing, node) == map[] <==> !Stale(read, listing, node)
  {
    FoundLatest(listing, node);
    ScanFindsLatest(listing, node);
    var patch := ReconcilePatch(read, listing, node);
    if Stale(read, listing, node) {
      assert LABEL_LAST_ORG in patch || LABEL_WIPED in patch;
    }
  }

  /** When a round fails, and what it leaves: without an answer of both listers always, and without a
      patch; with them exactly if a patch was called for and its success was not seen. */
  lemma RoundOutcome(round: Round, nodes: map<string, LabelMap>, node: string)
    ensures node !in round.cached || round.listed.None? ==> RoundFails(round, nodes, node) && RoundNodes(round, nodes, node) == nodes
    ensures node in round.cached && round.listed.Some? ==>
              var stale := Stale(round.cached[node], round.listed.value, node);
              && (RoundFails(round, nodes, node) <==> stale && !(node in nodes && round.reply.Applied?))
              && (stale && node in nodes && !round.reply.Refused? ==>
                    RoundNodes(round, nodes, node) ==
                    nodes[node := Merge(nodes[node], ReconcilePatch(round.cached[node], round.listed.value, node))])
              && (!stale || node !in nodes || round.reply.Refused? ==> RoundNodes(round, nodes, node) == nodes)
  {
    if node in round.cached && round.listed.Some? {
      NoPatchExactly(round.cached[node], round.listed.value, node);
    }
  }
}
