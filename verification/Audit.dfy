/** The audit plugin and its logger: every scheduling outcome becomes one line of JSON. */
module Audit {
  import opened Labels
  import opened Objects
  import opened Rfc3339
  import opened Wrappers

  datatype PodRef = PodRef(name: string, namespace: string, privacy: string, region: string, zone: string, org: string)

  datatype PolicySnapshot = PolicySnapshot(regionEnabled: bool, privacyEnabled: bool)

  datatype FilterResult = FilterResult(node: string, reason: string)

  datatype DecisionEntry = DecisionEntry(
    timestamp: string,
    level: string,
    event: string,
    pod: PodRef,
    node: string,
    policy: PolicySnapshot,
    filters: seq<FilterResult>)

  const SCHEDULED := "scheduled"
  const FAILED := "scheduling_failed"
  const DETAILS := "filter_details"

  /** encoding/json for decision entries, taken as given. */
  datatype Json = Json(marshal: DecisionEntry -> string, unmarshal: string -> Option<DecisionEntry>)

  /** The text of a line: no newline in it, and no carriage return that a line reader would strip. */
  predicate LineText(s: string) {
    '\n' !in s && (s != "" ==> s[|s| - 1] != '\r')
  }

  /** Marshalling gives one non-empty line, and unmarshalling undoes it. */
  ghost predicate SoundJson(json: Json) {
    forall e: DecisionEntry :: LineText(json.marshal(e)) && json.marshal(e) != "" && json.unmarshal(json.marshal(e)) == Some(e)
  }

  function Line(text: string): string {
    text + "\n"
  }

  class Logger {
    var out: string
    const debug: bool
    const json: Json

    constructor (debug: bool, json: Json)
      ensures out == "" && this.debug == debug && this.json == json
    {
      out := "";
      this.debug := debug;
      this.json := json;
    }

    method Write(entry: DecisionEntry)
      modifies this`out
      ensures out == old(out) + Line(json.marshal(entry))
    {
      var data := json.marshal(entry);
      data := data + "\n";
      out := out + data;
    }

    method LogDecision(entry: DecisionEntry, now: int)
      modifies this`out
      ensures out == old(out) + json.marshal(entry.(level := "INFO", timestamp := FormatUtc(now))) + "\n"
    {
      var stamped := entry.(level := "INFO");
      stamped := stamped.(timestamp := FormatUtc(now));
      Write(stamped);
    }

    method LogFilterDetail(entry: DecisionEntry, now: int)
      modifies this`out
      ensures out == old(out) + if debug then json.marshal(entry.(level := "DEBUG", timestamp := FormatUtc(now))) + "\n" else ""
    {
      if !debug {
        return;
      }
      var stamped := entry.(level := "DEBUG");
      stamped := stamped.(timestamp := FormatUtc(now));
      Write(stamped);
    }
  }

  function Stamped(entry: DecisionEntry, level: string, now: int): DecisionEntry {
    entry.(level := level, timestamp := FormatUtc(now))
  }

  /** The scheduler's status map for one failed pod: for each status code the plugin asks for, the
      nodes with it and their messages; None if the lookup of that code fails. */
  type Statuses = seq<Option<seq<NodeStatus>>>

  datatype NodeStatus = NodeStatus(node: string, message: Option<string>)

  function RefOf(pod: Pod): PodRef {
    PodRef(pod.name, pod.namespace, PodLabel(pod, LABEL_PRIVACY), PodLabel(pod, LABEL_REGION),
           PodLabel(pod, LABEL_ZONE), PodLabel(pod, LABEL_ORG))
  }

  /** An empty snapshot stands in for a policy that cannot be read. */
  function Snapshot(policy: Option<Policy>): PolicySnapshot {
    if policy.None? then PolicySnapshot(false, false)
    else PolicySnapshot(policy.value.region.enabled, policy.value.privacy.enabled)
  }

  function Rejection(status: NodeStatus): FilterResult {
    FilterResult(status.node, if status.message.Some? then status.message.value else "")
  }

  function Rejections(nodes: seq<NodeStatus>): seq<FilterResult> {
    if nodes == [] then [] else Rejections(nodes[..|nodes| - 1]) + [Rejection(nodes[|nodes| - 1])]
  }

  function AllRejections(statuses: Statuses): seq<FilterResult> {
    if statuses == [] then []
    else
      var last := statuses[|statuses| - 1];
      AllRejections(statuses[..|statuses| - 1]) + if last.Some? then Rejections(last.value) else []
  }

  /** What an entry says about the pod and the policy: its name and namespace, its four Nexa labels, and
      which of the two policies were enabled; nothing of a policy that cannot be read. */
  ghost predicate Describes(e: DecisionEntry, pod: Pod, policy: Option<Policy>) {
    && e.pod.name == pod.name && e.pod.namespace == pod.namespace
    && e.pod.privacy == (if "nexa.io/privacy" in pod.labels then pod.labels["nexa.io/privacy"] else "")
    && e.pod.region == (if "nexa.io/region" in pod.labels then pod.labels["nexa.io/region"] else "")
    && e.pod.zone == (if "nexa.io/zone" in pod.labels then pod.labels["nexa.io/zone"] else "")
    && e.pod.org == (if "nexa.io/org" in pod.labels then pod.labels["nexa.io/org"] else "")
    && (e.policy.privacyEnabled <==> policy.Some? && policy.value.privacy.enabled)
    && (e.policy.regionEnabled <==> policy.Some? && policy.value.region.enabled)
  }

  ghost predicate Says(e: DecisionEntry, event: string, level: string, at: int, node: string, filters: seq<FilterResult>) {
    e.event == event && e.level == level && e.timestamp == FormatUtc(at) && e.node == node && e.filters == filters
  }

  /** The rejections are the nodes of all codes whose lookup succeeded, code by code, each with its
      message, or with none if it has none. */
  lemma {:induction false} RejectionsListed(nodes: seq<NodeStatus>)
    ensures |Rejections(nodes)| == |nodes|
    ensures forall i :: 0 <= i < |nodes| ==>
              && Rejections(nodes)[i].node == nodes[i].node
              && Rejections(nodes)[i].reason == match nodes[i].message case Some(text) => text case None => ""
  {
    if nodes != [] {
      RejectionsListed(nodes[..|nodes| - 1]);
    }
  }

  lemma {:induction false} RejectionsByCode(a: Statuses, b: Statuses)
    ensures AllRejections(a + b) == AllRejections(a) + AllRejections(b)
  {
    if b == [] {
      assert a + b == a;
      assert AllRejections(a) + [] == AllRejections(a);
    } else {
      var last := |b| - 1;
      RejectionsByCode(a, b[..last]);
      assert (a + b)[..|a + b| - 1] == a + b[..last];
      var own := if b[last].Some? then Rejections(b[last].value) else [];
      assert AllRejections(a) + (AllRejections(b[..last]) + own) == AllRejections(a) + AllRejections(b[..last]) + own;
    }
  }

  lemma RejectionsOfOneCode(nodes: seq<NodeStatus>)
    ensures AllRejections([Some(nodes)]) == Rejections(nodes) && AllRejections([None]) == []
  {
  }

  /** One thing that appends to the log: a pod was bound, a pod could not be placed, or some other
      component wrote a line of its own. */
  datatype Action =
    | Bound(pod: Pod, node: string, policy: Option<Policy>, at: int)
    | Unplaced(pod: Pod, statuses: Statuses, policy: Option<Policy>, at: int, detailsAt: int)
    | Noise(line: string)

  function BoundEntry(a: Action): DecisionEntry
    requires a.Bound?
  {
    Stamped(DecisionEntry("", "", SCHEDULED, RefOf(a.pod), a.node, Snapshot(a.policy), []), "INFO", a.at)
  }

  function UnplacedEntry(a: Action): DecisionEntry
    requires a.Unplaced?
  {
    Stamped(DecisionEntry("", "", FAILED, RefOf(a.pod), "", Snapshot(a.policy), AllRejections(a.statuses)), "INFO", a.at)
  }

  function DetailsEntry(a: Action): DecisionEntry
    requires a.Unplaced?
  {
    Stamped(DecisionEntry("", "", DETAILS, RefOf(a.pod), "", Snapshot(a.policy), AllRejections(a.statuses)), "DEBUG", a.detailsAt)
  }

  /** The lines an action writes. */
  function LinesOf(a: Action, debug: bool, json: Json): seq<string> {
    match a
    case Bound(_, _, _, _) => [json.marshal(BoundEntry(a))]
    case Unplaced(_, _, _, _, _) =>
      [json.marshal(UnplacedEntry(a))]
      + if debug && AllRejections(a.statuses) != [] then [json.marshal(DetailsEntry(a))] else []
    case Noise(line) => [line]
  }

  /** Lines, each ended by a newline. */
  function Join(lines: seq<string>): string {
    if lines == [] then "" else Line(lines[0]) + Join(lines[1..])
  }

  lemma EntriesDescribe(a: Action)
    ensures a.Bound? ==>
              Describes(BoundEntry(a), a.pod, a.policy) && Says(BoundEntry(a), "scheduled", "INFO", a.at, a.node, [])
    ensures a.Unplaced? ==>
              && Describes(UnplacedEntry(a), a.pod, a.policy) && Describes(DetailsEntry(a), a.pod, a.policy)
              && Says(UnplacedEntry(a), "scheduling_failed", "INFO", a.at, "", AllRejections(a.statuses))
              && Says(DetailsEntry(a), "filter_details", "DEBUG", a.detailsAt, "", AllRejections(a.statuses))
  {
  }

  class Plugin {
    const logger: Logger

    constructor (logger: Logger)
      ensures this.logger == logger
    {
      this.logger := logger;
    }

    method PostBind(pod: Pod, nodeName: string, policy: Option<Policy>, now: int)
      modifies logger`out
      ensures logger.out == old(logger.out) + Join(LinesOf(Bound(pod, nodeName, policy, now), logger.debug, logger.json))
      ensures exists e ::
                && logger.out == old(logger.out) + logger.json.marshal(e) + "\n"
                && Describes(e, pod, policy) && Says(e, "scheduled", "INFO", now, nodeName, [])
    {
      EntriesDescribe(Bound(pod, nodeName, policy, now));
      logger.LogDecision(DecisionEntry("", "", SCHEDULED, RefOf(pod), nodeName, Snapshot(policy), []), now);
    }

    /** The inner loop over the nodes of one code. */
    method CollectCode(filters: seq<FilterResult>, nodes: seq<NodeStatus>) returns (all: seq<FilterResult>)
      ensures all == filters + Rejections(nodes)
    {
      all := filters;
      for i := 0 to |nodes|
        invariant all == filters + Rejections(nodes[..i])
      {
        assert nodes[..i + 1][..i] == nodes[..i];
        var reason := "";
        if nodes[i].message.Some? {
          reason := nodes[i].message.value;
        }
        all := all + [FilterResult(nodes[i].node, reason)];
      }
      assert nodes[..|nodes|] == nodes;
    }

    method Collect(statuses: Statuses) returns (filters: seq<FilterResult>)
      ensures filters == AllRejections(statuses)
    {
      filters := [];
      for c := 0 to |statuses|
        invariant filters == AllRejections(statuses[..c])
      {
        assert statuses[..c + 1][..c] == statuses[..c];
        if statuses[c].None? {
          continue;
        }
        filters := CollectCode(filters, statuses[c].value);
      }
      assert statuses[..|statuses|] == statuses;
    }

    /** Logs the summary with the rejections of all codes and, in debug mode, the details; returns
        their number, the only variable part of the status handed back to the scheduler. */
    method PostFilter(pod: Pod, statuses: Statuses, policy: Option<Policy>, now: int, later: int) returns (filtered: nat)
      modifies logger`out
      ensures logger.out == old(logger.out) + Join(LinesOf(Unplaced(pod, statuses, policy, now, later), logger.debug, logger.json))
      ensures filtered == |AllRejections(statuses)|
      ensures exists summary, details ::
                && logger.out == old(logger.out) + logger.json.marshal(summary) + "\n"
                                 + (if logger.debug && filtered > 0 then logger.json.marshal(details) + "\n" else "")
                && Describes(summary, pod, policy) && Describes(details, pod, policy)
                && Says(summary, "scheduling_failed", "INFO", now, "", AllRejections(statuses))
                && Says(details, "filter_details", "DEBUG", later, "", AllRejections(statuses))
    {
      ghost var a := Unplaced(pod, statuses, policy, now, later);
      JoinUnplaced(a, logger.debug, logger.json);
      var filters := Collect(statuses);
      var entry := DecisionEntry("", "", FAILED, RefOf(pod), "", Snapshot(policy), filters);
      assert Stamped(entry, "INFO", now) == UnplacedEntry(a);
      logger.LogDecision(entry, now);
      if |filters| > 0 {
        entry := entry.(event := DETAILS);
        assert Stamped(entry, "DEBUG", later) == DetailsEntry(a);
        logger.LogFilterDetail(entry, later);
      }
      EntriesDescribe(a);
      return |filters|;
    }
  }

  /** The text of a failure: the summary line and, in debug mode, the details. */
  lemma JoinUnplaced(a: Action, debug: bool, json: Json)
    requires a.Unplaced?
    ensures Join(LinesOf(a, debug, json)) ==
            Line(json.marshal(UnplacedEntry(a)))
            + if debug && AllRejections(a.statuses) != [] then Line(json.marshal(DetailsEntry(a))) else ""
  {
    var first, second := json.marshal(UnplacedEntry(a)), json.marshal(DetailsEntry(a));
    assert Join([second]) == Line(second);
    assert ([first] + [second])[1..] == [second] && [first] + [] == [first];
  }
}
