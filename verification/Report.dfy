/** The compliance report: filter by organisation and time, group by organisation, check, count, sort. */
module Report {
  import opened Audit
  import opened Rfc3339
  import opened Wrappers

  datatype Standard = Standard(name: string, requirePrivacy: bool, requireRegion: bool, requireAudit: bool)

  const HIPAA := Standard("HIPAA", true, true, true)
  const SOC2 := Standard("SOC 2", false, false, true)
  const GDPR := Standard("GDPR", false, true, true)

  const STANDARDS := map["hipaa" := HIPAA, "soc2" := SOC2, "gdpr" := GDPR]

  datatype Violation = Violation(timestamp: string, pod: string, namespace: string, node: string, reason: string)

  datatype OrgReport = OrgReport(
    org: string,
    standard: string,
    from: string,
    to: string,
    totalDecisions: nat,
    compliant: nat,
    violations: seq<Violation>,
    scheduledCount: nat,
    failedCount: nat)

  datatype Report = Report(generatedAt: string, standard: string, orgs: seq<OrgReport>, warnings: nat)

  // ---- Filtering ---------------------------------------------------------------------

  predicate Keeps(e: DecisionEntry, org: string, from: string, to: string) {
    && e.event in {SCHEDULED, FAILED}
    && org in {"", e.pod.org}
    && (from == "" || !Before(e.timestamp, from))
    && (to == "" || !Before(to, e.timestamp))
  }

  function Kept(entries: seq<DecisionEntry>, org: string, from: string, to: string): seq<DecisionEntry> {
    if entries == [] then []
    else
      var last := entries[|entries| - 1];
      Kept(entries[..|entries| - 1], org, from, to) + if Keeps(last, org, from, to) then [last] else []
  }

  /** Kept are the placements and failures of the organisation asked for, or of all, whose timestamps do
      not sort outside the bounds given. */
  lemma KeepsByFields(e: DecisionEntry, org: string, from: string, to: string)
    ensures Keeps(e, org, from, to) <==>
            && (e.event == "scheduled" || e.event == "scheduling_failed")
            && (org != "" ==> e.pod.org == org)
            && (from != "" ==> from == e.timestamp || Before(from, e.timestamp))
            && (to != "" ==> to == e.timestamp || Before(e.timestamp, to))
  {
    BeforeTotal(e.timestamp, from);
    BeforeTotal(to, e.timestamp);
  }

  method FilterEntries(entries: seq<DecisionEntry>, org: string, from: string, to: string) returns (result: seq<DecisionEntry>)
    ensures result == Kept(entries, org, from, to)
  {
    result := [];
    for i := 0 to |entries|
      invariant result == Kept(entries[..i], org, from, to)
    {
      var e := entries[i];
      assert entries[..i + 1][..i] == entries[..i];
      if e.event != SCHEDULED && e.event != FAILED {
        continue;
      }
      if org != "" && e.pod.org != org {
        continue;
      }
      if from != "" && Before(e.timestamp, from) {
        continue;
      }
      if to != "" && Before(to, e.timestamp) {
        continue;
      }
      result := result + [e];
    }
    assert entries[..|entries|] == entries;
  }

  // ---- Grouping ----------------------------------------------------------------------

  function OfOrg(entries: seq<DecisionEntry>, org: string): seq<DecisionEntry> {
    if entries == [] then []
    else
      var last := entries[|entries| - 1];
      OfOrg(entries[..|entries| - 1], org) + if last.pod.org == org then [last] else []
  }

  function OrgsOf(entries: seq<DecisionEntry>): set<string> {
    set i | 0 <= i < |entries| :: entries[i].pod.org
  }

  ghost predicate Grouped(groups: map<string, seq<DecisionEntry>>, entries: seq<DecisionEntry>) {
    groups.Keys == OrgsOf(entries) && forall org :: org in groups ==> groups[org] == OfOrg(entries, org)
  }

  lemma GroupNext(groups: map<string, seq<DecisionEntry>>, entries: seq<DecisionEntry>, e: DecisionEntry)
    requires Grouped(groups, entries)
    ensures var before := if e.pod.org in groups then groups[e.pod.org] else [];
            Grouped(groups[e.pod.org := before + [e]], entries + [e])
  {
    var all := entries + [e];
    assert all[..|entries|] == entries;
    forall org
      ensures org in OrgsOf(all) <==> org in OrgsOf(entries) || org == e.pod.org
    {
      if org in OrgsOf(entries) {
        var i :| 0 <= i < |entries| && entries[i].pod.org == org;
        assert all[i].pod.org == org;
      }
      assert all[|entries|] == e;
    }
    if e.pod.org !in groups {
      NoneOfOrg(entries, e.pod.org);
    }
  }

  lemma {:induction false} NoneOfOrg(entries: seq<DecisionEntry>, org: string)
    ensures OfOrg(entries, org) == [] <==> org !in OrgsOf(entries)
  {
    if entries != [] {
      var last := |entries| - 1;
      NoneOfOrg(entries[..last], org);
      assert org in OrgsOf(entries[..last]) ==> exists i :: 0 <= i < last && entries[..last][i].pod.org == org;
      if org in OrgsOf(entries) && entries[last].pod.org != org {
        var i :| 0 <= i < |entries| && entries[i].pod.org == org;
        assert entries[..last][i].pod.org == org;
      }
    }
  }

  method GroupByOrg(entries: seq<DecisionEntry>) returns (groups: map<string, seq<DecisionEntry>>)
    ensures Grouped(groups, entries)
  {
    groups := map[];
    for i := 0 to |entries|
      invariant Grouped(groups, entries[..i])
    {
      var e := entries[i];
      GroupNext(groups, entries[..i], e);
      assert entries[..i + 1] == entries[..i] + [e];
      groups := groups[e.pod.org := (if e.pod.org in groups then groups[e.pod.org] else []) + [e]];
    }
    assert entries[..|entries|] == entries;
  }

  // ---- Checking ----------------------------------------------------------------------

  /** The reason of the first failed requirement, or None for a compliant entry. */
  function CheckViolation(e: DecisionEntry, std: Standard): Option<string> {
    if std.requirePrivacy && e.pod.privacy == "" then Some("missing privacy label (required by " + std.name + ")")
    else if std.requirePrivacy && !e.policy.privacyEnabled then Some("privacy policy disabled at scheduling time")
    else if std.requireRegion && e.pod.region == "" then Some("missing region label (required by " + std.name + ")")
    else if std.requireRegion && !e.policy.regionEnabled then Some("region policy disabled at scheduling time")
    else if std.requireAudit && !e.policy.privacyEnabled && !e.policy.regionEnabled then
      Some("no compliance policies enabled at scheduling time")
    else None
  }

  predicate Violates(e: DecisionEntry, std: Standard) {
    CheckViolation(e, std).Some?
  }

  /** What a standard asks of a decision, without an order of checks. */
  predicate Meets(e: DecisionEntry, std: Standard) {
    && (std.requirePrivacy ==> e.pod.privacy != "" && e.policy.privacyEnabled)
    && (std.requireRegion ==> e.pod.region != "" && e.policy.regionEnabled)
    && (std.requireAudit ==> e.policy.privacyEnabled || e.policy.regionEnabled)
  }

  lemma ViolatesExactly(e: DecisionEntry, std: Standard)
    ensures Violates(e, std) <==> !Meets(e, std)
  {
  }

  /** What the standards people ask for by key demand of a decision: labels on the pod, and policies
      that were enabled. */
  predicate Breaks(e: DecisionEntry, standard: string) {
    if standard == "hipaa" then
      e.pod.privacy == "" || e.pod.region == "" || !e.policy.privacyEnabled || !e.policy.regionEnabled
    else if standard == "gdpr" then e.pod.region == "" || !e.policy.regionEnabled
    else standard == "soc2" && !e.policy.privacyEnabled && !e.policy.regionEnabled
  }

  /** The table of standards says just that, and knows no other key. */
  lemma StandardsByName(e: DecisionEntry, standard: string)
    ensures standard in STANDARDS <==> standard in {"hipaa", "soc2", "gdpr"}
    ensures standard in STANDARDS ==> (Violates(e, STANDARDS[standard]) <==> Breaks(e, standard))
    ensures standard == "hipaa" ==> STANDARDS[standard].name == "HIPAA"
    ensures standard == "soc2" ==> STANDARDS[standard].name == "SOC 2"
    ensures standard == "gdpr" ==> STANDARDS[standard].name == "GDPR"
  {
  }

  /** The reason given for a violation names the first thing missing, in this order: the privacy label,
      the privacy policy, the region label, the region policy, any policy. */
  lemma ReasonIsFirst(e: DecisionEntry, std: Standard)
    requires Violates(e, std)
    ensures var reason := CheckViolation(e, std).value;
            var privacyMet := std.requirePrivacy ==> e.pod.privacy != "" && e.policy.privacyEnabled;
            var regionMet := std.requireRegion ==> e.pod.region != "" && e.policy.regionEnabled;
            && (!privacyMet && e.pod.privacy == "" ==> reason == "missing privacy label (required by " + std.name + ")")
            && (!privacyMet && e.pod.privacy != "" ==> reason == "privacy policy disabled at scheduling time")
            && (privacyMet && !regionMet && e.pod.region == "" ==> reason == "missing region label (required by " + std.name + ")")
            && (privacyMet && !regionMet && e.pod.region != "" ==> reason == "region policy disabled at scheduling time")
            && (privacyMet && regionMet ==> reason == "no compliance policies enabled at scheduling time")
  {
  }

  /** The entries that break the standard, in order. */
  function Breaking(entries: seq<DecisionEntry>, standard: string): seq<DecisionEntry> {
    if entries == [] then []
    else
      var last := entries[|entries| - 1];
      Breaking(entries[..|entries| - 1], standard) + if Breaks(last, standard) then [last] else []
  }

  lemma {:induction false} ViolatorsBreak(entries: seq<DecisionEntry>, standard: string)
    requires standard in STANDARDS
    ensures Violators(entries, STANDARDS[standard]) == Breaking(entries, standard)
  {
    if entries != [] {
      ViolatorsBreak(entries[..|entries| - 1], standard);
      StandardsByName(entries[|entries| - 1], standard);
    }
  }

  /** The report of an organisation in terms of its entries: how many there are, how many were
      scheduled, and which broke the standard, with the fields that identify each of them. */
  ghost predicate Tells(r: OrgReport, standard: string, from: string, to: string, entries: seq<DecisionEntry>) {
    && r.from == from && r.to == to && r.totalDecisions == |entries|
    && r.scheduledCount == CountEvent(entries, "scheduled") && r.failedCount == |entries| - CountEvent(entries, "scheduled")
    && |r.violations| == |Breaking(entries, standard)| && r.compliant == |entries| - |Breaking(entries, standard)|
    && forall i :: 0 <= i < |r.violations| ==>
         var v, e := r.violations[i], Breaking(entries, standard)[i];
         v.timestamp == e.timestamp && v.pod == e.pod.name && v.namespace == e.pod.namespace && v.node == e.node
  }

  lemma AccountTells(r: OrgReport, standard: string, from: string, to: string, entries: seq<DecisionEntry>)
    requires standard in STANDARDS && Accounts(r, STANDARDS[standard], from, to, entries)
    ensures Tells(r, standard, from, to, entries)
  {
    ViolatorsBreak(entries, standard);
  }

  function Violators(entries: seq<DecisionEntry>, std: Standard): seq<DecisionEntry> {
    if entries == [] then []
    else
      var last := entries[|entries| - 1];
      Violators(entries[..|entries| - 1], std) + if Violates(last, std) then [last] else []
  }

  function Describe(e: DecisionEntry, std: Standard): Violation
    requires Violates(e, std)
  {
    Violation(e.timestamp, e.pod.name, e.pod.namespace, e.node, CheckViolation(e, std).value)
  }

  /** How many entries have the given event. */
  function CountEvent(entries: seq<DecisionEntry>, event: string): nat {
    if entries == [] then 0
    else CountEvent(entries[..|entries| - 1], event) + if entries[|entries| - 1].event == event then 1 else 0
  }

  /** The report of one organisation is an account of its entries: everything is counted once as
      scheduled or not and once as compliant or violating, and the violations are the violating
      entries, described in order. */
  ghost predicate Accounts(r: OrgReport, std: Standard, from: string, to: string, entries: seq<DecisionEntry>) {
    && r.standard == std.name && r.from == from && r.to == to
    && r.totalDecisions == |entries|
    && r.scheduledCount == CountEvent(entries, SCHEDULED)
    && r.failedCount == |entries| - CountEvent(entries, SCHEDULED)
    && r.compliant == |entries| - |Violators(entries, std)|
    && |r.violations| == |Violators(entries, std)|
    && forall i :: 0 <= i < |r.violations| ==>
         Violates(Violators(entries, std)[i], std) && r.violations[i] == Describe(Violators(entries, std)[i], std)
  }

  /** One more entry in the account. */
  function CountIn(r: OrgReport, e: DecisionEntry, std: Standard): OrgReport {
    var s := if e.event == SCHEDULED then r.(scheduledCount := r.scheduledCount + 1) else r.(failedCount := r.failedCount + 1);
    var t := s.(totalDecisions := r.totalDecisions + 1);
    if Violates(e, std) then t.(violations := r.violations + [Describe(e, std)]) else t.(compliant := r.compliant + 1)
  }

  lemma CountInAccounts(r: OrgReport, std: Standard, from: string, to: string, entries: seq<DecisionEntry>, e: DecisionEntry)
    requires Accounts(r, std, from, to, entries)
    ensures Accounts(CountIn(r, e, std), std, from, to, entries + [e])
  {
  }

  method BuildOrgReport(org: string, std: Standard, from: string, to: string, entries: seq<DecisionEntry>) returns (r: OrgReport)
    ensures r.org == org && Accounts(r, std, from, to, entries)
  {
    r := OrgReport(org, std.name, from, to, 0, 0, [], 0, 0);
    for i := 0 to |entries|
      invariant r.org == org && Accounts(r, std, from, to, entries[..i])
    {
      var e := entries[i];
      CountInAccounts(r, std, from, to, entries[..i], e);
      assert entries[..i + 1] == entries[..i] + [e];
      r := r.(totalDecisions := r.totalDecisions + 1);
      if e.event == SCHEDULED {
        r := r.(scheduledCount := r.scheduledCount + 1);
      } else {
        r := r.(failedCount := r.failedCount + 1);
      }
      var reason := CheckViolation(e, std);
      if reason.Some? {
        r := r.(violations := r.violations + [Violation(e.timestamp, e.pod.name, e.pod.namespace, e.node, reason.value)]);
      } else {
        r := r.(compliant := r.compliant + 1);
      }
    }
    assert entries[..|entries|] == entries;
  }

  // ---- Sorting -----------------------------------------------------------------------

  /** sort.Slice by organisation. */
  function Insert(r: OrgReport, sorted: seq<OrgReport>): seq<OrgReport> {
    if sorted == [] || !Before(sorted[0].org, r.org) then [r] + sorted
    else [sorted[0]] + Insert(r, sorted[1..])
  }

  function Sort(reports: seq<OrgReport>): seq<OrgReport> {
    if reports == [] then [] else Insert(reports[|reports| - 1], Sort(reports[..|reports| - 1]))
  }

  ghost predicate Ascending(reports: seq<OrgReport>) {
    forall i, j :: 0 <= i < j < |reports| ==> Before(reports[i].org, reports[j].org)
  }

  lemma {:induction false} InsertAscending(r: OrgReport, sorted: seq<OrgReport>)
    requires Ascending(sorted) && forall x :: x in sorted ==> x.org != r.org
    ensures Ascending(Insert(r, sorted))
    ensures forall x :: x in Insert(r, sorted) <==> x == r || x in sorted
  {
    if sorted != [] {
      BeforeTotal(sorted[0].org, r.org);
      if Before(sorted[0].org, r.org) {
        InsertAscending(r, sorted[1..]);
        assert forall x :: x in sorted <==> x == sorted[0] || x in sorted[1..];
        var rest := Insert(r, sorted[1..]);
        forall j | 0 <= j < |rest|
          ensures Before(sorted[0].org, rest[j].org)
        {
          assert rest[j] in rest;
        }
      } else {
        forall j | 0 <= j < |sorted|
          ensures Before(r.org, sorted[j].org)
        {
          if j > 0 {
            BeforeTransitive(r.org, sorted[0].org, sorted[j].org);
          } else {
            assert sorted[0] in sorted;
          }
        }
      }
    }
  }

  lemma {:induction false} SortAscending(reports: seq<OrgReport>)
    requires forall i, j :: 0 <= i < j < |reports| ==> reports[i].org != reports[j].org
    ensures Ascending(Sort(reports))
    ensures forall x :: x in Sort(reports) <==> x in reports
  {
    if reports != [] {
      var last := |reports| - 1;
      SortAscending(reports[..last]);
      assert forall x :: x in reports <==> x == reports[last] || x in reports[..last];
      InsertAscending(reports[last], Sort(reports[..last]));
    }
  }

  // ---- The report --------------------------------------------------------------------

  /** What a report's list of organisations must be: strictly ascending, one account for each
      organisation that occurs in the entries, and no other. */
  ghost predicate IsOrgList(orgs: seq<OrgReport>, std: Standard, from: string, to: string, entries: seq<DecisionEntry>) {
    && Ascending(orgs)
    && (forall r :: r in orgs ==> r.org in OrgsOf(entries) && Accounts(r, std, from, to, OfOrg(entries, r.org)))
    && (forall org :: org in OrgsOf(entries) ==> exists r :: r in orgs && r.org == org)
  }

  /** One account for each organisation seen so far, in any order. */
  ghost predicate Collected(reports: seq<OrgReport>, seen: set<string>, std: Standard, from: string, to: string, entries: seq<DecisionEntry>) {
    && (forall i, j :: 0 <= i < j < |reports| ==> reports[i].org != reports[j].org)
    && (forall r :: r in reports ==> r.org in seen && Accounts(r, std, from, to, OfOrg(entries, r.org)))
    && (forall org :: org in seen ==> exists r :: r in reports && r.org == org)
  }

  lemma CollectNext(reports: seq<OrgReport>, seen: set<string>, r: OrgReport, std: Standard, from: string, to: string, entries: seq<DecisionEntry>)
    requires Collected(reports, seen, std, from, to, entries)
    requires r.org !in seen && Accounts(r, std, from, to, OfOrg(entries, r.org))
    ensures Collected(reports + [r], seen + {r.org}, std, from, to, entries)
  {
    var all := reports + [r];
    assert forall x :: x in all <==> x in reports || x == r;
    assert forall i :: 0 <= i < |reports| ==> all[i] in reports;
  }

  lemma CollectedSorted(reports: seq<OrgReport>, std: Standard, from: string, to: string, entries: seq<DecisionEntry>)
    requires Collected(reports, OrgsOf(entries), std, from, to, entries)
    ensures IsOrgList(Sort(reports), std, from, to, entries)
  {
    SortAscending(reports);
    forall org | org in OrgsOf(entries)
      ensures exists r :: r in Sort(reports) && r.org == org
    {
      var r :| r in reports && r.org == org;
      assert r in Sort(reports);
    }
  }

  /** The groups are visited in map order, which is arbitrary; the result does not depend on it. */
  method GenerateReport(entries: seq<DecisionEntry>, warnings: seq<nat>, org: string, standard: string,
                        from: string, to: string, now: int) returns (report: Option<Report>)
    ensures report.None? <==> standard !in STANDARDS
    ensures report.Some? ==>
              && report.value.generatedAt == FormatUtc(now)
              && report.value.standard == STANDARDS[standard].name
              && report.value.warnings == |warnings|
              && IsOrgList(report.value.orgs, STANDARDS[standard], from, to, Kept(entries, org, from, to))
    ensures report.Some? <==> standard in {"hipaa", "soc2", "gdpr"}
    ensures report.Some? ==>
              && report.value.standard == (if standard == "hipaa" then "HIPAA" else if standard == "gdpr" then "GDPR" else "SOC 2")
              && forall r :: r in report.value.orgs ==>
                   && r.standard == report.value.standard
                   && Tells(r, standard, from, to, OfOrg(Kept(entries, org, from, to), r.org))
  {
    if standard !in STANDARDS {
      return None;
    }
    var std := STANDARDS[standard];
    var filtered := FilterEntries(entries, org, from, to);
    var groups := GroupByOrg(filtered);
    var orgs := CollectReports(groups, std, from, to, filtered);
    forall r | r in orgs
      ensures Tells(r, standard, from, to, OfOrg(filtered, r.org))
    {
      AccountTells(r, standard, from, to, OfOrg(filtered, r.org));
    }
    return Some(Report(FormatUtc(now), std.name, orgs, |warnings|));
  }

  method CollectReports(groups: map<string, seq<DecisionEntry>>, std: Standard, from: string, to: string,
                        ghost filtered: seq<DecisionEntry>) returns (orgs: seq<OrgReport>)
    requires Grouped(groups, filtered)
    ensures IsOrgList(orgs, std, from, to, filtered)
  {
    var reports: seq<OrgReport> := [];
    var left := groups.Keys;
    while left != {}
      invariant left <= groups.Keys
      invariant Collected(reports, groups.Keys - left, std, from, to, filtered)
      decreases left
    {
      var org :| org in left;
      var r := BuildOrgReport(org, std, from, to, groups[org]);
      CollectNext(reports, groups.Keys - left, r, std, from, to, filtered);
      reports := reports + [r];
      assert groups.Keys - left + {org} == groups.Keys - (left - {org});
      left := left - {org};
    }
    assert groups.Keys - left == OrgsOf(filtered);
    CollectedSorted(reports, std, from, to, filtered);
    orgs := Sort(reports);
  }

  /** The log and the query determine the report: any two lists of organisations that qualify are equal. */
  lemma {:induction false} ReportIsDetermined(a: seq<OrgReport>, b: seq<OrgReport>, std: Standard, from: string, to: string, entries: seq<DecisionEntry>)
    requires IsOrgList(a, std, from, to, entries) && IsOrgList(b, std, from, to, entries)
    ensures a == b
  {
    forall x
      ensures x in a <==> x in b
    {
      if x in a { MemberOfOther(x, a, b, std, from, to, entries); }
      if x in b { MemberOfOther(x, b, a, std, from, to, entries); }
    }
    SameAscending(a, b);
  }

  lemma MemberOfOther(x: OrgReport, a: seq<OrgReport>, b: seq<OrgReport>, std: Standard, from: string, to: string, entries: seq<DecisionEntry>)
    requires IsOrgList(a, std, from, to, entries) && IsOrgList(b, std, from, to, entries) && x in a
    ensures x in b
  {
    var y :| y in b && y.org == x.org;
    assert x.violations == y.violations;
  }

  lemma {:induction false} SameAscending(a: seq<OrgReport>, b: seq<OrgReport>)
    requires Ascending(a) && Ascending(b) && forall x :: x in a <==> x in b
    ensures a == b
  {
    assert a != [] ==> a[0] in b;
    assert b != [] ==> b[0] in a;
    if a != [] && b != [] {
      if a[0] != b[0] {
        BeforeTotal(a[0].org, b[0].org);
        assert false;
      }
      forall x
        ensures x in a[1..] <==> x in b[1..]
      {
        BeforeTotal(a[0].org, a[0].org);
        assert x in a <==> x == a[0] || x in a[1..];
        assert x in b <==> x == b[0] || x in b[1..];
      }
      SameAscending(a[1..], b[1..]);
    }
  }
}
