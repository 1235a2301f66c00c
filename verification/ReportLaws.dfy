/** Laws of compliance reports: conservation, concatenation of logs, chronology, and the order of the standards. */
module ReportLaws {
  import opened Audit
  import opened Instants
  import opened Report
  import opened Rfc3339

  // ---- Conservation ------------------------------------------------------------------

  /** In each organisation's account every decision is counted once as scheduled or failed, and once
      as compliant or violating. */
  lemma AccountBalances(r: OrgReport, std: Standard, from: string, to: string, entries: seq<DecisionEntry>)
    requires Accounts(r, std, from, to, entries)
    ensures r.totalDecisions == r.scheduledCount + r.failedCount == r.compliant + |r.violations|
    ensures r.scheduledCount <= |entries| && |r.violations| <= |entries|
  {
  }

  function Totals(orgs: seq<OrgReport>): nat {
    if orgs == [] then 0 else orgs[0].totalDecisions + Totals(orgs[1..])
  }

  function SumFor(orgs: seq<OrgReport>, entries: seq<DecisionEntry>): nat {
    if orgs == [] then 0 else |OfOrg(entries, orgs[0].org)| + SumFor(orgs[1..], entries)
  }

  lemma {:induction false} TotalsAreSizes(orgs: seq<OrgReport>, std: Standard, from: string, to: string, entries: seq<DecisionEntry>)
    requires forall r :: r in orgs ==> Accounts(r, std, from, to, OfOrg(entries, r.org))
    ensures Totals(orgs) == SumFor(orgs, entries)
  {
    if orgs != [] {
      assert orgs[0] in orgs;
      TotalsAreSizes(orgs[1..], std, from, to, entries);
    }
  }

  /** One more entry is counted in exactly one organisation. */
  lemma {:induction false} SumForNext(orgs: seq<OrgReport>, entries: seq<DecisionEntry>)
    requires Ascending(orgs) && entries != []
    ensures var e := entries[|entries| - 1];
            SumFor(orgs, entries) == SumFor(orgs, entries[..|entries| - 1])
                                     + if exists r :: r in orgs && r.org == e.pod.org then 1 else 0
  {
    if orgs != [] {
      var e := entries[|entries| - 1];
      SumForNext(orgs[1..], entries);
      assert forall x :: x in orgs <==> x == orgs[0] || x in orgs[1..];
      if orgs[0].org == e.pod.org {
        forall x | x in orgs[1..]
          ensures x.org != e.pod.org
        {
          BeforeTotal(orgs[0].org, x.org);
        }
      }
    }
  }

  lemma {:induction false} SumForAll(orgs: seq<OrgReport>, entries: seq<DecisionEntry>)
    requires Ascending(orgs) && forall org :: org in OrgsOf(entries) ==> exists r :: r in orgs && r.org == org
    ensures SumFor(orgs, entries) == |entries|
  {
    if entries == [] {
      SumForNone(orgs);
    } else {
      var init := entries[..|entries| - 1];
      SumForNext(orgs, entries);
      assert entries[|entries| - 1].pod.org in OrgsOf(entries);
      forall org | org in OrgsOf(init)
        ensures org in OrgsOf(entries)
      {
        var i :| 0 <= i < |init| && init[i].pod.org == org;
        assert entries[i].pod.org == org;
      }
      SumForAll(orgs, init);
    }
  }

  lemma {:induction false} SumForNone(orgs: seq<OrgReport>)
    ensures SumFor(orgs, []) == 0
  {
    if orgs != [] {
      SumForNone(orgs[1..]);
    }
  }

  /** The organisations of a report partition the filtered entries: their totals add up to all of them. */
  lemma TotalsCoverLog(orgs: seq<OrgReport>, std: Standard, from: string, to: string, entries: seq<DecisionEntry>)
    requires IsOrgList(orgs, std, from, to, entries)
    ensures Totals(orgs) == |entries|
  {
    TotalsAreSizes(orgs, std, from, to, entries);
    SumForAll(orgs, entries);
  }

  // ---- Concatenation of logs ---------------------------------------------------------

  lemma {:induction false} KeptConcatenates(a: seq<DecisionEntry>, b: seq<DecisionEntry>, org: string, from: string, to: string)
    ensures Kept(a + b, org, from, to) == Kept(a, org, from, to) + Kept(b, org, from, to)
  {
    if b == [] {
      assert a + b == a;
    } else {
      KeptConcatenates(a, b[..|b| - 1], org, from, to);
      assert (a + b)[..|a + b| - 1] == a + b[..|b| - 1];
    }
  }

  lemma {:induction false} OfOrgConcatenates(a: seq<DecisionEntry>, b: seq<DecisionEntry>, org: string)
    ensures OfOrg(a + b, org) == OfOrg(a, org) + OfOrg(b, org)
  {
    if b == [] {
      assert a + b == a;
    } else {
      OfOrgConcatenates(a, b[..|b| - 1], org);
      assert (a + b)[..|a + b| - 1] == a + b[..|b| - 1];
    }
  }

  lemma {:induction false} ChecksConcatenate(a: seq<DecisionEntry>, b: seq<DecisionEntry>, std: Standard)
    ensures Violators(a + b, std) == Violators(a, std) + Violators(b, std)
    ensures CountEvent(a + b, SCHEDULED) == CountEvent(a, SCHEDULED) + CountEvent(b, SCHEDULED)
  {
    if b == [] {
      assert a + b == a;
    } else {
      ChecksConcatenate(a, b[..|b| - 1], std);
      assert (a + b)[..|a + b| - 1] == a + b[..|b| - 1];
    }
  }

  lemma AccountsConcatenate(a: seq<DecisionEntry>, b: seq<DecisionEntry>, x: OrgReport, y: OrgReport, z: OrgReport,
                            std: Standard, from: string, to: string)
    requires Accounts(x, std, from, to, a) && Accounts(y, std, from, to, b) && Accounts(z, std, from, to, a + b)
    ensures z.totalDecisions == x.totalDecisions + y.totalDecisions
    ensures z.scheduledCount == x.scheduledCount + y.scheduledCount && z.failedCount == x.failedCount + y.failedCount
    ensures z.compliant == x.compliant + y.compliant && z.violations == x.violations + y.violations
  {
    ChecksConcatenate(a, b, std);
  }

  /** The account of a concatenated log adds the counts and concatenates the violations. */
  lemma ReportsConcatenate(a: seq<DecisionEntry>, b: seq<DecisionEntry>, x: OrgReport, y: OrgReport, z: OrgReport,
                           std: Standard, query: string, from: string, to: string)
    requires x.org == y.org == z.org
    requires Accounts(x, std, from, to, OfOrg(Kept(a, query, from, to), x.org))
    requires Accounts(y, std, from, to, OfOrg(Kept(b, query, from, to), y.org))
    requires Accounts(z, std, from, to, OfOrg(Kept(a + b, query, from, to), z.org))
    ensures z.totalDecisions == x.totalDecisions + y.totalDecisions
    ensures z.scheduledCount == x.scheduledCount + y.scheduledCount && z.failedCount == x.failedCount + y.failedCount
    ensures z.compliant == x.compliant + y.compliant && z.violations == x.violations + y.violations
  {
    var ka, kb := Kept(a, query, from, to), Kept(b, query, from, to);
    KeptConcatenates(a, b, query, from, to);
    OfOrgConcatenates(ka, kb, x.org);
    AccountsConcatenate(OfOrg(ka, x.org), OfOrg(kb, x.org), x, y, z, std, from, to);
  }

  // ---- Chronology --------------------------------------------------------------------

  /** On timestamps the logger writes, and bounds of the same form, the filter's text comparison keeps
      exactly the decisions of the closed interval, to the second. */
  lemma FilterIsChronological(e: DecisionEntry, at: int, org: string, from: int, to: int)
    requires InRange(at) && InRange(from) && InRange(to) && e.timestamp == FormatUtc(at)
    ensures Keeps(e, org, FormatUtc(from), FormatUtc(to)) <==>
            && e.event in {SCHEDULED, FAILED} && org in {"", e.pod.org}
            && Truncate(from) <= Truncate(at) <= Truncate(to)
    ensures Keeps(e, org, FormatUtc(from), "") <==>
            e.event in {SCHEDULED, FAILED} && org in {"", e.pod.org} && Truncate(from) <= Truncate(at)
    ensures Keeps(e, org, "", FormatUtc(to)) <==>
            e.event in {SCHEDULED, FAILED} && org in {"", e.pod.org} && Truncate(at) <= Truncate(to)
  {
    TextOrderIsTimeOrder(at, from);
    TextOrderIsTimeOrder(to, at);
    TextOrderIsTimeOrder(from, from);
  }

  // ---- The standards -----------------------------------------------------------------

  /** What SOC 2 objects to GDPR objects to, and what GDPR objects to HIPAA objects to. */
  lemma StandardsNested(e: DecisionEntry)
    ensures Violates(e, SOC2) ==> Violates(e, GDPR)
    ensures Violates(e, GDPR) ==> Violates(e, HIPAA)
  {
  }

  lemma {:induction false} MoreViolators(entries: seq<DecisionEntry>, weak: Standard, strong: Standard)
    requires forall e :: Violates(e, weak) ==> Violates(e, strong)
    ensures |Violators(entries, weak)| <= |Violators(entries, strong)|
    ensures Violators(Violators(entries, strong), weak) == Violators(entries, weak)
  {
    if entries != [] {
      var last := |entries| - 1;
      MoreViolators(entries[..last], weak, strong);
      var e, init := entries[last], Violators(entries[..last], strong);
      assert Violates(e, weak) ==> Violates(e, strong);
      ChecksConcatenate(init, [e], weak);
      assert Violators([e], weak) == if Violates(e, weak) then [e] else [];
      assert init + [] == init && Violators(entries[..last], weak) + [] == Violators(entries[..last], weak);
    }
  }

  /** In the generated reports of any log and organisation the violating entries of SOC 2 are among
      those of GDPR, and GDPR's among HIPAA's, in order; so compliance goes the other way. */
  lemma StandardsHierarchy(entries: seq<DecisionEntry>, soc2: OrgReport, gdpr: OrgReport, hipaa: OrgReport, from: string, to: string)
    requires Accounts(soc2, SOC2, from, to, entries) && Accounts(gdpr, GDPR, from, to, entries)
    requires Accounts(hipaa, HIPAA, from, to, entries)
    ensures Violators(Violators(entries, GDPR), SOC2) == Violators(entries, SOC2)
    ensures Violators(Violators(entries, HIPAA), GDPR) == Violators(entries, GDPR)
    ensures Breaking(Breaking(entries, "gdpr"), "soc2") == Breaking(entries, "soc2")
    ensures Breaking(Breaking(entries, "hipaa"), "gdpr") == Breaking(entries, "gdpr")
    ensures |soc2.violations| == |Breaking(entries, "soc2")| && |hipaa.violations| == |Breaking(entries, "hipaa")|
    ensures |gdpr.violations| == |Breaking(entries, "gdpr")|
    ensures |soc2.violations| <= |gdpr.violations| <= |hipaa.violations|
    ensures hipaa.compliant <= gdpr.compliant <= soc2.compliant
  {
    forall e: DecisionEntry
      ensures (Violates(e, SOC2) ==> Violates(e, GDPR)) && (Violates(e, GDPR) ==> Violates(e, HIPAA))
    {
      StandardsNested(e);
    }
    MoreViolators(entries, SOC2, GDPR);
    MoreViolators(entries, GDPR, HIPAA);
    ViolatorsBreak(entries, "soc2");
    ViolatorsBreak(entries, "gdpr");
    ViolatorsBreak(entries, "hipaa");
    ViolatorsBreak(Violators(entries, GDPR), "soc2");
    ViolatorsBreak(Violators(entries, HIPAA), "gdpr");
  }
}
