/**
 From decisions to the report: for every history of placements, failures and other components' lines,
 the report read back from the log counts exactly the decisions that were taken.
 */
module Fidelity {
  import opened Audit
  import opened Instants
  import opened Labels
  import opened Objects
  import opened Reader
  import opened Report
  import opened ReportLaws
  import opened Rfc3339
  import opened Wrappers

  function AllLines(actions: seq<Action>, debug: bool, json: Json): seq<string> {
    if actions == [] then []
    else AllLines(actions[..|actions| - 1], debug, json) + LinesOf(actions[|actions| - 1], debug, json)
  }

  /** A line of another component: what a line reader makes of it is no decision, because it does not
      decode or because it decodes to something with another event. */
  predicate Harmless(line: string, json: Json) {
    && '\n' !in line
    && var entry := json.unmarshal(DropCarriageReturn(line));
       entry.Some? ==> entry.value.event !in {SCHEDULED, FAILED}
  }

  ghost predicate Quiet(actions: seq<Action>, json: Json) {
    forall i :: 0 <= i < |actions| && actions[i].Noise? ==> Harmless(actions[i].line, json)
  }

  /** A time bound of a query; None leaves that side open. */
  function BoundText(bound: Option<int>): string {
    if bound.None? then "" else FormatUtc(bound.value)
  }

  predicate Within(at: int, from: Option<int>, to: Option<int>) {
    && (from.Some? ==> Truncate(from.value) <= Truncate(at))
    && (to.Some? ==> Truncate(at) <= Truncate(to.value))
  }

  /** How many pods of the organisation were placed, or could not be placed, in the given time. */
  function Decisions(actions: seq<Action>, org: string, from: Option<int>, to: Option<int>, placed: bool): nat {
    if actions == [] then 0
    else
      var a := actions[|actions| - 1];
      Decisions(actions[..|actions| - 1], org, from, to, placed)
      + if (if placed then a.Bound? else a.Unplaced?) && Org(a.pod) == org && Within(a.at, from, to) then 1 else 0
  }

  ghost predicate Timely(actions: seq<Action>, from: Option<int>, to: Option<int>) {
    && (from.Some? ==> InRange(from.value)) && (to.Some? ==> InRange(to.value))
    && forall i :: 0 <= i < |actions| && !actions[i].Noise? ==> InRange(actions[i].at)
  }

  /** The decisions in what a list of lines decodes to, as the report selects them for one organisation. */
  function Selected(lines: seq<string>, json: Json, query: string, from: string, to: string, org: string): seq<DecisionEntry> {
    OfOrg(Kept(Entries(lines, json), query, from, to), org)
  }

  lemma KeptChronologically(e: DecisionEntry, at: int, query: string, from: Option<int>, to: Option<int>)
    requires InRange(at) && e.timestamp == FormatUtc(at)
    requires (from.Some? ==> InRange(from.value)) && (to.Some? ==> InRange(to.value))
    ensures Keeps(e, query, BoundText(from), BoundText(to)) <==>
            e.event in {SCHEDULED, FAILED} && query in {"", e.pod.org} && Within(at, from, to)
  {
    var f, t := if from.Some? then from.value else at, if to.Some? then to.value else at;
    FilterIsChronological(e, at, query, f, t);
  }

  /** One more line adds its decision, if it is one that is selected. */
  lemma SelectNext(lines: seq<string>, line: string, json: Json, query: string, from: string, to: string, org: string)
    ensures var e := json.unmarshal(line);
            Selected(lines + [line], json, query, from, to, org) ==
            Selected(lines, json, query, from, to, org)
            + if line != "" && e.Some? && Keeps(e.value, query, from, to) && e.value.pod.org == org then [e.value] else []
  {
    assert (lines + [line])[..|lines|] == lines;
    var e := json.unmarshal(line);
    assert Entries(lines, json) + [] == Entries(lines, json);
    if line != "" && e.Some? {
      var before := Entries(lines, json);
      EntryNext(before, e.value, query, from, to, org);
    }
  }

  lemma EntryNext(entries: seq<DecisionEntry>, e: DecisionEntry, query: string, from: string, to: string, org: string)
    ensures OfOrg(Kept(entries + [e], query, from, to), org) ==
            OfOrg(Kept(entries, query, from, to), org) + if Keeps(e, query, from, to) && e.pod.org == org then [e] else []
  {
    assert (entries + [e])[..|entries|] == entries;
    var kept := Kept(entries, query, from, to);
    assert (kept + [e])[..|kept|] == kept && kept + [] == kept;
  }

  /** The decision an action contributes to an organisation's entries, if any. */
  function Contribution(a: Action, from: Option<int>, to: Option<int>, org: string): seq<DecisionEntry> {
    if a.Noise? || Org(a.pod) != org || !Within(a.at, from, to) then []
    else [if a.Bound? then BoundEntry(a) else UnplacedEntry(a)]
  }

  /** A logged decision is selected exactly when it is one of the organisation's, in time. */
  lemma DecisionSelected(lines: seq<string>, e: DecisionEntry, at: int, json: Json, query: string,
                         from: Option<int>, to: Option<int>, org: string)
    requires SoundJson(json) && query in {"", org} && InRange(at) && e.timestamp == FormatUtc(at)
    requires (from.Some? ==> InRange(from.value)) && (to.Some? ==> InRange(to.value))
    ensures Selected(lines + [json.marshal(e)], json, query, BoundText(from), BoundText(to), org) ==
            Selected(lines, json, query, BoundText(from), BoundText(to), org)
            + if e.event in {SCHEDULED, FAILED} && e.pod.org == org && Within(at, from, to) then [e] else []
  {
    KeptChronologically(e, at, query, from, to);
    SelectNext(lines, json.marshal(e), json, query, BoundText(from), BoundText(to), org);
  }

  lemma DetailsNotSelected(lines: seq<string>, a: Action, json: Json, query: string, from: string, to: string, org: string)
    requires SoundJson(json) && a.Unplaced?
    ensures Selected(lines + [json.marshal(DetailsEntry(a))], json, query, from, to, org) ==
            Selected(lines, json, query, from, to, org)
  {
    SelectNext(lines, json.marshal(DetailsEntry(a)), json, query, from, to, org);
  }

  lemma UnplacedSelected(lines: seq<string>, a: Action, debug: bool, json: Json, query: string,
                         from: Option<int>, to: Option<int>, org: string)
    requires SoundJson(json) && query in {"", org} && a.Unplaced? && InRange(a.at)
    requires (from.Some? ==> InRange(from.value)) && (to.Some? ==> InRange(to.value))
    ensures Selected(lines + LinesOf(a, debug, json), json, query, BoundText(from), BoundText(to), org) ==
            Selected(lines + [json.marshal(UnplacedEntry(a))], json, query, BoundText(from), BoundText(to), org)
  {
    var first, second := [json.marshal(UnplacedEntry(a))], [json.marshal(DetailsEntry(a))];
    assert LinesOf(a, debug, json) in {first + second, first + []};
    assert lines + (first + second) == lines + first + second;
    assert lines + (first + []) == lines + first;
    DetailsNotSelected(lines + first, a, json, query, BoundText(from), BoundText(to), org);
  }

  /** Only other components' lines can end in a carriage return. */
  lemma StrippedLines(a: Action, debug: bool, json: Json)
    requires SoundJson(json)
    ensures Stripped(LinesOf(a, debug, json)) == if a.Noise? then [DropCarriageReturn(a.line)] else LinesOf(a, debug, json)
  {
  }

  lemma ActionSelected(lines: seq<string>, a: Action, debug: bool, json: Json, query: string,
                       from: Option<int>, to: Option<int>, org: string)
    requires SoundJson(json) && query in {"", org}
    requires if a.Noise? then Harmless(a.line, json) else InRange(a.at)
    requires (from.Some? ==> InRange(from.value)) && (to.Some? ==> InRange(to.value))
    ensures Selected(lines + Stripped(LinesOf(a, debug, json)), json, query, BoundText(from), BoundText(to), org) ==
            Selected(lines, json, query, BoundText(from), BoundText(to), org) + Contribution(a, from, to, org)
  {
    StrippedLines(a, debug, json);
    match a {
      case Noise(line) => SelectNext(lines, DropCarriageReturn(line), json, query, BoundText(from), BoundText(to), org);
      case Bound(_, _, _, at) => DecisionSelected(lines, BoundEntry(a), at, json, query, from, to, org);
      case Unplaced(_, _, _, at, _) =>
        UnplacedSelected(lines, a, debug, json, query, from, to, org);
        DecisionSelected(lines, UnplacedEntry(a), at, json, query, from, to, org);
    }
  }

  /** All entries selected for an organisation, straight from the actions. */
  function Contributions(actions: seq<Action>, from: Option<int>, to: Option<int>, org: string): seq<DecisionEntry> {
    if actions == [] then []
    else Contributions(actions[..|actions| - 1], from, to, org) + Contribution(actions[|actions| - 1], from, to, org)
  }

  lemma {:induction false} SelectedAreContributions(actions: seq<Action>, debug: bool, json: Json, query: string,
                                                    from: Option<int>, to: Option<int>, org: string)
    requires SoundJson(json) && Quiet(actions, json) && Timely(actions, from, to) && query in {"", org}
    ensures Selected(Stripped(AllLines(actions, debug, json)), json, query, BoundText(from), BoundText(to), org) ==
            Contributions(actions, from, to, org)
  {
    if actions != [] {
      var init := actions[..|actions| - 1];
      assert forall i :: 0 <= i < |init| ==> init[i] == actions[i];
      SelectedAreContributions(init, debug, json, query, from, to, org);
      var before, last := AllLines(init, debug, json), LinesOf(actions[|actions| - 1], debug, json);
      StrippedConcatenates(before, last);
      ActionSelected(Stripped(before), actions[|actions| - 1], debug, json, query, from, to, org);
    }
  }

  /** The decision fell short of the standard, judged by the pod's labels and the policy in force
      themselves: a label is missing, a required policy is off, or the policy could not be read. */
  predicate FallsShort(a: Action, std: Standard)
    requires !a.Noise?
  {
    var privacyOn := a.policy.Some? && a.policy.value.privacy.enabled;
    var regionOn := a.policy.Some? && a.policy.value.region.enabled;
    || (std.requirePrivacy && !(PodLabel(a.pod, LABEL_PRIVACY) != "" && privacyOn))
    || (std.requireRegion && !(PodLabel(a.pod, LABEL_REGION) != "" && regionOn))
    || (std.requireAudit && !privacyOn && !regionOn)
  }

  function Shortfalls(actions: seq<Action>, org: string, from: Option<int>, to: Option<int>, std: Standard): nat {
    if actions == [] then 0
    else
      var a := actions[|actions| - 1];
      Shortfalls(actions[..|actions| - 1], org, from, to, std)
      + if !a.Noise? && Org(a.pod) == org && Within(a.at, from, to) && FallsShort(a, std) then 1 else 0
  }

  lemma OneEntry(e: DecisionEntry, std: Standard)
    ensures CountEvent([e], SCHEDULED) == if e.event == SCHEDULED then 1 else 0
    ensures |Violators([e], std)| == if Meets(e, std) then 0 else 1
  {
  }

  lemma OneAction(a: Action, from: Option<int>, to: Option<int>, org: string, std: Standard)
    ensures Decisions([a], org, from, to, true) == if a.Bound? && Org(a.pod) == org && Within(a.at, from, to) then 1 else 0
    ensures Decisions([a], org, from, to, false) == if a.Unplaced? && Org(a.pod) == org && Within(a.at, from, to) then 1 else 0
    ensures Shortfalls([a], org, from, to, std) ==
            if !a.Noise? && Org(a.pod) == org && Within(a.at, from, to) && FallsShort(a, std) then 1 else 0
  {
  }

  lemma EntryFallsShort(a: Action, std: Standard)
    requires !a.Noise?
    ensures var e := if a.Bound? then BoundEntry(a) else UnplacedEntry(a);
            (e.event == SCHEDULED <==> a.Bound?) && (Meets(e, std) <==> !FallsShort(a, std))
  {
  }

  lemma ContributionCounts(a: Action, from: Option<int>, to: Option<int>, org: string, std: Standard)
    ensures var c := Contribution(a, from, to, org);
            && CountEvent(c, SCHEDULED) == Decisions([a], org, from, to, true)
            && |c| - CountEvent(c, SCHEDULED) == Decisions([a], org, from, to, false)
            && |Violators(c, std)| == Shortfalls([a], org, from, to, std)
  {
    OneAction(a, from, to, org, std);
    var c := Contribution(a, from, to, org);
    if c != [] {
      assert c == [c[0]];
      EntryFallsShort(a, std);
      OneEntry(c[0], std);
    }
  }

  /** The last action counts as if it stood alone. */
  lemma DecisionsNext(actions: seq<Action>, org: string, from: Option<int>, to: Option<int>, std: Standard)
    requires actions != []
    ensures var init, a := actions[..|actions| - 1], actions[|actions| - 1];
            && (forall placed :: Decisions(actions, org, from, to, placed) ==
                                 Decisions(init, org, from, to, placed) + Decisions([a], org, from, to, placed))
            && Shortfalls(actions, org, from, to, std) == Shortfalls(init, org, from, to, std) + Shortfalls([a], org, from, to, std)
  {
  }

  lemma {:induction false} ContributionsCount(actions: seq<Action>, from: Option<int>, to: Option<int>, org: string, std: Standard)
    ensures var all := Contributions(actions, from, to, org);
            && CountEvent(all, SCHEDULED) == Decisions(actions, org, from, to, true)
            && |all| - CountEvent(all, SCHEDULED) == Decisions(actions, org, from, to, false)
            && |Violators(all, std)| == Shortfalls(actions, org, from, to, std)
  {
    if actions != [] {
      var init, a := actions[..|actions| - 1], actions[|actions| - 1];
      ContributionsCount(init, from, to, org, std);
      ContributionCounts(a, from, to, org, std);
      DecisionsNext(actions, org, from, to, std);
      ChecksConcatenate(Contributions(init, from, to, org), Contribution(a, from, to, org), std);
    }
  }

  lemma SelectedCounts(actions: seq<Action>, debug: bool, json: Json, query: string,
                       from: Option<int>, to: Option<int>, org: string, std: Standard)
    requires SoundJson(json) && Quiet(actions, json) && Timely(actions, from, to) && query in {"", org}
    ensures var selected := Selected(Stripped(AllLines(actions, debug, json)), json, query, BoundText(from), BoundText(to), org);
            && CountEvent(selected, SCHEDULED) == Decisions(actions, org, from, to, true)
            && |selected| - CountEvent(selected, SCHEDULED) == Decisions(actions, org, from, to, false)
            && |Violators(selected, std)| == Shortfalls(actions, org, from, to, std)
  {
    SelectedAreContributions(actions, debug, json, query, from, to, org);
    ContributionsCount(actions, from, to, org, std);
  }

  lemma {:induction false} LinesAreLines(actions: seq<Action>, debug: bool, json: Json)
    requires SoundJson(json) && Quiet(actions, json)
    ensures forall i :: 0 <= i < |AllLines(actions, debug, json)| ==> '\n' !in AllLines(actions, debug, json)[i]
  {
    if actions != [] {
      var init := actions[..|actions| - 1];
      assert forall i :: 0 <= i < |init| ==> init[i] == actions[i];
      LinesAreLines(init, debug, json);
    }
  }

  /** The log file after the given actions. */
  function Log(actions: seq<Action>, debug: bool, json: Json): string {
    Join(AllLines(actions, debug, json))
  }

  lemma {:induction false} JoinConcatenates(a: seq<string>, b: seq<string>)
    ensures Join(a + b) == Join(a) + Join(b)
  {
    if a == [] {
      assert a + b == b;
    } else {
      JoinConcatenates(a[1..], b);
      assert (a + b)[1..] == a[1..] + b;
    }
  }

  /** Each call of the plugin appends to the log what the history says it appends. */
  lemma LogGrows(actions: seq<Action>, a: Action, debug: bool, json: Json)
    ensures Log(actions + [a], debug, json) == Log(actions, debug, json) + Join(LinesOf(a, debug, json))
  {
    assert (actions + [a])[..|actions|] == actions;
    JoinConcatenates(AllLines(actions, debug, json), LinesOf(a, debug, json));
  }

  /** For any history whose lines all fit the reader, read back and reported for any time span and any
      query that covers the organisation: its account counts exactly the placements and failures that
      happened, with debug details and other components' lines left out. */
  lemma ReportCountsDecisions(actions: seq<Action>, debug: bool, json: Json, std: Standard, query: string,
                              from: Option<int>, to: Option<int>, orgs: seq<OrgReport>, r: OrgReport)
    requires SoundJson(json) && Quiet(actions, json) && Timely(actions, from, to)
    requires forall i :: 0 <= i < |AllLines(actions, debug, json)| ==> Short(AllLines(actions, debug, json)[i])
    requires IsOrgList(orgs, std, BoundText(from), BoundText(to),
                       Kept(Entries(Tokens(Log(actions, debug, json)), json), query, BoundText(from), BoundText(to)))
    requires r in orgs && query in {"", r.org}
    ensures r.scheduledCount == Decisions(actions, r.org, from, to, true)
    ensures r.failedCount == Decisions(actions, r.org, from, to, false)
    ensures |r.violations| == Shortfalls(actions, r.org, from, to, std)
    ensures r.totalDecisions == r.scheduledCount + r.failedCount == r.compliant + |r.violations|
  {
    var lines := AllLines(actions, debug, json);
    LinesAreLines(actions, debug, json);
    ScanWritten(lines);
    ReadableExactly(lines);
    SelectedCounts(actions, debug, json, query, from, to, r.org, std);
    var kept := Kept(Entries(Stripped(lines), json), query, BoundText(from), BoundText(to));
    AccountBalances(r, std, BoundText(from), BoundText(to), OfOrg(kept, r.org));
  }

  /** And an organisation covered by the query is missing from the report exactly when no decision
      about its pods was taken in the time span. */
  lemma MissingMeansNoDecision(actions: seq<Action>, debug: bool, json: Json, std: Standard, query: string,
                               from: Option<int>, to: Option<int>, orgs: seq<OrgReport>, org: string)
    requires SoundJson(json) && Quiet(actions, json) && Timely(actions, from, to) && query in {"", org}
    requires forall i :: 0 <= i < |AllLines(actions, debug, json)| ==> Short(AllLines(actions, debug, json)[i])
    requires IsOrgList(orgs, std, BoundText(from), BoundText(to),
                       Kept(Entries(Tokens(Log(actions, debug, json)), json), query, BoundText(from), BoundText(to)))
    ensures (forall r :: r in orgs ==> r.org != org) <==>
            Decisions(actions, org, from, to, true) == 0 && Decisions(actions, org, from, to, false) == 0
  {
    var lines := AllLines(actions, debug, json);
    LinesAreLines(actions, debug, json);
    ScanWritten(lines);
    ReadableExactly(lines);
    SelectedCounts(actions, debug, json, query, from, to, org, std);
    var kept := Kept(Entries(Stripped(lines), json), query, BoundText(from), BoundText(to));
    NoneOfOrg(kept, org);
  }
}
