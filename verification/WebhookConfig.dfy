/** The admission webhook's rules: validation, defaults, and the lookup by namespace. */
module WebhookConfig {
  import opened Wrappers

  datatype NamespaceRule = NamespaceRule(namespace: string, allowedOrgs: seq<string>, allowedPrivacy: seq<string>)

  const PRIVACY_LEVELS := ["standard", "high"]
  const WILDCARD := "*"

  /** Every namespace is named, no namespace has two rules, and only known privacy levels occur. */
  ghost predicate ValidRules(rules: seq<NamespaceRule>) {
    && (forall i :: 0 <= i < |rules| ==> rules[i].namespace != "")
    && (forall i, j :: 0 <= i < j < |rules| ==> rules[i].namespace != rules[j].namespace)
    && (forall i :: 0 <= i < |rules| ==> KnownLevels(rules[i].allowedPrivacy))
  }

  ghost predicate KnownLevels(levels: seq<string>) {
    forall level :: level in levels ==> level in PRIVACY_LEVELS
  }

  function WithDefault(rule: NamespaceRule): NamespaceRule {
    if rule.allowedPrivacy == [] then rule.(allowedPrivacy := PRIVACY_LEVELS) else rule
  }

  function Defaulted(rules: seq<NamespaceRule>): seq<NamespaceRule> {
    seq(|rules|, i requires 0 <= i < |rules| => WithDefault(rules[i]))
  }

  lemma DefaultsKeepValid(rules: seq<NamespaceRule>)
    requires ValidRules(rules)
    ensures ValidRules(Defaulted(rules))
    ensures forall i :: 0 <= i < |rules| ==> Defaulted(rules)[i].allowedPrivacy != []
  {
  }

  method KnownLevelsOnly(levels: seq<string>) returns (ok: bool)
    ensures ok <==> KnownLevels(levels)
  {
    for j := 0 to |levels|
      invariant forall k :: 0 <= k < j ==> levels[k] in PRIVACY_LEVELS
    {
      if levels[j] !in PRIVACY_LEVELS {
        assert levels[j] in levels;
        return false;
      }
    }
    return true;
  }

  method ValidateConfig(rules: seq<NamespaceRule>) returns (ok: bool)
    ensures ok <==> ValidRules(rules)
    ensures ok <==> && (forall rule :: rule in rules ==> rule.namespace != "")
                    && (forall i, j :: 0 <= i < |rules| && 0 <= j < |rules| && rules[i].namespace == rules[j].namespace ==> i == j)
                    && (forall rule, level :: rule in rules && level in rule.allowedPrivacy ==> level in {"standard", "high"})
  {
    var seen: set<string> := {};
    for i := 0 to |rules|
      invariant ValidRules(rules[..i])
      invariant forall ns :: ns in seen <==> exists k :: 0 <= k < i && rules[k].namespace == ns
    {
      var rule := rules[i];
      if rule.namespace == "" {
        return false;
      }
      if rule.namespace in seen {
        return false;
      }
      seen := seen + {rule.namespace};
      var known := KnownLevelsOnly(rule.allowedPrivacy);
      if !known {
        return false;
      }
    }
    assert rules[..|rules|] == rules;
    return true;
  }

  method ApplyDefaults(rules: array<NamespaceRule>)
    modifies rules
    ensures rules[..] == Defaulted(old(rules[..]))
    ensures forall i :: 0 <= i < rules.Length ==>
              && rules[i].namespace == old(rules[i]).namespace && rules[i].allowedOrgs == old(rules[i]).allowedOrgs
              && rules[i].allowedPrivacy ==
                 if old(rules[i]).allowedPrivacy == [] then ["standard", "high"] else old(rules[i]).allowedPrivacy
  {
    for i := 0 to rules.Length
      invariant forall k :: 0 <= k < i ==> rules[k] == WithDefault(old(rules[k]))
      invariant forall k :: i <= k < rules.Length ==> rules[k] == old(rules[k])
    {
      if |rules[i].allowedPrivacy| == 0 {
        rules[i] := rules[i].(allowedPrivacy := PRIVACY_LEVELS);
      }
    }
  }

  /** What is left of ParseConfig once the JSON is decoded: only a valid configuration gets defaults, and
      it stays valid with them. */
  method FinishParsing(rules: array<NamespaceRule>) returns (ok: bool)
    modifies rules
    ensures ok <==> ValidRules(old(rules[..]))
    ensures rules[..] == if ok then Defaulted(old(rules[..])) else old(rules[..])
    ensures ok ==> ValidRules(rules[..])
  {
    ok := ValidateConfig(rules[..]);
    if ok {
      DefaultsKeepValid(rules[..]);
      ApplyDefaults(rules);
    }
  }

  /** The first rule that names the namespace. */
  function ExactRule(rules: seq<NamespaceRule>, ns: string): Option<NamespaceRule> {
    if rules == [] then None
    else if rules[0].namespace == ns then Some(rules[0])
    else ExactRule(rules[1..], ns)
  }

  /** The last wildcard rule. */
  function WildcardRule(rules: seq<NamespaceRule>): Option<NamespaceRule> {
    if rules == [] then None
    else if rules[|rules| - 1].namespace == WILDCARD then Some(rules[|rules| - 1])
    else WildcardRule(rules[..|rules| - 1])
  }

  function RuleFor(rules: seq<NamespaceRule>, ns: string): Option<NamespaceRule> {
    if ExactRule(rules, ns).Some? then ExactRule(rules, ns) else WildcardRule(rules)
  }

  method RuleForNamespace(rules: seq<NamespaceRule>, ns: string) returns (rule: Option<NamespaceRule>)
    ensures rule == RuleFor(rules, ns)
  {
    var wildcard: Option<NamespaceRule> := None;
    for i := 0 to |rules|
      invariant ExactRule(rules, ns) == ExactRule(rules[i..], ns)
      invariant wildcard == WildcardRule(rules[..i])
    {
      assert rules[i..][1..] == rules[i + 1..];
      assert rules[..i + 1][..i] == rules[..i];
      if rules[i].namespace == ns {
        return Some(rules[i]);
      }
      if rules[i].namespace == WILDCARD {
        wildcard := Some(rules[i]);
      }
    }
    assert rules[..|rules|] == rules;
    return wildcard;
  }

  lemma {:induction false} ExactRuleFound(rules: seq<NamespaceRule>, ns: string)
    ensures match ExactRule(rules, ns)
            case Some(r) => r in rules && r.namespace == ns
            case None => forall r :: r in rules ==> r.namespace != ns
  {
    if rules != [] {
      ExactRuleFound(rules[1..], ns);
    }
  }

  lemma {:induction false} WildcardRuleFound(rules: seq<NamespaceRule>)
    ensures match WildcardRule(rules)
            case Some(r) => r in rules && r.namespace == WILDCARD
            case None => forall r :: r in rules ==> r.namespace != WILDCARD
  {
    if rules != [] {
      WildcardRuleFound(rules[..|rules| - 1]);
      assert forall r :: r in rules ==> r in rules[..|rules| - 1] || r == rules[|rules| - 1];
    }
  }

  /** With a valid configuration the scan is a lookup with "*" as default: it returns the rule that
      names the namespace, else the rule for "*", else nothing. */
  lemma RuleIsLookup(rules: seq<NamespaceRule>, ns: string, rule: NamespaceRule)
    requires ValidRules(rules)
    ensures RuleFor(rules, ns) == Some(rule) <==>
            && rule in rules
            && (rule.namespace == ns || (rule.namespace == WILDCARD && forall r :: r in rules ==> r.namespace != ns))
    ensures RuleFor(rules, ns) == None <==> forall r :: r in rules ==> r.namespace !in {ns, WILDCARD}
  {
    ExactRuleFound(rules, ns);
    WildcardRuleFound(rules);
    assert forall p, q :: p in rules && q in rules && p.namespace == q.namespace ==> p == q;
  }

  /** So the order of the rules does not matter. */
  lemma RuleOrderIrrelevant(a: seq<NamespaceRule>, b: seq<NamespaceRule>, ns: string)
    requires ValidRules(a) && ValidRules(b) && forall r :: r in a <==> r in b
    ensures RuleFor(a, ns) == RuleFor(b, ns)
  {
    match RuleFor(a, ns) {
      case Some(r) =>
        RuleIsLookup(a, ns, r);
        RuleIsLookup(b, ns, r);
      case None =>
        RuleIsLookup(a, ns, NamespaceRule("", [], []));
        RuleIsLookup(b, ns, NamespaceRule("", [], []));
    }
  }
}
