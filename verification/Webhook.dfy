/** The admission decision, and what it guarantees about every stored pod over any history of requests. */
module Webhook {
  import opened Labels
  import opened WebhookConfig
  import opened Wrappers

  datatype Operation = Create | Update | Other

  /** A raw object of the request: missing, not a pod, or a pod with these labels. */
  datatype Raw = Absent | Undecodable | Decoded(labels: LabelMap)

  datatype Request = Request(subResource: string, operation: Operation, namespace: string, object_: Raw, oldObject: Raw)

  predicate NexaKey(key: string) {
    LABEL_PREFIX <= key
  }

  predicate NexaLabelsChanged(before: LabelMap, after: LabelMap) {
    || (exists key :: key in after && NexaKey(key) && Value(before, key) != after[key])
    || (exists key :: key in before && NexaKey(key) && key !in after)
  }

  predicate StringInSlice(s: string, slice: seq<string>) {
    exists i :: 0 <= i < |slice| && slice[i] == s
  }

  /** Whether the webhook allows the request. */
  predicate Validate(rules: seq<NamespaceRule>, r: Request) {
    if r.subResource != "" then true
    else if !r.object_.Decoded? then false
    else
      var labels := r.object_.labels;
      if r.operation == Update && r.oldObject.Decoded? && !NexaLabelsChanged(r.oldObject.labels, labels) then true
      else if LABEL_ORG !in labels && LABEL_PRIVACY !in labels then true
      else if LABEL_PRIVACY in labels && labels[LABEL_PRIVACY] !in PRIVACY_LEVELS then false
      else
        match RuleFor(rules, r.namespace)
        case None => false
        case Some(rule) =>
          && (LABEL_ORG in labels ==> StringInSlice(labels[LABEL_ORG], rule.allowedOrgs))
          && (LABEL_PRIVACY in labels ==> StringInSlice(labels[LABEL_PRIVACY], rule.allowedPrivacy))
  }

  /** The namespace may use the value for the label. */
  predicate MayUse(rules: seq<NamespaceRule>, namespace: string, key: string, value: string) {
    match RuleFor(rules, namespace)
    case None => false
    case Some(rule) => if key == LABEL_ORG then value in rule.allowedOrgs else value in rule.allowedPrivacy
  }

  /** The label provenance the webhook is for: the org and privacy labels are absent, empty, or
      allowed for the namespace. */
  ghost predicate Legitimate(rules: seq<NamespaceRule>, namespace: string, labels: LabelMap) {
    forall key :: key in {LABEL_ORG, LABEL_PRIVACY} ==>
                    Value(labels, key) == "" || MayUse(rules, namespace, key, Value(labels, key))
  }

  /** The labels count as unchanged exactly when the nexa.io/ keys read the same before and after and
      none of them went away; only an empty value can appear unnoticed. */
  lemma UnchangedExactly(before: LabelMap, after: LabelMap)
    ensures !NexaLabelsChanged(before, after) <==>
            forall key :: NexaKey(key) ==> Value(before, key) == Value(after, key) && (key in before ==> key in after)
  {
  }

  /** Under a valid configuration the webhook allows a pod request exactly when it is an update that
      leaves the nexa.io/ labels alone, or the namespace's rule lists every org and privacy label present. */
  lemma ValidateExactly(rules: seq<NamespaceRule>, r: Request)
    requires ValidRules(rules) && r.subResource == "" && r.object_.Decoded?
    ensures Validate(rules, r) <==>
            || (r.operation == Update && r.oldObject.Decoded? && !NexaLabelsChanged(r.oldObject.labels, r.object_.labels))
            || (forall key :: key in {LABEL_ORG, LABEL_PRIVACY} && key in r.object_.labels ==>
                                MayUse(rules, r.namespace, key, r.object_.labels[key]))
  {
    var rule := RuleFor(rules, r.namespace);
    if rule.Some? {
      RuleIsLookup(rules, r.namespace, rule.value);
      assert KnownLevels(rule.value.allowedPrivacy);
      assert LABEL_ORG != LABEL_PRIVACY;
    }
  }

  /** An allowed request leaves legitimate labels, if the labels it may have taken over were. */
  lemma AllowedMeansLegitimate(rules: seq<NamespaceRule>, r: Request)
    requires Validate(rules, r) && r.subResource == ""
    requires r.operation == Update && r.oldObject.Decoded? ==> Legitimate(rules, r.namespace, r.oldObject.labels)
    ensures r.object_.Decoded? && Legitimate(rules, r.namespace, r.object_.labels)
  {
  }

  /** The rule that speaks for the namespace: its own, or the wildcard's if it has none. */
  predicate SpeaksFor(rules: seq<NamespaceRule>, rule: NamespaceRule, namespace: string) {
    && rule in rules
    && (rule.namespace == namespace || (rule.namespace == "*" && forall other :: other in rules ==> other.namespace != namespace))
  }

  /** A namespace may use what the rule that speaks for it lists, and without a rule nothing. */
  lemma MayUseByRules(rules: seq<NamespaceRule>, namespace: string, value: string)
    requires ValidRules(rules)
    ensures MayUse(rules, namespace, "nexa.io/org", value) <==>
            exists rule :: SpeaksFor(rules, rule, namespace) && value in rule.allowedOrgs
    ensures MayUse(rules, namespace, "nexa.io/privacy", value) <==>
            exists rule :: SpeaksFor(rules, rule, namespace) && value in rule.allowedPrivacy
  {
    var found := RuleFor(rules, namespace);
    forall rule
      ensures SpeaksFor(rules, rule, namespace) <==> found == Some(rule)
    {
      RuleIsLookup(rules, namespace, rule);
    }
  }

  /** The decision on any request, by its parts: sub-resources pass, what is no pod does not, and a pod
      passes if an update leaves all nexa.io/ labels alone or if each org and privacy label on it, even
      an empty one, is listed by the rule that speaks for the namespace. */
  lemma ValidateByLabels(rules: seq<NamespaceRule>, r: Request)
    requires ValidRules(rules)
    ensures r.subResource != "" ==> Validate(rules, r)
    ensures r.subResource == "" && !r.object_.Decoded? ==> !Validate(rules, r)
    ensures r.subResource == "" && r.object_.Decoded? ==>
              var labels := r.object_.labels;
              Validate(rules, r) <==>
              || (&& r.operation == Update && r.oldObject.Decoded?
                  && forall key :: "nexa.io/" <= key ==>
                       Value(r.oldObject.labels, key) == Value(labels, key) && (key in r.oldObject.labels ==> key in labels))
              || (&& ("nexa.io/org" in labels ==>
                        exists rule :: SpeaksFor(rules, rule, r.namespace) && labels["nexa.io/org"] in rule.allowedOrgs)
                  && ("nexa.io/privacy" in labels ==>
                        exists rule :: SpeaksFor(rules, rule, r.namespace) && labels["nexa.io/privacy"] in rule.allowedPrivacy))
  {
    if r.subResource == "" && r.object_.Decoded? {
      var labels := r.object_.labels;
      ValidateExactly(rules, r);
      MayUseByRules(rules, r.namespace, Value(labels, "nexa.io/org"));
      MayUseByRules(rules, r.namespace, Value(labels, "nexa.io/privacy"));
      if r.oldObject.Decoded? {
        UnchangedExactly(r.oldObject.labels, labels);
      }
    }
  }

  // ---- Histories ---------------------------------------------------------------------

  type Store = map<(string, string), LabelMap>

  /** Requests that reach the store. An update carries the stored labels as its old object, or an old
      object that is missing or cannot be decoded; sub-resources leave labels alone. */
  datatype Change =
    | CreatePod(namespace: string, name: string, labels: LabelMap)
    | UpdatePod(namespace: string, name: string, labels: LabelMap, oldSent: bool, oldReadable: bool)
    | TouchSubResource(namespace: string, name: string, subResource: string)
    | DeletePod(namespace: string, name: string)

  function OldObject(store: Store, c: Change): Raw
    requires c.UpdatePod? && (c.namespace, c.name) in store
  {
    if !c.oldSent then Absent else if !c.oldReadable then Undecodable else Decoded(store[(c.namespace, c.name)])
  }

  predicate Possible(rules: seq<NamespaceRule>, store: Store, c: Change) {
    match c
    case CreatePod(ns, name, labels) =>
      (ns, name) !in store && Validate(rules, Request("", Create, ns, Decoded(labels), Absent))
    case UpdatePod(ns, name, labels, _, _) =>
      (ns, name) in store && Validate(rules, Request("", Update, ns, Decoded(labels), OldObject(store, c)))
    case TouchSubResource(_, _, subResource) => subResource != ""
    case DeletePod(ns, name) => (ns, name) in store
  }

  function Apply(store: Store, c: Change): Store {
    match c
    case CreatePod(ns, name, labels) => store[(ns, name) := labels]
    case UpdatePod(ns, name, labels, _, _) => store[(ns, name) := labels]
    case TouchSubResource(_, _, _) => store
    case DeletePod(ns, name) => store - {(ns, name)}
  }

  predicate Admitted(rules: seq<NamespaceRule>, store: Store, changes: seq<Change>)
    decreases |changes|
  {
    changes != [] ==> Possible(rules, store, changes[0]) && Admitted(rules, Apply(store, changes[0]), changes[1..])
  }

  function After(store: Store, changes: seq<Change>): Store
    decreases |changes|
  {
    if changes == [] then store else After(Apply(store, changes[0]), changes[1..])
  }

  ghost predicate AllLegitimate(rules: seq<NamespaceRule>, store: Store) {
    forall pod :: pod in store ==> Legitimate(rules, pod.0, store[pod])
  }

  lemma ChangeKeepsLegitimate(rules: seq<NamespaceRule>, store: Store, c: Change)
    requires AllLegitimate(rules, store) && Possible(rules, store, c)
    ensures AllLegitimate(rules, Apply(store, c))
  {
  }

  /** After any history of admitted requests every stored pod's org and privacy labels are absent,
      empty, or allowed for its namespace, however often the unchanged-labels shortcut was taken. */
  lemma {:induction false} ProvenanceOverHistories(rules: seq<NamespaceRule>, store: Store, changes: seq<Change>)
    requires AllLegitimate(rules, store) && Admitted(rules, store, changes)
    ensures AllLegitimate(rules, After(store, changes))
    decreases |changes|
  {
    if changes != [] {
      ChangeKeepsLegitimate(rules, store, changes[0]);
      ProvenanceOverHistories(rules, Apply(store, changes[0]), changes[1..]);
    }
  }

  /** In particular, with a validated configuration, no pod carries an unknown privacy level. */
  lemma StoredPrivacyIsKnown(rules: seq<NamespaceRule>, changes: seq<Change>, pod: (string, string))
    requires ValidRules(rules) && Admitted(rules, map[], changes) && pod in After(map[], changes)
    ensures Value(After(map[], changes)[pod], LABEL_PRIVACY) in {"", "standard", "high"}
  {
    ProvenanceOverHistories(rules, map[], changes);
    var rule := RuleFor(rules, pod.0);
    assert Legitimate(rules, pod.0, After(map[], changes)[pod]);
    assert LABEL_ORG != LABEL_PRIVACY;
    if rule.Some? {
      RuleIsLookup(rules, pod.0, rule.value);
      assert KnownLevels(rule.value.allowedPrivacy);
    }
  }
}
