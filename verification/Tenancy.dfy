/**
 Admission and scheduling together: the pods of a cluster run have an admission history, and
 namespaces without a common organisation do not share nodes.
 */
module Tenancy {
  import opened Cluster
  import opened Isolation
  import opened Labels
  import opened Objects
  import opened Rfc3339
  import opened WebhookConfig
  import opened WorkQueue
  import opened Wrappers
  import Privacy
  import Webhook

  // ---- A run's admission history -------------------------------------------------------

  function Names(pods: map<string, Pod>): (names: set<(string, string)>)
    ensures forall name :: name in names <==> name.1 in pods && pods[name.1].namespace == name.0
  {
    set id | id in pods :: (pods[id].namespace, id)
  }

  /** The pods' labels as the webhook's store holds them. */
  function StoreOf(pods: map<string, Pod>): Webhook.Store {
    map name | name in Names(pods) :: pods[name.1].labels
  }

  /** The requests that an event is to the webhook. */
  function RequestsOf(s: State, e: Event): seq<Webhook.Change> {
    match e
    case PodStep(Create(id, pod)) => [Webhook.CreatePod(pod.namespace, id, pod.labels)]
    case PodStep(Edit(id, labels)) =>
      if id in s.pods then [Webhook.UpdatePod(s.pods[id].namespace, id, labels, true, true)] else []
    case PodStep(Remove(id)) => if id in s.pods then [Webhook.DeletePod(s.pods[id].namespace, id)] else []
    case _ => []
  }

  ghost function HistoryOf(setup: Setup, s: State, events: seq<Event>): seq<Webhook.Change>
    requires Legal(setup, s, events)
    decreases |events|
  {
    if events == [] then [] else RequestsOf(s, events[0]) + HistoryOf(setup, Apply(setup, s, events[0]), events[1..])
  }

  /** The webhook let everything through that happened in the run. */
  ghost predicate AdmittedRun(rules: seq<NamespaceRule>, setup: Setup, s: State, events: seq<Event>)
    requires Legal(setup, s, events)
  {
    Webhook.Admitted(rules, StoreOf(s.pods), HistoryOf(setup, s, events))
  }

  lemma StoreKeeps(pods: map<string, Pod>, id: string, pod: Pod)
    requires id in pods ==> pods[id].namespace == pod.namespace
    ensures StoreOf(pods[id := pod]) == StoreOf(pods)[(pod.namespace, id) := pod.labels]
  {
  }

  lemma StoreSame(pods: map<string, Pod>, id: string, pod: Pod)
    requires id in pods && pods[id].namespace == pod.namespace && pods[id].labels == pod.labels
    ensures StoreOf(pods[id := pod]) == StoreOf(pods)
  {
  }

  lemma StoreDrops(pods: map<string, Pod>, id: string)
    requires id in pods
    ensures StoreOf(pods - {id}) == StoreOf(pods) - {(pods[id].namespace, id)}
  {
  }

  lemma PodStepIsRequest(setup: Setup, s: State, e: PodEvent)
    requires PodEnabled(setup, s, e)
    ensures Webhook.After(StoreOf(s.pods), RequestsOf(s, PodStep(e))) == StoreOf(ApplyPod(setup, s, e).pods)
  {
    var t := ApplyPod(setup, s, e);
    match e {
      case Create(id, pod) => StoreKeeps(s.pods, id, pod);
      case Edit(id, _) => StoreKeeps(s.pods, id, t.pods[id]);
      case Remove(id) => StoreDrops(s.pods, id);
      case _ => StoreSame(s.pods, e.id, t.pods[e.id]);
    }
  }

  lemma OtherStepsKeepPods(setup: Setup, s: State, e: Event)
    requires Enabled(setup, Ticked(s), e) && !e.PodStep?
    ensures Apply(setup, s, e).pods == s.pods
  {
  }

  lemma StepIsRequest(setup: Setup, s: State, e: Event)
    requires Enabled(setup, Ticked(s), e)
    ensures Webhook.After(StoreOf(s.pods), RequestsOf(s, e)) == StoreOf(Apply(setup, s, e).pods)
  {
    if e.PodStep? {
      PodStepIsRequest(setup, Ticked(s), e.p);
      assert RequestsOf(Ticked(s), e) == RequestsOf(s, e);
    } else {
      OtherStepsKeepPods(setup, s, e);
    }
  }

  /** One event of an admitted run leaves legitimate labels, and an admitted rest. */
  lemma AdmittedStep(rules: seq<NamespaceRule>, setup: Setup, s: State, events: seq<Event>)
    requires events != [] && Legal(setup, s, events) && AdmittedRun(rules, setup, s, events)
    ensures var t := Apply(setup, s, events[0]);
            && AdmittedRun(rules, setup, t, events[1..])
            && (Webhook.AllLegitimate(rules, StoreOf(s.pods)) ==> Webhook.AllLegitimate(rules, StoreOf(t.pods)))
  {
    var requests, rest := RequestsOf(s, events[0]), HistoryOf(setup, Apply(setup, s, events[0]), events[1..]);
    StepIsRequest(setup, s, events[0]);
    if requests != [] {
      assert (requests + rest)[1..] == rest && requests == [requests[0]];
      if Webhook.AllLegitimate(rules, StoreOf(s.pods)) {
        Webhook.ChangeKeepsLegitimate(rules, StoreOf(s.pods), requests[0]);
      }
    } else {
      assert requests + rest == rest;
    }
  }

  /** The run's pods are what its admission history makes of the store, so all that is proved of
      histories holds of runs. */
  lemma {:induction false} RunHasHistory(rules: seq<NamespaceRule>, setup: Setup, s: State, events: seq<Event>)
    requires Legal(setup, s, events) && AdmittedRun(rules, setup, s, events)
    ensures Webhook.After(StoreOf(s.pods), HistoryOf(setup, s, events)) == StoreOf(After(setup, s, events).pods)
    decreases |events|
  {
    if events != [] {
      var requests, rest := RequestsOf(s, events[0]), HistoryOf(setup, Apply(setup, s, events[0]), events[1..]);
      StepIsRequest(setup, s, events[0]);
      AdmittedStep(rules, setup, s, events);
      RunHasHistory(rules, setup, Apply(setup, s, events[0]), events[1..]);
      assert requests == [] ==> requests + rest == rest;
      assert requests != [] ==> (requests + rest)[1..] == rest;
    }
  }

  // ---- Namespaces ----------------------------------------------------------------------

  /** Two namespaces that no organisation may use in common. */
  ghost predicate Disjoint(rules: seq<NamespaceRule>, a: string, b: string) {
    forall org :: !(Webhook.MayUse(rules, a, LABEL_ORG, org) && Webhook.MayUse(rules, b, LABEL_ORG, org))
  }

  /** Org-labelled pods that run on the node come from namespaces that have an organisation in common. */
  ghost predicate Kin(rules: seq<NamespaceRule>, pods: map<string, Pod>, node: string) {
    forall p, q :: p in RunningOn(pods, node) && q in RunningOn(pods, node) && Org(p) != "" && Org(q) != ""
                   ==> !Disjoint(rules, p.namespace, q.namespace)
  }

  /** Every other org-labelled pod running on the node comes from a namespace that has an organisation
      in common with the given pod's, if that pod has an organisation. */
  ghost predicate Akin(rules: seq<NamespaceRule>, pods: map<string, Pod>, id: string, after: Pod, node: string) {
    Org(after) != "" ==>
      forall other :: other in pods && other != id && Runs(pods[other], node) && Org(pods[other]) != ""
                      ==> !Disjoint(rules, pods[other].namespace, after.namespace)
  }

  /** Placing a pod on the node, or giving it other labels there, keeps the node to kin exactly when
      the pod is akin to those that run there. */
  lemma PlacingKin(rules: seq<NamespaceRule>, pods: map<string, Pod>, id: string, after: Pod, node: string)
    requires Runs(after, node) && Kin(rules, pods, node)
    requires Org(after) != "" ==> Webhook.MayUse(rules, after.namespace, LABEL_ORG, Org(after))
    ensures Kin(rules, pods[id := after], node) <==> Akin(rules, pods, id, after, node)
  {
    var now := pods[id := after];
    assert now[id] in RunningOn(now, node);
    forall other | other in pods && other != id && Runs(pods[other], node)
      ensures pods[other] in RunningOn(now, node) && pods[other] in RunningOn(pods, node)
    {
      assert now[other] == pods[other];
    }
  }

  /** Moving a pod that already has an organisation on the node is always harmless. */
  lemma MovesAreAkin(rules: seq<NamespaceRule>, pods: map<string, Pod>, id: string, after: Pod, node: string)
    requires id in pods && Runs(pods[id], node) && Org(pods[id]) != "" && after.namespace == pods[id].namespace
    requires Kin(rules, pods, node)
    ensures Akin(rules, pods, id, after, node)
  {
    forall other | other in pods && Runs(pods[other], node)
      ensures pods[other] in RunningOn(pods, node)
    {
    }
  }

  lemma FewerKin(rules: seq<NamespaceRule>, a: map<string, Pod>, b: map<string, Pod>, node: string)
    requires Kin(rules, a, node)
    requires forall id :: id in b && Runs(b[id], node) ==>
               id in a && Runs(a[id], node) && Org(b[id]) == Org(a[id]) && b[id].namespace == a[id].namespace
    ensures Kin(rules, b, node)
  {
  }

  lemma MayUseOwnOrg(rules: seq<NamespaceRule>, pods: map<string, Pod>, id: string)
    requires id in pods && Webhook.AllLegitimate(rules, StoreOf(pods))
    ensures Org(pods[id]) != "" ==> Webhook.MayUse(rules, pods[id].namespace, LABEL_ORG, Org(pods[id]))
  {
    assert (pods[id].namespace, id) in StoreOf(pods);
    assert LABEL_ORG in {LABEL_ORG, LABEL_PRIVACY};
  }

  /** The event brings no namespace to the node that shares no organisation with one already there. */
  ghost predicate KeepsKin(rules: seq<NamespaceRule>, s: State, e: PodEvent, node: string) {
    match e
    case Bind(id, n, _) => id in s.pods && n == node ==> Akin(rules, s.pods, id, s.pods[id], node)
    case BindElsewhere(id, n) => id in s.pods && n == node ==> Akin(rules, s.pods, id, s.pods[id], node)
    case Edit(id, labels) => id in s.pods && Runs(s.pods[id], node) ==> Akin(rules, s.pods, id, s.pods[id].(labels := labels), node)
    case _ => true
  }

  /** Whoever takes the step, from a node kept to kin to legitimate labels: the node stays kept to kin
      if and only if the step brings no stranger. */
  lemma StepKin(rules: seq<NamespaceRule>, setup: Setup, s: State, e: PodEvent, node: string)
    requires PodEnabled(setup, s, e) && node != "" && Kin(rules, s.pods, node)
    requires Webhook.AllLegitimate(rules, StoreOf(ApplyPod(setup, s, e).pods))
    ensures Kin(rules, ApplyPod(setup, s, e).pods, node) <==> KeepsKin(rules, s, e, node)
  {
    var t := ApplyPod(setup, s, e);
    if e.id in t.pods && Runs(t.pods[e.id], node) && !e.Report? && !e.Create? {
      MayUseOwnOrg(rules, t.pods, e.id);
      PlacingKin(rules, s.pods, e.id, t.pods[e.id], node);
    } else {
      FewerKin(rules, s.pods, t.pods, node);
    }
  }

  /** What is asked of a run: the scheduler has the Filter look at organisations, or binds akin pods;
      others bind, and unlabelled running pods get an organisation, only akin to what runs on the node.
      A pod that has an organisation may be moved to any other that the webhook allows, or to none. */
  ghost predicate Tenant(rules: seq<NamespaceRule>, s: State, e: PodEvent, node: string) {
    || KeepsKin(rules, s, e, node)
    || (e.Bind? && Shielded(s, e, node))
    || (e.Edit? && e.id in s.pods && Org(s.pods[e.id]) != "")
  }

  lemma ShieldedKeepsKin(rules: seq<NamespaceRule>, plugins: set<string>, codec: TimeCodec, s: State, e: PodEvent, node: string)
    requires PodEnabled(Nexa(plugins, codec), s, e) && Privacy.NAME in plugins && e.Bind? && Shielded(s, e, node)
    requires Webhook.AllLegitimate(rules, StoreOf(s.pods))
    ensures KeepsKin(rules, s, e, node)
  {
    ShieldedKeepsApart(plugins, codec, s, e, node);
    forall id | id in s.pods && Org(s.pods[id]) != ""
      ensures Webhook.MayUse(rules, s.pods[id].namespace, LABEL_ORG, Org(s.pods[id]))
    {
      MayUseOwnOrg(rules, s.pods, id);
    }
  }

  /** A tenant step brings no stranger. */
  lemma TenantKeepsKin(rules: seq<NamespaceRule>, plugins: set<string>, codec: TimeCodec, s: State, e: PodEvent, node: string)
    requires PodEnabled(Nexa(plugins, codec), s, e) && Privacy.NAME in plugins && Tenant(rules, s, e, node)
    requires Kin(rules, s.pods, node) && Webhook.AllLegitimate(rules, StoreOf(s.pods))
    ensures KeepsKin(rules, s, e, node)
  {
    if e.Bind? && Shielded(s, e, node) {
      ShieldedKeepsKin(rules, plugins, codec, s, e, node);
    } else if e.Edit? && Runs(s.pods[e.id], node) && Org(s.pods[e.id]) != "" {
      MovesAreAkin(rules, s.pods, e.id, s.pods[e.id].(labels := e.labels), node);
    }
  }

  ghost predicate TenantRun(rules: seq<NamespaceRule>, setup: Setup, s: State, events: seq<Event>, node: string)
    requires Legal(setup, s, events)
    decreases |events|
  {
    events != [] ==>
      && (events[0].PodStep? ==> Tenant(rules, s, events[0].p, node))
      && TenantRun(rules, setup, Apply(setup, s, events[0]), events[1..], node)
  }

  lemma {:induction false} KinOverRuns(rules: seq<NamespaceRule>, plugins: set<string>, codec: TimeCodec, s: State,
                                       events: seq<Event>, node: string)
    requires Privacy.NAME in plugins && Legal(Nexa(plugins, codec), s, events) && node != ""
    requires TenantRun(rules, Nexa(plugins, codec), s, events, node) && AdmittedRun(rules, Nexa(plugins, codec), s, events)
    requires Webhook.AllLegitimate(rules, StoreOf(s.pods)) && Kin(rules, s.pods, node)
    ensures Kin(rules, After(Nexa(plugins, codec), s, events).pods, node)
    decreases |events|
  {
    if events != [] {
      var setup := Nexa(plugins, codec);
      AdmittedStep(rules, setup, s, events);
      if events[0].PodStep? {
        TenantKeepsKin(rules, plugins, codec, Ticked(s), events[0].p, node);
        StepKin(rules, setup, Ticked(s), events[0].p, node);
      }
      KinOverRuns(rules, plugins, codec, Apply(setup, s, events[0]), events[1..], node);
    }
  }

  /** With admitted pods and label changes, and tenant steps, org-labelled pods of namespaces that share
      no organisation never run on the same node, in any reachable state. */
  lemma DisjointNamespacesNeverShareANode(rules: seq<NamespaceRule>, plugins: set<string>, codec: TimeCodec, s: State,
                                          events: seq<Event>, node: string, p: Pod, q: Pod)
    requires Privacy.NAME in plugins && Legal(Nexa(plugins, codec), s, events)
    requires TenantRun(rules, Nexa(plugins, codec), s, events, node) && AdmittedRun(rules, Nexa(plugins, codec), s, events)
    requires s.pods == map[] && node != ""
    requires var t := After(Nexa(plugins, codec), s, events);
             p in RunningOn(t.pods, node) && q in RunningOn(t.pods, node)
    requires Org(p) != "" && Org(q) != ""
    ensures !Disjoint(rules, p.namespace, q.namespace)
  {
    KinOverRuns(rules, plugins, codec, s, events, node);
  }

  // ---- What the webhook and the Filter together do not see -------------------------------

  const RULES := [NamespaceRule("x", ["alpha"], PRIVACY_LEVELS), NamespaceRule("y", ["beta"], PRIVACY_LEVELS)]
  const STRICTLY := Policy(RegionPolicy(false, "", ""), PrivacyPolicy(true, "", true, 0),
                           ConfidentialPolicy(false, false, false, "", "", false, 0, ""))
  const OF_ALPHA := Pod("p", "x", "", map[LABEL_ORG := "alpha"], Phase.Pending, [], None, None)
  const UNLABELLED := Pod("q", "y", "", map[], Phase.Pending, [], None, None)
  const BETA := map[LABEL_ORG := "beta"]

  function OneNode(pods: map<string, Pod>, tick: nat): State {
    State(map["n" := map[]], pods, [], EMPTY, map[], None, 0, History(tick, map[], [], {}, map[], map[]))
  }

  /** Two pods are created and bound under strict isolation. */
  function Placing(): seq<Event> {
    Placed("p", OF_ALPHA, Placed("q", UNLABELLED, []))
  }

  function Placed(id: string, pod: Pod, rest: seq<Event>): seq<Event> {
    [PodStep(Create(id, pod))] + ([PodStep(Bind(id, "n", STRICTLY))] + rest)
  }

  lemma OneMoreTenant(setup: Setup, s: State, e: Event, rest: seq<Event>, node: string)
    requires Enabled(setup, Ticked(s), e) && Legal(setup, Apply(setup, s, e), rest)
    requires e.PodStep? ==> Tenant(RULES, s, e.p, node)
    ensures Legal(setup, s, [e] + rest) && After(setup, s, [e] + rest) == After(setup, Apply(setup, s, e), rest)
    ensures TenantRun(RULES, setup, s, [e] + rest, node) <==> TenantRun(RULES, setup, Apply(setup, s, e), rest, node)
    ensures HistoryOf(setup, s, [e] + rest) == RequestsOf(s, e) + HistoryOf(setup, Apply(setup, s, e), rest)
  {
  }

  lemma StillRunning(pods: map<string, Pod>, id: string, pod: Pod, node: string)
    requires id !in pods && !Runs(pod, node)
    ensures RunningOn(pods[id := pod], node) == RunningOn(pods, node)
  {
    var now := pods[id := pod];
    forall p | p in RunningOn(pods, node)
      ensures p in RunningOn(now, node)
    {
      var other :| other in pods && pods[other] == p && Runs(p, node);
      assert now[other] == p;
    }
  }

  lemma CreatesOne(setup: Setup, pods: map<string, Pod>, tick: nat, id: string, pod: Pod)
    requires id !in pods && pod.nodeName == "" && pod.phase == Phase.Pending
    ensures var s, e := OneNode(pods, tick), PodStep(Create(id, pod));
            Enabled(setup, Ticked(s), e) && Apply(setup, s, e) == OneNode(pods[id := pod], tick + 1) && Tenant(RULES, s, e.p, "n")
  {
  }

  lemma BindsOne(codec: TimeCodec, pods: map<string, Pod>, tick: nat, id: string, rest: seq<Event>)
    requires id in pods && pods[id].nodeName == "" && !Terminated(pods[id])
    requires Privacy.Admits(STRICTLY.privacy, pods[id], map[], RunningOn(pods, "n"), 0, codec)
    requires var setup, t := Nexa({Privacy.NAME}, codec), OneNode(pods[id := pods[id].(nodeName := "n")], tick + 1);
             Legal(setup, t, rest) && TenantRun(RULES, setup, t, rest, "n")
    ensures var setup, s, e := Nexa({Privacy.NAME}, codec), OneNode(pods, tick), PodStep(Bind(id, "n", STRICTLY));
            var t := OneNode(pods[id := pods[id].(nodeName := "n")], tick + 1);
            && Legal(setup, s, [e] + rest) && After(setup, s, [e] + rest) == After(setup, t, rest)
            && TenantRun(RULES, setup, s, [e] + rest, "n") && HistoryOf(setup, s, [e] + rest) == HistoryOf(setup, t, rest)
  {
    var setup, s, e := Nexa({Privacy.NAME}, codec), OneNode(pods, tick), PodStep(Bind(id, "n", STRICTLY));
    assert AdmittedBy({Privacy.NAME}, codec, PlacementOf(Ticked(s), id, "n", STRICTLY));
    assert Apply(setup, s, e) == OneNode(pods[id := pods[id].(nodeName := "n")], tick + 1);
    OneMoreTenant(setup, s, e, rest, "n");
    assert RequestsOf(s, e) == [];
  }

  lemma PlacesOne(codec: TimeCodec, pods: map<string, Pod>, tick: nat, id: string, pod: Pod, rest: seq<Event>)
    requires id !in pods && pod.nodeName == "" && pod.phase == Phase.Pending
    requires Privacy.Admits(STRICTLY.privacy, pod, map[], RunningOn(pods, "n"), 0, codec)
    requires var setup, t := Nexa({Privacy.NAME}, codec), OneNode(pods[id := pod.(nodeName := "n")], tick + 2);
             Legal(setup, t, rest) && TenantRun(RULES, setup, t, rest, "n")
    ensures var setup, s := Nexa({Privacy.NAME}, codec), OneNode(pods, tick);
            var t := OneNode(pods[id := pod.(nodeName := "n")], tick + 2);
            && Legal(setup, s, Placed(id, pod, rest))
            && After(setup, s, Placed(id, pod, rest)) == After(setup, t, rest)
            && TenantRun(RULES, setup, s, Placed(id, pod, rest), "n")
            && HistoryOf(setup, s, Placed(id, pod, rest)) ==
               [Webhook.CreatePod(pod.namespace, id, pod.labels)] + HistoryOf(setup, t, rest)
  {
    var setup, s := Nexa({Privacy.NAME}, codec), OneNode(pods, tick);
    var create, bind := PodStep(Create(id, pod)), PodStep(Bind(id, "n", STRICTLY));
    var made := pods[id := pod];
    StillRunning(pods, id, pod, "n");
    CreatesOne(setup, pods, tick, id, pod);
    assert made[id := pod.(nodeName := "n")] == pods[id := pod.(nodeName := "n")];
    BindsOne(codec, made, tick + 1, id, rest);
    OneMoreTenant(setup, s, create, [bind] + rest, "n");
  }

  lemma RulesForBeta()
    ensures ValidRules(RULES) && Disjoint(RULES, "x", "y")
    ensures Webhook.MayUse(RULES, "x", LABEL_ORG, "alpha") && Webhook.MayUse(RULES, "y", LABEL_ORG, "beta")
  {
    assert RULES[1..][0] == RULES[1];
    assert ExactRule(RULES, "x") == Some(RULES[0]) && ExactRule(RULES, "y") == Some(RULES[1]);
  }

  /** Alpha's pod and an unlabelled pod run on the node. */
  const SHARED := map["p" := OF_ALPHA.(nodeName := "n"), "q" := UNLABELLED.(nodeName := "n")]

  lemma SecondPlaced(codec: TimeCodec)
    ensures var setup, s := Nexa({Privacy.NAME}, codec), OneNode(map["p" := OF_ALPHA.(nodeName := "n")], 2);
            var events := Placed("q", UNLABELLED, []);
            && Legal(setup, s, events) && TenantRun(RULES, setup, s, events, "n")
            && After(setup, s, events) == OneNode(SHARED, 4)
            && HistoryOf(setup, s, events) == [Webhook.CreatePod("y", "q", map[])] + []
  {
    var one := map["p" := OF_ALPHA.(nodeName := "n")];
    assert one["q" := UNLABELLED.(nodeName := "n")] == SHARED;
    PlacesOne(codec, one, 2, "q", UNLABELLED, []);
  }

  lemma PlacingRuns(codec: TimeCodec)
    ensures var setup, s := Nexa({Privacy.NAME}, codec), OneNode(map[], 0);
            && Legal(setup, s, Placing()) && TenantRun(RULES, setup, s, Placing(), "n")
            && After(setup, s, Placing()) == OneNode(SHARED, 4)
            && HistoryOf(setup, s, Placing()) ==
               [Webhook.CreatePod("x", "p", OF_ALPHA.labels)] + ([Webhook.CreatePod("y", "q", map[])] + [])
  {
    var one := map["p" := OF_ALPHA.(nodeName := "n")];
    assert RunningOn(map[], "n") == {};
    assert map[]["p" := OF_ALPHA.(nodeName := "n")] == one;
    SecondPlaced(codec);
    PlacesOne(codec, map[], 0, "p", OF_ALPHA, Placed("q", UNLABELLED, []));
  }

  lemma PlacingAdmitted()
    ensures Webhook.Admitted(RULES, map[],
                             [Webhook.CreatePod("x", "p", OF_ALPHA.labels)] + ([Webhook.CreatePod("y", "q", map[])] + []))
  {
    RulesForBeta();
    var create := [Webhook.CreatePod("y", "q", map[])] + [];
    assert ([Webhook.CreatePod("x", "p", OF_ALPHA.labels)] + create)[1..] == create;
  }

  lemma SharedIsOneOrg()
    ensures StoreOf(map[]) == map[] && CoResident(SHARED, "n")
  {
    assert Org(SHARED["q"]) == "";
    assert forall p :: p in RunningOn(SHARED, "n") && Org(p) != "" ==> p == SHARED["p"];
  }

  lemma BetaAllowed(store: Webhook.Store)
    requires ("y", "q") in store
    ensures Webhook.Possible(RULES, store, Webhook.UpdatePod("y", "q", BETA, true, true))
  {
    RulesForBeta();
    assert LABEL_PRIVACY !in BETA && BETA[LABEL_ORG] == "beta";
  }

  lemma LabellingAdmitted(setup: Setup)
    ensures var t, e := OneNode(SHARED, 4), PodStep(Edit("q", BETA));
            && Enabled(setup, Ticked(t), e) && Webhook.Admitted(RULES, StoreOf(t.pods), RequestsOf(t, e))
  {
    assert ("y", "q") in Names(SHARED);
    BetaAllowed(StoreOf(SHARED));
    var change := Webhook.UpdatePod("y", "q", BETA, true, true);
    assert RequestsOf(OneNode(SHARED, 4), PodStep(Edit("q", BETA))) == [change];
  }

  lemma LabelledMix(setup: Setup)
    requires Enabled(setup, Ticked(OneNode(SHARED, 4)), PodStep(Edit("q", BETA)))
    ensures var u := Apply(setup, OneNode(SHARED, 4), PodStep(Edit("q", BETA)));
            !CoResident(u.pods, "n") && !Kin(RULES, u.pods, "n")
  {
    RulesForBeta();
    var pods := Apply(setup, OneNode(SHARED, 4), PodStep(Edit("q", BETA))).pods;
    assert pods == SHARED["q" := SHARED["q"].(labels := BETA)];
    assert pods["p"] in RunningOn(pods, "n") && pods["q"] in RunningOn(pods, "n");
    assert Org(pods["p"]) == "alpha" && Org(pods["q"]) == "beta";
  }

  /** Neither the webhook nor the Filter sees a running pod get its first organisation next to another
      one's: after a run of admitted pods and strict bindings, the webhook lets the owner of an
      unlabelled pod label it for an organisation of its own namespace, and two namespaces without a
      common organisation share the node. */
  lemma LabellingMixes(codec: TimeCodec)
    ensures ValidRules(RULES) && Disjoint(RULES, "x", "y")
    ensures var setup, s, e := Nexa({Privacy.NAME}, codec), OneNode(map[], 0), PodStep(Edit("q", BETA));
            && Legal(setup, s, Placing()) && TenantRun(RULES, setup, s, Placing(), "n") && AdmittedRun(RULES, setup, s, Placing())
            && var t := After(setup, s, Placing());
            && CoResident(t.pods, "n") && Enabled(setup, Ticked(t), e)
            && Webhook.Admitted(RULES, StoreOf(t.pods), RequestsOf(t, e))
            && var u := Apply(setup, t, e);
            && !CoResident(u.pods, "n") && !Kin(RULES, u.pods, "n")
  {
    RulesForBeta();
    PlacingRuns(codec);
    PlacingAdmitted();
    SharedIsOneOrg();
    LabellingAdmitted(Nexa({Privacy.NAME}, codec));
    LabelledMix(Nexa({Privacy.NAME}, codec));
  }
}
