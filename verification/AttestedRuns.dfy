/**
 Attestation over whole runs: what the confidential Filter reads on a node is the outcome of the last
 verification that was patched onto it.
 */
module AttestedRuns {
  import opened Attestation
  import opened Cluster
  import opened Controller
  import opened Instants
  import opened Labels
  import opened NodeState
  import opened Objects
  import opened Rfc3339
  import opened Wrappers
  import Confidential

  /** A node marked as attested carries the time of the successful verification behind its last
      attestation patch, and that verification's anchor if it named one. */
  ghost predicate Backed(setup: Setup, s: State, node: string) {
    && (s.verification.Some? && Success(s.verification.value.1) ==> InRange(s.verification.value.1.value.timestamp))
    && (node in s.nodes && Value(s.nodes[node], LABEL_TEE_ATTESTED) == "true" ==>
          && node in s.history.verdicts && Success(s.history.verdicts[node])
          && var r := s.history.verdicts[node].value;
          && InRange(r.timestamp)
          && Value(s.nodes[node], LABEL_TEE_TIME) == setup.codec.format(r.timestamp)
          && (r.trustAnchor != "" ==> Value(s.nodes[node], LABEL_TEE_ANCHOR) == r.trustAnchor))
  }

  /** What one attestation patch does to the labels: fail closed, or take over the time and, if there
      is one, the anchor; without an anchor the old one stays. */
  lemma AttestationPatchEffect(labels: LabelMap, result: Option<Result>, codec: TimeCodec)
    ensures var after := Merge(labels, AttestationPatch(result, codec));
            && (Value(after, "nexa.io/tee-attested") == "true" <==> Success(result))
            && (Success(result) ==> Value(after, "nexa.io/tee-attestation-time") == codec.format(result.value.timestamp))
            && Value(after, "nexa.io/tee-trust-anchor") ==
               (if Success(result) && result.value.trustAnchor != "" then result.value.trustAnchor
                else Value(labels, "nexa.io/tee-trust-anchor"))
  {
  }

  lemma SameAttestation(a: LabelMap, patch: Patch)
    requires patch.Keys !! ATTESTATION_KEYS
    ensures var b := Merge(a, patch);
            && Value(b, LABEL_TEE_ATTESTED) == Value(a, LABEL_TEE_ATTESTED)
            && Value(b, LABEL_TEE_TIME) == Value(a, LABEL_TEE_TIME)
            && Value(b, LABEL_TEE_ANCHOR) == Value(a, LABEL_TEE_ANCHOR)
  {
  }

  lemma AttestBacked(setup: Setup, s: State, reply: Reply, node: string)
    requires s.verification.Some? && Backed(setup, s, node)
    ensures Backed(setup, ApplyNode(setup, s, Attest(reply)), node)
  {
    var (n, result) := s.verification.value;
    if n in s.nodes {
      AttestationPatchEffect(s.nodes[n], result, setup.codec);
    }
  }

  lemma NodeStepBacked(setup: Setup, s: State, e: NodeEvent, node: string)
    requires NodeEnabled(s, e) && Backed(setup, s, node)
    ensures Backed(setup, ApplyNode(setup, s, e), node)
  {
    match e {
      case Wipe(n, stamp) =>
        WritersDisjoint();
        SameAttestation(s.nodes[n], WipePatch(stamp));
      case Relabel(n, key, change) => SameAttestation(s.nodes[n], map[key := change]);
      case Attest(reply) => AttestBacked(setup, s, reply, node);
      case _ =>
    }
  }

  lemma RoundKeepsAttestation(round: Round, nodes: map<string, LabelMap>, key: string, node: string)
    requires node in nodes
    ensures var after := RoundNodes(round, nodes, key);
            && node in after
            && Value(after[node], LABEL_TEE_ATTESTED) == Value(nodes[node], LABEL_TEE_ATTESTED)
            && Value(after[node], LABEL_TEE_TIME) == Value(nodes[node], LABEL_TEE_TIME)
            && Value(after[node], LABEL_TEE_ANCHOR) == Value(nodes[node], LABEL_TEE_ANCHOR)
  {
    if key == node && RoundPatch(round, key).Some? {
      ReconcilePatchKeys(round.cached[key], round.listed.value, key);
      WritersDisjoint();
      SameAttestation(nodes[node], RoundPatch(round, key).value);
    }
  }

  lemma WorkStepBacked(setup: Setup, s: State, e: WorkEvent, node: string)
    requires WorkEnabled(s, e) && Backed(setup, s, node)
    ensures Backed(setup, ApplyWork(s, e), node)
  {
    if e.SendPatch? && node in s.nodes {
      RoundKeepsAttestation(RoundOf(e.node, s.work[e.node], e.reply), s.nodes, e.node, node);
    }
  }

  lemma StepBacked(setup: Setup, s: State, e: Event, node: string)
    requires Enabled(setup, Ticked(s), e) && Backed(setup, s, node)
    ensures Backed(setup, Apply(setup, s, e), node)
  {
    var t := Ticked(s);
    assert Backed(setup, t, node);
    match e {
      case PodStep(_) =>
      case NodeStep(n) => NodeStepBacked(setup, t, n, node);
      case WorkStep(w) => WorkStepBacked(setup, t, w, node);
    }
  }

  lemma {:induction false} BackedOverRuns(setup: Setup, s: State, events: seq<Event>, node: string)
    requires Backed(setup, s, node) && Legal(setup, s, events)
    ensures Backed(setup, After(setup, s, events), node)
    decreases |events|
  {
    if events != [] {
      StepBacked(setup, s, events[0], node);
      BackedOverRuns(setup, Apply(setup, s, events[0]), events[1..], node);
    }
  }

  // ---- Where the anchor label comes from -------------------------------------------------

  /** The anchor named by the last patched success that named one, or else the given one. */
  function LastAnchor(s: State, node: string, initial: string): string {
    if node in s.history.anchors then s.history.anchors[node] else initial
  }

  ghost predicate Anchored(s: State, node: string, initial: string) {
    node in s.nodes && Value(s.nodes[node], LABEL_TEE_ANCHOR) == LastAnchor(s, node, initial)
  }

  lemma NodeStepAnchored(setup: Setup, s: State, e: NodeEvent, node: string, initial: string)
    requires NodeEnabled(s, e) && Anchored(s, node, initial)
    ensures Anchored(ApplyNode(setup, s, e), node, initial)
  {
    match e {
      case Wipe(n, stamp) =>
        WritersDisjoint();
        SameAttestation(s.nodes[n], WipePatch(stamp));
      case Relabel(n, key, change) => SameAttestation(s.nodes[n], map[key := change]);
      case Attest(reply) =>
        var (n, result) := s.verification.value;
        if n in s.nodes {
          AttestationPatchEffect(s.nodes[n], result, setup.codec);
        }
      case _ =>
    }
  }

  lemma StepAnchored(setup: Setup, s: State, e: Event, node: string, initial: string)
    requires Enabled(setup, Ticked(s), e) && Anchored(s, node, initial)
    ensures Anchored(Apply(setup, s, e), node, initial)
  {
    var t := Ticked(s);
    match e {
      case PodStep(_) =>
      case NodeStep(n) => NodeStepAnchored(setup, t, n, node, initial);
      case WorkStep(w) =>
        if w.SendPatch? {
          RoundKeepsAttestation(RoundOf(w.node, s.work[w.node], w.reply), s.nodes, w.node, node);
        }
    }
  }

  /** Over every run the anchor label is that of the last patched success that named an anchor, or
      the node had it from the start. */
  lemma {:induction false} AnchorOverRuns(setup: Setup, s: State, events: seq<Event>, node: string, initial: string)
    requires Legal(setup, s, events) && Anchored(s, node, initial)
    ensures Anchored(After(setup, s, events), node, initial)
    decreases |events|
  {
    if events != [] {
      StepAnchored(setup, s, events[0], node, initial);
      AnchorOverRuns(setup, Apply(setup, s, events[0]), events[1..], node, initial);
    }
  }

  /** A label written from an instant is fresh by the exact age of the instant cut to the second, so
      it is accepted only if the instant itself is young enough, and refused at most a second early. */
  lemma FreshLabel(instant: int, now: int, hours: int64, codec: TimeCodec)
    requires Faithful(codec) && InRange(instant) && codec.format(instant) != "" && 0 < hours <= MAX_HOURS
    ensures Fresh(codec.format(instant), now, hours, codec) <==> now - Truncate(instant) <= hours * HOUR
    ensures Fresh(codec.format(instant), now, hours, codec) ==> now - instant <= hours * HOUR
    ensures now - instant <= hours * HOUR - SECOND ==> Fresh(codec.format(instant), now, hours, codec)
  {
    assert codec.parse(codec.format(instant)) == Some(Truncate(instant));
    FreshnessInRange(now, Truncate(instant), hours);
    TruncateBounds(instant);
  }

  /** Starting with a node not marked as attested, after any run: if the confidential Filter accepts a
      TEE-needing pod under a policy that requires attestation, the last attestation patch on the node
      came from a successful verification, no older than the policy's limit if a Duration can hold
      that. Under a required anchor,
      that verification named it exactly when it named any; and in any case the last success that
      named an anchor named it, or nothing did and the node had it from the start. */
  lemma AcceptedMeansVerified(setup: Setup, s: State, events: seq<Event>, node: string, policy: ConfidentialPolicy, pod: Pod)
    requires Faithful(setup.codec) && Legal(setup, s, events)
    requires s.verification.None? && node in s.nodes && Value(s.nodes[node], LABEL_TEE_ATTESTED) != "true"
    requires policy.enabled && policy.requireAttestation && Confidential.NeedsTee(policy, pod)
    requires var t := After(setup, s, events);
             node in t.nodes && Confidential.Admits(policy, pod, t.nodes[node], t.clock, setup.codec)
    ensures var t := After(setup, s, events);
            && node in t.history.verdicts && Success(t.history.verdicts[node])
            && var r := t.history.verdicts[node].value;
            && (0 < policy.attestationMaxAgeHours <= MAX_HOURS ==>
                  t.clock - r.timestamp <= policy.attestationMaxAgeHours * HOUR)
            && (policy.attestationTrustAnchor != "" ==>
                  && (r.trustAnchor == policy.attestationTrustAnchor <==> r.trustAnchor != "")
                  && (node !in s.history.anchors ==>
                        policy.attestationTrustAnchor == LastAnchor(t, node, Value(s.nodes[node], LABEL_TEE_ANCHOR))))
  {
    BackedOverRuns(setup, s, events, node);
    if node !in s.history.anchors {
      AnchorOverRuns(setup, s, events, node, Value(s.nodes[node], LABEL_TEE_ANCHOR));
    }
    var t := After(setup, s, events);
    if 0 < policy.attestationMaxAgeHours <= MAX_HOURS {
      FreshLabel(t.history.verdicts[node].value.timestamp, t.clock, policy.attestationMaxAgeHours, setup.codec);
    }
  }

  /** Two verifications of the node in a row, each patched onto it. */
  function TwoPasses(node: string, first: Result, second: Result): seq<Event> {
    Verified(node, first, Verified(node, second, []))
  }

  function Verified(node: string, result: Result, rest: seq<Event>): seq<Event> {
    [NodeStep(Verify(node, Some(result)))] + ([NodeStep(Attest(Applied))] + rest)
  }

  /** The state after one of them. */
  function AttestedState(setup: Setup, s: State, node: string, result: Result): State
    requires node in s.nodes
  {
    s.(nodes := s.nodes[node := Merge(s.nodes[node], AttestationPatch(Some(result), setup.codec))],
       history := Attesting(s.history.(tick := s.history.tick + 2), node, Some(result)))
  }

  lemma OnePass(setup: Setup, s: State, node: string, result: Result, rest: seq<Event>)
    requires node in s.nodes && s.verification.None? && InRange(result.timestamp)
    ensures var t := AttestedState(setup, s, node, result);
            && (Legal(setup, s, Verified(node, result, rest)) <==> Legal(setup, t, rest))
            && (Legal(setup, t, rest) ==> After(setup, s, Verified(node, result, rest)) == After(setup, t, rest))
  {
    var asked := Apply(setup, s, NodeStep(Verify(node, Some(result))));
    OneMore(setup, asked, NodeStep(Attest(Applied)), rest);
    OneMore(setup, s, NodeStep(Verify(node, Some(result))), [NodeStep(Attest(Applied))] + rest);
    assert Apply(setup, asked, NodeStep(Attest(Applied))) == AttestedState(setup, s, node, result);
  }

  lemma OldAnchorAccepted(labels: LabelMap, policy: ConfidentialPolicy, pod: Pod, first: Result, second: Result,
                          now: int, codec: TimeCodec)
    requires first.attested && second.attested && first.trustAnchor != "" && second.trustAnchor == ""
    requires policy.attestationTrustAnchor == first.trustAnchor
    requires Confidential.Admits(policy.(requireAttestation := false), pod, labels, now, codec)
    requires policy.attestationMaxAgeHours > 0 ==>
               Fresh(codec.format(second.timestamp), now, policy.attestationMaxAgeHours, codec)
    ensures Confidential.Admits(policy, pod,
              Merge(Merge(labels, AttestationPatch(Some(first), codec)), AttestationPatch(Some(second), codec)), now, codec)
  {
    var once := Merge(labels, AttestationPatch(Some(first), codec));
    AttestationPatchEffect(labels, Some(first), codec);
    AttestationPatchEffect(once, Some(second), codec);
  }

  /** The anchor may be an older verification's: a success that names none leaves the label, and the
      Filter goes on accepting the node for the old anchor, although the last verification, on whose
      time the acceptance rests, did not name it. So it happens on every node, for every pod and policy
      for which nothing but the attestation checks stands in the way. */
  lemma AnchorMayBeStale(setup: Setup, s: State, node: string, policy: ConfidentialPolicy, pod: Pod,
                         first: Result, second: Result)
    requires node in s.nodes && s.verification.None? && InRange(first.timestamp) && InRange(second.timestamp)
    requires first.attested && second.attested && first.trustAnchor != "" && second.trustAnchor == ""
    requires policy.attestationTrustAnchor == first.trustAnchor
    requires Confidential.Admits(policy.(requireAttestation := false), pod, s.nodes[node], s.clock, setup.codec)
    requires policy.attestationMaxAgeHours > 0 ==>
               Fresh(setup.codec.format(second.timestamp), s.clock, policy.attestationMaxAgeHours, setup.codec)
    ensures var events := TwoPasses(node, first, second);
            && Legal(setup, s, events)
            && var t := After(setup, s, events);
            && t.history.verdicts == s.history.verdicts[node := Some(second)]
            && node in t.nodes && Confidential.Admits(policy, pod, t.nodes[node], t.clock, setup.codec)
  {
    var once := AttestedState(setup, s, node, first);
    var twice := AttestedState(setup, once, node, second);
    OnePass(setup, once, node, second, []);
    OnePass(setup, s, node, first, Verified(node, second, []));
    OldAnchorAccepted(s.nodes[node], policy, pod, first, second, s.clock, setup.codec);
  }
}
