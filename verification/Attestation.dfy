/** The attestation controller: it verifies every TEE node in turn and patches the outcome, failing closed. */
module Attestation {
  import opened Confidential
  import opened Controller
  import opened Labels
  import opened Rfc3339
  import opened Wrappers

  /** A verification's answer; an error and a nil result are both None. */
  datatype Result = Result(attested: bool, trustAnchor: string, timestamp: int)

  predicate Success(result: Option<Result>) {
    result.Some? && result.value.attested
  }

  function AttestationPatch(result: Option<Result>, codec: TimeCodec): Patch {
    if !Success(result) then map[LABEL_TEE_ATTESTED := Put("false")]
    else
      map[LABEL_TEE_ATTESTED := Put("true"), LABEL_TEE_TIME := Put(codec.format(result.value.timestamp))]
      + if result.value.trustAnchor != "" then map[LABEL_TEE_ANCHOR := Put(result.value.trustAnchor)] else map[]
  }

  lemma AttestationPatchKeys(result: Option<Result>, codec: TimeCodec)
    ensures AttestationPatch(result, codec).Keys <= ATTESTATION_KEYS
  {
  }

  /** The outside world of one pass: each node's verification and the reply to each patch. */
  datatype World = World(verify: string -> Option<Result>, reply: string -> Reply, codec: TimeCodec)

  function Visit(nodes: map<string, LabelMap>, name: string, listed: LabelMap, world: World): map<string, LabelMap> {
    if HasTee(listed)
    then AfterPatch(nodes, name, AttestationPatch(world.verify(name), world.codec), world.reply(name))
    else nodes
  }

  function Pass(nodes: map<string, LabelMap>, listing: seq<(string, LabelMap)>, world: World): map<string, LabelMap> {
    if listing == [] then nodes
    else
      var last := |listing| - 1;
      Visit(Pass(nodes, listing[..last], world), listing[last].0, listing[last].1, world)
  }

  predicate DistinctNames(listing: seq<(string, LabelMap)>) {
    forall i, j :: 0 <= i < j < |listing| ==> listing[i].0 != listing[j].0
  }

  /** A visit depends on, and changes, nothing but its node. */
  lemma VisitLocal(a: map<string, LabelMap>, b: map<string, LabelMap>, name: string, listed: LabelMap, world: World)
    requires a.Keys == b.Keys && (name in a ==> a[name] == b[name])
    ensures Visit(a, name, listed, world).Keys == a.Keys
    ensures name in a ==> Visit(a, name, listed, world)[name] == Visit(b, name, listed, world)[name]
    ensures forall other :: other in a && other != name ==> Visit(a, name, listed, world)[other] == a[other]
  {
  }

  /** The node is verified: it says that it has a TEE, whatever else it says. */
  predicate SaysTee(listed: LabelMap) {
    "nexa.io/tee" in listed && listed["nexa.io/tee"] !in {"", "none"}
  }

  /** A node's labels after its verification was patched in. */
  ghost predicate Outcome(before: LabelMap, after: LabelMap, result: Option<Result>, codec: TimeCodec) {
    && (Carries(after, "nexa.io/tee-attested", "true") <==> Success(result))
    && (!Success(result) ==> Carries(after, "nexa.io/tee-attested", "false"))
    && (Success(result) ==> Carries(after, "nexa.io/tee-attestation-time", codec.format(result.value.timestamp)))
    && (Success(result) && result.value.trustAnchor != "" ==> Carries(after, "nexa.io/tee-trust-anchor", result.value.trustAnchor))
    && (Success(result) && result.value.trustAnchor == "" ==> SameOn({"nexa.io/tee-trust-anchor"}, after, before))
    && (!Success(result) ==> SameOn({"nexa.io/tee-attestation-time", "nexa.io/tee-trust-anchor"}, after, before))
    && (forall key :: key !in {"nexa.io/tee-attested", "nexa.io/tee-attestation-time", "nexa.io/tee-trust-anchor"}
                      ==> SameOn({key}, after, before))
  }

  lemma PatchedOutcome(labels: LabelMap, result: Option<Result>, codec: TimeCodec)
    ensures Outcome(labels, Merge(labels, AttestationPatch(result, codec)), result, codec)
  {
  }

  /** What one pass does to all nodes: every listed node with a TEE whose patch is applied carries the
      outcome of its own verification, whatever it carried and whatever failed before it; all others
      keep their labels. */
  ghost predicate Passed(before: map<string, LabelMap>, after: map<string, LabelMap>, listing: seq<(string, LabelMap)>, world: World) {
    && after.Keys == before.Keys
    && (forall i :: 0 <= i < |listing| && listing[i].0 in before ==>
          var (name, listed) := listing[i];
          if SaysTee(listed) && !world.reply(name).Refused?
          then Outcome(before[name], after[name], world.verify(name), world.codec)
          else after[name] == before[name])
    && (forall name :: name in before && (forall i :: 0 <= i < |listing| ==> listing[i].0 != name) ==> after[name] == before[name])
  }

  /** In one pass every listed node gets what a visit of its own would give it, whatever failed before
      it, and no other node is touched. */
  lemma {:induction false} PassIsPerNode(nodes: map<string, LabelMap>, listing: seq<(string, LabelMap)>, world: World)
    requires DistinctNames(listing)
    ensures Pass(nodes, listing, world).Keys == nodes.Keys
    ensures forall i :: 0 <= i < |listing| && listing[i].0 in nodes ==>
                          Pass(nodes, listing, world)[listing[i].0] == Visit(nodes, listing[i].0, listing[i].1, world)[listing[i].0]
    ensures forall name :: name in nodes && (forall i :: 0 <= i < |listing| ==> listing[i].0 != name) ==>
                             Pass(nodes, listing, world)[name] == nodes[name]
  {
    if listing != [] {
      var last := |listing| - 1;
      var before, name, labels := Pass(nodes, listing[..last], world), listing[last].0, listing[last].1;
      PassIsPerNode(nodes, listing[..last], world);
      assert forall i :: 0 <= i < last ==> listing[..last][i] == listing[i];
      assert name in nodes ==> before[name] == nodes[name];
      VisitLocal(before, nodes, name, labels, world);
    }
  }

  lemma PassOutcome(nodes: map<string, LabelMap>, listing: seq<(string, LabelMap)>, world: World)
    requires DistinctNames(listing)
    ensures Passed(nodes, Pass(nodes, listing, world), listing, world)
  {
    PassIsPerNode(nodes, listing, world);
    forall i | 0 <= i < |listing| && listing[i].0 in nodes
      ensures Outcome(nodes[listing[i].0],
                      Merge(nodes[listing[i].0], AttestationPatch(world.verify(listing[i].0), world.codec)),
                      world.verify(listing[i].0), world.codec)
    {
      PatchedOutcome(nodes[listing[i].0], world.verify(listing[i].0), world.codec);
    }
  }

  class AttestationController {
    const api: ApiServer
    const codec: TimeCodec

    constructor (api: ApiServer, codec: TimeCodec)
      ensures this.api == api && this.codec == codec
    {
      this.api := api;
      this.codec := codec;
    }

    method VerifyNode(name: string, result: Option<Result>, reply: Reply) returns (ok: bool)
      modifies api
      ensures api.nodes == AfterPatch(old(api.nodes), name, AttestationPatch(result, codec), reply)
      ensures name in old(api.nodes) && !reply.Refused? ==> Outcome(old(api.nodes)[name], api.nodes[name], result, codec)
      ensures ok <==> name in old(api.nodes) && reply.Applied?
    {
      if name in api.nodes {
        PatchedOutcome(api.nodes[name], result, codec);
      }
      var patch: Patch := map[];
      if result.None? {
        patch := patch[LABEL_TEE_ATTESTED := Put("false")];
      } else if result.value.attested {
        patch := patch[LABEL_TEE_ATTESTED := Put("true")];
        patch := patch[LABEL_TEE_TIME := Put(codec.format(result.value.timestamp))];
        if result.value.trustAnchor != "" {
          patch := patch[LABEL_TEE_ANCHOR := Put(result.value.trustAnchor)];
        }
      } else {
        patch := patch[LABEL_TEE_ATTESTED := Put("false")];
      }
      assert patch == AttestationPatch(result, codec);
      ok := api.PatchNode(name, patch, reply);
    }

    /** One pass over the node lister's answer; None stands for its error. */
    method VerifyAllNodes(listing: Option<seq<(string, LabelMap)>>, world: World)
      requires world.codec == codec
      modifies api
      ensures api.nodes == if listing.None? then old(api.nodes) else Pass(old(api.nodes), listing.value, world)
      ensures listing.Some? && DistinctNames(listing.value) ==> Passed(old(api.nodes), api.nodes, listing.value, world)
    {
      if listing.None? {
        return;
      }
      var nodes := listing.value;
      for k := 0 to |nodes|
        invariant api.nodes == Pass(old(api.nodes), nodes[..k], world)
      {
        var (name, labels) := nodes[k];
        assert nodes[..k + 1][..k] == nodes[..k];
        var tee := Value(labels, LABEL_TEE);
        if tee == "" || tee == "none" {
          continue;
        }
        var ok := VerifyNode(name, world.verify(name), world.reply(name));
      }
      assert nodes[..|nodes|] == nodes;
      if DistinctNames(nodes) {
        PassOutcome(old(api.nodes), nodes, world);
      }
    }
  }
}
