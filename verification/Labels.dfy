/**
 Label maps of pods and nodes, the nexa.io/ keys, and the JSON merge patches that two
 controllers send for the same node. A Go string is a Dafny string whose characters stand
 for its bytes; reading a missing key of a Go map yields "".
 */
module Labels {
  type LabelMap = map<string, string>

  const LABEL_PREFIX := "nexa.io/"
  const LABEL_ORG := "nexa.io/org"
  const LABEL_PRIVACY := "nexa.io/privacy"
  const LABEL_REGION := "nexa.io/region"
  const LABEL_ZONE := "nexa.io/zone"
  const LABEL_CONFIDENTIAL := "nexa.io/confidential"
  const LABEL_TEE := "nexa.io/tee"
  const LABEL_TEE_TYPE := "nexa.io/tee-type"
  const LABEL_DISK_ENCRYPTED := "nexa.io/disk-encrypted"
  const LABEL_WIPED := "nexa.io/wiped"
  const LABEL_LAST_ORG := "nexa.io/last-workload-org"
  const LABEL_WIPE_ON_COMPLETE := "nexa.io/wipe-on-complete"
  const LABEL_WIPE_TIMESTAMP := "nexa.io/wipe-timestamp"
  const LABEL_TEE_ATTESTED := "nexa.io/tee-attested"
  const LABEL_TEE_TIME := "nexa.io/tee-attestation-time"
  const LABEL_TEE_ANCHOR := "nexa.io/tee-trust-anchor"

  // The node labels each controller may write.
  const NODE_STATE_KEYS := {LABEL_LAST_ORG, LABEL_WIPED, LABEL_WIPE_TIMESTAMP}
  const ATTESTATION_KEYS := {LABEL_TEE_ATTESTED, LABEL_TEE_TIME, LABEL_TEE_ANCHOR}

  function Value(labels: LabelMap, key: string): string {
    if key in labels then labels[key] else ""
  }

  /** The label is there with that very value. */
  predicate Carries(labels: LabelMap, key: string, value: string) {
    key in labels && labels[key] == value
  }

  /** One key of a merge patch: a new value, or null, which deletes the key. */
  datatype Change = Put(value: string) | Delete

  type Patch = map<string, Change>

  /** A merge patch applied to a flat object (section 2 of RFC 7396). */
  function Merge(labels: LabelMap, patch: Patch): LabelMap {
    map key | key in labels.Keys + patch.Keys && (key in patch ==> patch[key].Put?) ::
      if key in patch then patch[key].value else labels[key]
  }

  /** The two maps cannot be told apart on the given keys, presence included. */
  ghost predicate SameOn(keys: set<string>, a: LabelMap, b: LabelMap) {
    forall key :: key in keys ==> (key in a <==> key in b) && (key in a ==> a[key] == b[key])
  }

  datatype Writer = NodeState | Attestation

  function KeysOf(writer: Writer): set<string> {
    match writer
    case NodeState => NODE_STATE_KEYS
    case Attestation => ATTESTATION_KEYS
  }

  /** Patches in the order in which the API server applies them. */
  function MergeAll(labels: LabelMap, patches: seq<(Writer, Patch)>): LabelMap {
    if patches == [] then labels
    else
      var last := |patches| - 1;
      Merge(MergeAll(labels, patches[..last]), patches[last].1)
  }

  /** The patches of one writer, in order: what that controller sends when it runs alone. */
  function Only(patches: seq<(Writer, Patch)>, writer: Writer): seq<(Writer, Patch)> {
    if patches == [] then []
    else
      var last := |patches| - 1;
      Only(patches[..last], writer) + if patches[last].0 == writer then [patches[last]] else []
  }

  ghost predicate OwnKeysOnly(patches: seq<(Writer, Patch)>) {
    forall i :: 0 <= i < |patches| ==> patches[i].1.Keys <= KeysOf(patches[i].0)
  }

  lemma WritersDisjoint()
    ensures NODE_STATE_KEYS !! ATTESTATION_KEYS
  {
  }

  lemma MergeElsewhere(labels: LabelMap, patch: Patch, keys: set<string>)
    requires patch.Keys !! keys
    ensures SameOn(keys, Merge(labels, patch), labels)
  {
  }

  lemma MergeCongruent(a: LabelMap, b: LabelMap, patch: Patch, keys: set<string>)
    requires SameOn(keys, a, b)
    ensures SameOn(keys, Merge(a, patch), Merge(b, patch))
  {
  }

  /** Every interleaving of the two controllers' patches leaves each controller's keys exactly as
      if it had run alone, and no other key is touched. */
  lemma {:induction false} InterleavingSeparates(labels: LabelMap, patches: seq<(Writer, Patch)>, writer: Writer)
    requires OwnKeysOnly(patches)
    ensures SameOn(KeysOf(writer), MergeAll(labels, patches), MergeAll(labels, Only(patches, writer)))
    ensures forall keys :: keys !! NODE_STATE_KEYS + ATTESTATION_KEYS ==>
                             SameOn(keys, MergeAll(labels, patches), labels)
  {
    if patches != [] {
      var last := |patches| - 1;
      var init, patch := patches[..last], patches[last].1;
      assert forall i :: 0 <= i < |init| ==> init[i] == patches[i];
      InterleavingSeparates(labels, init, writer);
      var before, alone := MergeAll(labels, init), MergeAll(labels, Only(init, writer));
      if patches[last].0 == writer {
        var own := Only(patches, writer);
        assert own == Only(init, writer) + [patches[last]];
        assert own[..|own| - 1] == Only(init, writer);
        MergeCongruent(before, alone, patch, KeysOf(writer));
      } else {
        assert Only(patches, writer) == Only(init, writer);
        WritersDisjoint();
        MergeElsewhere(before, patch, KeysOf(writer));
      }
      forall keys | keys !! NODE_STATE_KEYS + ATTESTATION_KEYS
        ensures SameOn(keys, MergeAll(labels, patches), labels)
      {
        assert patch.Keys <= KeysOf(patches[last].0);
        MergeElsewhere(before, patch, keys);
        assert SameOn(keys, before, labels);
      }
    }
  }
}
