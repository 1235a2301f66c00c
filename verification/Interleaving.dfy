/** The two controllers write one label map without disturbing each other. */
module Interleaving {
  import opened Attestation
  import opened Labels
  import opened NodeState
  import opened Objects
  import opened Rfc3339
  import opened Wrappers

  /** A patch some controller computed, from whatever it had read. */
  datatype Send =
    | Reconciled(labels: LabelMap, listing: seq<Pod>)
    | Verified(result: Option<Result>)

  function PatchOf(node: string, codec: TimeCodec, send: Send): (Writer, Patch) {
    match send
    case Reconciled(labels, listing) => (Writer.NodeState, ReconcilePatch(labels, listing, node))
    case Verified(result) => (Writer.Attestation, AttestationPatch(result, codec))
  }

  function PatchesOf(node: string, codec: TimeCodec, sends: seq<Send>): seq<(Writer, Patch)> {
    seq(|sends|, i requires 0 <= i < |sends| => PatchOf(node, codec, sends[i]))
  }

  /** However the two controllers' patches for a node interleave, each finds its own labels as if it
      ran alone, and every other label stays as it was. */
  lemma ControllersDoNotDisturb(node: string, codec: TimeCodec, labels: LabelMap, sends: seq<Send>, writer: Writer)
    ensures var patches := PatchesOf(node, codec, sends);
            && SameOn(KeysOf(writer), MergeAll(labels, patches), MergeAll(labels, Only(patches, writer)))
            && SameOn({LABEL_WIPE_ON_COMPLETE, LABEL_TEE, LABEL_REGION, LABEL_ZONE, LABEL_DISK_ENCRYPTED},
                      MergeAll(labels, patches), labels)
  {
    var patches := PatchesOf(node, codec, sends);
    forall i | 0 <= i < |patches|
      ensures patches[i].1.Keys <= KeysOf(patches[i].0)
    {
      match sends[i] {
        case Reconciled(read, listing) => ReconcilePatchKeys(read, listing, node);
        case Verified(result) => AttestationPatchKeys(result, codec);
      }
    }
    InterleavingSeparates(labels, patches, writer);
    OperatorKeysApart();
  }

  lemma OperatorKeysApart()
    ensures {LABEL_WIPE_ON_COMPLETE, LABEL_TEE, LABEL_REGION, LABEL_ZONE, LABEL_DISK_ENCRYPTED} !! NODE_STATE_KEYS + ATTESTATION_KEYS
  {
  }
}
