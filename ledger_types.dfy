/** The values the ledger stores. Their defining crates (rooch_types,
    moveos_types) are not part of this model. Each keeps a few named fields of
    the real type: LedgerTransaction its hash and order, which the stores key
    on, and its body as bytes; the other types keep fields that no store
    keys on and the facade never reads. */
module LedgerTypes {
  import opened Common

  /** A sequenced transaction: its content hash, its order in the ledger and
      its serialized body. */
  datatype LedgerTransaction = LedgerTransaction(txHash: H256, txOrder: u64, payload: seq<u8>)

  /** The sequencer's checkpoint record. The facade never looks inside it. */
  datatype SequencerInfo = SequencerInfo(lastOrder: u64, lastAccumulatorRoot: H256)

  /** The state changes produced by executing one transaction. */
  datatype StateChangeSetExt = StateChangeSetExt(stateChangeSet: seq<u8>, sequenceNumber: u64)

  /** One node of the transaction accumulator tree, as the accumulator store
      persists it. */
  datatype AccumulatorNode = AccumulatorNode(encoded: seq<u8>)

  /** The meta store keeps its record under one fixed key, so the meta
      partition can hold at most one sequencer info. */
  datatype MetaKey = SequencerInfoKey
}
