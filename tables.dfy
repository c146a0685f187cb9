/** The abstract contents of the sub-stores and the table operations their
    writes perform. The sub-store modules are not part of this model, so these
    are table contracts only: a save is a put, a remove is a delete, and no
    consistency between tables is claimed. */
module Tables {
  import opened Common
  import opened LedgerTypes

  /** The transaction sub-store's two partitions: transactions by hash
      ("transaction") and the hash of each order ("tx_sequence_info_mapping"). */
  datatype TxTables = TxTables(byHash: map<H256, LedgerTransaction>, hashByOrder: map<u64, H256>)

  function SaveTx(t: TxTables, tx: LedgerTransaction): TxTables
  {
    TxTables(t.byHash[tx.txHash := tx], t.hashByOrder[tx.txOrder := tx.txHash])
  }

  function RemoveTx(t: TxTables, txHash: H256, txOrder: u64): TxTables
  {
    TxTables(t.byHash - {txHash}, t.hashByOrder - {txOrder})
  }

  function TxByHash(t: TxTables, txHash: H256): Option<LedgerTransaction>
  {
    Lookup(t.byHash, txHash)
  }

  function TxHashesByOrders(t: TxTables, txOrders: seq<u64>): seq<Option<H256>>
  {
    MultiGet(t.hashByOrder, txOrders)
  }

  /** After a save, the transaction is found under its hash, its hash under
      its order, and every other key reads as before. */
  lemma SaveTxThenRead(t: TxTables, tx: LedgerTransaction, h: H256, o: u64)
    ensures TxByHash(SaveTx(t, tx), tx.txHash) == Some(tx)
    ensures TxHashesByOrders(SaveTx(t, tx), [tx.txOrder]) == [Some(tx.txHash)]
    ensures h != tx.txHash ==> TxByHash(SaveTx(t, tx), h) == TxByHash(t, h)
    ensures o != tx.txOrder ==> TxHashesByOrders(SaveTx(t, tx), [o]) == TxHashesByOrders(t, [o])
  {
  }

  /** After a remove, neither the hash nor the order is found, and every other
      key reads as before. */
  lemma RemoveTxThenRead(t: TxTables, txHash: H256, txOrder: u64, h: H256, o: u64)
    ensures TxByHash(RemoveTx(t, txHash, txOrder), txHash) == None
    ensures TxHashesByOrders(RemoveTx(t, txHash, txOrder), [txOrder]) == [None]
    ensures h != txHash ==> TxByHash(RemoveTx(t, txHash, txOrder), h) == TxByHash(t, h)
    ensures o != txOrder ==> TxHashesByOrders(RemoveTx(t, txHash, txOrder), [o]) == TxHashesByOrders(t, [o])
  {
  }

  /** Removing what a save just added, under the same hash and order, undoes
      the save when neither key was present before. */
  lemma RemoveTxUndoesSaveTx(t: TxTables, tx: LedgerTransaction)
    requires tx.txHash !in t.byHash && tx.txOrder !in t.hashByOrder
    ensures RemoveTx(SaveTx(t, tx), tx.txHash, tx.txOrder) == t
  {
  }

  /** A batch lookup by hashes after a save answers the saved transaction at
      exactly the positions holding its hash. */
  lemma SaveTxThenMultiGet(t: TxTables, tx: LedgerTransaction, hashes: seq<H256>)
    ensures forall i :: 0 <= i < |hashes| ==>
      MultiGet(SaveTx(t, tx).byHash, hashes)[i]
        == if hashes[i] == tx.txHash then Some(tx) else MultiGet(t.byHash, hashes)[i]
  {
  }

  /** The state sub-store's partition: one change set per order. */
  type StateTable = map<u64, StateChangeSetExt>

  /** Saving and then removing the change set of an order leaves the table as
      it was when that order had none. */
  lemma RemoveChangeSetUndoesSave(t: StateTable, txOrder: u64, cs: StateChangeSetExt)
    requires txOrder !in t
    ensures t[txOrder := cs] - {txOrder} == t
  {
  }

  /** A save or remove at one order leaves every other order's batch-lookup
      answer unchanged. */
  lemma ChangeSetWriteIsLocal(t: StateTable, txOrder: u64, cs: StateChangeSetExt, orders: seq<u64>)
    requires txOrder !in orders
    ensures MultiGet(t[txOrder := cs], orders) == MultiGet(t, orders)
    ensures MultiGet(t - {txOrder}, orders) == MultiGet(t, orders)
  {
  }

  /** The meta partition is keyed by the single SequencerInfoKey, so it holds
      no record or exactly one: the checkpoint is a singleton. */
  lemma MetaTableIsSingleton(m: map<MetaKey, SequencerInfo>)
    ensures |m| <= 1
    ensures |m| == 1 <==> Lookup(m, SequencerInfoKey).Some?
    ensures SequencerInfoKey in m ==> m == map[SequencerInfoKey := m[SequencerInfoKey]]
    ensures SequencerInfoKey !in m ==> m == map[]
  {
    forall k | k in m ensures k == SequencerInfoKey {
      match k case SequencerInfoKey =>
    }
    if SequencerInfoKey in m {
      assert m.Keys == {SequencerInfoKey};
      assert m == map[SequencerInfoKey := m[SequencerInfoKey]];
    } else {
      assert m.Keys == {};
      assert m == map[];
    }
  }
}
