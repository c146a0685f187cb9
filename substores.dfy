/** The four sub-stores the facade composes (the crate's transaction_store,
    meta_store, accumulator_store and state_store modules). Their sources are
    not part of this model: each is a handle on the shared engine instance
    with an abstract table contract over its own column families. A write
    either fails with the engine's error and changes nothing, or performs its
    put or delete; a read returns the engine's error or the table's answer. */
module SubStores {
  import opened Common
  import opened LedgerTypes
  import opened Engine
  import opened Tables

  /** Transactions by hash, and the hash of each order. */
  class TransactionDBStore {
    const instance: StoreInstance

    constructor (instance: StoreInstance)
      ensures this.instance == instance
    {
      this.instance := instance;
    }

    /** The abstract contents of the two transaction partitions. */
    function Contents(): TxTables
      reads instance.transaction, instance.txSequenceInfoMapping
    {
      TxTables(instance.transaction.entries, instance.txSequenceInfoMapping.entries)
    }

    method SaveTransaction(tx: LedgerTransaction) returns (r: Result<()>)
      modifies instance.transaction, instance.txSequenceInfoMapping
      ensures r == instance.WriteStatus()
      ensures Contents() == if r.Ok? then SaveTx(old(Contents()), tx) else old(Contents())
    {
      r := instance.WriteStatus();
      if r.Ok? {
        instance.transaction.entries := instance.transaction.entries[tx.txHash := tx];
        instance.txSequenceInfoMapping.entries := instance.txSequenceInfoMapping.entries[tx.txOrder := tx.txHash];
      }
    }

    method RemoveTransaction(txHash: H256, txOrder: u64) returns (r: Result<()>)
      modifies instance.transaction, instance.txSequenceInfoMapping
      ensures r == instance.WriteStatus()
      ensures Contents() == if r.Ok? then RemoveTx(old(Contents()), txHash, txOrder) else old(Contents())
    {
      r := instance.WriteStatus();
      if r.Ok? {
        instance.transaction.entries := instance.transaction.entries - {txHash};
        instance.txSequenceInfoMapping.entries := instance.txSequenceInfoMapping.entries - {txOrder};
      }
    }

    function GetTransactionByHash(hash: H256): (r: Result<Option<LedgerTransaction>>)
      reads instance, instance.transaction
      ensures r.Err? <==> instance.ioError.Some?
      ensures r.Err? ==> r.error == instance.ioError.value
      ensures r.Ok? ==> (r.value.Some? <==> hash in instance.transaction.entries)
      ensures r.Ok? && r.value.Some? ==> r.value.value == instance.transaction.entries[hash]
    {
      instance.Read(Lookup(instance.transaction.entries, hash))
    }

    function GetTransactions(txHashes: seq<H256>): (r: Result<seq<Option<LedgerTransaction>>>)
      reads instance, instance.transaction
      ensures r.Err? <==> instance.ioError.Some?
      ensures r.Err? ==> r.error == instance.ioError.value
      ensures r.Ok? ==> |r.value| == |txHashes|
      ensures r.Ok? ==> forall i :: 0 <= i < |txHashes| ==> r.value[i] == Lookup(instance.transaction.entries, txHashes[i])
    {
      instance.Read(MultiGet(instance.transaction.entries, txHashes))
    }

    function GetTxHashes(txOrders: seq<u64>): (r: Result<seq<Option<H256>>>)
      reads instance, instance.txSequenceInfoMapping
      ensures r.Err? <==> instance.ioError.Some?
      ensures r.Err? ==> r.error == instance.ioError.value
      ensures r.Ok? ==> |r.value| == |txOrders|
      ensures r.Ok? ==> forall i :: 0 <= i < |txOrders| ==> r.value[i] == Lookup(instance.txSequenceInfoMapping.entries, txOrders[i])
    {
      instance.Read(MultiGet(instance.txSequenceInfoMapping.entries, txOrders))
    }
  }

  /** The sequencer info, kept under one fixed key. */
  class MetaDBStore {
    const instance: StoreInstance

    constructor (instance: StoreInstance)
      ensures this.instance == instance
    {
      this.instance := instance;
    }

    /** The stored sequencer info, if there is one. */
    function Contents(): Option<SequencerInfo>
      reads instance.metaSequencerInfo
    {
      Lookup(instance.metaSequencerInfo.entries, SequencerInfoKey)
    }

    function GetSequencerInfo(): (r: Result<Option<SequencerInfo>>)
      reads instance, instance.metaSequencerInfo
      ensures r.Err? <==> instance.ioError.Some?
      ensures r.Err? ==> r.error == instance.ioError.value
      ensures r.Ok? ==> (r.value.Some? <==> SequencerInfoKey in instance.metaSequencerInfo.entries)
      ensures r.Ok? && r.value.Some? ==> r.value.value == instance.metaSequencerInfo.entries[SequencerInfoKey]
    {
      instance.Read(Contents())
    }

    /** Overwrites the record: the partition then holds exactly `info`. */
    method SaveSequencerInfo(info: SequencerInfo) returns (r: Result<()>)
      modifies instance.metaSequencerInfo
      ensures r == instance.WriteStatus()
      ensures r.Ok? ==> instance.metaSequencerInfo.entries == map[SequencerInfoKey := info]
      ensures r.Err? ==> unchanged(instance.metaSequencerInfo)
    {
      r := instance.WriteStatus();
      if r.Ok? {
        instance.metaSequencerInfo.entries := instance.metaSequencerInfo.entries[SequencerInfoKey := info];
        MetaTableIsSingleton(instance.metaSequencerInfo.entries);
      }
    }

    /** Deletes the record: the partition is then empty. */
    method RemoveSequenceInfo() returns (r: Result<()>)
      modifies instance.metaSequencerInfo
      ensures r == instance.WriteStatus()
      ensures r.Ok? ==> instance.metaSequencerInfo.entries == map[]
      ensures r.Err? ==> unchanged(instance.metaSequencerInfo)
    {
      r := instance.WriteStatus();
      if r.Ok? {
        instance.metaSequencerInfo.entries := instance.metaSequencerInfo.entries - {SequencerInfoKey};
        MetaTableIsSingleton(instance.metaSequencerInfo.entries);
      }
    }
  }

  /** The transaction accumulator's node store. Its operations (append,
      proofs, hashing) are not part of this model. */
  class AccumulatorStore {
    const instance: StoreInstance

    constructor NewTransactionAccumulatorStore(instance: StoreInstance)
      ensures this.instance == instance
    {
      this.instance := instance;
    }

    /** The accumulator nodes this handle sees. */
    function Nodes(): map<H256, AccumulatorNode>
      reads instance.transactionAccNode
    {
      instance.transactionAccNode.entries
    }

    /** A derived Clone: a new handle over the same engine instance, so it
        sees, and writes, the same nodes. */
    method Clone() returns (c: AccumulatorStore)
      ensures fresh(c) && c.instance == instance
      ensures c.Nodes() == Nodes()
    {
      c := new AccumulatorStore.NewTransactionAccumulatorStore(instance);
    }
  }

  /** One state change set per transaction order. */
  class StateDBStore {
    const instance: StoreInstance

    constructor (instance: StoreInstance)
      ensures this.instance == instance
    {
      this.instance := instance;
    }

    function Contents(): StateTable
      reads instance.stateChangeSet
    {
      instance.stateChangeSet.entries
    }

    method SaveStateChangeSet(txOrder: u64, stateChangeSet: StateChangeSetExt) returns (r: Result<()>)
      modifies instance.stateChangeSet
      ensures r == instance.WriteStatus()
      ensures Contents() == if r.Ok? then old(Contents())[txOrder := stateChangeSet] else old(Contents())
    {
      r := instance.WriteStatus();
      if r.Ok? {
        instance.stateChangeSet.entries := instance.stateChangeSet.entries[txOrder := stateChangeSet];
      }
    }

    function GetStateChangeSet(txOrder: u64): (r: Result<Option<StateChangeSetExt>>)
      reads instance, instance.stateChangeSet
      ensures r.Err? <==> instance.ioError.Some?
      ensures r.Err? ==> r.error == instance.ioError.value
      ensures r.Ok? ==> (r.value.Some? <==> txOrder in instance.stateChangeSet.entries)
      ensures r.Ok? && r.value.Some? ==> r.value.value == instance.stateChangeSet.entries[txOrder]
    {
      instance.Read(Lookup(instance.stateChangeSet.entries, txOrder))
    }

    function MultiGetStateChangeSet(txOrders: seq<u64>): (r: Result<seq<Option<StateChangeSetExt>>>)
      reads instance, instance.stateChangeSet
      ensures r.Err? <==> instance.ioError.Some?
      ensures r.Err? ==> r.error == instance.ioError.value
      ensures r.Ok? ==> |r.value| == |txOrders|
      ensures r.Ok? ==> forall i :: 0 <= i < |txOrders| ==> r.value[i] == Lookup(instance.stateChangeSet.entries, txOrders[i])
    {
      instance.Read(MultiGet(instance.stateChangeSet.entries, txOrders))
    }

    method RemoveStateChangeSet(txOrder: u64) returns (r: Result<()>)
      modifies instance.stateChangeSet
      ensures r == instance.WriteStatus()
      ensures Contents() == if r.Ok? then old(Contents()) - {txOrder} else old(Contents())
    {
      r := instance.WriteStatus();
      if r.Ok? {
        instance.stateChangeSet.entries := instance.stateChangeSet.entries - {txOrder};
      }
    }
  }
}
