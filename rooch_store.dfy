/** The ledger storage facade of crates/rooch-store: the column-family
    schema, and RoochStore, which builds the four sub-stores over one shared
    engine instance and implements the transaction, meta and state store
    interfaces by forwarding each call to exactly one of them. */
module RoochStore {
  import opened Common
  import opened LedgerTypes
  import opened Engine
  import opened Tables
  import opened SubStores

  const TransactionColumnFamilyName: string := "transaction"
  const TxSequenceInfoMappingColumnFamilyName: string := "tx_sequence_info_mapping"
  const MetaSequencerInfoColumnFamilyName: string := "meta_sequencer_info"
  const TxAccumulatorNodeColumnFamilyName: string := "transaction_acc_node"
  const StateChangeSetColumnFamilyName: string := "state_change_set"

  predicate NoDuplicates(names: seq<string>)
  {
    forall i, j :: 0 <= i < j < |names| ==> names[i] != names[j]
  }

  class StoreMeta {
    /** The schema the engine is opened with: the five partitions, each
        named once, in the order transaction, tx_sequence_info_mapping,
        meta_sequencer_info, transaction_acc_node, state_change_set. */
    static function GetColumnFamilyNames(): (r: seq<string>)
      ensures |r| == 5 && NoDuplicates(r)
      ensures r[0] == TransactionColumnFamilyName && r[1] == TxSequenceInfoMappingColumnFamilyName
      ensures r[2] == MetaSequencerInfoColumnFamilyName && r[3] == TxAccumulatorNodeColumnFamilyName
      ensures r[4] == StateChangeSetColumnFamilyName
    {
      [TransactionColumnFamilyName, TxSequenceInfoMappingColumnFamilyName,
       MetaSequencerInfoColumnFamilyName, TxAccumulatorNodeColumnFamilyName,
       StateChangeSetColumnFamilyName]
    }
  }

  /** An engine opened with the store's schema gives every sub-store its own
      partitions: each name the sub-stores use is a distinct schema entry. */
  lemma OpenedWithSchemaSeparatesSubStores(instance: StoreInstance)
    requires instance.ColumnFamilyNames() == StoreMeta.GetColumnFamilyNames()
    ensures instance.transaction.name == TransactionColumnFamilyName
    ensures instance.txSequenceInfoMapping.name == TxSequenceInfoMappingColumnFamilyName
    ensures instance.metaSequencerInfo.name == MetaSequencerInfoColumnFamilyName
    ensures instance.transactionAccNode.name == TxAccumulatorNodeColumnFamilyName
    ensures instance.stateChangeSet.name == StateChangeSetColumnFamilyName
    ensures NoDuplicates(instance.ColumnFamilyNames())
  {
  }

  class RoochStore {
    const transactionStore: TransactionDBStore
    const metaStore: MetaDBStore
    const transactionAccumulatorStore: AccumulatorStore
    const stateStore: StateDBStore

    /** The engine instance behind the facade. */
    function Instance(): StoreInstance
    {
      transactionStore.instance
    }

    /** All four sub-stores share one engine instance. */
    predicate Valid()
    {
      metaStore.instance == Instance() &&
      transactionAccumulatorStore.instance == Instance() &&
      stateStore.instance == Instance()
    }

    constructor (transactionStore: TransactionDBStore, metaStore: MetaDBStore,
                 transactionAccumulatorStore: AccumulatorStore, stateStore: StateDBStore)
      ensures this.transactionStore == transactionStore && this.metaStore == metaStore
      ensures this.transactionAccumulatorStore == transactionAccumulatorStore
      ensures this.stateStore == stateStore
    {
      this.transactionStore := transactionStore;
      this.metaStore := metaStore;
      this.transactionAccumulatorStore := transactionAccumulatorStore;
      this.stateStore := stateStore;
    }

    /** The derived Clone: clones each sub-store, and a sub-store clone is a
        new handle over the same engine instance, so the copy reads and
        writes the same data as the original. */
    method Clone() returns (c: RoochStore)
      requires Valid()
      ensures fresh(c) && c.Valid() && c.Instance() == Instance()
      ensures fresh(c.transactionStore) && fresh(c.metaStore)
      ensures fresh(c.transactionAccumulatorStore) && fresh(c.stateStore)
    {
      var transactionStoreCopy := new TransactionDBStore(Instance());
      var metaStoreCopy := new MetaDBStore(Instance());
      var accumulatorStoreCopy := transactionAccumulatorStore.Clone();
      var stateStoreCopy := new StateDBStore(Instance());
      c := new RoochStore(transactionStoreCopy, metaStoreCopy, accumulatorStoreCopy, stateStoreCopy);
    }

    /** Builds the four sub-stores over the given instance. It never fails,
        writes nothing, and the facade reads the engine's existing contents. */
    static method NewWithInstance(instance: StoreInstance) returns (r: Result<RoochStore>)
      ensures r.Ok?
      ensures fresh(r.value) && r.value.Valid() && r.value.Instance() == instance
      ensures fresh(r.value.transactionStore) && fresh(r.value.metaStore)
      ensures fresh(r.value.transactionAccumulatorStore) && fresh(r.value.stateStore)
    {
      var transactionStore := new TransactionDBStore(instance);
      var metaStore := new MetaDBStore(instance);
      var transactionAccumulatorStore := new AccumulatorStore.NewTransactionAccumulatorStore(instance);
      var stateStore := new StateDBStore(instance);
      var store := new RoochStore(transactionStore, metaStore, transactionAccumulatorStore, stateStore);
      r := Ok(store);
    }

    /** The getters hand out the facade's own sub-stores, not copies, so
        reads through a returned handle see the facade's engine instance. */
    function GetTransactionStore(): (s: TransactionDBStore)
      ensures s == transactionStore && s.instance == Instance()
    {
      transactionStore
    }

    function GetMetaStore(): (s: MetaDBStore)
      requires Valid()
      ensures s == metaStore && s.instance == Instance()
    {
      metaStore
    }

    function GetStateStore(): (s: StateDBStore)
      requires Valid()
      ensures s == stateStore && s.instance == Instance()
    {
      stateStore
    }

    /** Unlike the other getters this one hands out a new handle on a clone of
        the accumulator store; the clone shares the engine instance, so it
        sees the same nodes. The facade is not changed. */
    method GetTransactionAccumulatorStore() returns (h: AccumulatorStore)
      ensures fresh(h) && h.instance == transactionAccumulatorStore.instance
      ensures h.Nodes() == transactionAccumulatorStore.Nodes()
    {
      h := transactionAccumulatorStore.Clone();
    }

    // TransactionStore

    /** Writes only the transaction sub-store's two partitions; the meta,
        accumulator and state partitions are untouched. */
    method SaveTransaction(tx: LedgerTransaction) returns (r: Result<()>)
      requires Valid()
      modifies Instance().transaction, Instance().txSequenceInfoMapping
      ensures r == Instance().WriteStatus()
      ensures transactionStore.Contents() ==
        if r.Ok? then SaveTx(old(transactionStore.Contents()), tx) else old(transactionStore.Contents())
      ensures unchanged(Instance().metaSequencerInfo, Instance().transactionAccNode, Instance().stateChangeSet)
    {
      r := transactionStore.SaveTransaction(tx);
    }

    method RemoveTransaction(txHash: H256, txOrder: u64) returns (r: Result<()>)
      requires Valid()
      modifies Instance().transaction, Instance().txSequenceInfoMapping
      ensures r == Instance().WriteStatus()
      ensures transactionStore.Contents() ==
        if r.Ok? then RemoveTx(old(transactionStore.Contents()), txHash, txOrder) else old(transactionStore.Contents())
      ensures unchanged(Instance().metaSequencerInfo, Instance().transactionAccNode, Instance().stateChangeSet)
    {
      r := transactionStore.RemoveTransaction(txHash, txOrder);
    }

    function GetTransactionByHash(hash: H256): (r: Result<Option<LedgerTransaction>>)
      reads Instance(), Instance().transaction
      ensures r == transactionStore.GetTransactionByHash(hash)
      ensures r.Err? <==> Instance().ioError.Some?
      ensures r.Ok? ==> r.value == TxByHash(transactionStore.Contents(), hash)
    {
      transactionStore.GetTransactionByHash(hash)
    }

    function GetTransactionsByHash(txHashes: seq<H256>): (r: Result<seq<Option<LedgerTransaction>>>)
      reads Instance(), Instance().transaction
      ensures r == transactionStore.GetTransactions(txHashes)
      ensures r.Err? <==> Instance().ioError.Some?
      ensures r.Ok? ==> |r.value| == |txHashes|
      ensures r.Ok? ==> forall i :: 0 <= i < |txHashes| ==>
        r.value[i] == TxByHash(transactionStore.Contents(), txHashes[i])
    {
      transactionStore.GetTransactions(txHashes)
    }

    function GetTxHashes(txOrders: seq<u64>): (r: Result<seq<Option<H256>>>)
      reads Instance(), Instance().txSequenceInfoMapping
      ensures r == transactionStore.GetTxHashes(txOrders)
      ensures r.Err? <==> Instance().ioError.Some?
      ensures r.Ok? ==> r.value == TxHashesByOrders(transactionStore.Contents(), txOrders)
    {
      transactionStore.GetTxHashes(txOrders)
    }

    // MetaStore

    function GetSequencerInfo(): (r: Result<Option<SequencerInfo>>)
      requires Valid()
      reads Instance(), Instance().metaSequencerInfo
      ensures r == metaStore.GetSequencerInfo()
      ensures r.Err? <==> Instance().ioError.Some?
      ensures r.Ok? ==> r.value == metaStore.Contents()
    {
      GetMetaStore().GetSequencerInfo()
    }

    /** Writes only the meta partition, which afterwards holds exactly the
        given record. */
    method SaveSequencerInfo(sequencerInfo: SequencerInfo) returns (r: Result<()>)
      requires Valid()
      modifies Instance().metaSequencerInfo
      ensures r == Instance().WriteStatus()
      ensures metaStore.Contents() == if r.Ok? then Some(sequencerInfo) else old(metaStore.Contents())
      ensures r.Err? ==> unchanged(Instance().metaSequencerInfo)
      ensures unchanged(Instance().transaction, Instance().txSequenceInfoMapping)
      ensures unchanged(Instance().transactionAccNode, Instance().stateChangeSet)
    {
      r := GetMetaStore().SaveSequencerInfo(sequencerInfo);
    }

    method RemoveSequencerInfo() returns (r: Result<()>)
      requires Valid()
      modifies Instance().metaSequencerInfo
      ensures r == Instance().WriteStatus()
      ensures metaStore.Contents() == if r.Ok? then None else old(metaStore.Contents())
      ensures r.Err? ==> unchanged(Instance().metaSequencerInfo)
      ensures unchanged(Instance().transaction, Instance().txSequenceInfoMapping)
      ensures unchanged(Instance().transactionAccNode, Instance().stateChangeSet)
    {
      r := GetMetaStore().RemoveSequenceInfo();
    }

    // StateStore

    /** Writes only the state partition, at key txOrder. */
    method SaveStateChangeSet(txOrder: u64, stateChangeSet: StateChangeSetExt) returns (r: Result<()>)
      requires Valid()
      modifies Instance().stateChangeSet
      ensures r == Instance().WriteStatus()
      ensures stateStore.Contents() ==
        if r.Ok? then old(stateStore.Contents())[txOrder := stateChangeSet] else old(stateStore.Contents())
      ensures unchanged(Instance().transaction, Instance().txSequenceInfoMapping)
      ensures unchanged(Instance().metaSequencerInfo, Instance().transactionAccNode)
    {
      r := GetStateStore().SaveStateChangeSet(txOrder, stateChangeSet);
    }

    function GetStateChangeSet(txOrder: u64): (r: Result<Option<StateChangeSetExt>>)
      requires Valid()
      reads Instance(), Instance().stateChangeSet
      ensures r == stateStore.GetStateChangeSet(txOrder)
      ensures r.Err? <==> Instance().ioError.Some?
      ensures r.Ok? ==> r.value == Lookup(stateStore.Contents(), txOrder)
    {
      GetStateStore().GetStateChangeSet(txOrder)
    }

    function MultiGetStateChangeSet(txOrders: seq<u64>): (r: Result<seq<Option<StateChangeSetExt>>>)
      requires Valid()
      reads Instance(), Instance().stateChangeSet
      ensures r == stateStore.MultiGetStateChangeSet(txOrders)
      ensures r.Err? <==> Instance().ioError.Some?
      ensures r.Ok? ==> r.value == MultiGet(stateStore.Contents(), txOrders)
    {
      GetStateStore().MultiGetStateChangeSet(txOrders)
    }

    /** Deletes only the state partition's entry at key txOrder. */
    method RemoveStateChangeSet(txOrder: u64) returns (r: Result<()>)
      requires Valid()
      modifies Instance().stateChangeSet
      ensures r == Instance().WriteStatus()
      ensures stateStore.Contents() ==
        if r.Ok? then old(stateStore.Contents()) - {txOrder} else old(stateStore.Contents())
      ensures unchanged(Instance().transaction, Instance().txSequenceInfoMapping)
      ensures unchanged(Instance().metaSequencerInfo, Instance().transactionAccNode)
    {
      r := GetStateStore().RemoveStateChangeSet(txOrder);
    }
  }

  /** Not an operation of the facade but a caller's example of its frames
      composing: a transaction saved through the facade
      stays readable by hash and by order across a later state change set
      write, and the checkpoint read is the same before and after both. */
  method FramesComposeForACaller(store: RoochStore, tx: LedgerTransaction, cs: StateChangeSetExt)
    returns (found: Result<seq<Option<LedgerTransaction>>>, hashes: Result<seq<Option<H256>>>)
    requires store.Valid() && store.Instance().ioError == None
    modifies store.Instance().transaction, store.Instance().txSequenceInfoMapping, store.Instance().stateChangeSet
    ensures found == Ok([Some(tx)]) && hashes == Ok([Some(tx.txHash)])
    ensures store.GetSequencerInfo() == old(store.GetSequencerInfo())
    ensures store.GetStateChangeSet(tx.txOrder) == Ok(Some(cs))
  {
    SaveTxThenRead(store.transactionStore.Contents(), tx, tx.txHash, tx.txOrder);
    var saved := store.SaveTransaction(tx);
    var savedChangeSet := store.SaveStateChangeSet(tx.txOrder, cs);
    found := store.GetTransactionsByHash([tx.txHash]);
    assert found.value == [found.value[0]];
    hashes := store.GetTxHashes([tx.txOrder]);
  }
}
