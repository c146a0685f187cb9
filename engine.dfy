/** The key-value engine the ledger runs on (raw_store::StoreInstance over
    RocksDB), reduced to what the stores see of it: one independently keyed
    partition per column family, and the engine's current I/O condition. */
module Engine {
  import opened Common
  import opened LedgerTypes

  /** One column family: a name and the table it holds. Keys and values are
      kept typed; their byte encoding belongs to the sub-stores and is not
      modelled. */
  class ColumnFamily<K(==), V> {
    const name: string
    var entries: map<K, V>

    constructor (name: string)
      ensures this.name == name && entries == map[]
    {
      this.name := name;
      entries := map[];
    }
  }

  /** An engine instance opened with the ledger's five column families. Every
      sub-store built over the same instance reads and writes these same
      partition objects. */
  class StoreInstance {
    /** The engine's I/O condition, set by the environment: while it holds an
        error every read returns that error and every write fails with it,
        writing nothing. */
    var ioError: Option<Error>

    const transaction: ColumnFamily<H256, LedgerTransaction>
    const txSequenceInfoMapping: ColumnFamily<u64, H256>
    const metaSequencerInfo: ColumnFamily<MetaKey, SequencerInfo>
    const transactionAccNode: ColumnFamily<H256, AccumulatorNode>
    const stateChangeSet: ColumnFamily<u64, StateChangeSetExt>

    /** The column families, in the order the engine was opened with them. */
    function ColumnFamilyNames(): seq<string>
    {
      [transaction.name, txSequenceInfoMapping.name, metaSequencerInfo.name,
       transactionAccNode.name, stateChangeSet.name]
    }

    /** Opens an engine over a fresh directory, as the test helper
        mock_rooch_store does: its partitions take the given names in order
        and start empty. Reopening a directory that already holds data, and
        an open that fails, are not modelled. */
    constructor Open(cfNames: seq<string>)
      requires |cfNames| == 5
      ensures ColumnFamilyNames() == cfNames && ioError == None
      ensures fresh(transaction) && fresh(txSequenceInfoMapping) && fresh(metaSequencerInfo)
      ensures fresh(transactionAccNode) && fresh(stateChangeSet)
      ensures transaction.entries == map[] && txSequenceInfoMapping.entries == map[]
      ensures metaSequencerInfo.entries == map[] && transactionAccNode.entries == map[]
      ensures stateChangeSet.entries == map[]
    {
      ioError := None;
      transaction := new ColumnFamily(cfNames[0]);
      txSequenceInfoMapping := new ColumnFamily(cfNames[1]);
      metaSequencerInfo := new ColumnFamily(cfNames[2]);
      transactionAccNode := new ColumnFamily(cfNames[3]);
      stateChangeSet := new ColumnFamily(cfNames[4]);
    }

    /** What a read of `v` returns now: the engine's error, or the value. */
    function Read<T>(v: T): Result<T>
      reads this
    {
      if ioError.Some? then Err(ioError.value) else Ok(v)
    }

    /** What a write returns now: the engine's error, or success. */
    function WriteStatus(): Result<()>
      reads this
    {
      Read(())
    }
  }
}
