# Rooch ledger store and DA batch model

A Dafny model of two pieces of the Rooch L2 node:

- **The ledger storage facade** (`crates/rooch-store/src/lib.rs`). It fixes the
  schema of five column families and builds `RoochStore`. That struct holds four
  sub-stores over one shared engine instance: transactions, sequencer meta info,
  the transaction accumulator and the state change sets. It implements the
  `TransactionStore`, `MetaStore` and `StateStore` interfaces, and each method
  forwards to exactly one sub-store.
- **The data-availability batch messages** (`crates/rooch-da/src/messages.rs`).
  A `Batch` describes one L2 block's transactions. `PutBatchInternalDAMessage`
  carries one batch. Both messages are answered with a result that is either
  success or an error, and carries no payload.

## How the model is built

- `common.dfy` (`Common`): the `u8`/`u64`/`u128` widths, `H256` as 32 bytes,
  `Option`, `Result`, the opaque `Error`, and the point and batch lookups
  (`Lookup`, `MultiGet`).
- `ledger_types.dfy` (`LedgerTypes`): the stored values. Each keeps a few
  named fields of the real type. `LedgerTransaction` has the hash and the
  order the stores key on, and its body as bytes. `SequencerInfo` and
  `StateChangeSetExt` keep fields that no store keys on and the facade never
  reads. `MetaKey` is the single key of the meta partition.
- `engine.dfy` (`Engine`): the engine instance. It holds one `ColumnFamily`
  object per partition, plus `ioError`, the engine's I/O condition, which is
  set from outside the model. Every sub-store is a handle whose `instance` is
  this shared object, as the Rust sub-stores share one `StoreInstance`. So a
  clone of a sub-store sees and writes the same data.
- `tables.dfy` (`Tables`): the abstract contents of the sub-stores, the
  put/delete each save and remove performs, and the read-after-write,
  undo and locality lemmas about them.
- `substores.dfy` (`SubStores`): `TransactionDBStore`, `MetaDBStore`,
  `AccumulatorStore` and `StateDBStore`. Their source is not part of this
  model, so each one gets an abstract table contract:
  - a write returns the engine's error and changes nothing, or succeeds and
    performs its put or delete;
  - a read returns the engine's error, or the table's answer.
- `rooch_store.dfy` (`RoochStore`): the schema constants,
  `StoreMeta.GetColumnFamilyNames`, and the `RoochStore` class.
  - Writes are methods. Each `modifies` only the column-family objects of
    the one sub-store it forwards to, and states the others `unchanged`.
  - Reads are functions, so they change nothing. Each is stated equal to
    its sub-store's answer.
  - Every result, error or not, is the sub-store's result unchanged.
- `messages.dfy` (`Messages`): `Batch` (`crates/rooch-da/src/messages.rs:10-26`),
  `PutBatchInternalDAMessage` (messages.rs:32-36) and `MessageResult`, the
  `Result<()>` both messages answer with (messages.rs:28-30 and 38-40).
  The predicate `WellFormed` states what the field comments promise. It is
  written over a `Primitives` record of three uninterpreted
  total functions: `sha256`, `decodeTxList` and `accumulatorAppend`.
  - `batch_hash` is the SHA-256 of `data`.
  - `data` decodes to exactly `tx_count` transactions.
  - Appending their hashes, in order, to `prev_tx_accumulator_root` gives
    `tx_accumulator_root`.

Table shapes, and what the facade as written does not do:

- The transaction tables follow the facade's signatures: transactions are
  looked up by hash (`get_transaction_by_hash`), and hashes by order
  (`get_tx_hashes`). So the model keeps hash → transaction and
  order → hash.
- The meta partition is modelled as keyed by one fixed key. This is an
  inference: `get_sequencer_info` and `remove_sequencer_info` take no key,
  and the meta store's source is not part of this model. It follows that
  the partition holds at most one sequencer info
  (`Tables.MetaTableIsSingleton`), and a save overwrites it.
- Every sub-store save is modelled as a put: on a healthy engine it always
  succeeds, and a save at an order or hash that is already stored overwrites
  the old entry.
- The facade as written has none of the following, and none is modelled: a
  check of a transaction's order against the sequencer info, a combined
  operation that sequences one transaction across several sub-stores, a
  cross-partition atomic write, and a check of a batch's roots against the
  accumulator.

## Model

| member | source | states |
|---|---|---|
| `RoochStore.StoreMeta.GetColumnFamilyNames` | crates/rooch-store/src/lib.rs:33-59 | the schema holds exactly five names, no duplicates, in the order transaction, tx_sequence_info_mapping, meta_sequencer_info, transaction_acc_node, state_change_set |
| `RoochStore.OpenedWithSchemaSeparatesSubStores` | crates/rooch-store/src/lib.rs:41-51 | an engine opened with the schema gives each sub-store partition its schema name, and all five names are distinct |
| `Engine.StoreInstance.Open` | crates/rooch-store/src/lib.rs:96-102 | an engine opened over a fresh directory with a list of five names has one empty, fresh partition per name, in list order |
| `RoochStore.RoochStore.constructor` | crates/rooch-store/src/lib.rs:62-68 | the facade holds exactly the four given sub-stores |
| `RoochStore.RoochStore.Clone` | crates/rooch-store/src/lib.rs:62 | the derived clone is a new facade with new sub-store handles over the same engine instance, so it sees and writes the same data |
| `RoochStore.RoochStore.NewWithInstance` | crates/rooch-store/src/lib.rs:84-94 | always returns Ok; the four new sub-stores sit over the one given instance |
| `SubStores.TransactionDBStore.constructor` | crates/rooch-store/src/lib.rs:86 | the transaction sub-store is a handle on the given instance |
| `SubStores.MetaDBStore.constructor` | crates/rooch-store/src/lib.rs:87 | the meta sub-store is a handle on the given instance |
| `SubStores.AccumulatorStore.NewTransactionAccumulatorStore` | crates/rooch-store/src/lib.rs:88-90 | the accumulator sub-store is a handle on the given instance |
| `SubStores.StateDBStore.constructor` | crates/rooch-store/src/lib.rs:91 | the state sub-store is a handle on the given instance |
| `RoochStore.RoochStore.GetTransactionStore` | crates/rooch-store/src/lib.rs:104-106 | returns the facade's own transaction sub-store, not a copy, over the facade's engine instance |
| `RoochStore.RoochStore.GetMetaStore` | crates/rooch-store/src/lib.rs:108-110 | returns the facade's own meta sub-store, not a copy, over the facade's engine instance |
| `RoochStore.RoochStore.GetTransactionAccumulatorStore` | crates/rooch-store/src/lib.rs:112-114 | returns a fresh handle on a clone over the same instance, seeing the same nodes, without changing the facade |
| `SubStores.AccumulatorStore.Clone` | crates/rooch-store/src/lib.rs:113 | a clone is a new handle over the same instance and sees the same accumulator nodes |
| `RoochStore.RoochStore.GetStateStore` | crates/rooch-store/src/lib.rs:116-118 | returns the facade's own state sub-store, not a copy, over the facade's engine instance |
| `RoochStore.RoochStore.SaveTransaction` | crates/rooch-store/src/lib.rs:133-135 | returns the sub-store's result; on Ok the transaction tables gain the transaction under its hash and order, on Err they are unchanged; meta, accumulator and state partitions unchanged |
| `SubStores.TransactionDBStore.SaveTransaction` | crates/rooch-store/src/lib.rs:134 | abstract contract: the engine's error with nothing written, or a put of the transaction by hash and of its hash by order |
| `RoochStore.RoochStore.RemoveTransaction` | crates/rooch-store/src/lib.rs:137-139 | returns the sub-store's result; on Ok the hash and the order are deleted, on Err nothing changes; other partitions unchanged |
| `SubStores.TransactionDBStore.RemoveTransaction` | crates/rooch-store/src/lib.rs:138 | abstract contract: the engine's error with nothing written, or deletion of the hash and the order |
| `RoochStore.RoochStore.GetTransactionByHash` | crates/rooch-store/src/lib.rs:141-143 | equals the sub-store's answer: the engine's error, or the transaction stored under the hash, None when absent |
| `SubStores.TransactionDBStore.GetTransactionByHash` | crates/rooch-store/src/lib.rs:142 | Err exactly when the engine reports an error; otherwise Some exactly when the hash is stored, with the stored transaction |
| `RoochStore.RoochStore.GetTransactionsByHash` | crates/rooch-store/src/lib.rs:145-150 | equals the sub-store's answer; on Ok one entry per hash, in input order, each the point lookup of that hash |
| `SubStores.TransactionDBStore.GetTransactions` | crates/rooch-store/src/lib.rs:149 | Err exactly when the engine reports an error; otherwise one entry per hash, positionally the lookup of that hash |
| `RoochStore.RoochStore.GetTxHashes` | crates/rooch-store/src/lib.rs:152-154 | equals the sub-store's answer; on Ok the positional lookup of every order in the order → hash partition |
| `SubStores.TransactionDBStore.GetTxHashes` | crates/rooch-store/src/lib.rs:153 | Err exactly when the engine reports an error; otherwise one entry per order, positionally the stored hash or None |
| `RoochStore.RoochStore.GetSequencerInfo` | crates/rooch-store/src/lib.rs:158-160 | equals the meta sub-store's answer: the engine's error, or exactly the stored sequencer info (None when absent) |
| `SubStores.MetaDBStore.GetSequencerInfo` | crates/rooch-store/src/lib.rs:159 | Err exactly when the engine reports an error; otherwise the record under the fixed key, None when absent |
| `RoochStore.RoochStore.SaveSequencerInfo` | crates/rooch-store/src/lib.rs:162-164 | returns the sub-store's result; on Ok the meta store holds exactly the new record, on Err it is unchanged; transaction, accumulator and state partitions unchanged |
| `SubStores.MetaDBStore.SaveSequencerInfo` | crates/rooch-store/src/lib.rs:163 | abstract contract: the engine's error with nothing written, or the partition becomes the single new record (overwrite) |
| `RoochStore.RoochStore.RemoveSequencerInfo` | crates/rooch-store/src/lib.rs:166-168 | returns the sub-store's result; on Ok the meta store holds no record, on Err it is unchanged; other partitions unchanged |
| `SubStores.MetaDBStore.RemoveSequenceInfo` | crates/rooch-store/src/lib.rs:167 | abstract contract: the engine's error with nothing written, or the partition becomes empty |
| `RoochStore.RoochStore.SaveStateChangeSet` | crates/rooch-store/src/lib.rs:176-183 | returns the sub-store's result; on Ok only the entry at tx_order is set, on Err nothing changes; transaction, meta and accumulator partitions unchanged |
| `SubStores.StateDBStore.SaveStateChangeSet` | crates/rooch-store/src/lib.rs:181-182 | abstract contract: the engine's error with nothing written, or a put at tx_order |
| `RoochStore.RoochStore.GetStateChangeSet` | crates/rooch-store/src/lib.rs:185-187 | equals the state sub-store's answer: the engine's error, or the change set at tx_order, None when absent |
| `SubStores.StateDBStore.GetStateChangeSet` | crates/rooch-store/src/lib.rs:186 | Err exactly when the engine reports an error; otherwise Some exactly when tx_order is stored, with the stored set |
| `RoochStore.RoochStore.MultiGetStateChangeSet` | crates/rooch-store/src/lib.rs:189-194 | equals the state sub-store's answer; on Ok the positional batch lookup of the orders |
| `SubStores.StateDBStore.MultiGetStateChangeSet` | crates/rooch-store/src/lib.rs:193 | Err exactly when the engine reports an error; otherwise one entry per order, positionally the stored set or None |
| `RoochStore.RoochStore.RemoveStateChangeSet` | crates/rooch-store/src/lib.rs:196-198 | returns the sub-store's result; on Ok only the entry at tx_order is deleted, on Err nothing changes; other partitions unchanged |
| `SubStores.StateDBStore.RemoveStateChangeSet` | crates/rooch-store/src/lib.rs:197 | abstract contract: the engine's error with nothing written, or deletion at tx_order |
| `RoochStore.FramesComposeForACaller` | crates/rooch-store/src/lib.rs:132-199 | not a facade operation but a caller's example of the write frames composing: a saved transaction stays readable by hash and by order after a state write, and the sequencer info read is unchanged by both |
| `Common.MultiGet` | crates/rooch-store/src/lib.rs:145-154 | a batch lookup has one answer per key, in key order, each the point lookup, absent keys as None |
| `Common.MultiGetAppend` | crates/rooch-store/src/lib.rs:189-194 | a batch lookup over concatenated keys is the concatenation of the two batch lookups |
| `Tables.SaveTxThenRead` | crates/rooch-store/src/lib.rs:133-154 | after a save the transaction reads back under its hash and its hash under its order; other keys read as before |
| `Tables.RemoveTxThenRead` | crates/rooch-store/src/lib.rs:137-154 | after a remove the hash and the order read as None; other keys read as before |
| `Tables.RemoveTxUndoesSaveTx` | crates/rooch-store/src/lib.rs:133-139 | removing a just-saved transaction by its hash and order restores the tables when neither key was present |
| `Tables.SaveTxThenMultiGet` | crates/rooch-store/src/lib.rs:133-150 | after a save, a batch lookup by hashes answers the new transaction exactly at the positions of its hash and is otherwise unchanged |
| `Tables.RemoveChangeSetUndoesSave` | crates/rooch-store/src/lib.rs:176-198 | removing the change set just saved at a fresh order restores the state table |
| `Tables.ChangeSetWriteIsLocal` | crates/rooch-store/src/lib.rs:176-198 | a save or remove at one order leaves the batch lookup of any orders not containing it unchanged |
| `Tables.MetaTableIsSingleton` | crates/rooch-store/src/lib.rs:157-169 | the meta partition holds at most one record, and exactly one when the sequencer info is present |
| `Messages.AccumulateFrom` | crates/rooch-da/src/messages.rs:17-20 | appending no leaves keeps the opening root, and appending one leaf is one accumulator append |
| `Messages.WellFormed` | crates/rooch-da/src/messages.rs:13-25 | a well-formed batch has batch_hash equal to the SHA-256 of data, appends exactly tx_count leaves (its decoded transactions' hashes), and closes at the opening root with those leaves appended |
| `Messages.TxHashes` | crates/rooch-da/src/messages.rs:17-20 | the leaves a transaction list appends are its hashes, one per transaction, in order |
| `Messages.AccumulateFromAppend` | crates/rooch-da/src/messages.rs:17-20 | appending two runs of leaves in turn gives the same root as appending their concatenation |
| `Messages.AccumulateFromLast` | crates/rooch-da/src/messages.rs:19-20 | the root after a non-empty run of leaves is the root after its last leaf is appended to the root reached by all earlier leaves |
| `Messages.WellFormedClosesAtLastAppend` | crates/rooch-da/src/messages.rs:15-25 | a non-empty well-formed batch's tx_accumulator_root is the root after its last transaction's hash is appended |
| `Messages.TxHashesAppend` | crates/rooch-da/src/messages.rs:24-25 | the leaves of concatenated transaction lists are the concatenated leaves |
| `Messages.WellFormedDeterminedByData` | crates/rooch-da/src/messages.rs:13-25 | two well-formed batches with the same data and opening root agree on hash, count and closing root, so only block_number can tell them apart |
| `Messages.EmptyBatchKeepsRoot` | crates/rooch-da/src/messages.rs:15-20 | a well-formed batch with tx_count 0 closes at its opening root |
| `Messages.LinkedBatchesAccumulate` | crates/rooch-da/src/messages.rs:17-20 | for linked well-formed batches the last closing root is the first opening root plus all decoded transactions appended, and the counts add up |
| `Messages.BatchEqualityIsFieldwise` | crates/rooch-da/src/messages.rs:11-26 | two batches are equal exactly when all six fields are equal |

## Left out

- `RoochStore::new` and `mock_rooch_store` (lib.rs:71-82, 96-102): opening RocksDB, the metrics registry and the temporary directory are engine and file-system I/O. `Engine.StoreInstance.Open` stands in for an engine opened with a list of column families.
- Engine.StoreInstance.Open: models only opening a fresh directory, as `mock_rooch_store` does. Reopening a directory that already holds data (a restart) and an open that fails (`RocksDB::new(...)?` at lib.rs:74-78) are not modelled. The facade's other members take any instance, whatever it holds.
- The `_registry` parameter of `new_with_instance` is unused by the code and is dropped.
- `Display` and `Debug` for `RoochStore` (lib.rs:121-130): as written, `Display` formats `self.clone()` with `{}`, which calls `Display` on the same value again, and `Debug` calls `Display`. Neither can terminate, so there is no result to model.
- The sub-store modules (transaction_store, meta_store, state_store, accumulator_store) are not part of this model. Their operations have abstract table contracts only, with put and delete semantics: the model assumes a save on a healthy engine overwrites any existing entry at the same key rather than rejecting it. No duplicate-order or duplicate-hash rejection, no check that a removed hash matches its order, no consistency between the hash and order tables, and no accumulator operations are claimed.
- Sub-store errors are modelled only as the engine's `ioError`. The model assumes that a sub-store write which fails has written nothing, including the two-partition write of `save_transaction`.
- Key and value byte encodings, serde and RocksDB's own behaviour are not modelled. Partitions hold typed maps.
- SHA-256, decoding of a batch's `data` and accumulator hashing are uninterpreted functions (`Messages.Primitives`).
- `Messages.AccumulateFrom` treats one append as a function of the previous root and the leaf. A real Merkle accumulator also carries its frozen subtrees, so this is the abstraction the field comments use, not the accumulator's algorithm.
- The coerce actor runtime behind `impl Message` (messages.rs:28-40): only the result type, success or an error with no payload, is modelled (`Messages.MessageResult`).
- Concurrency: the facade works through `&self` on a shared engine. The model is sequential and does not cover interleaved callers.
- moveos-server (RPC server, signals, command dispatch, account API stub) and the TypeScript portal, SDK and scaffolding files are outside the ledger core.
