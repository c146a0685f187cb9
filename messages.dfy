/** The data-availability messages of crates/rooch-da: a Batch describes the
    transactions of one L2 block, and PutBatchInternalDAMessage carries one
    batch to the publishing actor. Both messages are answered by a
    MessageResult: success or an error, with no payload. */
module Messages {
  import opened Common
  import opened LedgerTypes

  /** One L2 block's worth of transactions, as built by the batch submitter.
      Equality is the derived, field-by-field one. */
  datatype Batch = Batch(
    blockNumber: u128,             // the L2 block this batch maps to
    txCount: u64,                  // how many transactions the batch holds
    prevTxAccumulatorRoot: H256,   // accumulator root before the block
    txAccumulatorRoot: H256,       // accumulator root after its last transaction
    batchHash: H256,               // SHA-256 of data
    data: seq<u8>)                 // the encoded LedgerTransaction list

  datatype PutBatchInternalDAMessage = PutBatchInternalDAMessage(batch: Batch)

  /** The Message::Result of Batch and of PutBatchInternalDAMessage. */
  type MessageResult = Result<()>

  /** The functions the field documentation refers to, left uninterpreted:
      SHA-256, decoding of the encoded transaction list (None when data does
      not decode), and one accumulator append (root and leaf to new root). */
  datatype Primitives = Primitives(
    sha256: seq<u8> -> H256,
    decodeTxList: seq<u8> -> Option<seq<LedgerTransaction>>,
    accumulatorAppend: (H256, H256) -> H256)

  /** The root reached by appending `leaves`, in order, starting at `root`:
      no leaves keep the root, and each leaf is one append. */
  function AccumulateFrom(p: Primitives, root: H256, leaves: seq<H256>): (r: H256)
    ensures leaves == [] ==> r == root
    ensures |leaves| == 1 ==> r == p.accumulatorAppend(root, leaves[0])
    decreases |leaves|
  {
    if leaves == [] then root
    else AccumulateFrom(p, p.accumulatorAppend(root, leaves[0]), leaves[1..])
  }

  /** The leaves a list of transactions appends: their hashes, in order. */
  function TxHashes(txs: seq<LedgerTransaction>): (r: seq<H256>)
    ensures |r| == |txs|
    ensures forall i :: 0 <= i < |txs| ==> r[i] == txs[i].txHash
  {
    if txs == [] then [] else [txs[0].txHash] + TxHashes(txs[1..])
  }

  /** The transactions a batch's data decodes to; none when it does not decode. */
  function Decoded(p: Primitives, b: Batch): seq<LedgerTransaction>
  {
    match p.decodeTxList(b.data)
    case Some(txs) => txs
    case None => []
  }

  /** What the field documentation promises of a batch: batch_hash is the
      SHA-256 of data, data decodes to exactly tx_count transactions, and
      appending their hashes to prev_tx_accumulator_root yields
      tx_accumulator_root. */
  predicate WellFormed(p: Primitives, b: Batch): (r: bool)
    ensures r ==> b.batchHash == p.sha256(b.data)
    ensures r ==> |TxHashes(Decoded(p, b))| == b.txCount
    ensures r ==>
      b.txAccumulatorRoot == AccumulateFrom(p, b.prevTxAccumulatorRoot, TxHashes(Decoded(p, b)))
  {
    b.batchHash == p.sha256(b.data) &&
    p.decodeTxList(b.data).Some? &&
    |p.decodeTxList(b.data).value| == b.txCount &&
    b.txAccumulatorRoot == AccumulateFrom(p, b.prevTxAccumulatorRoot, TxHashes(p.decodeTxList(b.data).value))
  }

  /** Appending two runs of leaves one after the other is appending their
      concatenation. */
  lemma {:induction false} AccumulateFromAppend(p: Primitives, root: H256, a: seq<H256>, b: seq<H256>)
    ensures AccumulateFrom(p, root, a + b) == AccumulateFrom(p, AccumulateFrom(p, root, a), b)
    decreases |a|
  {
    if a == [] {
      assert a + b == b;
    } else {
      assert (a + b)[1..] == a[1..] + b;
      AccumulateFromAppend(p, p.accumulatorAppend(root, a[0]), a[1..], b);
    }
  }

  /** The root after a run of leaves is the root after its last leaf is
      appended to the root reached by all the others. */
  lemma AccumulateFromLast(p: Primitives, root: H256, leaves: seq<H256>)
    requires leaves != []
    ensures AccumulateFrom(p, root, leaves)
      == p.accumulatorAppend(AccumulateFrom(p, root, leaves[..|leaves| - 1]), leaves[|leaves| - 1])
  {
    var n := |leaves|;
    assert leaves == leaves[..n - 1] + [leaves[n - 1]];
    AccumulateFromAppend(p, root, leaves[..n - 1], [leaves[n - 1]]);
  }

  /** The leaves of concatenated transaction lists are the concatenated
      leaves. */
  lemma TxHashesAppend(a: seq<LedgerTransaction>, b: seq<LedgerTransaction>)
    ensures TxHashes(a + b) == TxHashes(a) + TxHashes(b)
  {
  }

  /** A well-formed batch's hash, count and closing root are fixed by its
      data and opening root: two well-formed batches that agree on those can
      differ only in the block they are tagged with. */
  lemma WellFormedDeterminedByData(p: Primitives, b1: Batch, b2: Batch)
    requires WellFormed(p, b1) && WellFormed(p, b2)
    requires b1.data == b2.data && b1.prevTxAccumulatorRoot == b2.prevTxAccumulatorRoot
    ensures b1.batchHash == b2.batchHash && b1.txCount == b2.txCount
    ensures b1.txAccumulatorRoot == b2.txAccumulatorRoot
    ensures b1.blockNumber == b2.blockNumber ==> b1 == b2
  {
  }

  /** A non-empty well-formed batch closes at the root after its last
      transaction's hash is appended to the root reached by the others. */
  lemma WellFormedClosesAtLastAppend(p: Primitives, b: Batch)
    requires WellFormed(p, b) && b.txCount > 0
    ensures b.txAccumulatorRoot == p.accumulatorAppend(
      AccumulateFrom(p, b.prevTxAccumulatorRoot, TxHashes(Decoded(p, b))[..b.txCount - 1]),
      Decoded(p, b)[b.txCount - 1].txHash)
  {
    AccumulateFromLast(p, b.prevTxAccumulatorRoot, TxHashes(Decoded(p, b)));
  }

  /** A well-formed batch with no transactions leaves the accumulator root where
      it was. */
  lemma EmptyBatchKeepsRoot(p: Primitives, b: Batch)
    requires WellFormed(p, b) && b.txCount == 0
    ensures b.txAccumulatorRoot == b.prevTxAccumulatorRoot
  {
  }

  /** Batches are linked when each one opens at the root the previous one
      closed at. */
  predicate Linked(bs: seq<Batch>)
  {
    forall i :: 0 < i < |bs| ==> bs[i].prevTxAccumulatorRoot == bs[i - 1].txAccumulatorRoot
  }

  /** All transactions of a run of batches, in order. */
  function AllDecoded(p: Primitives, bs: seq<Batch>): seq<LedgerTransaction>
    decreases |bs|
  {
    if bs == [] then [] else AllDecoded(p, bs[..|bs| - 1]) + Decoded(p, bs[|bs| - 1])
  }

  /** Summed tx_count of a run of batches. */
  function TotalTxCount(bs: seq<Batch>): nat
    decreases |bs|
  {
    if bs == [] then 0 else TotalTxCount(bs[..|bs| - 1]) + bs[|bs| - 1].txCount
  }

  /** A run of linked well-formed batches accounts for its transactions
      exactly as one batch would: the last closing root is the first opening
      root with every decoded transaction appended, and the counts add up. */
  lemma {:induction false} LinkedBatchesAccumulate(p: Primitives, bs: seq<Batch>)
    requires |bs| > 0
    requires forall i :: 0 <= i < |bs| ==> WellFormed(p, bs[i])
    requires Linked(bs)
    ensures bs[|bs| - 1].txAccumulatorRoot
      == AccumulateFrom(p, bs[0].prevTxAccumulatorRoot, TxHashes(AllDecoded(p, bs)))
    ensures |AllDecoded(p, bs)| == TotalTxCount(bs)
    decreases |bs|
  {
    var n := |bs|;
    var last := bs[n - 1];
    assert Decoded(p, last) == p.decodeTxList(last.data).value;
    if n == 1 {
      assert bs[..0] == [];
      assert AllDecoded(p, bs) == Decoded(p, last);
    } else {
      var front := bs[..n - 1];
      assert forall i :: 0 <= i < |front| ==> front[i] == bs[i];
      LinkedBatchesAccumulate(p, front);
      assert front[n - 2] == bs[n - 2];
      TxHashesAppend(AllDecoded(p, front), Decoded(p, last));
      AccumulateFromAppend(p, bs[0].prevTxAccumulatorRoot,
        TxHashes(AllDecoded(p, front)), TxHashes(Decoded(p, last)));
    }
  }

  /** Two batches are equal exactly when all six fields are. */
  lemma BatchEqualityIsFieldwise(a: Batch, b: Batch)
    ensures a == b <==>
      a.blockNumber == b.blockNumber && a.txCount == b.txCount &&
      a.prevTxAccumulatorRoot == b.prevTxAccumulatorRoot &&
      a.txAccumulatorRoot == b.txAccumulatorRoot &&
      a.batchHash == b.batchHash && a.data == b.data
  {
  }
}
