/** Fixed-width integers, digests, failure-compatible results and the keyed
    lookups shared by every store of the ledger. */
module Common {

  /** Rust's unsigned integer widths, as bounded subsets of int. */
  type u8 = x: int | 0 <= x < 0x100
  type u64 = x: int | 0 <= x < 0x1_0000_0000_0000_0000
  type u128 = x: int | 0 <= x < 0x1_0000_0000_0000_0000_0000_0000_0000_0000

  /** A 256-bit digest (moveos_types::h256::H256): exactly 32 bytes. */
  type H256 = s: seq<u8> | |s| == 32 witness seq(32, _ => 0)

  datatype Option<+T> = None | Some(value: T)

  /** An error value is opaque to the ledger: it is only ever passed on. */
  datatype Error = Error(message: string)

  /** anyhow::Result: a value, or the error that stopped the operation. */
  datatype Result<+T> = Ok(value: T) | Err(error: Error)

  /** The point lookup of a keyed table: absent keys read as None. */
  function Lookup<K, V>(m: map<K, V>, k: K): Option<V>
  {
    if k in m then Some(m[k]) else None
  }

  /** A batch lookup: one answer per key, in the order of the keys, absent
      keys answered by None rather than by an error. */
  function MultiGet<K, V>(m: map<K, V>, keys: seq<K>): (r: seq<Option<V>>)
    ensures |r| == |keys|
    ensures forall i :: 0 <= i < |keys| ==> r[i] == Lookup(m, keys[i])
  {
    if keys == [] then [] else [Lookup(m, keys[0])] + MultiGet(m, keys[1..])
  }

  /** A batch lookup over a concatenated key list is the concatenation of the
      two batch lookups: callers may split a range of keys freely. */
  lemma MultiGetAppend<K, V>(m: map<K, V>, a: seq<K>, b: seq<K>)
    ensures MultiGet(m, a + b) == MultiGet(m, a) + MultiGet(m, b)
  {
  }
}
