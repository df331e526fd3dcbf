/** What the swap drivers see of the chain. */
module Chain {
  import opened Durability

  /** Any backend call may fail. */
  datatype Answer<+T> = Answered(value: T) | Unavailable

  type Txid = nat
  type Bytes = seq<nat>

  /** SHA-256 as an injective function: a hash is identified with the bytes hashed. */
  datatype Hash = HashOf(bytes: Bytes)

  datatype OutPoint = OutPoint(txid: Txid, vout: u32)

  /** `confirmations` is 0 while the transaction is in the mempool. */
  datatype Output = Output(outpoint: OutPoint, value: u64, confirmations: u32)

  datatype Input = Input(previous: OutPoint, elements: seq<Bytes>)

  datatype Tx = Tx(id: Txid, inputs: seq<Input>)

  predicate SpendsOutput(tx: Tx, outpoint: OutPoint) {
    exists input | input in tx.inputs :: input.previous == outpoint
  }

  predicate IsPreimage(element: Bytes, hash: Hash) {
    |element| == 32 && HashOf(element) == hash
  }

  /** The transaction spends the output on the hashlock branch, in public. */
  predicate Reveals(tx: Tx, outpoint: OutPoint, hash: Hash) {
    exists input | input in tx.inputs ::
      input.previous == outpoint && exists element | element in input.elements :: IsPreimage(element, hash)
  }

  /** Scan the witness of every input that spends the output. */
  method ExtractPreimage(tx: Tx, outpoint: OutPoint, hash: Hash) returns (preimage: Option<Bytes>)
    ensures preimage.Some? <==> Reveals(tx, outpoint, hash)
    ensures preimage.Some? ==> IsPreimage(preimage.value, hash)
  {
    for i := 0 to |tx.inputs|
      invariant forall k | 0 <= k < i && tx.inputs[k].previous == outpoint ::
                  forall e | e in tx.inputs[k].elements :: !IsPreimage(e, hash)
    {
      if tx.inputs[i].previous != outpoint {
        continue;
      }
      var elements := tx.inputs[i].elements;
      for j := 0 to |elements|
        invariant forall k | 0 <= k < j :: !IsPreimage(elements[k], hash)
      {
        if |elements[j]| == 32 && HashOf(elements[j]) == hash {
          assert elements[j] in tx.inputs[i].elements && tx.inputs[i] in tx.inputs;
          return Some(elements[j]);
        }
      }
    }
    return None;
  }
}
