/** The one write discipline every journal of the transport shares: change a copy, replace the
    file, then replace memory. */
module Durability {
  datatype Option<+T> = None | Some(value: T)

  /** How replacing a journal file ended. The directory sync runs after the rename, so a write that
      reports failure leaves either the old or the new contents behind. */
  datatype Write = Saved | FailedOld | FailedNew

  /** A journal in memory, its file, and whether a write failed since the file was opened. */
  datatype Durable<T> = Durable(memory: T, disk: T, failed: bool) {
    ghost predicate Synced() {
      !failed ==> memory == disk
    }

    /** Memory changes only after the file did; any failed write poisons the journal. */
    function Commit(next: T, write: Write): Durable<T> {
      match write
      case Saved => Durable(next, next, failed)
      case FailedOld => Durable(memory, disk, true)
      case FailedNew => Durable(memory, next, true)
    }

    /** A new process reads whatever the file holds. */
    function Restart(): Durable<T> {
      Durable(disk, disk, false)
    }
  }

  const MAX_U16 := 0xFFFF
  const MAX_U32 := 0xFFFF_FFFF
  const MAX_U64 := 0xFFFF_FFFF_FFFF_FFFF

  type u16 = n: nat | n <= MAX_U16
  type u32 = n: nat | n <= MAX_U32
  type u64 = n: nat | n <= MAX_U64

  function Min(a: nat, b: nat): nat {
    if a <= b then a else b
  }

  function Max(a: nat, b: nat): nat {
    if a <= b then b else a
  }

  function SaturatingAdd32(a: u32, b: nat): u32 {
    Min(a + b, MAX_U32)
  }

  function SaturatingAdd64(a: u64, b: nat): u64 {
    Min(a + b, MAX_U64)
  }

  function SaturatingSub(a: nat, b: nat): nat {
    if a < b then 0 else a - b
  }

  function Pow2(n: nat): (p: nat)
    ensures n < p
  {
    if n == 0 then 1 else 2 * Pow2(n - 1)
  }

  lemma {:induction false} Pow2Monotone(a: nat, b: nat)
    requires a <= b
    ensures Pow2(a) <= Pow2(b)
    decreases b
  {
    if a < b {
      Pow2Monotone(a, b - 1);
    }
  }

  /** A run of writes: those not listed succeed. */
  function NextWrite(writes: seq<Write>): Write {
    if writes == [] then Saved else writes[0]
  }

  function LaterWrites(writes: seq<Write>): seq<Write> {
    if writes == [] then [] else writes[1..]
  }
}
