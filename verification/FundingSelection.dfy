/** Choosing which output a swap drives: the one unspent output a claim may act on, and the one
    historical output a resumed run takes for its own funding. */
module FundingSelection {
  import opened Chain
  import opened Durability

  // ----- unspent outputs -----

  const DEFAULT_MAX_OVERPAY_SAT := 10_000

  datatype Selection =
    | Nothing
    | Exact(utxo: Output)
    | Overpaid(utxo: Output, excess: u64)
    | Underpaid(got: u64)
    | ExcessiveOverpay(got: u64)
    | Multiple(outputs: seq<Output>)
  {
    predicate Accepted() {
      Exact? || Overpaid?
    }
  }

  function SelectFunding(utxos: seq<Output>, expected: u64, maxOverpay: u64): Selection {
    if |utxos| == 0 then Nothing
    else if |utxos| > 1 then Multiple(utxos)
    else
      var utxo := utxos[0];
      if utxo.value == expected then Exact(utxo)
      else if utxo.value < expected then Underpaid(utxo.value)
      else if utxo.value - expected <= maxOverpay then Overpaid(utxo, utxo.value - expected)
      else ExcessiveOverpay(utxo.value)
  }

  /** An output is acted on exactly when it is the only one paying the script and its value is within
      the tolerance above the expected one; every other case is told apart. */
  lemma AcceptedExactly(utxos: seq<Output>, expected: u64, maxOverpay: u64)
    ensures var s := SelectFunding(utxos, expected, maxOverpay);
            && (s.Accepted() <==> |utxos| == 1 && expected <= utxos[0].value <= expected + maxOverpay)
            && (s.Accepted() ==> utxos == [s.utxo])
            && (s.Overpaid? ==> s.utxo.value == expected + s.excess && s.excess > 0)
            && (s.Nothing? <==> utxos == [])
            && (s.Multiple? <==> |utxos| > 1)
            && (s.Underpaid? ==> s.got < expected)
            && (s.ExcessiveOverpay? ==> s.got > expected + maxOverpay)
  {
    var s := SelectFunding(utxos, expected, maxOverpay);
    if |utxos| == 1 {
      assert utxos == [utxos[0]];
    }
  }

  // ----- historical outputs -----

  /** Deepest first, then by transaction and output index. Who spent an output plays no part. */
  predicate Before(a: Output, b: Output) {
    || a.confirmations > b.confirmations
    || (a.confirmations == b.confirmations && a.outpoint.txid < b.outpoint.txid)
    || (a.confirmations == b.confirmations && a.outpoint.txid == b.outpoint.txid
        && a.outpoint.vout <= b.outpoint.vout)
  }

  ghost predicate Ordered(s: seq<Output>) {
    forall i, j | 0 <= i < j < |s| :: Before(s[i], s[j])
  }

  function OfValue(history: seq<Output>, expected: u64): seq<Output> {
    if history == [] then []
    else if history[0].value == expected then [history[0]] + OfValue(history[1..], expected)
    else OfValue(history[1..], expected)
  }

  ghost function Insert(x: Output, s: seq<Output>): seq<Output> {
    if s == [] || Before(x, s[0]) then [x] + s else [s[0]] + Insert(x, s[1..])
  }

  ghost function Rank(s: seq<Output>): seq<Output> {
    if s == [] then [] else Insert(s[0], Rank(s[1..]))
  }

  /** The answer of each lookup of a scan, by its place in the scan. */
  type Lookups = (nat, OutPoint) -> Answer<Option<Tx>>

  /** From place i on: the first candidate whose spend reveals the preimage, or a failed lookup met
      before it. */
  function FirstRevealing(candidates: seq<Output>, i: nat, hash: Hash, spendOf: Lookups)
    : Answer<Option<OutPoint>>
    requires i <= |candidates|
    decreases |candidates| - i
  {
    if i == |candidates| then Answered(None)
    else
      var op := candidates[i].outpoint;
      match spendOf(i, op)
      case Unavailable => Unavailable
      case Answered(spend) =>
        if spend.Some? && Reveals(spend.value, op, hash) then Answered(Some(op))
        else FirstRevealing(candidates, i + 1, hash, spendOf)
  }

  function Choose(candidates: seq<Output>, hash: Hash, spendOf: Lookups): Answer<Option<OutPoint>> {
    if candidates == [] then Answered(None)
    else if |candidates| == 1 then Answered(Some(candidates[0].outpoint))
    else
      var found := FirstRevealing(candidates, 0, hash, spendOf);
      if found == Answered(None) then Answered(Some(candidates[0].outpoint)) else found
  }

  ghost function SelectRecordedFunding(hash: Hash, expected: u64, history: seq<Output>,
                                       spendOf: Lookups): Answer<Option<OutPoint>>
  {
    Choose(Rank(OfValue(history, expected)), hash, spendOf)
  }

  // ----- ranking is sorting, and there is one sorted order -----

  lemma {:induction false} InsertSorts(x: Output, s: seq<Output>)
    requires Ordered(s)
    ensures Ordered(Insert(x, s))
    ensures multiset(Insert(x, s)) == multiset{x} + multiset(s)
  {
    if s != [] && !Before(x, s[0]) {
      InsertSorts(x, s[1..]);
      var rest := Insert(x, s[1..]);
      assert s == [s[0]] + s[1..];
      forall j | 0 <= j < |rest|
        ensures Before(s[0], rest[j])
      {
        assert rest[j] in multiset{x} + multiset(s[1..]);
        if rest[j] != x {
          assert rest[j] in s[1..];
        }
      }
    }
  }

  lemma {:induction false} RankSorts(s: seq<Output>)
    ensures Ordered(Rank(s)) && multiset(Rank(s)) == multiset(s)
  {
    if s != [] {
      RankSorts(s[1..]);
      InsertSorts(s[0], Rank(s[1..]));
      assert s == [s[0]] + s[1..];
    }
  }

  ghost predicate AllOfValue(s: seq<Output>, value: u64) {
    forall x | x in s :: x.value == value
  }

  lemma FirstIsLeast(s: seq<Output>, x: Output)
    requires Ordered(s) && x in s
    ensures x == s[0] || Before(s[0], x)
  {
    var i :| 0 <= i < |s| && s[i] == x;
  }

  lemma RestOf(s: seq<Output>)
    requires Ordered(s) && s != []
    ensures Ordered(s[1..]) && multiset(s) == multiset{s[0]} + multiset(s[1..])
  {
    assert s == [s[0]] + s[1..];
  }

  /** Outputs of one value that come before each other are the same output. */
  lemma SameFirst(a: seq<Output>, b: seq<Output>, value: u64)
    requires a != [] && b != [] && a[0] in b && b[0] in a
    requires Ordered(a) && Ordered(b) && AllOfValue(a, value)
    ensures a[0] == b[0]
  {
    FirstIsLeast(a, b[0]);
    FirstIsLeast(b, a[0]);
  }

  lemma {:induction false} OneOrder(a: seq<Output>, b: seq<Output>, value: u64)
    requires multiset(a) == multiset(b) && Ordered(a) && Ordered(b) && AllOfValue(a, value)
    ensures a == b
  {
    assert |a| == |multiset(a)| == |multiset(b)| == |b|;
    if a != [] {
      assert a[0] in multiset(b) && b[0] in multiset(a);
      SameFirst(a, b, value);
      RestOf(a);
      RestOf(b);
      assert multiset(a[1..]) == multiset(a) - multiset{a[0]};
      assert multiset(b[1..]) == multiset(b) - multiset{a[0]};
      OneOrder(a[1..], b[1..], value);
    }
  }

  lemma {:induction false} OfValueIsFilter(history: seq<Output>, expected: u64, h: Output)
    ensures multiset(OfValue(history, expected))[h]
            == if h.value == expected then multiset(history)[h] else 0
  {
    if history != [] {
      assert history == [history[0]] + history[1..];
      OfValueIsFilter(history[1..], expected, h);
    }
  }

  lemma CandidatesAreTheExactOutputs(history: seq<Output>, expected: u64, h: Output)
    ensures h in Rank(OfValue(history, expected)) <==> h in history && h.value == expected
  {
    OfValueIsFilter(history, expected, h);
    RankSorts(OfValue(history, expected));
    assert h in history <==> multiset(history)[h] > 0;
    assert h in Rank(OfValue(history, expected)) <==> multiset(OfValue(history, expected))[h] > 0;
  }

  lemma CandidatesHaveOneValue(history: seq<Output>, expected: u64)
    ensures AllOfValue(Rank(OfValue(history, expected)), expected)
  {
    forall h | h in Rank(OfValue(history, expected))
      ensures h.value == expected
    {
      CandidatesAreTheExactOutputs(history, expected, h);
    }
  }

  // ----- what the selection promises -----

  /** The order in which a server lists the history does not matter, repeats included. */
  lemma SelectionIgnoresOrder(hash: Hash, expected: u64, a: seq<Output>, b: seq<Output>,
                              spendOf: Lookups)
    requires multiset(a) == multiset(b)
    ensures SelectRecordedFunding(hash, expected, a, spendOf)
            == SelectRecordedFunding(hash, expected, b, spendOf)
  {
    forall h: Output
      ensures multiset(OfValue(a, expected))[h] == multiset(OfValue(b, expected))[h]
    {
      OfValueIsFilter(a, expected, h);
      OfValueIsFilter(b, expected, h);
    }
    assert multiset(OfValue(a, expected)) == multiset(OfValue(b, expected));
    RankSorts(OfValue(a, expected));
    RankSorts(OfValue(b, expected));
    CandidatesHaveOneValue(a, expected);
    OneOrder(Rank(OfValue(a, expected)), Rank(OfValue(b, expected)), expected);
  }

  ghost predicate RevealedAt(candidates: seq<Output>, i: nat, hash: Hash, spendOf: Lookups)
    requires i < |candidates|
  {
    match spendOf(i, candidates[i].outpoint)
    case Unavailable => false
    case Answered(spend) => spend.Some? && Reveals(spend.value, candidates[i].outpoint, hash)
  }

  ghost predicate Unrevealed(candidates: seq<Output>, i: nat, hash: Hash, spendOf: Lookups)
    requires i < |candidates|
  {
    spendOf(i, candidates[i].outpoint).Answered? && !RevealedAt(candidates, i, hash, spendOf)
  }

  /** From place i on, the first one revealed is at place k. */
  ghost predicate FirstRevealedAt(candidates: seq<Output>, i: nat, k: nat, hash: Hash, spendOf: Lookups) {
    && i <= k < |candidates| && RevealedAt(candidates, k, hash, spendOf)
    && forall l | i <= l < k :: Unrevealed(candidates, l, hash, spendOf)
  }

  lemma {:induction false} FirstRevealingIsFirst(candidates: seq<Output>, i: nat, hash: Hash,
                                                 spendOf: Lookups)
    requires i <= |candidates|
    ensures match FirstRevealing(candidates, i, hash, spendOf)
            case Unavailable =>
              exists k: nat :: && i <= k < |candidates|
                               && spendOf(k, candidates[k].outpoint).Unavailable?
            case Answered(None) =>
              forall k: nat | i <= k < |candidates| :: Unrevealed(candidates, k, hash, spendOf)
            case Answered(Some(op)) =>
              exists k: nat :: FirstRevealedAt(candidates, i, k, hash, spendOf) && candidates[k].outpoint == op
    decreases |candidates| - i
  {
    if i < |candidates| {
      if RevealedAt(candidates, i, hash, spendOf) {
        assert FirstRevealedAt(candidates, i, i, hash, spendOf);
      } else if spendOf(i, candidates[i].outpoint).Answered? {
        FirstRevealingIsFirst(candidates, i + 1, hash, spendOf);
        assert Unrevealed(candidates, i, hash, spendOf);
        var found := FirstRevealing(candidates, i + 1, hash, spendOf);
        if found.Answered? && found.value.Some? {
          var k: nat :| && FirstRevealedAt(candidates, i + 1, k, hash, spendOf)
                        && candidates[k].outpoint == found.value.value;
          assert FirstRevealedAt(candidates, i, k, hash, spendOf);
        }
      }
    }
  }

  /** What is driven always has exactly the expected value, and nothing is driven exactly when no
      output ever had it. */
  lemma SelectedHasTheExactValue(hash: Hash, expected: u64, history: seq<Output>,
                                 spendOf: Lookups)
    ensures var r := SelectRecordedFunding(hash, expected, history, spendOf);
            && (r.Answered? && r.value.Some? ==>
                  exists h | h in history :: h.outpoint == r.value.value && h.value == expected)
            && (r == Answered(None) <==> forall h | h in history :: h.value != expected)
  {
    var candidates := Rank(OfValue(history, expected));
    forall h: Output
      ensures h in candidates <==> h in history && h.value == expected
    {
      CandidatesAreTheExactOutputs(history, expected, h);
    }
    FirstRevealingIsFirst(candidates, 0, hash, spendOf);
    if candidates != [] {
      assert candidates[0] in candidates;
    }
  }

  /** Among several, the first whose spend reveals the preimage, and simply the first when none
      does. */
  ghost predicate PrefersClaimed(candidates: seq<Output>, op: OutPoint, hash: Hash, spendOf: Lookups)
    requires candidates != []
  {
    if exists k: nat :: k < |candidates| && RevealedAt(candidates, k, hash, spendOf)
    then exists k: nat :: FirstRevealedAt(candidates, 0, k, hash, spendOf) && candidates[k].outpoint == op
    else op == candidates[0].outpoint
  }

  lemma ChoosePrefersClaimed(candidates: seq<Output>, hash: Hash, spendOf: Lookups)
    requires |candidates| > 1
    requires forall k: nat | k < |candidates| :: spendOf(k, candidates[k].outpoint).Answered?
    ensures var r := Choose(candidates, hash, spendOf);
            r.Answered? && r.value.Some? && PrefersClaimed(candidates, r.value.value, hash, spendOf)
  {
    FirstRevealingIsFirst(candidates, 0, hash, spendOf);
    match FirstRevealing(candidates, 0, hash, spendOf) {
      case Unavailable =>
        assert false;
      case Answered(None) =>
        forall k: nat | k < |candidates|
          ensures !RevealedAt(candidates, k, hash, spendOf)
        {
          assert Unrevealed(candidates, k, hash, spendOf);
        }
      case Answered(Some(op)) =>
        var k: nat :| FirstRevealedAt(candidates, 0, k, hash, spendOf) && candidates[k].outpoint == op;
        assert RevealedAt(candidates, k, hash, spendOf);
    }
  }

  /** With several exact outputs, in depth order, the one the counterparty claimed is driven. */
  lemma TheClaimedOutputIsPreferred(hash: Hash, expected: u64, history: seq<Output>, spendOf: Lookups)
    requires |OfValue(history, expected)| > 1
    requires forall i: nat, h | h in history && h.value == expected :: spendOf(i, h.outpoint).Answered?
    ensures var candidates := Rank(OfValue(history, expected));
            var r := SelectRecordedFunding(hash, expected, history, spendOf);
            && Ordered(candidates) && candidates != []
            && r.Answered? && r.value.Some?
            && PrefersClaimed(candidates, r.value.value, hash, spendOf)
  {
    var exact := OfValue(history, expected);
    var candidates := Rank(exact);
    RankSorts(exact);
    assert |candidates| == |multiset(candidates)| == |multiset(exact)|;
    forall k: nat | k < |candidates|
      ensures spendOf(k, candidates[k].outpoint).Answered?
    {
      CandidatesAreTheExactOutputs(history, expected, candidates[k]);
    }
    ChoosePrefersClaimed(candidates, hash, spendOf);
  }

  // ----- the selection as it runs -----

  method Swap(a: array<Output>, k: nat)
    requires 0 < k < a.Length
    modifies a
    ensures a[..] == old(a[..])[k := old(a[k - 1])][k - 1 := old(a[k])]
    ensures multiset(a[..]) == multiset(old(a[..]))
  {
    a[k - 1], a[k] := a[k], a[k - 1];
  }

  /** All in order but for what stands at k against what stands below it. */
  ghost predicate OrderedBut(s: seq<Output>, k: nat) {
    forall i, j | 0 <= i < j < |s| && j != k :: Before(s[i], s[j])
  }

  lemma SwapKeepsOrder(s: seq<Output>, k: nat)
    requires 0 < k < |s| && OrderedBut(s, k) && !Before(s[k - 1], s[k])
    ensures OrderedBut(s[k := s[k - 1]][k - 1 := s[k]], k - 1)
  {
    var t := s[k := s[k - 1]][k - 1 := s[k]];
    forall i, j | 0 <= i < j < |t| && j != k - 1
      ensures Before(t[i], t[j])
    {
      var from := if i == k then k - 1 else if i == k - 1 then k else i;
      var to := if j == k then k - 1 else j;
      assert t[i] == s[from] && t[j] == s[to];
    }
  }

  lemma InPlace(s: seq<Output>, k: nat)
    requires k < |s| && OrderedBut(s, k) && (k == 0 || Before(s[k - 1], s[k]))
    ensures Ordered(s)
  {
    forall i, j | 0 <= i < j < |s|
      ensures Before(s[i], s[j])
    {
      if j == k && i < k - 1 {
        assert Before(s[i], s[k - 1]);
      }
    }
  }

  /** Move the last of the first n + 1 candidates down to its place. */
  method Settle(a: array<Output>, n: nat)
    requires n < a.Length && Ordered(a[..n])
    modifies a
    ensures multiset(a[..]) == multiset(old(a[..]))
    ensures Ordered(a[..n + 1])
  {
    var k := n;
    while k > 0 && !Before(a[k - 1], a[k])
      invariant 0 <= k <= n
      invariant multiset(a[..]) == multiset(old(a[..]))
      invariant OrderedBut(a[..n + 1], k)
    {
      SwapKeepsOrder(a[..n + 1], k);
      ghost var s := a[..n + 1];
      Swap(a, k);
      assert a[..n + 1] == s[k := s[k - 1]][k - 1 := s[k]];
      k := k - 1;
    }
    InPlace(a[..n + 1], k);
  }

  /** Insertion sort in place. */
  method SortCandidates(a: array<Output>, ghost value: u64)
    requires AllOfValue(a[..], value)
    modifies a
    ensures a[..] == Rank(old(a[..]))
  {
    ghost var was := a[..];
    for n := 0 to a.Length
      invariant Ordered(a[..n])
      invariant multiset(a[..]) == multiset(was)
    {
      Settle(a, n);
    }
    assert a[..a.Length] == a[..];
    RankSorts(was);
    forall x | x in a[..]
      ensures x.value == value
    {
      assert x in multiset(was);
    }
    OneOrder(a[..], Rank(was), value);
  }

  /** The outputs of the expected value, sorted in place. */
  method Ranked(history: seq<Output>, expected: u64) returns (candidates: array<Output>)
    ensures candidates[..] == Rank(OfValue(history, expected))
  {
    var exact := OfValue(history, expected);
    candidates := new Output[|exact|](i requires 0 <= i < |exact| => exact[i]);
    assert candidates[..] == exact;
    forall h | h in exact
      ensures h.value == expected
    {
      OfValueIsFilter(history, expected, h);
    }
    SortCandidates(candidates, expected);
  }

  method Scan(candidates: array<Output>, hash: Hash, spendOf: Lookups)
    returns (r: Answer<Option<OutPoint>>)
    ensures r == FirstRevealing(candidates[..], 0, hash, spendOf)
  {
    for i := 0 to candidates.Length
      invariant FirstRevealing(candidates[..], 0, hash, spendOf)
                == FirstRevealing(candidates[..], i, hash, spendOf)
    {
      var op := candidates[i].outpoint;
      match spendOf(i, op) {
        case Unavailable => return Unavailable;
        case Answered(None) => continue;
        case Answered(Some(tx)) =>
          var preimage := ExtractPreimage(tx, op, hash);
          if preimage.Some? {
            return Answered(Some(op));
          }
      }
    }
    return Answered(None);
  }

  method SelectRecorded(hash: Hash, expected: u64, history: seq<Output>, spendOf: Lookups)
    returns (r: Answer<Option<OutPoint>>)
    ensures r == SelectRecordedFunding(hash, expected, history, spendOf)
  {
    var candidates := Ranked(history, expected);
    if candidates.Length == 0 {
      return Answered(None);
    }
    if candidates.Length > 1 {
      var found := Scan(candidates, hash, spendOf);
      if found != Answered(None) {
        return found;
      }
    }
    return Answered(Some(candidates[0].outpoint));
  }
}
