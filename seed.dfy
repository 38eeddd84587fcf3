/**
  Demo-data generation (src/seed.ts): random clients, coins whose three bits
  and whose value never repeat, and a chain of transactions in which each coin
  is resold by its previous buyer.

  `Math.random()` is modelled as a finite prefix of its stream of results,
  `draws`, each a real in [0, 1); every method takes the prefix and returns the
  part it did not use. A run whose rejection loops would need more draws than
  the prefix holds stops with `DrawsExhausted`: it stands for a run that has not
  finished yet, and no claim is made about it beyond the invariants. faker's
  output is likewise a parameter (`profiles`).
 */
module Seed {
  import opened Wrappers
  import Decimal
  import Cardinality
  import opened Store

  /** One result of `Math.random()`. */
  type Draw = u: real | 0.0 <= u < 1.0

  /** Bits are drawn from 1..10, three distinct ones per coin. */
  const BitMin: int := 1
  const BitMax: int := 10
  const BitsPerCoin: int := 3

  /** Values are `Math.floor(Math.random() * 90_000) + 10_000`. */
  const ValueMin: int := 10_000
  const ValueSpan: int := 90_000

  /** A coin stays without owner when its first draw is at most 0.2. */
  const UnownedShare: real := 0.2

  /** Each transaction is 1 to 2880 minutes after the previous one. */
  const MaxMinutesBetweenSales: int := 2880

  /** The number of ordered triples of distinct bits from 1..10: 10 * 9 * 8. */
  const OrderedTriples: int := 720

  const DefaultClientCount: int := 20
  const DefaultBitSlowCount: int := 50
  const DefaultTransactionCount: int := 100

  datatype SeedError =
    | RangeTooSmall      // generateDistinctRandomValues: fewer values in range than asked for
    | DuplicateEmail(email: string)   // the clients table refused a faker email that was already taken
    | DrawsExhausted     // the supplied random input ran out before the run finished

  /** How many times `for (let i = 0; i < count; i++)` runs. */
  function Times(count: int): nat {
    if count > 0 then count else 0
  }

  /** The ids `Math.floor(Math.random() * n) + 1` can produce: 1..n, and 1 alone when n is 0. */
  function IdBound(n: nat): nat {
    if n == 0 then 1 else n
  }

  /** `Math.floor(u * n)` for a draw `u` of `Math.random()`. */
  function RandomBelow(u: Draw, n: int): (r: int)
    ensures n >= 1 ==> 0 <= r < n
    ensures n == 0 ==> r == 0
  {
    if n >= 1 then
      assert u * n as real < n as real by {
        assert (1.0 - u) * n as real > 0.0;
      }
      (u * n as real).Floor
    else
      (u * n as real).Floor
  }

  /** `rest` is what is left of `draws` after some of its first elements were used. */
  predicate SuffixOf(rest: seq<Draw>, draws: seq<Draw>) {
    |rest| <= |draws| && rest == draws[|draws| - |rest|..]
  }

  lemma SuffixOfTransitive(rest: seq<Draw>, mid: seq<Draw>, draws: seq<Draw>)
    requires SuffixOf(rest, mid) && SuffixOf(mid, draws)
    ensures SuffixOf(rest, draws)
  {
    assert draws[|draws| - |mid|..][|mid| - |rest|..] == draws[|draws| - |rest|..];
  }

  // ---------------------------------------------------------------------------
  // generateDistinctRandomValues
  // ---------------------------------------------------------------------------

  /** The candidate values the draws produce: `Math.floor(u * (max - min + 1)) + min` for each. */
  function Sampled(draws: seq<Draw>, min: int, max: int): (s: seq<int>)
    ensures |s| == |draws|
    ensures max >= min ==> forall i :: 0 <= i < |s| ==> min <= s[i] <= max
  {
    seq(|draws|, i requires 0 <= i < |draws| => RandomBelow(draws[i], max - min + 1) + min)
  }

  /**
    The contents of a JavaScript `Set` after adding the elements of `xs` in
    order, listed as `Array.from` lists them: in order of first insertion.
   */
  function Dedup(xs: seq<int>): (d: seq<int>)
    ensures Cardinality.Distinct(d)
    ensures forall v :: v in d <==> v in xs
    ensures |d| <= |xs|
  {
    if xs == [] then []
    else
      var d := Dedup(xs[..|xs| - 1]);
      if xs[|xs| - 1] in d then d else d + [xs[|xs| - 1]]
  }

  /** Adding one more element to the set appends it unless it is already there. */
  lemma DedupStep(xs: seq<int>, k: nat)
    requires k < |xs|
    ensures Dedup(xs[..k + 1]) == if xs[k] in Dedup(xs[..k]) then Dedup(xs[..k]) else Dedup(xs[..k]) + [xs[k]]
  {
    assert xs[..k + 1][..k] == xs[..k];
  }

  /** Adding more elements never shrinks the set. */
  lemma {:induction false} DedupGrows(xs: seq<int>, n: nat)
    requires n <= |xs|
    ensures |Dedup(xs[..n])| <= |Dedup(xs)|
    decreases |xs| - n
  {
    if n < |xs| {
      DedupGrows(xs[..|xs| - 1], n);
      assert xs[..|xs| - 1][..n] == xs[..n];
      DedupStep(xs, |xs| - 1);
      assert xs[..|xs|] == xs;
    } else {
      assert xs[..n] == xs;
    }
  }

  /**
    `generateDistinctRandomValues(count, min, max)`: throws when the range holds
    fewer than `count` values; otherwise draws until the set holds `count`
    values and returns them in order of first appearance.
   */
  method GenerateDistinctRandomValues(count: int, min: int, max: int, draws: seq<Draw>)
    returns (r: Result<seq<int>, SeedError>, rest: seq<Draw>)
    ensures SuffixOf(rest, draws)
    ensures r == Failure(RangeTooSmall) <==> max - min + 1 < count
    ensures r == Failure(DrawsExhausted) <==> count <= max - min + 1 && |Dedup(Sampled(draws, min, max))| < count
    ensures r.Failure? ==> r.error == RangeTooSmall || r.error == DrawsExhausted
    ensures r == Failure(DrawsExhausted) ==> rest == []
    ensures r.Success? ==> |r.value| == Times(count) && Cardinality.Distinct(r.value)
    ensures r.Success? ==> forall i :: 0 <= i < |r.value| ==> min <= r.value[i] <= max
    ensures r.Success? ==> r.value == Dedup(Sampled(draws, min, max)[..|draws| - |rest|])
    ensures r.Success? ==> |draws| - |rest| >= |r.value|
    ensures r.Success? && count > 0 ==>
              |draws| - |rest| >= 1 && |Dedup(Sampled(draws, min, max)[..|draws| - |rest| - 1])| < count
  {
    if max - min + 1 < count {
      return Failure(RangeTooSmall), draws;
    }
    ghost var sampled := Sampled(draws, min, max);
    var values, k := CollectDistinct(count, min, max, draws);
    if |values| < count {
      assert sampled[..k] == sampled;
      return Failure(DrawsExhausted), [];
    }
    assert |Dedup(sampled)| >= count by {
      DedupGrows(sampled, k);
    }
    forall i | 0 <= i < |values|
      ensures min <= values[i] <= max
    {
      assert values[i] in sampled[..k];
    }
    rest := draws[k..];
    assert |draws| - |rest| == k;
    r := Success(values);
  }

  /** The loop of `generateDistinctRandomValues`: adds drawn values to the set until it holds `count`. */
  method CollectDistinct(count: int, min: int, max: int, draws: seq<Draw>) returns (values: seq<int>, k: nat)
    ensures k <= |draws|
    ensures values == Dedup(Sampled(draws, min, max)[..k])
    ensures |values| <= Times(count)
    ensures |values| < count ==> k == |draws|
    ensures k > 0 ==> |Dedup(Sampled(draws, min, max)[..k - 1])| < count
  {
    ghost var sampled := Sampled(draws, min, max);
    values, k := [], 0;
    while |values| < count
      invariant k <= |draws|
      invariant values == Dedup(sampled[..k])
      invariant |values| <= Times(count)
      invariant k > 0 ==> |Dedup(sampled[..k - 1])| < count
      decreases |draws| - k
    {
      if k == |draws| {
        return;
      }
      ghost var previous := values;
      values := AddSample(values, draws, min, max, k);
      k := k + 1;
      assert previous == Dedup(sampled[..k - 1]);
    }
  }

  /** One iteration of that loop: the next draw's value joins the set unless it is already there. */
  method AddSample(values: seq<int>, draws: seq<Draw>, min: int, max: int, k: nat) returns (values': seq<int>)
    requires k < |draws| && values == Dedup(Sampled(draws, min, max)[..k])
    ensures values' == Dedup(Sampled(draws, min, max)[..k + 1])
    ensures |values'| <= |values| + 1
  {
    var v := RandomBelow(draws[k], max - min + 1) + min;
    DedupStep(Sampled(draws, min, max), k);
    if v !in values {
      values' := values + [v];
    } else {
      values' := values;
    }
  }

  // ---------------------------------------------------------------------------
  // Bit combinations
  // ---------------------------------------------------------------------------

  /** Three bits a coin may carry: each in 1..10, no two equal. */
  predicate ValidBits(bit1: int, bit2: int, bit3: int) {
    && BitMin <= bit1 <= BitMax && BitMin <= bit2 <= BitMax && BitMin <= bit3 <= BitMax
    && bit1 != bit2 && bit1 != bit3 && bit2 != bit3
  }

  /** The key `${bit1}-${bit2}-${bit3}` under which a combination is remembered as used. */
  function BitKey(bit1: int, bit2: int, bit3: int): (key: string)
    ensures |key| > |Decimal.IntToString(bit1)| && key[|Decimal.IntToString(bit1)|] == '-'
  {
    Decimal.IntToString(bit1) + "-" + Decimal.IntToString(bit2) + "-" + Decimal.IntToString(bit3)
  }

  /** A dash-free head is recovered from `head + "-" + tail`. */
  lemma SplitAtDash(head1: string, tail1: string, head2: string, tail2: string)
    requires '-' !in head1 && '-' !in head2
    requires head1 + "-" + tail1 == head2 + "-" + tail2
    ensures head1 == head2 && tail1 == tail2
  {
    var w := head1 + "-" + tail1;
    assert w == head2 + "-" + tail2;
    forall i | 0 <= i < |head1|
      ensures w[i] != '-'
    {
      assert w[i] == head1[i];
    }
    forall i | 0 <= i < |head2|
      ensures w[i] != '-'
    {
      assert w[i] == head2[i];
    }
    assert w[|head1|] == '-' && w[|head2|] == '-';
    assert head1 == w[..|head1|] == head2;
    assert tail1 == w[|head1| + 1..] == tail2;
  }

  /** Keys of non-negative bits name their bits: equal keys mean equal combinations. */
  lemma BitKeyInjective(a1: int, a2: int, a3: int, b1: int, b2: int, b3: int)
    requires a1 >= 0 && a2 >= 0 && a3 >= 0 && b1 >= 0 && b2 >= 0 && b3 >= 0
    requires BitKey(a1, a2, a3) == BitKey(b1, b2, b3)
    ensures a1 == b1 && a2 == b2 && a3 == b3
  {
    var sa1, sa2, sa3 := Decimal.IntToString(a1), Decimal.IntToString(a2), Decimal.IntToString(a3);
    var sb1, sb2, sb3 := Decimal.IntToString(b1), Decimal.IntToString(b2), Decimal.IntToString(b3);
    Decimal.NonNegativeHasNoSign(a1); Decimal.NonNegativeHasNoSign(a2); Decimal.NonNegativeHasNoSign(a3);
    Decimal.NonNegativeHasNoSign(b1); Decimal.NonNegativeHasNoSign(b2); Decimal.NonNegativeHasNoSign(b3);
    assert BitKey(a1, a2, a3) == sa1 + "-" + (sa2 + "-" + sa3);
    assert BitKey(b1, b2, b3) == sb1 + "-" + (sb2 + "-" + sb3);
    SplitAtDash(sa1, sa2 + "-" + sa3, sb1, sb2 + "-" + sb3);
    SplitAtDash(sa2, sa3, sb2, sb3);
    Decimal.IntToStringInjective(a1, b1);
    Decimal.IntToStringInjective(a2, b2);
    Decimal.IntToStringInjective(a3, b3);
  }

  /** The rank of the second bit among the nine values the first bit leaves. */
  function SecondRank(bit1: int, bit2: int): (r: int)
    requires BitMin <= bit1 <= BitMax && BitMin <= bit2 <= BitMax && bit1 != bit2
    ensures 0 <= r < 9
  {
    if bit2 < bit1 then bit2 - 1 else bit2 - 2
  }

  /** The rank of the third bit among the eight values the first two leave. */
  function ThirdRank(bit1: int, bit2: int, bit3: int): (r: int)
    requires ValidBits(bit1, bit2, bit3)
    ensures 0 <= r < 8
  {
    bit3 - 1 - (if bit1 < bit3 then 1 else 0) - (if bit2 < bit3 then 1 else 0)
  }

  /**
    The position of a valid combination in the enumeration of all 720: the
    first bit picks a block of 72, the second one of the 9 remaining values, the
    third one of the 8 left.
   */
  function TripleIndex(bit1: int, bit2: int, bit3: int): (idx: int)
    requires ValidBits(bit1, bit2, bit3)
    ensures 0 <= idx < OrderedTriples
  {
    (bit1 - 1) * 72 + SecondRank(bit1, bit2) * 8 + ThirdRank(bit1, bit2, bit3)
  }

  /** Different valid combinations have different positions. */
  lemma TripleIndexInjective(a1: int, a2: int, a3: int, b1: int, b2: int, b3: int)
    requires ValidBits(a1, a2, a3) && ValidBits(b1, b2, b3)
    requires (a1, a2, a3) != (b1, b2, b3)
    ensures TripleIndex(a1, a2, a3) != TripleIndex(b1, b2, b3)
  {
    var lowA := SecondRank(a1, a2) * 8 + ThirdRank(a1, a2, a3);
    var lowB := SecondRank(b1, b2) * 8 + ThirdRank(b1, b2, b3);
    assert 0 <= lowA < 72 && 0 <= lowB < 72;
    if a1 == b1 && a2 == b2 {
      assert ThirdRank(a1, a2, a3) != ThirdRank(b1, b2, b3);
    } else if a1 == b1 {
      assert SecondRank(a1, a2) != SecondRank(b1, b2);
    }
  }

  /** The coins' bit combinations, as triples. */
  function Triples(coins: seq<Coin>): (ts: seq<(int, int, int)>)
    ensures |ts| == |coins|
  {
    seq(|coins|, i requires 0 <= i < |coins| => (coins[i].bit1, coins[i].bit2, coins[i].bit3))
  }

  /**
    At most 720 coins can carry pairwise different valid combinations, so the
    retry loop of `seedCoins` can only finish when at most 720 coins are asked for.
   */
  lemma TripleSpaceBound(coins: seq<Coin>)
    requires forall i :: 0 <= i < |coins| ==> ValidBits(coins[i].bit1, coins[i].bit2, coins[i].bit3)
    requires Cardinality.Distinct(Triples(coins))
    ensures |coins| <= OrderedTriples
  {
    var idx := seq(|coins|, i requires 0 <= i < |coins| => TripleIndex(coins[i].bit1, coins[i].bit2, coins[i].bit3));
    forall i, j | 0 <= i < j < |idx|
      ensures idx[i] != idx[j]
    {
      assert Triples(coins)[i] != Triples(coins)[j];
      TripleIndexInjective(coins[i].bit1, coins[i].bit2, coins[i].bit3, coins[j].bit1, coins[j].bit2, coins[j].bit3);
    }
    Cardinality.DistinctInIntervalLength(idx, 0, OrderedTriples);
  }

  // ---------------------------------------------------------------------------
  // seedCoins
  // ---------------------------------------------------------------------------

  /**
    The `do { ... } while (usedBitCombinations.has(key))` loop: draws three
    distinct bits from 1..10 until their key has not been used yet.
   */
  method DrawFreshBits(used: set<string>, draws: seq<Draw>) returns (bits: Option<(int, int, int)>, rest: seq<Draw>)
    ensures SuffixOf(rest, draws)
    ensures bits.Some? ==> ValidBits(bits.value.0, bits.value.1, bits.value.2)
    ensures bits.Some? ==> BitKey(bits.value.0, bits.value.1, bits.value.2) !in used
    ensures bits.None? ==> rest == []
  {
    rest := draws;
    while true
      invariant SuffixOf(rest, draws)
      decreases |rest|
    {
      var r, rest' := GenerateDistinctRandomValues(BitsPerCoin, BitMin, BitMax, rest);
      SuffixOfTransitive(rest', rest, draws);
      if r.Failure? {
        return None, rest';
      }
      var vs := r.value;
      assert vs[0] != vs[1] && vs[0] != vs[2] && vs[1] != vs[2];
      if BitKey(vs[0], vs[1], vs[2]) !in used {
        return Some((vs[0], vs[1], vs[2])), rest';
      }
      rest := rest';
    }
  }

  /**
    The `do { ... } while (usedValues.has(value))` loop: draws values in
    10000..99999 until one has not been used yet.
   */
  method DrawFreshValue(used: set<int>, draws: seq<Draw>) returns (value: Option<int>, rest: seq<Draw>)
    ensures SuffixOf(rest, draws)
    ensures value.Some? ==> ValueMin <= value.value < ValueMin + ValueSpan && value.value !in used
    ensures value.None? ==> rest == []
  {
    rest := draws;
    while true
      invariant SuffixOf(rest, draws)
      decreases |rest|
    {
      if rest == [] {
        return None, rest;
      }
      var v := RandomBelow(rest[0], ValueSpan) + ValueMin;
      SuffixOfTransitive(rest[1..], rest, draws);
      rest := rest[1..];
      if v !in used {
        return Some(v), rest;
      }
    }
  }

  /** The columns `seedCoins` draws for one coin. */
  datatype CoinDraw = CoinDraw(clientId: Option<int>, bit1: int, bit2: int, bit3: int, value: int)

  /** What `seedCoins` promises of each coin: valid bits, a five-digit value, no owner or an owner id it drew. */
  predicate SeededCoin(c: Coin, clientCount: nat) {
    && ValidBits(c.bit1, c.bit2, c.bit3)
    && ValueMin <= c.value < ValueMin + ValueSpan
    && (c.clientId.None? || 1 <= c.clientId.value <= IdBound(clientCount))
  }

  function CoinKey(c: Coin): string {
    BitKey(c.bit1, c.bit2, c.bit3)
  }

  /** The owner drawn for a new coin: none with probability 0.2, else a client id from 1..clientCount. */
  method DrawOwner(clientCount: nat, draws: seq<Draw>) returns (ok: bool, clientId: Option<int>, rest: seq<Draw>)
    ensures SuffixOf(rest, draws)
    ensures clientId.Some? ==> 1 <= clientId.value <= IdBound(clientCount)
    ensures !ok ==> rest == []
  {
    if draws == [] {
      return false, None, [];
    }
    if draws[0] <= UnownedShare {
      return true, None, draws[1..];
    }
    if |draws| == 1 {
      return false, None, [];
    }
    clientId := Some(RandomBelow(draws[1], clientCount) + 1);
    ok, rest := true, draws[2..];
  }

  /** The body of the loop of `seedCoins`, up to the insert: the owner, fresh bits, a fresh value. */
  method DrawCoin(clientCount: nat, usedKeys: set<string>, usedValues: set<int>, draws: seq<Draw>)
    returns (drawn: Option<CoinDraw>, rest: seq<Draw>)
    ensures SuffixOf(rest, draws)
    ensures drawn.Some? ==> SeededCoin(Coin(0, drawn.value.clientId, drawn.value.bit1, drawn.value.bit2, drawn.value.bit3, drawn.value.value), clientCount)
    ensures drawn.Some? ==> BitKey(drawn.value.bit1, drawn.value.bit2, drawn.value.bit3) !in usedKeys
    ensures drawn.Some? ==> drawn.value.value !in usedValues
    ensures drawn.None? ==> rest == []
  {
    var ok, clientId, rest0 := DrawOwner(clientCount, draws);
    if !ok {
      return None, rest0;
    }
    var bits, rest1 := DrawFreshBits(usedKeys, rest0);
    SuffixOfTransitive(rest1, rest0, draws);
    if bits.None? {
      return None, rest1;
    }
    var value, rest2 := DrawFreshValue(usedValues, rest1);
    SuffixOfTransitive(rest2, rest1, draws);
    if value.None? {
      return None, rest2;
    }
    var b1, b2, b3 := bits.value.0, bits.value.1, bits.value.2;
    assert SeededCoin(Coin(0, clientId, b1, b2, b3, value.value), clientCount);
    drawn := Some(CoinDraw(clientId, b1, b2, b3, value.value));
    rest := rest2;
  }

  /**
    What `seedCoins` promises of the coins it inserted: each is a seeded coin,
    the keys are handed out in order after `seqBefore`, and no two of them share
    their bits' key or their value.
   */
  predicate NewCoins(added: seq<Coin>, seqBefore: int, clientCount: nat) {
    && (forall j :: 0 <= j < |added| ==> SeededCoin(added[j], clientCount) && added[j].coinId == seqBefore + j + 1)
    && (forall i, j :: 0 <= i < j < |added| ==> CoinKey(added[i]) != CoinKey(added[j]))
    && (forall i, j :: 0 <= i < j < |added| ==> added[i].value != added[j].value)
  }

  /** Distinct keys mean distinct bit combinations, and with valid bits there are at most 720 such coins. */
  lemma NewCoinsFitTripleSpace(added: seq<Coin>, seqBefore: int, clientCount: nat)
    requires NewCoins(added, seqBefore, clientCount)
    ensures Cardinality.Distinct(Triples(added))
    ensures |added| <= OrderedTriples
  {
    forall i, j | 0 <= i < j < |added|
      ensures Triples(added)[i] != Triples(added)[j]
    {
      assert CoinKey(added[i]) != CoinKey(added[j]);
    }
    TripleSpaceBound(added);
  }

  /** One more coin with a fresh key and a fresh value keeps the promises of `NewCoins`. */
  lemma NewCoinsExtend(added: seq<Coin>, c: Coin, seqBefore: int, clientCount: nat, usedKeys: set<string>, usedValues: set<int>)
    requires NewCoins(added, seqBefore, clientCount)
    requires forall j :: 0 <= j < |added| ==> CoinKey(added[j]) in usedKeys && added[j].value in usedValues
    requires SeededCoin(c, clientCount) && c.coinId == seqBefore + |added| + 1
    requires CoinKey(c) !in usedKeys && c.value !in usedValues
    ensures NewCoins(added + [c], seqBefore, clientCount)
  {
    var added' := added + [c];
    forall i, j | 0 <= i < j < |added'|
      ensures CoinKey(added'[i]) != CoinKey(added'[j]) && added'[i].value != added'[j].value
    {
      if j == |added| {
        assert CoinKey(added[i]) in usedKeys && added[i].value in usedValues;
      }
    }
  }

  /**
    `seedCoins(db, count, clientCount)`: inserts `count` coins and returns their
    ids. The coins table only grows; clients and transactions are not touched.
   */
  method SeedCoins(db: Database, count: int, clientCount: nat, draws: seq<Draw>)
    returns (coinIds: Option<seq<int>>, rest: seq<Draw>)
    requires db.Valid()
    modifies db
    ensures db.Valid()
    ensures db.clients == old(db.clients) && db.transactions == old(db.transactions)
    ensures db.clientSeq == old(db.clientSeq) && db.transactionSeq == old(db.transactionSeq)
    ensures |old(db.coins)| <= |db.coins| && db.coins[..|old(db.coins)|] == old(db.coins)
    ensures NewCoins(db.coins[|old(db.coins)|..], old(db.coinSeq), clientCount)
    ensures db.coinSeq == old(db.coinSeq) + (|db.coins| - |old(db.coins)|)
    ensures coinIds.Some? ==> |db.coins| == |old(db.coins)| + Times(count)
    ensures coinIds.Some? ==> |coinIds.value| == Times(count)
    ensures coinIds.Some? ==> forall j :: 0 <= j < |coinIds.value| ==> coinIds.value[j] == old(db.coinSeq) + j + 1
    ensures coinIds.Some? ==> count <= OrderedTriples
    ensures coinIds.None? ==> rest == []
    ensures SuffixOf(rest, draws)
  {
    ghost var before, seqBefore := db.coins, db.coinSeq;
    ghost var added: seq<Coin> := [];
    var ids: seq<int> := [];
    var usedKeys: set<string> := {};
    var usedValues: set<int> := {};
    rest := draws;
    var i := 0;
    while i < count
      invariant db.Valid()
      invariant db.coins == before + added
      invariant db.clients == old(db.clients) && db.transactions == old(db.transactions)
      invariant db.clientSeq == old(db.clientSeq) && db.transactionSeq == old(db.transactionSeq)
      invariant 0 <= i <= Times(count) && |added| == i && db.coinSeq == seqBefore + i
      invariant NewCoins(added, seqBefore, clientCount)
      invariant forall j :: 0 <= j < |added| ==> CoinKey(added[j]) in usedKeys && added[j].value in usedValues
      invariant |ids| == i && forall j :: 0 <= j < i ==> ids[j] == seqBefore + j + 1
      invariant SuffixOf(rest, draws)
    {
      var drawn, rest' := DrawCoin(clientCount, usedKeys, usedValues, rest);
      SuffixOfTransitive(rest', rest, draws);
      if drawn.None? {
        assert db.coins[|before|..] == added;
        return None, rest';
      }
      rest := rest';
      var c := drawn.value;
      var id := db.InsertCoin(c.clientId, c.bit1, c.bit2, c.bit3, c.value);
      NewCoinsExtend(added, Coin(id, c.clientId, c.bit1, c.bit2, c.bit3, c.value), seqBefore, clientCount, usedKeys, usedValues);
      added := added + [Coin(id, c.clientId, c.bit1, c.bit2, c.bit3, c.value)];
      usedKeys := usedKeys + {BitKey(c.bit1, c.bit2, c.bit3)};
      usedValues := usedValues + {c.value};
      ids := ids + [id];
      i := i + 1;
    }
    assert db.coins[|before|..] == added;
    NewCoinsFitTripleSpace(added, seqBefore, clientCount);
    coinIds := Some(ids);
  }

  // ---------------------------------------------------------------------------
  // seedClients
  // ---------------------------------------------------------------------------

  /** The rows inserted for `ps`, numbered from `first` in order. */
  function Numbered(first: int, ps: seq<Profile>): (cs: seq<Client>)
    ensures |cs| == |ps|
    ensures forall j :: 0 <= j < |ps| ==> cs[j] == Client(first + j, ps[j])
  {
    seq(|ps|, j requires 0 <= j < |ps| => Client(first + j, ps[j]))
  }

  /** The UNIQUE constraint on `email` accepts every one of `ps` after `existing`. */
  predicate FreshEmails(existing: seq<Client>, ps: seq<Profile>) {
    && (forall j :: 0 <= j < |ps| ==> ps[j].email !in Emails(existing))
    && (forall i, j :: 0 <= i < j < |ps| ==> ps[i].email != ps[j].email)
  }

  lemma EmailsOfNumbered(existing: seq<Client>, first: int, ps: seq<Profile>, e: string)
    ensures e in Emails(existing + Numbered(first, ps)) <==> e in Emails(existing) || exists j :: 0 <= j < |ps| && ps[j].email == e
  {
    var all := existing + Numbered(first, ps);
    if e in Emails(all) {
      var k :| 0 <= k < |all| && all[k].profile.email == e;
      if k >= |existing| {
        assert ps[k - |existing|].email == e;
      }
    }
    if exists j :: 0 <= j < |ps| && ps[j].email == e {
      var j :| 0 <= j < |ps| && ps[j].email == e;
      assert all[|existing| + j].profile.email == e;
    }
    if e in Emails(existing) {
      var k :| 0 <= k < |existing| && existing[k].profile.email == e;
      assert all[k].profile.email == e;
    }
  }

  /** A profile whose email is already in the table breaks the freshness of every longer batch. */
  lemma DuplicateEmailSpoilsBatch(existing: seq<Client>, first: int, profiles: seq<Profile>, i: nat, n: nat)
    requires i < n <= |profiles|
    requires profiles[i].email in Emails(existing + Numbered(first, profiles[..i]))
    ensures !FreshEmails(existing, profiles[..n])
  {
    EmailsOfNumbered(existing, first, profiles[..i], profiles[i].email);
    assert profiles[..n][i] == profiles[i];
    if profiles[i].email !in Emails(existing) {
      var j :| 0 <= j < i && profiles[..i][j].email == profiles[i].email;
      assert profiles[..n][j] == profiles[..i][j];
    }
  }

  /** A profile whose email is not in the table yet extends a fresh batch. */
  lemma FreshEmailsExtend(existing: seq<Client>, first: int, profiles: seq<Profile>, i: nat)
    requires i < |profiles| && FreshEmails(existing, profiles[..i])
    requires profiles[i].email !in Emails(existing + Numbered(first, profiles[..i]))
    ensures FreshEmails(existing, profiles[..i + 1])
    ensures existing + Numbered(first, profiles[..i + 1]) == existing + Numbered(first, profiles[..i]) + [Client(first + i, profiles[i])]
  {
    EmailsOfNumbered(existing, first, profiles[..i], profiles[i].email);
    assert profiles[..i + 1] == profiles[..i] + [profiles[i]];
  }

  /**
    Profile `i` is the first whose email the table refuses: the ones before it
    were accepted, and its email is already in the table or among them.
   */
  predicate ClashAt(existing: seq<Client>, first: int, profiles: seq<Profile>, i: nat) {
    && i < |profiles|
    && FreshEmails(existing, profiles[..i])
    && profiles[i].email in Emails(existing + Numbered(first, profiles[..i]))
  }

  /** Among the first `n` profiles, the first refused one carries email `e`. */
  predicate EmailClash(existing: seq<Client>, first: int, profiles: seq<Profile>, n: int, e: string) {
    exists i: nat :: i < n && ClashAt(existing, first, profiles, i) && profiles[i].email == e
  }

  /** Fewer than `n` profiles, all of them accepted: the batch ran out before any email was refused. */
  predicate ProfilesRanOut(existing: seq<Client>, profiles: seq<Profile>, n: int) {
    |profiles| < n && FreshEmails(existing, profiles)
  }

  /**
    `seedClients(db, count)`: inserts `count` clients, one per profile, inside
    one transaction. A duplicate email makes the insert throw and the whole
    transaction roll back; `profiles` running out means the run has not ended.
   */
  method SeedClients(db: Database, count: int, profiles: seq<Profile>) returns (r: Result<seq<int>, SeedError>)
    requires db.Valid()
    modifies db
    ensures db.Valid()
    ensures db.coins == old(db.coins) && db.transactions == old(db.transactions)
    ensures db.coinSeq == old(db.coinSeq) && db.transactionSeq == old(db.transactionSeq)
    ensures r.Success? <==> Times(count) <= |profiles| && FreshEmails(old(db.clients), profiles[..Times(count)])
    ensures r.Success? ==> db.clients == old(db.clients) + Numbered(old(db.clientSeq) + 1, profiles[..Times(count)])
    ensures r.Success? ==> db.clientSeq == old(db.clientSeq) + Times(count)
    ensures r.Success? ==> |r.value| == Times(count)
    ensures r.Success? ==> forall j :: 0 <= j < |r.value| ==> r.value[j] == old(db.clientSeq) + j + 1
    ensures r.Failure? ==> db.clients == old(db.clients) && db.clientSeq == old(db.clientSeq)
    ensures r.Failure? ==> r.error == DrawsExhausted || r.error.DuplicateEmail?
    ensures r.Failure? && r.error.DuplicateEmail? ==>
              EmailClash(old(db.clients), old(db.clientSeq) + 1, profiles, Times(count), r.error.email)
    ensures r == Failure(DrawsExhausted) ==> ProfilesRanOut(old(db.clients), profiles, Times(count))
  {
    var saved, savedSeq := db.clients, db.clientSeq;
    var ids: seq<int> := [];
    var i := 0;
    while i < count
      invariant db.Valid()
      invariant 0 <= i <= Times(count) && i <= |profiles|
      invariant db.clients == saved + Numbered(savedSeq + 1, profiles[..i])
      invariant db.clientSeq == savedSeq + i
      invariant FreshEmails(saved, profiles[..i])
      invariant |ids| == i && forall j :: 0 <= j < i ==> ids[j] == savedSeq + j + 1
      invariant db.coins == old(db.coins) && db.transactions == old(db.transactions)
      invariant db.coinSeq == old(db.coinSeq) && db.transactionSeq == old(db.transactionSeq)
    {
      assert db.clients[..|saved|] == saved;
      if i == |profiles| {
        assert profiles[..i] == profiles;
        db.RollbackClients(saved, savedSeq);
        return Failure(DrawsExhausted);
      }
      var p := profiles[i];
      var ok, id := db.InsertClient(p);
      if !ok {
        if Times(count) <= |profiles| {
          DuplicateEmailSpoilsBatch(saved, savedSeq + 1, profiles, i, Times(count));
        }
        assert ClashAt(saved, savedSeq + 1, profiles, i);
        db.RollbackClients(saved, savedSeq);
        return Failure(DuplicateEmail(p.email));
      }
      FreshEmailsExtend(saved, savedSeq + 1, profiles, i);
      assert db.clients == saved + Numbered(savedSeq + 1, profiles[..i + 1]);
      ids := ids + [id];
      i := i + 1;
    }
    r := Success(ids);
  }

  // ---------------------------------------------------------------------------
  // seedTransactions
  // ---------------------------------------------------------------------------

  const MillisPerMinute := 60_000

  /** The buyer in the last of `txs` that sold `coinId`, if any sold it: the reference for `coinOwners`. */
  function LastBuyer(txs: seq<Transaction>, coinId: int): (b: Option<int>)
    ensures b.None? <==> forall k :: 0 <= k < |txs| ==> txs[k].coinId != coinId
    ensures b.Some? ==> exists k :: 0 <= k < |txs| && txs[k].coinId == coinId && txs[k].buyerId == b.value
                                    && forall m :: k < m < |txs| ==> txs[m].coinId != coinId
  {
    if txs == [] then None
    else if txs[|txs| - 1].coinId == coinId then Some(txs[|txs| - 1].buyerId)
    else LastBuyer(txs[..|txs| - 1], coinId)
  }

  lemma LastBuyerStep(txs: seq<Transaction>, t: Transaction, coinId: int)
    ensures LastBuyer(txs + [t], coinId) == if coinId == t.coinId then Some(t.buyerId) else LastBuyer(txs, coinId)
  {
    assert (txs + [t])[..|txs|] == txs;
  }

  /** The time the `k`-th transaction starts from: `start`, or the time of the one before it. */
  function PreviousDate(txs: seq<Transaction>, k: nat, start: int): int
    requires k <= |txs|
  {
    if k == 0 then start else txs[k - 1].date
  }

  /** What `seedTransactions` promises of each sale on its own. */
  predicate SeededSale(t: Transaction, coins: seq<Coin>, coinCount: nat, clientCount: nat) {
    && 1 <= t.coinId <= IdBound(coinCount)
    && 1 <= t.buyerId <= IdBound(clientCount)
    && t.sellerId != Some(t.buyerId)
    && t.amount == CoinValue(coins, t.coinId)
  }

  /** Each inserted row is a seeded sale, keyed in order after `seqBefore`. */
  predicate SalesNumbered(added: seq<Transaction>, seqBefore: int, coins: seq<Coin>, coinCount: nat, clientCount: nat) {
    forall k :: 0 <= k < |added| ==> SeededSale(added[k], coins, coinCount, clientCount) && added[k].id == seqBefore + k + 1
  }

  /** Each seller is the buyer of the latest earlier sale of the same coin in the run, or none on its first sale. */
  predicate SellersChained(added: seq<Transaction>) {
    forall k :: 0 <= k < |added| ==> added[k].sellerId == LastBuyer(added[..k], added[k].coinId)
  }

  /** Each sale is 1 to 2880 minutes after the one before it, the first after `start`. */
  predicate DatesAdvance(added: seq<Transaction>, start: int) {
    forall k :: 0 <= k < |added| ==>
      MillisPerMinute <= added[k].date - PreviousDate(added, k, start) <= MaxMinutesBetweenSales * MillisPerMinute
  }

  /** What `seedTransactions` promises of the transactions it inserted. */
  predicate NewTransactions(added: seq<Transaction>, seqBefore: int, coins: seq<Coin>, coinCount: nat, clientCount: nat, start: int) {
    SalesNumbered(added, seqBefore, coins, coinCount, clientCount) && SellersChained(added) && DatesAdvance(added, start)
  }

  lemma SellersChainedExtend(added: seq<Transaction>, t: Transaction)
    requires SellersChained(added)
    requires t.sellerId == LastBuyer(added, t.coinId)
    ensures SellersChained(added + [t])
  {
    var added' := added + [t];
    forall k | 0 <= k < |added'|
      ensures added'[k].sellerId == LastBuyer(added'[..k], added'[k].coinId)
    {
      if k < |added| {
        assert added'[..k] == added[..k];
      } else {
        assert added'[..k] == added;
      }
    }
  }

  lemma DatesAdvanceExtend(added: seq<Transaction>, t: Transaction, start: int)
    requires DatesAdvance(added, start)
    requires MillisPerMinute <= t.date - PreviousDate(added, |added|, start) <= MaxMinutesBetweenSales * MillisPerMinute
    ensures DatesAdvance(added + [t], start)
  {
    var added' := added + [t];
    forall k | 0 <= k < |added'|
      ensures PreviousDate(added', k, start) == PreviousDate(added, k, start)
    {
    }
  }

  lemma NewTransactionsExtend(added: seq<Transaction>, t: Transaction, seqBefore: int, coins: seq<Coin>, coinCount: nat, clientCount: nat, start: int)
    requires NewTransactions(added, seqBefore, coins, coinCount, clientCount, start)
    requires SeededSale(t, coins, coinCount, clientCount) && t.id == seqBefore + |added| + 1
    requires t.sellerId == LastBuyer(added, t.coinId)
    requires MillisPerMinute <= t.date - PreviousDate(added, |added|, start) <= MaxMinutesBetweenSales * MillisPerMinute
    ensures NewTransactions(added + [t], seqBefore, coins, coinCount, clientCount, start)
  {
    SellersChainedExtend(added, t);
    DatesAdvanceExtend(added, t, start);
  }

  /** Dates only move forward, and by at most two days per sale. */
  lemma {:induction false} DatesIncrease(added: seq<Transaction>, start: int, i: nat, j: nat)
    requires DatesAdvance(added, start)
    requires i < j < |added|
    ensures start < added[i].date < added[j].date
    ensures added[j].date - added[i].date <= (j - i) * MaxMinutesBetweenSales * MillisPerMinute
    decreases j
  {
    var gap := MaxMinutesBetweenSales * MillisPerMinute;
    assert MillisPerMinute <= added[j].date - added[j - 1].date <= gap by {
      assert PreviousDate(added, j, start) == added[j - 1].date;
    }
    if i + 1 < j {
      DatesIncrease(added, start, i, j - 1);
      assert (j - i) * gap == (j - 1 - i) * gap + gap;
    } else if i > 0 {
      DatesIncrease(added, start, i - 1, i);
    } else {
      assert MillisPerMinute <= added[0].date - start by {
        assert PreviousDate(added, 0, start) == start;
      }
    }
  }

  /**
    The chain of ownership: a sale has a seller exactly when the same coin was
    sold earlier in the run, and then the seller is that earlier sale's buyer.
   */
  lemma SellerBoughtEarlier(added: seq<Transaction>, seqBefore: int, coins: seq<Coin>, coinCount: nat, clientCount: nat, start: int, k: nat)
    requires NewTransactions(added, seqBefore, coins, coinCount, clientCount, start)
    requires k < |added|
    ensures added[k].sellerId.None? <==> forall m :: 0 <= m < k ==> added[m].coinId != added[k].coinId
    ensures added[k].sellerId.Some? ==>
              exists m :: 0 <= m < k && added[m].coinId == added[k].coinId && added[m].buyerId == added[k].sellerId.value
    ensures added[k].sellerId.Some? ==> clientCount >= 2
  {
    var c := added[k].coinId;
    assert added[k].sellerId == LastBuyer(added[..k], c);
    if added[k].sellerId.Some? {
      var m :| 0 <= m < k && added[..k][m].coinId == c && added[..k][m].buyerId == added[k].sellerId.value;
      assert added[m].coinId == c;
      assert SeededSale(added[m], coins, coinCount, clientCount) && SeededSale(added[k], coins, coinCount, clientCount);
      assert added[m].buyerId != added[k].buyerId;
    } else {
      forall m | 0 <= m < k
        ensures added[m].coinId != c
      {
        assert added[..k][m] == added[m];
      }
    }
  }

  /**
    The `do { ... } while (buyerId === sellerId)` loop: draws client ids until
    one differs from the seller. With at most one client and that client as the
    seller, no draw ever ends the loop.
   */
  method DrawBuyer(sellerId: Option<int>, clientCount: nat, draws: seq<Draw>) returns (buyer: Option<int>, rest: seq<Draw>)
    ensures SuffixOf(rest, draws)
    ensures buyer.Some? ==> 1 <= buyer.value <= IdBound(clientCount) && sellerId != Some(buyer.value)
    ensures buyer.None? ==> rest == []
    ensures sellerId == Some(1) && clientCount <= 1 ==> buyer.None?
  {
    rest := draws;
    while true
      invariant SuffixOf(rest, draws)
      decreases |rest|
    {
      if rest == [] {
        return None, rest;
      }
      var b := RandomBelow(rest[0], clientCount) + 1;
      SuffixOfTransitive(rest[1..], rest, draws);
      rest := rest[1..];
      if Some(b) != sellerId {
        return Some(b), rest;
      }
    }
  }

  /** The draws of one iteration of `seedTransactions`: the coin, its seller, a buyer, the minutes to add. */
  datatype SaleDraw = SaleDraw(coinId: int, sellerId: Option<int>, buyerId: int, minutes: int)

  /** `coinOwners[coinId] || null`: an owner recorded as 0 would count as none. */
  function SellerOf(owners: map<int, int>, coinId: int): (seller: Option<int>)
    ensures coinId !in owners ==> seller.None?
    ensures seller.Some? ==> seller.value != 0 && coinId in owners && seller.value == owners[coinId]
  {
    if coinId in owners && owners[coinId] != 0 then Some(owners[coinId]) else None
  }

  method DrawSale(owners: map<int, int>, coinCount: nat, clientCount: nat, draws: seq<Draw>)
    returns (sale: Option<SaleDraw>, rest: seq<Draw>)
    ensures SuffixOf(rest, draws)
    ensures sale.Some? ==> 1 <= sale.value.coinId <= IdBound(coinCount)
    ensures sale.Some? ==> sale.value.sellerId == SellerOf(owners, sale.value.coinId)
    ensures sale.Some? ==> 1 <= sale.value.buyerId <= IdBound(clientCount) && sale.value.sellerId != Some(sale.value.buyerId)
    ensures sale.Some? ==> 1 <= sale.value.minutes <= MaxMinutesBetweenSales
    ensures sale.None? ==> rest == []
  {
    if draws == [] {
      return None, [];
    }
    var coinId := RandomBelow(draws[0], coinCount) + 1;
    var sellerId := SellerOf(owners, coinId);
    var buyer, rest1 := DrawBuyer(sellerId, clientCount, draws[1..]);
    SuffixOfTransitive(rest1, draws[1..], draws);
    if buyer.None? || rest1 == [] {
      return None, [];
    }
    var minutes := RandomBelow(rest1[0], MaxMinutesBetweenSales) + 1;
    SuffixOfTransitive(rest1[1..], rest1, draws);
    sale, rest := Some(SaleDraw(coinId, sellerId, buyer.value, minutes)), rest1[1..];
  }

  /** `coinOwners` holds, for each coin sold so far in the run, its latest buyer (a client id, so never 0). */
  ghost predicate OwnersRecorded(coinOwners: map<int, int>, added: seq<Transaction>) {
    && (forall c :: c in coinOwners <==> LastBuyer(added, c).Some?)
    && (forall c :: c in coinOwners ==> coinOwners[c] == LastBuyer(added, c).value && coinOwners[c] >= 1)
  }

  lemma OwnersRecordedStep(coinOwners: map<int, int>, added: seq<Transaction>, t: Transaction)
    requires OwnersRecorded(coinOwners, added) && t.buyerId >= 1
    ensures OwnersRecorded(coinOwners[t.coinId := t.buyerId], added + [t])
  {
    forall c
      ensures LastBuyer(added + [t], c) == if c == t.coinId then Some(t.buyerId) else LastBuyer(added, c)
    {
      LastBuyerStep(added, t, c);
    }
  }

  /** Hence `coinOwners[coinId] || null` is the coin's latest buyer in the run. */
  lemma SellerOfIsLastBuyer(coinOwners: map<int, int>, added: seq<Transaction>, coinId: int)
    requires OwnersRecorded(coinOwners, added)
    ensures SellerOf(coinOwners, coinId) == LastBuyer(added, coinId)
  {
  }

  /**
    The end of one iteration of `seedTransactions`: look up the coin's value,
    advance the clock by the drawn minutes and insert the sale.
   */
  method InsertSale(db: Database, s: SaleDraw, latest: int, coinCount: nat, clientCount: nat, start: int,
                    ghost before: seq<Transaction>, ghost added: seq<Transaction>, ghost seqBefore: int)
    returns (date: int, ghost t: Transaction)
    requires db.Valid() && db.transactionSeq == seqBefore + |added|
    requires db.transactions == before + added
    requires NewTransactions(added, seqBefore, db.coins, coinCount, clientCount, start)
    requires latest == PreviousDate(added, |added|, start)
    requires 1 <= s.coinId <= IdBound(coinCount) && s.sellerId == LastBuyer(added, s.coinId)
    requires 1 <= s.buyerId <= IdBound(clientCount) && s.sellerId != Some(s.buyerId)
    requires 1 <= s.minutes <= MaxMinutesBetweenSales
    modifies db`transactions, db`transactionSeq
    ensures db.Valid() && db.transactionSeq == old(db.transactionSeq) + 1
    ensures db.transactions == old(db.transactions) + [t] && db.transactions == before + (added + [t])
    ensures t.coinId == s.coinId && t.buyerId == s.buyerId && t.date == date
    ensures NewTransactions(added + [t], seqBefore, db.coins, coinCount, clientCount, start)
  {
    var amount := CoinValue(db.coins, s.coinId);
    date := latest + s.minutes * MillisPerMinute;
    var id := db.InsertTransaction(s.coinId, s.sellerId, s.buyerId, amount, date);
    t := Transaction(id, s.coinId, s.sellerId, s.buyerId, amount, date);
    NewTransactionsExtend(added, t, seqBefore, db.coins, coinCount, clientCount, start);
    assert before + added + [t] == before + (added + [t]);
  }

  /**
    `seedTransactions(db, count, coinCount, clientCount)`: inserts `count`
    sales of coins 1..coinCount between clients 1..clientCount, starting at
    `start` (six months before the call) and recording each coin's latest buyer
    as the seller of its next sale.
   */
  method SeedTransactions(db: Database, count: int, coinCount: nat, clientCount: nat, start: int, draws: seq<Draw>)
    returns (complete: bool, rest: seq<Draw>, ghost added: seq<Transaction>)
    requires db.Valid()
    modifies db
    ensures db.Valid()
    ensures db.clients == old(db.clients) && db.coins == old(db.coins)
    ensures db.clientSeq == old(db.clientSeq) && db.coinSeq == old(db.coinSeq)
    ensures db.transactions == old(db.transactions) + added
    ensures db.transactionSeq == old(db.transactionSeq) + |added|
    ensures NewTransactions(added, old(db.transactionSeq), db.coins, coinCount, clientCount, start)
    ensures complete ==> |added| == Times(count)
    ensures !complete ==> rest == []
    ensures SuffixOf(rest, draws)
  {
    ghost var before, seqBefore := db.transactions, db.transactionSeq;
    added := [];
    var coinOwners: map<int, int> := map[];
    var latest := start;
    rest := draws;
    var i := 0;
    while i < count
      invariant db.Valid()
      invariant db.transactions == before + added
      invariant db.clients == old(db.clients) && db.coins == old(db.coins)
      invariant db.clientSeq == old(db.clientSeq) && db.coinSeq == old(db.coinSeq)
      invariant 0 <= i <= Times(count) && |added| == i && db.transactionSeq == seqBefore + i
      invariant NewTransactions(added, seqBefore, db.coins, coinCount, clientCount, start)
      invariant latest == PreviousDate(added, |added|, start)
      invariant OwnersRecorded(coinOwners, added)
      invariant SuffixOf(rest, draws)
    {
      var sale, rest' := DrawSale(coinOwners, coinCount, clientCount, rest);
      SuffixOfTransitive(rest', rest, draws);
      if sale.None? {
        return false, rest', added;
      }
      rest := rest';
      var s := sale.value;
      SellerOfIsLastBuyer(coinOwners, added, s.coinId);
      ghost var t;
      latest, t := InsertSale(db, s, latest, coinCount, clientCount, start, before, added, seqBefore);
      OwnersRecordedStep(coinOwners, added, t);
      added := added + [t];
      coinOwners := coinOwners[s.coinId := s.buyerId];
      i := i + 1;
    }
    complete := true;
  }

  // ---------------------------------------------------------------------------
  // seedDatabase
  // ---------------------------------------------------------------------------

  /** The optional fields of the `options` argument; `None` is a property left undefined. */
  datatype SeedOptions = SeedOptions(
    clientCount: Option<int>, bitSlowCount: Option<int>, transactionCount: Option<int>, clearExisting: Option<bool>)

  /** The object `seedDatabase` returns. */
  datatype SeedSummary = SeedSummary(clients: seq<int>, coins: seq<int>, transactionCount: int)

  function OrDefault<T>(o: Option<T>, default: T): T {
    if o.Some? then o.value else default
  }

  predicate HasClient(clients: seq<Client>, id: int) {
    exists k :: 0 <= k < |clients| && clients[k].id == id
  }

  predicate HasCoin(coins: seq<Coin>, id: int) {
    exists k :: 0 <= k < |coins| && coins[k].coinId == id
  }

  /**
    The FOREIGN KEY clauses of the schema: every coin owner, coin sold, buyer
    and seller names an existing row. (SQLite does not enforce them unless asked.)
   */
  predicate ReferencesHold(clients: seq<Client>, coins: seq<Coin>, txs: seq<Transaction>) {
    && (forall k :: 0 <= k < |coins| && coins[k].clientId.Some? ==> HasClient(clients, coins[k].clientId.value))
    && (forall k :: 0 <= k < |txs| ==> HasCoin(coins, txs[k].coinId) && HasClient(clients, txs[k].buyerId))
    && (forall k :: 0 <= k < |txs| && txs[k].sellerId.Some? ==> HasClient(clients, txs[k].sellerId.value))
  }

  /** With keys 1..n, the coin with key `id` sits at position `id - 1`, and the lookup finds its value. */
  lemma CoinValueOfNumbered(coins: seq<Coin>, id: int)
    requires forall k :: 0 <= k < |coins| ==> coins[k].coinId == k + 1
    requires 1 <= id <= |coins|
    ensures CoinValue(coins, id) == coins[id - 1].value
  {
    assert forall j :: 0 <= j < id - 1 ==> coins[j].coinId != id;
  }

  /**
    After a seed into emptied tables with at least one client and one coin,
    every reference is to an existing row and every sale is for a coin's
    five-digit value.
   */
  lemma CleanSeedReferences(clients: seq<Client>, coins: seq<Coin>, txs: seq<Transaction>, start: int)
    requires forall k :: 0 <= k < |clients| ==> clients[k].id == k + 1
    requires |clients| >= 1 && |coins| >= 1
    requires NewCoins(coins, 0, |clients|)
    requires NewTransactions(txs, 0, coins, |coins|, |clients|, start)
    ensures ReferencesHold(clients, coins, txs)
    ensures forall k :: 0 <= k < |txs| ==> ValueMin <= txs[k].amount < ValueMin + ValueSpan
  {
    forall k | 0 <= k < |coins| && coins[k].clientId.Some?
      ensures HasClient(clients, coins[k].clientId.value)
    {
      assert SeededCoin(coins[k], |clients|);
      assert clients[coins[k].clientId.value - 1].id == coins[k].clientId.value;
    }
    forall k | 0 <= k < |txs|
      ensures HasCoin(coins, txs[k].coinId) && HasClient(clients, txs[k].buyerId)
      ensures ValueMin <= txs[k].amount < ValueMin + ValueSpan
      ensures txs[k].sellerId.Some? ==> HasClient(clients, txs[k].sellerId.value)
    {
      var t := txs[k];
      assert SeededSale(t, coins, |coins|, |clients|);
      assert coins[t.coinId - 1].coinId == t.coinId;
      assert clients[t.buyerId - 1].id == t.buyerId;
      CoinValueOfNumbered(coins, t.coinId);
      assert SeededCoin(coins[t.coinId - 1], |clients|);
      if t.sellerId.Some? {
        SellerBoughtEarlier(txs, 0, coins, |coins|, |clients|, start, k);
        var m :| 0 <= m < k && txs[m].coinId == t.coinId && txs[m].buyerId == t.sellerId.value;
        assert SeededSale(txs[m], coins, |coins|, |clients|);
        assert clients[t.sellerId.value - 1].id == t.sellerId.value;
      }
    }
  }

  /** The tables after a seed into emptied tables: keys from 1, the requested sizes, and the facts above. */
  ghost predicate CleanSeed(clients: seq<Client>, coins: seq<Coin>, txs: seq<Transaction>,
                            clientCount: int, bitSlowCount: int, transactionCount: int, start: int)
  {
    && |clients| == Times(clientCount) && |coins| == Times(bitSlowCount) && |txs| == Times(transactionCount)
    && (forall k :: 0 <= k < |clients| ==> clients[k].id == k + 1)
    && NewCoins(coins, 0, |clients|)
    && NewTransactions(txs, 0, coins, |coins|, |clients|, start)
    && (|clients| >= 1 && |coins| >= 1 ==>
          && ReferencesHold(clients, coins, txs)
          && forall k :: 0 <= k < |txs| ==> ValueMin <= txs[k].amount < ValueMin + ValueSpan)
  }

  lemma CleanSeedFromSteps(clients: seq<Client>, coins: seq<Coin>, txs: seq<Transaction>,
                           clientCount: int, bitSlowCount: int, transactionCount: int, start: int)
    requires |clients| == Times(clientCount) && |coins| == Times(bitSlowCount) && |txs| == Times(transactionCount)
    requires forall k :: 0 <= k < |clients| ==> clients[k].id == k + 1
    requires NewCoins(coins, 0, |clients|)
    requires NewTransactions(txs, 0, coins, |coins|, |clients|, start)
    ensures CleanSeed(clients, coins, txs, clientCount, bitSlowCount, transactionCount, start)
  {
    if |clients| >= 1 && |coins| >= 1 {
      CleanSeedReferences(clients, coins, txs, start);
    }
  }

  /**
    What a successful seed appends to tables that held `clients`, `coins` and
    `txs` with counters `clientSeq`, `coinSeq` and `txSeq`: one client per
    profile, all emails accepted, with the next keys; coins whose owners are
    drawn from client ids 1..n, the first n rows of the table, whatever it held
    before; sales of coins 1..m between those clients, priced from the whole
    coins table; each counter advanced by the rows added; and the summary lists
    the keys just handed out.
   */
  ghost predicate SeededAfter(clients: seq<Client>, coins: seq<Coin>, txs: seq<Transaction>,
                              clientSeq: nat, coinSeq: nat, txSeq: nat,
                              clients': seq<Client>, coins': seq<Coin>, txs': seq<Transaction>,
                              clientSeq': nat, coinSeq': nat, txSeq': nat, summary: SeedSummary,
                              clientCount: int, bitSlowCount: int, transactionCount: int, profiles: seq<Profile>, start: int)
  {
    && Times(clientCount) <= |profiles| && FreshEmails(clients, profiles[..Times(clientCount)])
    && clients' == clients + Numbered(clientSeq + 1, profiles[..Times(clientCount)])
    && |coins| <= |coins'| && |coins'| == |coins| + Times(bitSlowCount)
    && NewCoins(coins'[|coins|..], coinSeq, Times(clientCount))
    && |txs| <= |txs'| && |txs'| == |txs| + Times(transactionCount)
    && NewTransactions(txs'[|txs|..], txSeq, coins', Times(bitSlowCount), Times(clientCount), start)
    && clientSeq' == clientSeq + Times(clientCount)
    && coinSeq' == coinSeq + Times(bitSlowCount)
    && txSeq' == txSeq + Times(transactionCount)
    && |summary.clients| == Times(clientCount) && (forall j :: 0 <= j < |summary.clients| ==> summary.clients[j] == clientSeq + j + 1)
    && |summary.coins| == Times(bitSlowCount) && (forall j :: 0 <= j < |summary.coins| ==> summary.coins[j] == coinSeq + j + 1)
    && summary.transactionCount == transactionCount
  }

  /** A seed into emptied tables with fresh counters is a clean seed, and each counter ends at its table's size. */
  lemma CleanSeedOfSeededAfter(clients': seq<Client>, coins': seq<Coin>, txs': seq<Transaction>,
                               clientSeq': nat, coinSeq': nat, txSeq': nat, summary: SeedSummary,
                               clientCount: int, bitSlowCount: int, transactionCount: int, profiles: seq<Profile>, start: int)
    requires SeededAfter([], [], [], 0, 0, 0, clients', coins', txs', clientSeq', coinSeq', txSeq', summary,
                         clientCount, bitSlowCount, transactionCount, profiles, start)
    ensures CleanSeed(clients', coins', txs', clientCount, bitSlowCount, transactionCount, start)
    ensures clientSeq' == |clients'| && coinSeq' == |coins'| && txSeq' == |txs'|
  {
    assert coins'[0..] == coins' && txs'[0..] == txs';
    assert forall k :: 0 <= k < |clients'| ==> clients'[k].id == k + 1;
    CleanSeedFromSteps(clients', coins', txs', clientCount, bitSlowCount, transactionCount, start);
  }

  /** The steps, each appending to its own table and advancing its counter, together give `SeededAfter`. */
  lemma SeededAfterFromSteps(clients: seq<Client>, coins: seq<Coin>, txs: seq<Transaction>,
                             clientSeq: nat, coinSeq: nat, txSeq: nat,
                             clients': seq<Client>, coins': seq<Coin>, txs': seq<Transaction>,
                             clientSeq': nat, coinSeq': nat, txSeq': nat, summary: SeedSummary,
                             clientCount: int, bitSlowCount: int, transactionCount: int, profiles: seq<Profile>, start: int)
    requires Times(clientCount) <= |profiles| && FreshEmails(clients, profiles[..Times(clientCount)])
    requires clients' == clients + Numbered(clientSeq + 1, profiles[..Times(clientCount)])
    requires clientSeq' == clientSeq + Times(clientCount)
    requires CoinsAndSalesAppended(coins, txs, coinSeq, txSeq, coins', txs', coinSeq', txSeq', summary.coins,
                                   Times(clientCount), bitSlowCount, transactionCount, start)
    requires |summary.clients| == Times(clientCount) && (forall j :: 0 <= j < |summary.clients| ==> summary.clients[j] == clientSeq + j + 1)
    requires summary.transactionCount == transactionCount
    ensures SeededAfter(clients, coins, txs, clientSeq, coinSeq, txSeq, clients', coins', txs', clientSeq', coinSeq', txSeq', summary,
                        clientCount, bitSlowCount, transactionCount, profiles, start)
  {
  }

  /**
    What the coin and sale steps append on success: `bitSlowCount` seeded coins
    owned among client ids 1..n, then `transactionCount` chained sales of coins
    1..m, with the counters advanced and `coinIds` the new coin keys.
   */
  ghost predicate CoinsAndSalesAppended(coins: seq<Coin>, txs: seq<Transaction>, coinSeq: nat, txSeq: nat,
                                        coins': seq<Coin>, txs': seq<Transaction>, coinSeq': nat, txSeq': nat,
                                        coinIds: seq<int>, clientCount: nat, bitSlowCount: int, transactionCount: int, start: int)
  {
    && |coins| <= |coins'| && |coins'| == |coins| + Times(bitSlowCount)
    && NewCoins(coins'[|coins|..], coinSeq, clientCount)
    && coinSeq' == coinSeq + Times(bitSlowCount)
    && |coinIds| == Times(bitSlowCount) && (forall j :: 0 <= j < |coinIds| ==> coinIds[j] == coinSeq + j + 1)
    && |txs| <= |txs'| && |txs'| == |txs| + Times(transactionCount)
    && NewTransactions(txs'[|txs|..], txSeq, coins', Times(bitSlowCount), clientCount, start)
    && txSeq' == txSeq + Times(transactionCount)
  }

  /** Steps two and three of `seedDatabase`: coins owned among client ids 1..clientCount, then sales of those coins. */
  method SeedCoinsAndSales(db: Database, clientCount: nat, bitSlowCount: int, transactionCount: int, draws: seq<Draw>, start: int)
    returns (coinIds: Option<seq<int>>)
    requires db.Valid()
    modifies db
    ensures db.Valid()
    ensures db.clients == old(db.clients) && db.clientSeq == old(db.clientSeq)
    ensures |old(db.coins)| <= |db.coins| && db.coins[..|old(db.coins)|] == old(db.coins)
    ensures |old(db.transactions)| <= |db.transactions| && db.transactions[..|old(db.transactions)|] == old(db.transactions)
    ensures coinIds.Some? ==> CoinsAndSalesAppended(old(db.coins), old(db.transactions), old(db.coinSeq), old(db.transactionSeq),
                                                   db.coins, db.transactions, db.coinSeq, db.transactionSeq, coinIds.value,
                                                   clientCount, bitSlowCount, transactionCount, start)
  {
    ghost var coins0, txs0, coinSeq0, txSeq0 := db.coins, db.transactions, db.coinSeq, db.transactionSeq;
    var coins, rest := SeedCoins(db, bitSlowCount, clientCount, draws);
    if coins.None? {
      return None;
    }
    var complete, rest', added := SeedTransactions(db, transactionCount, |coins.value|, clientCount, start, rest);
    assert db.transactions[..|txs0|] == txs0 && db.transactions[|txs0|..] == added;
    if !complete {
      return None;
    }
    coinIds := coins;
  }

  /**
    The three seeding steps of `seedDatabase`, in order: clients, then coins
    whose owners are client ids 1..n, then transactions among coins 1..m and
    those clients. Every table only grows; a refused email leaves all of them
    as they were.
   */
  method SeedTables(db: Database, clientCount: int, bitSlowCount: int, transactionCount: int,
                    profiles: seq<Profile>, draws: seq<Draw>, start: int)
    returns (r: Result<SeedSummary, SeedError>)
    requires db.Valid()
    modifies db
    ensures db.Valid()
    ensures |old(db.clients)| <= |db.clients| && db.clients[..|old(db.clients)|] == old(db.clients)
    ensures |old(db.coins)| <= |db.coins| && db.coins[..|old(db.coins)|] == old(db.coins)
    ensures |old(db.transactions)| <= |db.transactions| && db.transactions[..|old(db.transactions)|] == old(db.transactions)
    ensures r.Success? ==> SeededAfter(old(db.clients), old(db.coins), old(db.transactions),
                                       old(db.clientSeq), old(db.coinSeq), old(db.transactionSeq),
                                       db.clients, db.coins, db.transactions, db.clientSeq, db.coinSeq, db.transactionSeq, r.value,
                                       clientCount, bitSlowCount, transactionCount, profiles, start)
    ensures r.Failure? ==> r.error == DrawsExhausted || r.error.DuplicateEmail?
    ensures r.Failure? && r.error.DuplicateEmail? ==>
              && EmailClash(old(db.clients), old(db.clientSeq) + 1, profiles, Times(clientCount), r.error.email)
              && db.clients == old(db.clients) && db.coins == old(db.coins) && db.transactions == old(db.transactions)
  {
    ghost var clients0, coins0, txs0 := db.clients, db.coins, db.transactions;
    ghost var clientSeq0, coinSeq0, txSeq0 := db.clientSeq, db.coinSeq, db.transactionSeq;
    var clients := SeedClients(db, clientCount, profiles);
    if clients.Failure? {
      return Failure(clients.error);
    }
    ghost var clientRows, clientSeq1 := db.clients, db.clientSeq;
    assert clientRows[..|clients0|] == clients0;

    var coins := SeedCoinsAndSales(db, |clients.value|, bitSlowCount, transactionCount, draws, start);
    if coins.None? {
      return Failure(DrawsExhausted);
    }
    r := Success(SeedSummary(clients.value, coins.value, transactionCount));
    SeededAfterFromSteps(clients0, coins0, txs0, clientSeq0, coinSeq0, txSeq0,
                         clientRows, db.coins, db.transactions, clientSeq1, db.coinSeq, db.transactionSeq, r.value,
                         clientCount, bitSlowCount, transactionCount, profiles, start);
  }

  /**
    Seeding freshly dropped tables, the `clearExisting` path of `seedDatabase`.
    The DROP runs outside the seeding transactions, so a refused email leaves
    the tables empty.
   */
  method SeedEmptyTables(db: Database, clientCount: int, bitSlowCount: int, transactionCount: int,
                         profiles: seq<Profile>, draws: seq<Draw>, start: int)
    returns (r: Result<SeedSummary, SeedError>)
    requires db.Valid()
    requires db.clients == [] && db.coins == [] && db.transactions == []
    requires db.clientSeq == 0 && db.coinSeq == 0 && db.transactionSeq == 0
    modifies db
    ensures db.Valid()
    ensures r.Success? ==> SeededAfter([], [], [], 0, 0, 0,
                                       db.clients, db.coins, db.transactions, db.clientSeq, db.coinSeq, db.transactionSeq, r.value,
                                       clientCount, bitSlowCount, transactionCount, profiles, start)
    ensures r.Success? ==>
              && CleanSeed(db.clients, db.coins, db.transactions, clientCount, bitSlowCount, transactionCount, start)
              && db.clientSeq == |db.clients| && db.coinSeq == |db.coins| && db.transactionSeq == |db.transactions|
    ensures r.Failure? ==> r.error == DrawsExhausted || r.error.DuplicateEmail?
    ensures r.Failure? && r.error.DuplicateEmail? ==>
              && EmailClash([], 1, profiles, Times(clientCount), r.error.email)
              && db.clients == [] && db.coins == [] && db.transactions == []
  {
    r := SeedTables(db, clientCount, bitSlowCount, transactionCount, profiles, draws, start);
    if r.Success? {
      CleanSeedOfSeededAfter(db.clients, db.coins, db.transactions, db.clientSeq, db.coinSeq, db.transactionSeq, r.value,
                             clientCount, bitSlowCount, transactionCount, profiles, start);
    }
  }

  /**
    `seedDatabase(db, options)`: fills in the defaults (20 clients, 50 coins,
    100 transactions, keep existing data), optionally drops the three tables,
    then seeds them. `sixMonthsAgo` is the clock reading the transaction dates
    start from.
   */
  method SeedDatabase(db: Database, options: SeedOptions, profiles: seq<Profile>, draws: seq<Draw>, sixMonthsAgo: int)
    returns (r: Result<SeedSummary, SeedError>)
    requires db.Valid()
    modifies db
    ensures db.Valid()
    ensures r.Success? ==> |r.value.clients| == Times(OrDefault(options.clientCount, DefaultClientCount))
    ensures r.Success? ==> |r.value.coins| == Times(OrDefault(options.bitSlowCount, DefaultBitSlowCount))
    ensures r.Success? ==> r.value.transactionCount == OrDefault(options.transactionCount, DefaultTransactionCount)
    ensures r.Failure? ==> r.error == DrawsExhausted || r.error.DuplicateEmail?
    ensures !OrDefault(options.clearExisting, false) ==>
              && |old(db.clients)| <= |db.clients| && db.clients[..|old(db.clients)|] == old(db.clients)
              && |old(db.coins)| <= |db.coins| && db.coins[..|old(db.coins)|] == old(db.coins)
              && |old(db.transactions)| <= |db.transactions| && db.transactions[..|old(db.transactions)|] == old(db.transactions)
    ensures r.Success? && !OrDefault(options.clearExisting, false) ==>
              SeededAfter(old(db.clients), old(db.coins), old(db.transactions),
                          old(db.clientSeq), old(db.coinSeq), old(db.transactionSeq),
                          db.clients, db.coins, db.transactions, db.clientSeq, db.coinSeq, db.transactionSeq, r.value,
                          OrDefault(options.clientCount, DefaultClientCount),
                          OrDefault(options.bitSlowCount, DefaultBitSlowCount),
                          OrDefault(options.transactionCount, DefaultTransactionCount), profiles, sixMonthsAgo)
    ensures r.Failure? && r.error.DuplicateEmail? && !OrDefault(options.clearExisting, false) ==>
              EmailClash(old(db.clients), old(db.clientSeq) + 1, profiles,
                         Times(OrDefault(options.clientCount, DefaultClientCount)), r.error.email)
    ensures r.Success? && OrDefault(options.clearExisting, false) ==>
              && CleanSeed(db.clients, db.coins, db.transactions, OrDefault(options.clientCount, DefaultClientCount),
                           OrDefault(options.bitSlowCount, DefaultBitSlowCount),
                           OrDefault(options.transactionCount, DefaultTransactionCount), sixMonthsAgo)
              && db.clientSeq == |db.clients| && db.coinSeq == |db.coins| && db.transactionSeq == |db.transactions|
    ensures r.Success? && OrDefault(options.clearExisting, false) ==>
              SeededAfter([], [], [], 0, 0, 0,
                          db.clients, db.coins, db.transactions, db.clientSeq, db.coinSeq, db.transactionSeq, r.value,
                          OrDefault(options.clientCount, DefaultClientCount),
                          OrDefault(options.bitSlowCount, DefaultBitSlowCount),
                          OrDefault(options.transactionCount, DefaultTransactionCount), profiles, sixMonthsAgo)
    ensures r.Failure? && r.error.DuplicateEmail? && OrDefault(options.clearExisting, false) ==>
              EmailClash([], 1, profiles, Times(OrDefault(options.clientCount, DefaultClientCount)), r.error.email)
    // a refused email rolls back the client insertions and nothing else has run; the DROP is not undone
    ensures r.Failure? && r.error.DuplicateEmail? && !OrDefault(options.clearExisting, false) ==>
              db.clients == old(db.clients) && db.coins == old(db.coins) && db.transactions == old(db.transactions)
    ensures r.Failure? && r.error.DuplicateEmail? && OrDefault(options.clearExisting, false) ==>
              db.clients == [] && db.coins == [] && db.transactions == []
  {
    var clientCount := OrDefault(options.clientCount, DefaultClientCount);
    var bitSlowCount := OrDefault(options.bitSlowCount, DefaultBitSlowCount);
    var transactionCount := OrDefault(options.transactionCount, DefaultTransactionCount);
    var clearExisting := OrDefault(options.clearExisting, false);
    if clearExisting {
      db.DropAll();
      r := SeedEmptyTables(db, clientCount, bitSlowCount, transactionCount, profiles, draws, sixMonthsAgo);
    } else {
      r := SeedTables(db, clientCount, bitSlowCount, transactionCount, profiles, draws, sixMonthsAgo);
    }
  }
}
