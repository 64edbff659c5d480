/**
 * Choosing the authoritative listing of a token among the trading pairs the
 * price feed returns: the batch lookup keeps, per lower-cased base-token
 * address, the first pair of greatest liquidity; the single lookup sorts all
 * pairs by liquidity, descending and stably, and takes the first.
 */
module PairSelection {
  import opened MarketTypes

  /** Lower-cases an ASCII letter and leaves every other character alone. */
  function LowerChar(c: char): char {
    if 'A' <= c <= 'Z' then (c as int + 32) as char else c
  }

  /** `String.prototype.toLowerCase`, restricted to ASCII letters. */
  function ToLower(s: string): (r: string)
    ensures |r| == |s|
    ensures forall i :: 0 <= i < |s| ==> r[i] == LowerChar(s[i])
  {
    if s == [] then [] else [LowerChar(s[0])] + ToLower(s[1..])
  }

  /** The grouping key of a pair: its base token's address, lower-cased. */
  function Key(p: Pair): string {
    ToLower(p.baseToken.address)
  }

  /** Liquidity as the selection compares it: `liquidity?.usd || 0`. */
  function RankLiquidity(p: Pair): real {
    OrZero(p.liquidity)
  }

  /** A missing or zero liquidity ranks as 0; any other reported value ranks as itself. */
  lemma RankLiquidityDefaultsToZero(p: Pair)
    ensures RankLiquidity(p) == 0.0 <==> p.liquidity.None? || p.liquidity == Some(0.0)
    ensures p.liquidity.Some? ==> RankLiquidity(p) == p.liquidity.value
  {
  }

  ghost predicate NoDuplicates<T>(s: seq<T>) {
    forall i, j :: 0 <= i < j < |s| ==> s[i] != s[j]
  }

  /** Some pair among the first `n` has grouping key `key`. */
  ghost predicate Appears(ps: seq<Pair>, n: nat, key: string)
    requires n <= |ps|
  {
    exists j :: 0 <= j < n && Key(ps[j]) == key
  }

  /** The distinct keys of the first `n` pairs, in order of first appearance. */
  function KeysUpTo(ps: seq<Pair>, n: nat): seq<string>
    requires n <= |ps|
  {
    if n == 0 then []
    else
      var prev := KeysUpTo(ps, n - 1);
      if Key(ps[n - 1]) in prev then prev else prev + [Key(ps[n - 1])]
  }

  /** The distinct keys of all pairs, in order of first appearance. */
  function DistinctKeys(ps: seq<Pair>): seq<string> {
    KeysUpTo(ps, |ps|)
  }

  /**
   * Pair `i` is the listing the batch lookup keeps for `key` among the first
   * `n` pairs: it has that key, no pair with that key has more liquidity, and
   * every earlier pair with that key has strictly less (ties go to the first).
   */
  ghost predicate IsBestListing(ps: seq<Pair>, n: nat, key: string, i: int)
    requires n <= |ps|
  {
    && 0 <= i < n
    && Key(ps[i]) == key
    && (forall j :: 0 <= j < n && Key(ps[j]) == key ==> RankLiquidity(ps[j]) <= RankLiquidity(ps[i]))
    && (forall j :: 0 <= j < i && Key(ps[j]) == key ==> RankLiquidity(ps[j]) < RankLiquidity(ps[i]))
  }

  /** Pair `i` is the first pair of greatest liquidity, regardless of key. */
  ghost predicate IsFirstMaximal(ps: seq<Pair>, i: int) {
    && 0 <= i < |ps|
    && (forall j :: 0 <= j < |ps| ==> RankLiquidity(ps[j]) <= RankLiquidity(ps[i]))
    && (forall j :: 0 <= j < i ==> RankLiquidity(ps[j]) < RankLiquidity(ps[i]))
  }

  // ---------------------------------------------------------------------
  // Distinct keys
  // ---------------------------------------------------------------------

  /** A key is listed exactly when some pair has it, and it is listed once. */
  lemma {:induction false} KeysUpToSpec(ps: seq<Pair>, n: nat)
    requires n <= |ps|
    ensures forall key :: key in KeysUpTo(ps, n) <==> Appears(ps, n, key)
    ensures NoDuplicates(KeysUpTo(ps, n))
  {
    if n > 0 {
      KeysUpToSpec(ps, n - 1);
      forall key
        ensures key in KeysUpTo(ps, n) <==> Appears(ps, n, key)
      {
        if Appears(ps, n, key) && key != Key(ps[n - 1]) {
          var j :| 0 <= j < n && Key(ps[j]) == key;
          assert Appears(ps, n - 1, key);
        }
        if Appears(ps, n - 1, key) {
          var j :| 0 <= j < n - 1 && Key(ps[j]) == key;
          assert 0 <= j < n && Key(ps[j]) == key;
        }
      }
    }
  }

  /**
   * Keys enter the result in order of first appearance: the keys of the first
   * `n` pairs are a prefix of the keys of all pairs.
   */
  lemma {:induction false} DistinctKeysPrefix(ps: seq<Pair>, n: nat)
    requires n <= |ps|
    ensures KeysUpTo(ps, n) <= DistinctKeys(ps)
    decreases |ps| - n
  {
    if n < |ps| {
      DistinctKeysPrefix(ps, n + 1);
    }
  }

  /** Keys are lower-cased, so addresses differing only in ASCII case share a group. */
  lemma {:induction false} ToLowerIdempotent(s: string)
    ensures ToLower(ToLower(s)) == ToLower(s)
  {
    if s != [] {
      ToLowerIdempotent(s[1..]);
    }
  }

  /**
   * A grouping key is already in lower case and as long as the address, so
   * the two spellings of one address land on the same key.
   */
  lemma KeyIsCanonical(p: Pair)
    ensures |Key(p)| == |p.baseToken.address|
    ensures ToLower(Key(p)) == Key(p)
  {
    ToLowerIdempotent(p.baseToken.address);
  }

  // ---------------------------------------------------------------------
  // The best listing of a key
  // ---------------------------------------------------------------------

  /** At most one pair is the best listing of a key. */
  lemma BestListingUnique(ps: seq<Pair>, n: nat, key: string, i: int, j: int)
    requires n <= |ps|
    requires IsBestListing(ps, n, key, i) && IsBestListing(ps, n, key, j)
    ensures i == j
  {
  }

  /**
   * Missing or zero liquidity ranks as 0, so such a pair is never kept when
   * its group also holds a pair with positive liquidity.
   */
  lemma MissingLiquidityNeverWins(ps: seq<Pair>, key: string, i: int, j: int)
    requires IsBestListing(ps, |ps|, key, i)
    requires 0 <= j < |ps| && Key(ps[j]) == key && RankLiquidity(ps[j]) > 0.0
    ensures ps[i].liquidity.Some? && ps[i].liquidity.value > 0.0
  {
  }

  /**
   * When a token's top liquidity is held by one pair value only, the kept
   * listing does not depend on the order of the input: any permutation of
   * the pairs keeps the same pair for that key.
   */
  lemma UniqueMaximumIgnoresOrder(ps: seq<Pair>, qs: seq<Pair>, key: string, i: int, j: int)
    requires multiset(ps) == multiset(qs)
    requires IsBestListing(ps, |ps|, key, i) && IsBestListing(qs, |qs|, key, j)
    requires forall k :: 0 <= k < |ps| && Key(ps[k]) == key && RankLiquidity(ps[k]) >= RankLiquidity(ps[i]) ==> ps[k] == ps[i]
    ensures qs[j] == ps[i]
  {
    assert ps[i] in multiset(qs);
    var m :| 0 <= m < |qs| && qs[m] == ps[i];
    assert RankLiquidity(qs[m]) <= RankLiquidity(qs[j]);
    assert qs[j] in multiset(ps);
    var k :| 0 <= k < |ps| && ps[k] == qs[j];
    assert ps[k] == ps[i];
  }

  /**
   * Two listings of one token: the second is kept only when strictly more
   * liquid, so with equal liquidity the answer depends on input order.
   */
  lemma TwoListingsOfOneToken(a: Pair, b: Pair)
    requires Key(a) == Key(b)
    ensures DistinctKeys([a, b]) == [Key(a)]
    ensures IsBestListing([a, b], 2, Key(a), if RankLiquidity(b) > RankLiquidity(a) then 1 else 0)
  {
    assert KeysUpTo([a, b], 1) == [Key(a)];
  }

  /**
   * Listings under "0xAA" (liquidity 5) and "0xaa" (liquidity 50) form one
   * group, keyed "0xaa", whose best listing is the second.
   */
  lemma MixedCaseListingsShareGroup(a: Pair, b: Pair)
    requires a.baseToken.address == "0xAA" && a.liquidity == Some(5.0)
    requires b.baseToken.address == "0xaa" && b.liquidity == Some(50.0)
    ensures DistinctKeys([a, b]) == ["0xaa"]
    ensures IsBestListing([a, b], 2, "0xaa", 1)
  {
    assert Key(a) == "0xaa";
    assert Key(b) == "0xaa";
    TwoListingsOfOneToken(a, b);
  }

  // ---------------------------------------------------------------------
  // The JavaScript Map that the batch lookup fills
  // ---------------------------------------------------------------------

  /**
   * A `Map` as JavaScript has it: setting a new key appends it to the
   * iteration order, setting an existing key keeps its place.
   */
  class OrderedMap<K(==, !new), V> {
    var keys: seq<K>
    var entries: map<K, V>

    ghost predicate Valid()
      reads this
    {
      && (forall k :: k in entries <==> k in keys)
      && NoDuplicates(keys)
    }

    constructor ()
      ensures Valid() && keys == [] && entries == map[]
    {
      keys := [];
      entries := map[];
    }

    /** `map.get(k)`: the stored value, or nothing when `k` was never set. */
    method Get(k: K) returns (r: Option<V>)
      ensures k in entries ==> r == Some(entries[k])
      ensures k !in entries ==> r == None
    {
      if k in entries {
        r := Some(entries[k]);
      } else {
        r := None;
      }
    }

    /** `map.set(k, v)`. */
    method Set(k: K, v: V)
      requires Valid()
      modifies this
      ensures Valid()
      ensures entries == old(entries)[k := v]
      ensures keys == if k in old(entries) then old(keys) else old(keys) + [k]
    {
      if k !in entries {
        keys := keys + [k];
      }
      entries := entries[k := v];
    }

    /** `Array.from(map.values())`: the values in insertion order of their keys. */
    method Values() returns (vs: seq<V>)
      requires Valid()
      ensures |vs| == |keys|
      ensures forall i :: 0 <= i < |keys| ==> vs[i] == entries[keys[i]]
    {
      var ks, es := keys, entries;
      assert forall i :: 0 <= i < |ks| ==> ks[i] in es;
      vs := seq(|ks|, i requires 0 <= i < |ks| => es[ks[i]]);
    }
  }

  // ---------------------------------------------------------------------
  // Batch lookup
  // ---------------------------------------------------------------------

  /**
   * `entries` maps each key seen among the first `n` pairs to that key's
   * best listing so far, whose index `at` records.
   */
  ghost predicate Tracks(ps: seq<Pair>, n: nat, entries: map<string, Pair>, at: map<string, nat>)
    requires n <= |ps|
  {
    && entries.Keys == at.Keys
    && forall a :: a in at ==> IsBestListing(ps, n, a, at[a]) && entries[a] == ps[at[a]]
  }

  /** One iteration of the batch loop keeps `Tracks`. */
  lemma TracksStep(ps: seq<Pair>, n: nat, entries: map<string, Pair>, at: map<string, nat>)
    requires n < |ps|
    requires Tracks(ps, n, entries, at)
    requires forall a :: a in entries <==> Appears(ps, n, a)
    ensures var p := ps[n];
      var a := Key(p);
      if a !in entries || RankLiquidity(p) > RankLiquidity(entries[a])
      then Tracks(ps, n + 1, entries[a := p], at[a := n])
      else Tracks(ps, n + 1, entries, at)
  {
    var p := ps[n];
    var a := Key(p);
    if a !in entries || RankLiquidity(p) > RankLiquidity(entries[a]) {
      var entries', at' := entries[a := p], at[a := n];
      forall b | b in at'
        ensures IsBestListing(ps, n + 1, b, at'[b]) && entries'[b] == ps[at'[b]]
      {
        if b == a {
          if a !in entries {
            forall j | 0 <= j < n && Key(ps[j]) == a
              ensures false
            {
              assert Appears(ps, n, a);
            }
          } else {
            assert IsBestListing(ps, n, a, at[a]);
          }
        } else {
          assert IsBestListing(ps, n, b, at[b]);
        }
      }
    } else {
      forall b | b in at
        ensures IsBestListing(ps, n + 1, b, at[b]) && entries[b] == ps[at[b]]
      {
        assert IsBestListing(ps, n, b, at[b]);
      }
    }
  }

  /**
   * Once every pair is seen, the map's values, read in key order, are the
   * best listings of the distinct keys in order of first appearance.
   */
  lemma TrackedValuesAreBest(ps: seq<Pair>, keys: seq<string>, entries: map<string, Pair>, at: map<string, nat>, vs: seq<Pair>)
    requires Tracks(ps, |ps|, entries, at)
    requires keys == DistinctKeys(ps)
    requires forall a :: a in entries <==> a in keys
    requires |vs| == |keys| && forall k :: 0 <= k < |keys| ==> vs[k] == entries[keys[k]]
    ensures forall k :: 0 <= k < |vs| ==> Key(vs[k]) == keys[k]
    ensures forall k :: 0 <= k < |vs| ==>
      exists i :: IsBestListing(ps, |ps|, Key(vs[k]), i) && vs[k] == ps[i]
  {
    forall k | 0 <= k < |vs|
      ensures Key(vs[k]) == keys[k]
      ensures IsBestListing(ps, |ps|, keys[k], at[keys[k]]) && vs[k] == ps[at[keys[k]]]
    {
      var a := keys[k];
      assert a in at;
      assert IsBestListing(ps, |ps|, a, at[a]);
    }
  }

  /**
   * The pair selection of the batch lookup. `response` is the feed's `pairs`
   * field, absent when the feed sent none. The result holds one pair per
   * distinct lower-cased address, in order of first appearance, and that pair
   * is the first of greatest liquidity in its group.
   */
  method SelectBestPairs(response: Option<seq<Pair>>) returns (best: seq<Pair>)
    ensures response.None? ==> best == []
    ensures response.Some? ==> |best| == |DistinctKeys(response.value)|
    ensures response.Some? ==>
      forall k :: 0 <= k < |best| ==> Key(best[k]) == DistinctKeys(response.value)[k]
    ensures response.Some? ==>
      forall k :: 0 <= k < |best| ==>
        exists i :: IsBestListing(response.value, |response.value|, Key(best[k]), i) && best[k] == response.value[i]
  {
    if response.None? {
      return [];
    }
    var pairs := response.value;
    var bestPairs := new OrderedMap<string, Pair>();
    ghost var at: map<string, nat> := map[];
    var i := 0;
    while i < |pairs|
      invariant 0 <= i <= |pairs|
      invariant bestPairs.Valid()
      invariant bestPairs.keys == KeysUpTo(pairs, i)
      invariant Tracks(pairs, i, bestPairs.entries, at)
    {
      var pair := pairs[i];
      var addr := Key(pair);
      KeysUpToSpec(pairs, i);
      TracksStep(pairs, i, bestPairs.entries, at);
      var currentBest := bestPairs.Get(addr);
      if currentBest.None? || RankLiquidity(pair) > RankLiquidity(currentBest.value) {
        bestPairs.Set(addr, pair);
        at := at[addr := i];
      }
      i := i + 1;
    }
    best := bestPairs.Values();
    TrackedValuesAreBest(pairs, bestPairs.keys, bestPairs.entries, at, best);
  }

  // ---------------------------------------------------------------------
  // Single lookup
  // ---------------------------------------------------------------------

  ghost predicate DescendingByLiquidity(s: seq<Pair>) {
    forall i, j :: 0 <= i < j < |s| ==> RankLiquidity(s[i]) >= RankLiquidity(s[j])
  }

  /** Inserts `p` after every element at least as liquid as it. */
  function InsertByLiquidity(sorted: seq<Pair>, p: Pair): (r: seq<Pair>)
    ensures |r| == |sorted| + 1
    ensures r[0] == if sorted != [] && RankLiquidity(sorted[0]) >= RankLiquidity(p) then sorted[0] else p
  {
    if sorted == [] then [p]
    else if RankLiquidity(sorted[0]) >= RankLiquidity(p) then [sorted[0]] + InsertByLiquidity(sorted[1..], p)
    else [p] + sorted
  }

  /** Insertion adds `p` and loses nothing. */
  lemma {:induction false} InsertPermutes(sorted: seq<Pair>, p: Pair)
    ensures multiset(InsertByLiquidity(sorted, p)) == multiset(sorted) + multiset{p}
  {
    if sorted != [] {
      assert sorted == [sorted[0]] + sorted[1..];
      if RankLiquidity(sorted[0]) >= RankLiquidity(p) {
        InsertPermutes(sorted[1..], p);
      }
    }
  }

  /** Insertion never brings in a pair more liquid than a common bound. */
  lemma {:induction false} InsertStaysBelow(sorted: seq<Pair>, p: Pair, bound: real)
    requires forall k :: 0 <= k < |sorted| ==> RankLiquidity(sorted[k]) <= bound
    requires RankLiquidity(p) <= bound
    ensures forall k :: 0 <= k < |sorted| + 1 ==> RankLiquidity(InsertByLiquidity(sorted, p)[k]) <= bound
  {
    if sorted != [] && RankLiquidity(sorted[0]) >= RankLiquidity(p) {
      InsertStaysBelow(sorted[1..], p, bound);
    }
  }

  /** Insertion into a descending sequence gives a descending sequence. */
  lemma {:induction false} InsertKeepsDescending(sorted: seq<Pair>, p: Pair)
    requires DescendingByLiquidity(sorted)
    ensures DescendingByLiquidity(InsertByLiquidity(sorted, p))
  {
    if sorted != [] && RankLiquidity(sorted[0]) >= RankLiquidity(p) {
      var rest := sorted[1..];
      var r' := InsertByLiquidity(rest, p);
      var r := InsertByLiquidity(sorted, p);
      InsertKeepsDescending(rest, p);
      InsertStaysBelow(rest, p, RankLiquidity(sorted[0]));
      assert r == [sorted[0]] + r';
      forall i, j | 0 <= i < j < |r|
        ensures RankLiquidity(r[i]) >= RankLiquidity(r[j])
      {
        assert r[j] == r'[j - 1];
        if i > 0 {
          assert r[i] == r'[i - 1];
        }
      }
    }
  }

  /**
   * `pairs.sort((a, b) => rank(b) - rank(a))`: JavaScript's sort is stable,
   * so this is an insertion sort that puts each pair behind all earlier pairs
   * at least as liquid as it.
   */
  function SortByLiquidityDesc(ps: seq<Pair>): (r: seq<Pair>)
    ensures |r| == |ps|
    decreases |ps|
  {
    if ps == [] then []
    else InsertByLiquidity(SortByLiquidityDesc(ps[..|ps| - 1]), ps[|ps| - 1])
  }

  /** The sort returns a descending permutation of its input. */
  lemma {:induction false} SortIsDescendingPermutation(ps: seq<Pair>)
    ensures multiset(SortByLiquidityDesc(ps)) == multiset(ps)
    ensures DescendingByLiquidity(SortByLiquidityDesc(ps))
    decreases |ps|
  {
    if ps != [] {
      var init, last := ps[..|ps| - 1], ps[|ps| - 1];
      SortIsDescendingPermutation(init);
      InsertPermutes(SortByLiquidityDesc(init), last);
      InsertKeepsDescending(SortByLiquidityDesc(init), last);
      assert ps == init + [last];
    }
  }

  /** Because the sort is stable, its first element is the first most liquid pair. */
  lemma {:induction false} SortedHeadIsFirstMaximal(ps: seq<Pair>)
    requires ps != []
    ensures exists i :: IsFirstMaximal(ps, i) && SortByLiquidityDesc(ps)[0] == ps[i]
  {
    var n := |ps|;
    var init := ps[..n - 1];
    var last := ps[n - 1];
    var sortedInit := SortByLiquidityDesc(init);
    assert SortByLiquidityDesc(ps) == InsertByLiquidity(sortedInit, last);
    if init == [] {
      assert IsFirstMaximal(ps, 0);
    } else {
      SortedHeadIsFirstMaximal(init);
      var i :| IsFirstMaximal(init, i) && sortedInit[0] == init[i];
      assert forall j :: 0 <= j < n - 1 ==> ps[j] == init[j];
      if RankLiquidity(init[i]) >= RankLiquidity(last) {
        assert SortByLiquidityDesc(ps)[0] == ps[i];
        assert IsFirstMaximal(ps, i);
      } else {
        assert SortByLiquidityDesc(ps)[0] == ps[n - 1];
        assert IsFirstMaximal(ps, n - 1);
      }
    }
  }

  /**
   * The pair selection of the single lookup: no pairs, or an absent `pairs`
   * field, is an error; otherwise the result is the first most liquid pair.
   */
  function SelectOne(response: Option<seq<Pair>>): (r: Result<Pair, SelectError>)
    ensures r.Err? <==> response.None? || response.value == []
    ensures r.Ok? ==> exists i :: IsFirstMaximal(response.value, i) && r.value == response.value[i]
  {
    if response.None? || |response.value| == 0 then Err(NoPairsFound)
    else
      SortedHeadIsFirstMaximal(response.value);
      Ok(SortByLiquidityDesc(response.value)[0])
  }
}
