/** Nearest-rank order statistics of integer samples, and bounds when some samples are missing. */
module OrderStatistics {
  import opened Ids

  // ---------- sorting ----------

  function Insert(x: int, s: seq<int>): seq<int> {
    if s == [] then [x]
    else if s[0] < x then [s[0]] + Insert(x, s[1..])
    else [x] + s
  }

  function SortInts(s: seq<int>): seq<int> {
    if s == [] then [] else Insert(s[0], SortInts(s[1..]))
  }

  ghost predicate Nondecreasing(s: seq<int>) {
    forall i, j :: 0 <= i < j < |s| ==> s[i] <= s[j]
  }

  /** How many samples are at most `x`. */
  function CountLe(s: seq<int>, x: int): (n: nat)
    ensures n <= |s|
  {
    if s == [] then 0 else (if s[0] <= x then 1 else 0) + CountLe(s[1..], x)
  }

  lemma {:induction false} InsertFacts(x: int, s: seq<int>, y: int)
    requires Nondecreasing(s)
    ensures |Insert(x, s)| == |s| + 1
    ensures Nondecreasing(Insert(x, s))
    ensures CountLe(Insert(x, s), y) == CountLe(s, y) + (if x <= y then 1 else 0)
    ensures forall z :: z in Insert(x, s) ==> z == x || z in s
  {
    if s != [] && s[0] < x {
      var r := Insert(x, s[1..]);
      InsertFacts(x, s[1..], y);
      assert Insert(x, s)[1..] == r;
      forall z | z in r
        ensures s[0] <= z
      {
        assert z == x || z in s[1..];
      }
    } else {
      assert ([x] + s)[1..] == s;
    }
  }

  lemma {:induction false} SortFacts(s: seq<int>, y: int)
    ensures |SortInts(s)| == |s|
    ensures Nondecreasing(SortInts(s))
    ensures CountLe(SortInts(s), y) == CountLe(s, y)
  {
    if s != [] {
      SortFacts(s[1..], y);
      InsertFacts(s[0], SortInts(s[1..]), y);
    }
  }

  /** In a sorted sample, position `k` is at most `x` exactly when more than `k` samples are. */
  lemma {:induction false} SortedRank(s: seq<int>, k: nat, x: int)
    requires Nondecreasing(s) && k < |s|
    ensures s[k] <= x <==> CountLe(s, x) > k
  {
    if k > 0 {
      SortedRank(s[1..], k - 1, x);
    } else if s[0] > x {
      NoneBelow(s, x);
    }
  }

  lemma {:induction false} NoneBelow(s: seq<int>, x: int)
    requires forall i :: 0 <= i < |s| ==> s[i] > x
    ensures CountLe(s, x) == 0
  {
    if s != [] {
      NoneBelow(s[1..], x);
    }
  }

  /** The sample of rank `k + 1`. */
  function Kth(s: seq<int>, k: nat): int
    requires k < |s|
  {
    SortFacts(s, 0);
    SortInts(s)[k]
  }

  lemma KthLe(s: seq<int>, k: nat, x: int)
    requires k < |s|
    ensures Kth(s, k) <= x <==> CountLe(s, x) > k
  {
    SortFacts(s, x);
    SortedRank(SortInts(s), k, x);
  }

  // ---------- counting ----------

  lemma {:induction false} CountConcat(s: seq<int>, t: seq<int>, x: int)
    ensures CountLe(s + t, x) == CountLe(s, x) + CountLe(t, x)
  {
    if s == [] {
      assert s + t == t;
    } else {
      assert (s + t)[1..] == s[1..] + t;
      CountConcat(s[1..], t, x);
    }
  }

  lemma {:induction false} CountPointwise(s: seq<int>, t: seq<int>, x: int)
    requires |s| == |t| && forall i :: 0 <= i < |s| ==> s[i] <= t[i]
    ensures CountLe(t, x) <= CountLe(s, x)
  {
    if s != [] {
      CountPointwise(s[1..], t[1..], x);
    }
  }

  function Repeat(v: int, n: nat): (s: seq<int>)
    ensures |s| == n && forall i :: 0 <= i < n ==> s[i] == v
  {
    seq(n, _ => v)
  }

  lemma {:induction false} CountRepeat(v: int, n: nat, x: int)
    ensures CountLe(Repeat(v, n), x) == if v <= x then n else 0
  {
    if n > 0 {
      assert Repeat(v, n)[1..] == Repeat(v, n - 1);
      CountRepeat(v, n - 1, x);
    }
  }

  /** The samples of a list of keys. */
  function Values<K>(keys: seq<K>, f: K -> int): (s: seq<int>)
    ensures |s| == |keys| && forall i :: 0 <= i < |keys| ==> s[i] == f(keys[i])
  {
    seq(|keys|, i requires 0 <= i < |keys| => f(keys[i]))
  }

  ghost function KeysBelow<K>(keys: set<K>, f: K -> int, x: int): set<K> {
    set k | k in keys && f(k) <= x
  }

  /** Samples of distinct keys are counted by key, in whatever order they are listed. */
  lemma {:induction false} CountByKey<K>(keys: seq<K>, f: K -> int, x: int)
    requires Distinct(keys)
    ensures CountLe(Values(keys, f), x) == |KeysBelow(Elems(keys), f, x)|
  {
    if keys == [] {
      assert KeysBelow(Elems(keys), f, x) == {};
    } else {
      hide Elems, Distinct;
      DistinctHead(keys);
      var rest := Elems(keys[1..]);
      assert Values(keys, f)[1..] == Values(keys[1..], f);
      CountByKey(keys[1..], f, x);
      KeysBelowAdd(rest, keys[0], f, x);
    }
  }

  lemma KeysBelowAdd<K>(s: set<K>, k: K, f: K -> int, x: int)
    requires k !in s
    ensures |KeysBelow({k} + s, f, x)| == |KeysBelow(s, f, x)| + (if f(k) <= x then 1 else 0)
  {
    assert KeysBelow({k} + s, f, x) == KeysBelow(s, f, x) + (if f(k) <= x then {k} else {});
  }

  // ---------- ranks ----------

  /** `ceil(n * permille / 1000)`, one-based. */
  function Rank(n: nat, permille: nat): nat {
    (n * permille + 999) / 1000
  }

  lemma RankInRange(n: nat, permille: nat)
    requires n >= 1 && 1 <= permille <= 1000
    ensures 1 <= Rank(n, permille) <= n
  {
    var m := n * permille;
    assert n <= m <= 1000 * n by { MulBetween(n, permille); }
  }

  /** The rank is the least number of samples that makes up the share. */
  lemma RankExact(n: nat, permille: nat)
    ensures 1000 * Rank(n, permille) >= n * permille
    ensures n * permille > 0 ==> 1000 * (Rank(n, permille) - 1) < n * permille
  {
  }

  lemma MulBetween(n: nat, p: nat)
    requires 1 <= p <= 1000
    ensures n <= n * p <= 1000 * n
  {
    assert n * p == n + n * (p - 1);
    assert 1000 * n == n * p + n * (1000 - p);
  }

  /** `quantile`: the nearest-rank statistic of a nonempty sample. */
  function Quantile(s: seq<int>, permille: nat): int
    requires s != [] && 1 <= permille <= 1000
  {
    RankInRange(|s|, permille);
    Kth(s, Rank(|s|, permille) - 1)
  }

  /** `q` is the least value that at least the given share of the samples does not exceed. */
  ghost predicate IsQuantile(s: seq<int>, permille: nat, q: int) {
    1000 * CountLe(s, q) >= |s| * permille && 1000 * CountLe(s, q - 1) < |s| * permille
  }

  lemma QuantileExact(s: seq<int>, permille: nat)
    requires s != [] && 1 <= permille <= 1000
    ensures IsQuantile(s, permille, Quantile(s, permille))
  {
    hide Kth, Rank;
    var q := Quantile(s, permille);
    RankInRange(|s|, permille);
    RankExact(|s|, permille);
    MulBetween(|s|, permille);
    var k := Rank(|s|, permille) - 1;
    KthLe(s, k, q);
    KthLe(s, k, q - 1);
  }

  lemma QuantileUnique(s: seq<int>, permille: nat, q: int, r: int)
    requires IsQuantile(s, permille, q) && IsQuantile(s, permille, r)
    ensures q == r
  {
    if q < r {
      CountGrows(s, q, r - 1);
    } else if r < q {
      CountGrows(s, r, q - 1);
    }
  }

  lemma {:induction false} CountGrows(s: seq<int>, x: int, y: int)
    requires x <= y
    ensures CountLe(s, x) <= CountLe(s, y)
  {
    if s != [] {
      CountGrows(s[1..], x, y);
    }
  }

  // ---------- censored samples ----------

  ghost predicate NonNegative(s: seq<int>) {
    forall i :: 0 <= i < |s| ==> s[i] >= 0
  }

  /** The statistic of rank `rank` if every missing sample were zero. */
  function LowerBound(obs: seq<int>, missing: nat, rank: nat): int
    requires 1 <= rank <= |obs| + missing
  {
    if rank > missing then Kth(obs, rank - missing - 1) else 0
  }

  /** The statistic if every missing sample were unbounded; none if the rank falls among them. */
  function UpperBound(obs: seq<int>, rank: nat): Option<int>
    requires 1 <= rank
  {
    if rank <= |obs| then Some(Kth(obs, rank - 1)) else None
  }

  lemma UpperSound(obs: seq<int>, miss: seq<int>, rank: nat)
    requires 1 <= rank <= |obs|
    ensures Kth(obs + miss, rank - 1) <= Kth(obs, rank - 1)
  {
    hide Kth;
    var u := Kth(obs, rank - 1);
    KthLe(obs, rank - 1, u);
    CountConcat(obs, miss, u);
    KthLe(obs + miss, rank - 1, u);
  }

  lemma LowerSound(obs: seq<int>, miss: seq<int>, rank: nat)
    requires 1 <= rank <= |obs| + |miss| && NonNegative(obs) && NonNegative(miss)
    ensures LowerBound(obs, |miss|, rank) <= Kth(obs + miss, rank - 1)
  {
    hide Kth;
    var v := Kth(obs + miss, rank - 1);
    KthLe(obs + miss, rank - 1, v);
    CountConcat(obs, miss, v);
    if rank > |miss| {
      KthLe(obs, rank - |miss| - 1, v);
    } else if v < 0 {
      NoneBelow(obs, v);
      NoneBelow(miss, v);
      assert false;
    }
  }

  /** Whatever the missing samples are, the statistic of the full population is within the bounds. */
  lemma BoundsSound(obs: seq<int>, miss: seq<int>, rank: nat)
    requires 1 <= rank <= |obs| + |miss| && NonNegative(obs) && NonNegative(miss)
    ensures LowerBound(obs, |miss|, rank) <= Kth(obs + miss, rank - 1)
    ensures UpperBound(obs, rank).Some? ==> Kth(obs + miss, rank - 1) <= UpperBound(obs, rank).value
  {
    hide Kth;
    LowerSound(obs, miss, rank);
    if rank <= |obs| {
      UpperSound(obs, miss, rank);
    }
  }

  /** The lower bound is reached when every missing sample is zero. */
  lemma LowerTight(obs: seq<int>, missing: nat, rank: nat)
    requires 1 <= rank <= |obs| + missing && NonNegative(obs)
    ensures Kth(obs + Repeat(0, missing), rank - 1) == LowerBound(obs, missing, rank)
  {
    hide Kth;
    var miss := Repeat(0, missing);
    var low := LowerBound(obs, missing, rank);
    LowerSound(obs, miss, rank);
    if rank > missing {
      KthLe(obs, rank - missing - 1, low);
      KthNonNegative(obs, rank - missing - 1);
    }
    CountConcat(obs, miss, low);
    CountRepeat(0, missing, low);
    KthLe(obs + miss, rank - 1, low);
  }

  lemma KthNonNegative(s: seq<int>, k: nat)
    requires k < |s| && NonNegative(s)
    ensures Kth(s, k) >= 0
  {
    hide Kth;
    KthLe(s, k, -1);
    NoneBelow(s, -1);
  }

  /** A finite upper bound is reached when every missing sample equals it. */
  lemma UpperTight(obs: seq<int>, missing: nat, rank: nat)
    requires 1 <= rank <= |obs|
    ensures Kth(obs + Repeat(Kth(obs, rank - 1), missing), rank - 1) == Kth(obs, rank - 1)
  {
    hide Kth;
    var u := Kth(obs, rank - 1);
    var miss := Repeat(u, missing);
    UpperSound(obs, miss, rank);
    KthLe(obs, rank - 1, u - 1);
    CountConcat(obs, miss, u - 1);
    CountRepeat(u, missing, u - 1);
    KthLe(obs + miss, rank - 1, u - 1);
  }

  /** Without a finite bound, large enough missing samples push the statistic past any value. */
  lemma UnboundedTight(obs: seq<int>, missing: nat, rank: nat, v: int)
    requires |obs| < rank <= |obs| + missing
    ensures Kth(obs + Repeat(v, missing), rank - 1) >= v
  {
    hide Kth;
    var miss := Repeat(v, missing);
    CountConcat(obs, miss, v - 1);
    CountRepeat(v, missing, v - 1);
    KthLe(obs + miss, rank - 1, v - 1);
  }

  /** Pointwise larger samples have larger statistics. */
  lemma KthPointwise(s: seq<int>, t: seq<int>, k: nat)
    requires |s| == |t| && k < |s| && forall i :: 0 <= i < |s| ==> s[i] <= t[i]
    ensures Kth(s, k) <= Kth(t, k)
  {
    hide Kth;
    var u := Kth(t, k);
    KthLe(t, k, u);
    CountPointwise(s, t, u);
    KthLe(s, k, u);
  }

  /** Two listings of the same keys have the same statistics. */
  lemma KthByKey<K>(p: seq<K>, q: seq<K>, f: K -> int, k: nat)
    requires Distinct(p) && Distinct(q) && Elems(p) == Elems(q) && k < |p|
    ensures |p| == |q|
    ensures Kth(Values(p, f), k) == Kth(Values(q, f), k)
  {
    hide Kth, Elems, Distinct, Values, KeysBelow;
    DistinctCard(p);
    DistinctCard(q);
    var s, t := Values(p, f), Values(q, f);
    forall x
      ensures CountLe(s, x) == CountLe(t, x)
    {
      CountByKey(p, f, x);
      CountByKey(q, f, x);
    }
    KthLe(s, k, Kth(t, k));
    KthLe(t, k, Kth(t, k));
    KthLe(t, k, Kth(s, k));
    KthLe(s, k, Kth(s, k));
  }
}
