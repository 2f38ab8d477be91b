/** `ORDER BY key DESC LIMIT n`, as the queries of the database storage use it.
    SQL leaves the order of equal keys unspecified; the stable insertion sort below is one
    admissible order, and the contracts only state what every admissible order has. */
module Ordering {
  import opened Common

  /** Non-increasing in `key`. */
  ghost predicate SortedDesc<T>(s: seq<T>, key: T -> real) {
    forall i, j :: 0 <= i < j < |s| ==> key(s[i]) >= key(s[j])
  }

  /** Inserts `x` into a sorted sequence, before the first element whose key does not exceed its own. */
  function InsertDesc<T>(x: T, s: seq<T>, key: T -> real): (r: seq<T>)
    requires SortedDesc(s, key)
    ensures SortedDesc(r, key)
    ensures multiset(r) == multiset(s) + multiset{x}
    decreases |s|
  {
    if s == [] || key(x) >= key(s[0]) then [x] + s
    else
      var rest := InsertDesc(x, s[1..], key);
      HeadBoundsInsertion(s, x, rest, key);
      assert s == [s[0]] + s[1..];
      [s[0]] + rest
  }

  /** Inserting a row that ranks below the head into the tail leaves every row ranked no higher than the head. */
  lemma HeadBoundsInsertion<T>(s: seq<T>, x: T, rest: seq<T>, key: T -> real)
    requires s != [] && SortedDesc(s, key) && key(x) < key(s[0])
    requires multiset(rest) == multiset(s[1..]) + multiset{x}
    ensures forall j :: 0 <= j < |rest| ==> key(s[0]) >= key(rest[j])
  {
    forall j | 0 <= j < |rest| ensures key(s[0]) >= key(rest[j]) {
      assert rest[j] in multiset(rest);
      if rest[j] != x {
        assert rest[j] in multiset(s[1..]);
        var k :| 0 <= k < |s[1..]| && s[1..][k] == rest[j];
        assert s[k + 1] == rest[j];
      }
    }
  }

  /** Sorts by descending key: a sorted permutation of `s`. */
  function SortDesc<T>(s: seq<T>, key: T -> real): (r: seq<T>)
    ensures SortedDesc(r, key)
    ensures multiset(r) == multiset(s)
    ensures |r| == |s|
    decreases |s|
  {
    if s == [] then []
    else
      assert s == [s[0]] + s[1..];
      InsertDesc(s[0], SortDesc(s[1..], key), key)
  }

  /** The first `n` rows of `s` ordered by descending key: `ORDER BY key DESC LIMIT n`. */
  function TopN<T>(s: seq<T>, key: T -> real, n: nat): (r: seq<T>)
    ensures |r| == Min(n, |s|)
    ensures SortedDesc(r, key)
    ensures multiset(r) <= multiset(s)
    ensures n >= |s| ==> multiset(r) == multiset(s)
    ensures forall x, y :: x in multiset(s) - multiset(r) && y in r ==> key(x) <= key(y)
  {
    var t := SortDesc(s, key);
    var k := Min(n, |s|);
    TakeSplits(t, key, k);
    t[..k]
  }

  /** Cutting a sorted sequence at `k`: the rows left out rank no higher than the rows kept. */
  lemma TakeSplits<T>(t: seq<T>, key: T -> real, k: nat)
    requires k <= |t|
    requires SortedDesc(t, key)
    ensures multiset(t[..k]) <= multiset(t)
    ensures k == |t| ==> multiset(t[..k]) == multiset(t)
    ensures forall x, y :: x in multiset(t) - multiset(t[..k]) && y in t[..k] ==> key(x) <= key(y)
  {
    assert t == t[..k] + t[k..];
    assert multiset(t) == multiset(t[..k]) + multiset(t[k..]);
    forall x, y | x in multiset(t) - multiset(t[..k]) && y in t[..k]
      ensures key(x) <= key(y)
    {
      assert x in multiset(t[k..]);
      var i :| 0 <= i < |t[k..]| && t[k..][i] == x;
      var j :| 0 <= j < k && t[..k][j] == y;
      assert t[k + i] == x && t[j] == y;
    }
  }
}
