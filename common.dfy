/** Values and JavaScript semantics shared by the server and client models. */
module Common {

  datatype Option<+T> = None | Some(value: T) {
    function GetOr(default: T): T {
      match this
      case Some(v) => v
      case None => default
    }
  }

  datatype Result<+R, +E> = Success(value: R) | Failure(error: E)

  datatype Outcome<+E> = Pass | Fail(error: E)

  /** A field of a partial update or insert object: left out of the object, or given. */
  datatype Field<+T> = Omitted | Given(value: T) {
    /** The value an update leaves in a column: the given value, or the old one. */
    function Over(old_: T): T {
      match this
      case Given(v) => v
      case Omitted => old_
    }
  }

  /** A JSON value as it arrives in a request body (objects and arrays are not looked into). */
  datatype JsValue = JsUndefined | JsNull | JsBool(b: bool) | JsNumber(n: real) | JsString(s: string) | JsObject

  /** JavaScript truthiness: what `if (v)` and `v || d` test. NaN is not representable here. */
  predicate Truthy(v: JsValue) {
    match v
    case JsUndefined => false
    case JsNull => false
    case JsBool(b) => b
    case JsNumber(n) => n != 0.0
    case JsString(s) => s != ""
    case JsObject => true
  }

  /** A JavaScript number result that may be NaN (for example `undefined / 24`). */
  datatype JsNum = Num(value: real) | NaN

  /** The property `key` of a JSON object, `undefined` when absent. */
  function Property(obj: map<string, JsValue>, key: string): JsValue {
    if key in obj then obj[key] else JsUndefined
  }

  /** The end index that JavaScript's `a.slice(0, end)` uses on an array of length `len`:
      a negative end counts back from the length, and both are clamped to [0, len]. */
  function SliceEnd(len: nat, end: int): (k: nat)
    ensures k <= len
    ensures 0 <= end ==> k == if end < len then end else len
    ensures end < 0 ==> k < len || len == 0
  {
    if end >= 0 then (if end < len then end else len)
    else if len + end > 0 then len + end else 0
  }

  /** `s.slice(0, end)` on an array. */
  function SliceTo<T>(s: seq<T>, end: int): (r: seq<T>)
    ensures r <= s
    ensures 0 <= end ==> |r| <= end
  {
    s[..SliceEnd(|s|, end)]
  }

  /** `toLowerCase` on one character; only the ASCII letters are mapped. */
  function LowerChar(c: char): (d: char)
    ensures 'A' <= c <= 'Z' ==> 'a' <= d <= 'z' && d as int - c as int == 32
    ensures !('A' <= c <= 'Z') ==> d == c
  {
    if 'A' <= c <= 'Z' then (c as int + 32) as char else c
  }

  function Lower(s: string): (r: string)
    ensures |r| == |s|
    ensures forall i :: 0 <= i < |s| ==> r[i] == LowerChar(s[i])
  {
    seq(|s|, i requires 0 <= i < |s| => LowerChar(s[i]))
  }

  /** `s.includes(sub)`: `sub` occurs in `s` as a contiguous piece. */
  predicate Includes(s: string, sub: string)
    decreases |s|
  {
    sub <= s || (|s| > 0 && Includes(s[1..], sub))
  }

  function Min(a: int, b: int): int { if a < b then a else b }

  /** How many of the thresholds `x` reaches: the tier an `if (x >= t) return ...` chain
      over increasing thresholds puts `x` in, counted from the bottom. */
  function Reached(x: real, thresholds: seq<real>): (n: nat)
    ensures n <= |thresholds|
    decreases |thresholds|
  {
    if thresholds == [] then 0
    else (if x >= thresholds[0] then 1 else 0) + Reached(x, thresholds[1..])
  }

  /** A larger value reaches at least as many thresholds. */
  lemma {:induction false} ReachedMonotone(x: real, y: real, thresholds: seq<real>)
    requires x <= y
    ensures Reached(x, thresholds) <= Reached(y, thresholds)
    decreases |thresholds|
  {
    if thresholds != [] {
      ReachedMonotone(x, y, thresholds[1..]);
    }
  }

  /** `s.filter(p)`: the elements that satisfy `p`, in their order. */
  function Filter<T(!new)>(s: seq<T>, p: T -> bool): (r: seq<T>)
    ensures |r| <= |s|
    ensures forall x :: x in r <==> x in s && p(x)
    ensures multiset(r) <= multiset(s)
    decreases |s|
  {
    if s == [] then []
    else
      assert s == [s[0]] + s[1..];
      (if p(s[0]) then [s[0]] else []) + Filter(s[1..], p)
  }

  /** `s.findIndex(p)`: the first index whose element satisfies `p`, or -1. */
  function FirstIndex<T(!new)>(s: seq<T>, p: T -> bool): (k: int)
    ensures -1 <= k < |s|
    ensures k == -1 <==> forall x :: x in s ==> !p(x)
    ensures 0 <= k ==> p(s[k]) && forall j :: 0 <= j < k ==> !p(s[j])
    decreases |s|
  {
    if s == [] then -1
    else if p(s[0]) then 0
    else
      var k := FirstIndex(s[1..], p);
      assert forall x :: x in s ==> x == s[0] || x in s[1..];
      if k == -1 then -1 else k + 1
  }

  /** `s.splice(k, 1)`: removes the element at `k`. */
  function RemoveAt<T>(s: seq<T>, k: nat): (r: seq<T>)
    requires k < |s|
    ensures |r| == |s| - 1
    ensures forall j :: 0 <= j < k ==> r[j] == s[j]
    ensures forall j :: k <= j < |r| ==> r[j] == s[j + 1]
  {
    s[..k] + s[k + 1..]
  }

  /** Strictly increasing identifiers, so identifiers are unique and follow insertion order. */
  ghost predicate IncreasingIds<T>(s: seq<T>, id: T -> int) {
    forall i, j :: 0 <= i < j < |s| ==> id(s[i]) < id(s[j])
  }

  lemma {:induction false} FilterKeepsIncreasing<T(!new)>(s: seq<T>, p: T -> bool, id: T -> int)
    requires IncreasingIds(s, id)
    ensures IncreasingIds(Filter(s, p), id)
    decreases |s|
  {
    if s != [] {
      FilterKeepsIncreasing(s[1..], p, id);
      var rest := Filter(s[1..], p);
      forall x | x in rest ensures id(s[0]) < id(x) {
        var k :| 0 <= k < |s[1..]| && s[1..][k] == x;
        assert s[k + 1] == x;
      }
    }
  }

  /** Filtering with a predicate every element satisfies changes nothing. */
  lemma {:induction false} FilterAll<T(!new)>(s: seq<T>, p: T -> bool)
    requires forall x :: x in s ==> p(x)
    ensures Filter(s, p) == s
    decreases |s|
  {
    if s != [] {
      assert s == [s[0]] + s[1..];
      FilterAll(s[1..], p);
    }
  }

  /** With increasing identifiers, an element occurs at most once. */
  lemma {:induction false} IncreasingHasNoDuplicates<T>(s: seq<T>, id: T -> int, x: T)
    requires IncreasingIds(s, id)
    ensures multiset(s)[x] <= 1
    decreases |s|
  {
    if s != [] {
      assert s == [s[0]] + s[1..];
      IncreasingHasNoDuplicates(s[1..], id, x);
      if x == s[0] {
        forall k | 0 <= k < |s[1..]| ensures s[1..][k] != x {
          assert s[1..][k] == s[k + 1];
        }
      }
    }
  }

  /** An element at two different positions occurs at least twice. */
  lemma TwoPositionsCountTwice<T>(r: seq<T>, i: nat, j: nat)
    requires i < j < |r| && r[i] == r[j]
    ensures multiset(r)[r[i]] >= 2
  {
    assert r == r[..j] + r[j..];
    assert multiset(r) == multiset(r[..j]) + multiset(r[j..]);
    assert r[..j][i] == r[i];
    assert r[j..][0] == r[i];
  }

  /** Any selection (in any order) from a sequence with increasing identifiers has distinct identifiers. */
  lemma SelectionHasDistinctIds<T>(s: seq<T>, id: T -> int, r: seq<T>)
    requires IncreasingIds(s, id)
    requires multiset(r) <= multiset(s)
    ensures forall i, j :: 0 <= i < j < |r| ==> id(r[i]) != id(r[j])
  {
    forall i, j | 0 <= i < j < |r| ensures id(r[i]) != id(r[j]) {
      assert r[i] in multiset(s) && r[j] in multiset(s);
      var a :| 0 <= a < |s| && s[a] == r[i];
      var b :| 0 <= b < |s| && s[b] == r[j];
      if r[i] == r[j] {
        TwoPositionsCountTwice(r, i, j);
        IncreasingHasNoDuplicates(s, id, r[i]);
      } else {
        assert a != b;
      }
    }
  }

  /** Identifiers that increase between neighbours increase throughout. */
  lemma {:induction false} IncreasingFromAdjacent<T>(s: seq<T>, id: T -> int)
    requires forall i :: 0 <= i < |s| - 1 ==> id(s[i]) < id(s[i + 1])
    ensures IncreasingIds(s, id)
    decreases |s|
  {
    if |s| > 1 {
      var t := s[1..];
      assert forall i :: 0 <= i < |t| ==> t[i] == s[i + 1];
      IncreasingFromAdjacent(t, id);
      forall i, j | 0 <= i < j < |s| ensures id(s[i]) < id(s[j]) {
        if 0 < i {
          assert s[i] == t[i - 1] && s[j] == t[j - 1];
        } else if 1 < j {
          assert s[1] == t[0] && s[j] == t[j - 1];
        }
      }
    }
  }

  /** Removing one element keeps every other element and keeps identifiers increasing. */
  lemma RemoveAtKeepsIncreasing<T>(s: seq<T>, id: T -> int, k: nat)
    requires k < |s| && IncreasingIds(s, id)
    ensures forall x :: x in RemoveAt(s, k) ==> x in s
    ensures IncreasingIds(RemoveAt(s, k), id)
  {
    var r := RemoveAt(s, k);
    forall x | x in r ensures x in s {
      var i :| 0 <= i < |r| && r[i] == x;
      if i < k { assert r[i] == s[i]; } else { assert r[i] == s[i + 1]; }
    }
    forall i, j | 0 <= i < j < |r| ensures id(r[i]) < id(r[j]) {
      var i' := if i < k then i else i + 1;
      var j' := if j < k then j else j + 1;
      assert r[i] == s[i'] && r[j] == s[j'];
    }
  }

  /** A prefix of a permutation of `s` is drawn from `s`. */
  lemma PrefixOfPermutation<T>(shuffled: seq<T>, s: seq<T>, n: nat)
    requires multiset(shuffled) == multiset(s) && n <= |shuffled|
    ensures multiset(shuffled[..n]) <= multiset(s)
    ensures forall x :: x in shuffled[..n] ==> x in s
  {
    assert shuffled == shuffled[..n] + shuffled[n..];
    assert multiset(shuffled) == multiset(shuffled[..n]) + multiset(shuffled[n..]);
    forall x | x in shuffled[..n] ensures x in s {
      assert x in multiset(shuffled[..n]) && x in multiset(s);
    }
  }
}
