/** The query shapes the actions use: `where` (a filter), `orderBy: { createdAt:
    "desc" }` (a sort on a key, newest first) and `take` (truncation). Rows with
    equal keys come in an order the store leaves unspecified; this model fixes one. */
module Query {

  /** The rows satisfying `p`, in their original order. */
  function Filter<T>(s: seq<T>, p: T -> bool): (r: seq<T>)
    ensures forall i :: 0 <= i < |r| ==> r[i] in s && p(r[i])
    ensures forall i :: 0 <= i < |s| && p(s[i]) ==> s[i] in r
    ensures multiset(r) <= multiset(s)
    ensures |r| <= |s|
  {
    if |s| == 0 then []
    else
      assert s == [s[0]] + s[1..];
      if p(s[0]) then [s[0]] + Filter(s[1..], p) else Filter(s[1..], p)
  }

  /** Filtering distributes over concatenation: the filter keeps order. */
  lemma {:induction false} FilterAppend<T>(a: seq<T>, b: seq<T>, p: T -> bool)
    ensures Filter(a + b, p) == Filter(a, p) + Filter(b, p)
  {
    if |a| > 0 {
      assert (a + b)[0] == a[0];
      assert (a + b)[1..] == a[1..] + b;
      FilterAppend(a[1..], b, p);
    } else {
      assert a + b == b;
    }
  }

  predicate SortedDesc<T>(s: seq<T>, key: T -> int)
  {
    forall i, j :: 0 <= i < j < |s| ==> key(s[i]) >= key(s[j])
  }

  function InsertDesc<T>(x: T, s: seq<T>, key: T -> int): (r: seq<T>)
    requires SortedDesc(s, key)
    ensures SortedDesc(r, key)
    ensures multiset(r) == multiset(s) + multiset{x}
    ensures |r| == |s| + 1
    ensures r[0] == x || (|s| > 0 && r[0] == s[0])
  {
    if |s| == 0 then [x]
    else if key(x) >= key(s[0]) then [x] + s
    else
      var t := InsertDesc(x, s[1..], key);
      assert s == [s[0]] + s[1..];
      assert key(t[0]) <= key(s[0]);
      var r := [s[0]] + t;
      assert forall j :: 0 < j < |r| ==> r[j] == t[j - 1] && key(r[j]) <= key(t[0]);
      assert multiset(r) == multiset{s[0]} + multiset(t);
      r
  }

  /** The rows of `s`, largest key first. */
  function SortDesc<T>(s: seq<T>, key: T -> int): (r: seq<T>)
    ensures SortedDesc(r, key)
    ensures multiset(r) == multiset(s)
    ensures |r| == |s|
  {
    if |s| == 0 then []
    else
      assert s == [s[0]] + s[1..];
      InsertDesc(s[0], SortDesc(s[1..], key), key)
  }

  /** The first `n` rows (all of them when there are fewer). */
  function Take<T>(s: seq<T>, n: nat): (r: seq<T>)
    ensures |r| == if |s| < n then |s| else n
    ensures forall i :: 0 <= i < |r| ==> r[i] == s[i]
  {
    if |s| <= n then s else s[..n]
  }

  /** The first `n` rows of a sorted sequence are the ones with the largest keys:
      no row left out has a larger key than a row kept. */
  lemma TakeKeepsLargest<T>(s: seq<T>, n: nat, key: T -> int, x: T, y: T)
    requires SortedDesc(s, key)
    requires x in s && x !in Take(s, n) && y in Take(s, n)
    ensures key(x) <= key(y)
  {
    var i :| 0 <= i < |s| && s[i] == x;
    var k :| 0 <= k < |Take(s, n)| && Take(s, n)[k] == y;
    assert forall j :: 0 <= j < |Take(s, n)| ==> s[j] != x;
    assert k < |Take(s, n)| <= i;
  }
}
