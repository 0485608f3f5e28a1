/** Generic sequence operations the components use through `filter`, `reverse` and `slice`. */
module Seqs {

  /** `s.filter(p)`: the elements satisfying `p`, in their original order. */
  function Filter<T(!new)>(p: T -> bool, s: seq<T>): (r: seq<T>)
    ensures |r| <= |s|
    ensures forall x :: x in r <==> x in s && p(x)
    ensures multiset(r) <= multiset(s)
    ensures forall i :: 0 <= i < |r| ==> p(r[i])
  {
    if s == [] then []
    else
      assert s == [s[0]] + s[1..];
      if p(s[0]) then [s[0]] + Filter(p, s[1..])
      else Filter(p, s[1..])
  }

  /** Each element passing the predicate is kept as often as it occurs, every other one never. */
  lemma {:induction false} FilterMultiplicity<T(!new)>(p: T -> bool, s: seq<T>)
    ensures forall x :: multiset(Filter(p, s))[x] == if p(x) then multiset(s)[x] else 0
  {
    if s != [] {
      FilterMultiplicity(p, s[1..]);
      assert s == [s[0]] + s[1..];
    }
  }

  /** Filtering distributes over concatenation, so a filter over a growing prefix can be extended one element at a time. */
  lemma {:induction false} FilterAppend<T(!new)>(p: T -> bool, a: seq<T>, b: seq<T>)
    ensures Filter(p, a + b) == Filter(p, a) + Filter(p, b)
  {
    if a == [] {
      assert a + b == b;
    } else {
      assert (a + b)[1..] == a[1..] + b;
      FilterAppend(p, a[1..], b);
    }
  }

  /** Filtering a list with a known head. */
  lemma FilterCons<T(!new)>(p: T -> bool, x: T, s: seq<T>)
    ensures Filter(p, [x] + s) == (if p(x) then [x] else []) + Filter(p, s)
  {
    assert ([x] + s)[1..] == s;
  }

  /** An element put in front of two lists whose filters differ by a prefix `c` goes in front of
      both filters, as long as it is dropped whenever `c` is not empty. */
  lemma FilterPrepend<T(!new)>(p: T -> bool, h: T, s: seq<T>, t: seq<T>, c: seq<T>)
    requires Filter(p, s) == c + Filter(p, t)
    requires c != [] ==> !p(h)
    ensures Filter(p, [h] + s) == c + Filter(p, [h] + t)
  {
    if p(h) {
      FilterPrependKept(p, h, s, t, c);
    } else {
      FilterPrependDropped(p, h, s, t, c);
    }
  }

  lemma FilterPrependKept<T(!new)>(p: T -> bool, h: T, s: seq<T>, t: seq<T>, c: seq<T>)
    requires Filter(p, s) == c + Filter(p, t)
    requires p(h) && c == []
    ensures Filter(p, [h] + s) == c + Filter(p, [h] + t)
  {
    FilterCons(p, h, s);
    FilterCons(p, h, t);
    assert c + Filter(p, t) == Filter(p, t);
    assert c + Filter(p, [h] + t) == Filter(p, [h] + t);
  }

  lemma FilterPrependDropped<T(!new)>(p: T -> bool, h: T, s: seq<T>, t: seq<T>, c: seq<T>)
    requires Filter(p, s) == c + Filter(p, t)
    requires !p(h)
    ensures Filter(p, [h] + s) == c + Filter(p, [h] + t)
  {
    FilterCons(p, h, s);
    FilterCons(p, h, t);
    assert Filter(p, [h] + s) == Filter(p, s);
    assert Filter(p, [h] + t) == Filter(p, t);
  }

  /** Filtering twice with the same predicate changes nothing the second time. */
  lemma {:induction false} FilterIdempotent<T(!new)>(p: T -> bool, s: seq<T>)
    ensures Filter(p, Filter(p, s)) == Filter(p, s)
  {
    if s != [] {
      FilterIdempotent(p, s[1..]);
    }
  }

  /** `s.map(f)`: `f` applied to every element, in order. */
  function Map<T, U>(f: T -> U, s: seq<T>): (r: seq<U>)
    ensures |r| == |s|
    ensures forall i :: 0 <= i < |s| ==> r[i] == f(s[i])
  {
    seq(|s|, i requires 0 <= i < |s| => f(s[i]))
  }

  /** The values of a map are exactly the images of the elements. */
  lemma MapMembers<T, U>(f: T -> U, s: seq<T>)
    ensures forall y :: y in Map(f, s) <==> exists x :: x in s && y == f(x)
  {
    var r := Map(f, s);
    forall y ensures y in r <==> exists x :: x in s && y == f(x) {
      if exists x :: x in s && y == f(x) {
        var x :| x in s && y == f(x);
        var i :| 0 <= i < |s| && s[i] == x;
        assert r[i] == y;
      }
    }
  }

  /** `[...s].reverse()`. */
  function Reverse<T>(s: seq<T>): (r: seq<T>)
    ensures |r| == |s|
    ensures forall i :: 0 <= i < |s| ==> r[i] == s[|s| - 1 - i]
  {
    if s == [] then [] else Reverse(s[1..]) + [s[0]]
  }

  /** `s.slice(0, n)`: at most the first `n` elements. */
  function Take<T>(s: seq<T>, n: nat): (r: seq<T>)
    ensures |r| == if |s| < n then |s| else n
    ensures r <= s
  {
    if |s| <= n then s else s[..n]
  }

  /** `s.slice(-n)` for n > 0: at most the last `n` elements. */
  function TakeLast<T>(s: seq<T>, n: nat): (r: seq<T>)
    requires n > 0
    ensures |r| == if |s| < n then |s| else n
    ensures r == s[|s| - |r|..]
  {
    if |s| <= n then s else s[|s| - n..]
  }

  /** No element occurs twice. */
  predicate Distinct<T(==)>(s: seq<T>) {
    forall i, j :: 0 <= i < j < |s| ==> s[i] != s[j]
  }
}
