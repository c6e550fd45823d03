/**
 * The two list operations the pages build their state with: `Array.prototype.filter`
 * and the "replace where" form of `Array.prototype.map`
 * (`xs.map(x => hit(x) ? f(x) : x)`), with the order-preserving subsequence relation
 * that filtering establishes.
 */
module Seqs {

  /** `a` can be obtained from `b` by deleting elements, keeping the order of the rest. */
  ghost predicate IsSubsequence<T>(a: seq<T>, b: seq<T>)
    decreases |b|
  {
    a == [] ||
    (b != [] && ((a[0] == b[0] && IsSubsequence(a[1..], b[1..])) || IsSubsequence(a, b[1..])))
  }

  /** `xs.filter(p)`: the elements of `s` that satisfy `p`, in their original order. */
  function Filter<T(!new)>(s: seq<T>, p: T -> bool): (r: seq<T>)
    ensures |r| <= |s|
    ensures IsSubsequence(r, s)
    ensures forall x :: x in r <==> x in s && p(x)
    ensures forall x :: multiset(r)[x] == if p(x) then multiset(s)[x] else 0
    ensures (forall i :: 0 <= i < |s| ==> p(s[i])) ==> r == s
  {
    if s == [] then []
    else
      var rest := Filter(s[1..], p);
      assert s == [s[0]] + s[1..];
      if p(s[0]) then
        var r := [s[0]] + rest;
        assert r[0] == s[0] && r[1..] == rest;
        r
      else
        rest
  }

  /** `xs.map(x => hit(x) ? f(x) : x)`: every element that `hit` selects is replaced by its
      image under `f`; every other element stays where it is. */
  function MapWhere<T>(s: seq<T>, hit: T -> bool, f: T -> T): (r: seq<T>)
    ensures |r| == |s|
    ensures forall i :: 0 <= i < |s| ==> r[i] == if hit(s[i]) then f(s[i]) else s[i]
  {
    if s == [] then []
    else [if hit(s[0]) then f(s[0]) else s[0]] + MapWhere(s[1..], hit, f)
  }

  /** When nothing is selected, the map returns the list it was given. */
  lemma {:induction false} MapWhereMissesAll<T>(s: seq<T>, hit: T -> bool, f: T -> T)
    requires forall i :: 0 <= i < |s| ==> !hit(s[i])
    ensures MapWhere(s, hit, f) == s
  {
    if s != [] {
      MapWhereMissesAll(s[1..], hit, f);
    }
  }

  /** Replacing by an involution that keeps the selection restores the list when done twice. */
  lemma {:induction false} MapWhereTwice<T>(s: seq<T>, hit: T -> bool, f: T -> T)
    requires forall x :: hit(x) ==> hit(f(x)) && f(f(x)) == x
    ensures MapWhere(MapWhere(s, hit, f), hit, f) == s
  {
    if s != [] {
      MapWhereTwice(s[1..], hit, f);
    }
  }
}
