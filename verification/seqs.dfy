/** Order-preserving selection over sequences: JavaScript's `Array.prototype.filter`. */
module Seqs {
  import opened Wrappers

  /** `a` is `b` with some elements left out, the rest in their original order. */
  predicate IsSubsequence<T(==)>(a: seq<T>, b: seq<T>)
    decreases |b|
  {
    if a == [] then true
    else if b == [] then false
    else if a[0] == b[0] then IsSubsequence(a[1..], b[1..])
    else IsSubsequence(a, b[1..])
  }

  /** Every sequence is a subsequence of itself. */
  lemma {:induction false} SubsequenceOfItself<T>(s: seq<T>)
    ensures IsSubsequence(s, s)
    decreases |s|
  {
    if s != [] {
      SubsequenceOfItself(s[1..]);
    }
  }

  /** `s.filter(keep)`. */
  function Filter<T(==)>(s: seq<T>, keep: T -> bool): (r: seq<T>)
    ensures |r| <= |s|
    ensures forall i :: 0 <= i < |r| ==> r[i] in s && keep(r[i])
    ensures forall i :: 0 <= i < |s| && keep(s[i]) ==> s[i] in r
    ensures IsSubsequence(r, s)
    ensures (forall i :: 0 <= i < |s| ==> keep(s[i])) ==> r == s
  {
    if s == [] then []
    else if keep(s[0]) then [s[0]] + Filter(s[1..], keep)
    else Filter(s[1..], keep)
  }

  /** Filtering a concatenation filters each part. */
  lemma {:induction false} FilterAppend<T>(a: seq<T>, b: seq<T>, keep: T -> bool)
    ensures Filter(a + b, keep) == Filter(a, keep) + Filter(b, keep)
  {
    if a == [] {
      assert a + b == b;
    } else {
      var ab := a + b;
      assert ab[0] == a[0] && ab[1..] == a[1..] + b;
      FilterAppend(a[1..], b, keep);
    }
  }

  /** `s.map(x => sel(x) ? f(x) : x)`: rewrite the selected elements in place. */
  function MapWhere<T>(s: seq<T>, sel: T -> bool, f: T -> T): (r: seq<T>)
    ensures |r| == |s|
    ensures forall i :: 0 <= i < |s| && sel(s[i]) ==> r[i] == f(s[i])
    ensures forall i :: 0 <= i < |s| && !sel(s[i]) ==> r[i] == s[i]
  {
    if s == [] then []
    else [if sel(s[0]) then f(s[0]) else s[0]] + MapWhere(s[1..], sel, f)
  }

  /** Rewriting where nothing is selected changes nothing. */
  lemma MapWhereNoneSelected<T>(s: seq<T>, sel: T -> bool, f: T -> T)
    requires forall i :: 0 <= i < |s| ==> !sel(s[i])
    ensures MapWhere(s, sel, f) == s
  {
    var r := MapWhere(s, sel, f);
    assert forall i :: 0 <= i < |s| ==> r[i] == s[i];
  }

  /**
   * Two rewrites of the same selection, the first of which keeps every
   * element selected, are one rewrite by the composition.
   */
  lemma MapWhereTwice<T>(s: seq<T>, sel: T -> bool, f: T -> T, g: T -> T)
    requires forall x :: sel(x) ==> sel(f(x))
    ensures MapWhere(MapWhere(s, sel, f), sel, g) == MapWhere(s, sel, x => g(f(x)))
  {
    var once := MapWhere(s, sel, f);
    var twice := MapWhere(once, sel, g);
    var direct := MapWhere(s, sel, x => g(f(x)));
    forall i | 0 <= i < |s|
      ensures twice[i] == direct[i]
    {
      if sel(s[i]) {
        assert sel(once[i]);
      }
    }
  }

  /** `f` of the last element satisfying `p`, if any. */
  function LastWhere<T, U>(s: seq<T>, p: T -> bool, f: T -> U): Option<U>
    decreases |s|
  {
    if s == [] then None
    else if p(s[|s| - 1]) then Some(f(s[|s| - 1]))
    else LastWhere(s[..|s| - 1], p, f)
  }

  /**
   * There is a result exactly when some element satisfies `p`, and it is `f`
   * of an element satisfying `p` after which none does.
   */
  lemma {:induction false} LastWhereIsLast<T, U>(s: seq<T>, p: T -> bool, f: T -> U)
    ensures LastWhere(s, p, f).Some? <==> exists i :: 0 <= i < |s| && p(s[i])
    ensures LastWhere(s, p, f).Some? ==>
              exists i :: && 0 <= i < |s| && p(s[i]) && LastWhere(s, p, f).value == f(s[i])
                          && forall j :: i < j < |s| ==> !p(s[j])
    decreases |s|
  {
    if s != [] && !p(s[|s| - 1]) {
      var init := s[..|s| - 1];
      LastWhereIsLast(init, p, f);
      assert forall i :: 0 <= i < |init| ==> init[i] == s[i];
    }
  }

  /** One more element overrides the result when it satisfies `p`, and leaves it otherwise. */
  lemma LastWhereSnoc<T, U>(s: seq<T>, x: T, p: T -> bool, f: T -> U)
    ensures LastWhere(s + [x], p, f) == if p(x) then Some(f(x)) else LastWhere(s, p, f)
  {
    var sx := s + [x];
    assert sx[..|sx| - 1] == s;
  }
}
