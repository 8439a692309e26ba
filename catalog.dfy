/** What the Blog and Projects pages share: `Array.prototype.filter` over a
    catalog, an optional selection, and the clicks that close the detail
    dialog. */
module Catalog {

  datatype Option<T> = None | Some(value: T)

  /** Where a click lands while a detail dialog is open: its close button, the
      dimmed backdrop around it, or the panel itself (whose handler stops the
      click from reaching the backdrop). */
  datatype ClickTarget = CloseButton | Backdrop | Panel

  /** `s.filter(keep)`: the elements that pass, in their original order, each
      as often as it occurs in `s`. */
  function Select<T(==,!new)>(s: seq<T>, keep: T -> bool): (r: seq<T>)
    ensures |r| <= |s|
  {
    if s == [] then []
    else (if keep(s[0]) then [s[0]] else []) + Select(s[1..], keep)
  }

  /** An element is kept exactly when it occurs and passes. */
  lemma {:induction false} SelectMembers<T(!new)>(s: seq<T>, keep: T -> bool)
    ensures forall x :: x in Select(s, keep) <==> x in s && keep(x)
  {
    if s != [] {
      SelectMembers(s[1..], keep);
      assert s == [s[0]] + s[1..];
    }
  }

  /** Each element that passes is kept as often as it occurs; the others
      are dropped entirely. */
  lemma {:induction false} SelectMultiset<T(!new)>(s: seq<T>, keep: T -> bool)
    ensures forall x :: multiset(Select(s, keep))[x] == if keep(x) then multiset(s)[x] else 0
  {
    if s != [] {
      SelectMultiset(s[1..], keep);
      assert s == [s[0]] + s[1..];
    }
  }

  /** `r` can be obtained from `s` by deleting elements, so its elements
      appear in `s` in the same relative order. */
  predicate IsSubsequence<T(==)>(r: seq<T>, s: seq<T>)
    decreases |s|
  {
    if r == [] then true
    else if s == [] then false
    else (r[0] == s[0] && IsSubsequence(r[1..], s[1..])) || IsSubsequence(r, s[1..])
  }

  lemma {:induction false} SubsequenceOfSelf<T>(s: seq<T>)
    ensures IsSubsequence(s, s)
  {
    if s != [] {
      SubsequenceOfSelf(s[1..]);
    }
  }

  /** Filtering never reorders: the result is a subsequence of the input. */
  lemma {:induction false} SelectIsSubsequence<T(!new)>(s: seq<T>, keep: T -> bool)
    ensures IsSubsequence(Select(s, keep), s)
  {
    if s != [] {
      SelectIsSubsequence(s[1..], keep);
      var rest := Select(s[1..], keep);
      var r := Select(s, keep);
      if keep(s[0]) {
        assert r == [s[0]] + rest;
        assert r[0] == s[0] && r[1..] == rest;
      } else {
        assert r == rest;
      }
    }
  }

  /** The filter looks at the first element and then filters the rest. */
  lemma SelectCons<T(!new)>(x: T, s: seq<T>, keep: T -> bool)
    ensures Select([x] + s, keep) == (if keep(x) then [x] else []) + Select(s, keep)
  {
    assert ([x] + s)[1..] == s;
  }

  /** When every element passes, the filter returns the whole catalog. */
  lemma {:induction false} SelectAll<T(!new)>(s: seq<T>, keep: T -> bool)
    requires forall x :: x in s ==> keep(x)
    ensures Select(s, keep) == s
  {
    if s != [] {
      SelectAll(s[1..], keep);
      assert [s[0]] + s[1..] == s;
    }
  }

  /** When no element passes, the filter returns nothing. */
  lemma SelectNone<T(!new)>(s: seq<T>, keep: T -> bool)
    requires forall x :: x in s ==> !keep(x)
    ensures Select(s, keep) == []
  {
    SelectMembers(s, keep);
    if Select(s, keep) != [] {
      assert Select(s, keep)[0] in Select(s, keep);
    }
  }

  /** Two tests that agree on every element of `s` filter it the same way. */
  lemma {:induction false} SelectCongruent<T(!new)>(s: seq<T>, f: T -> bool, g: T -> bool)
    requires forall x :: x in s ==> f(x) == g(x)
    ensures Select(s, f) == Select(s, g)
  {
    if s != [] {
      SelectCongruent(s[1..], f, g);
    }
  }
}
