/** The JavaScript string operations the pages rely on: white space as `\s`
    and `trim()` see it, `toLowerCase()`, `includes`, `split`, `join` and
    `replace` with a string pattern. Strings are sequences of characters. */
module Text {

  type String = seq<char>

  /** ECMAScript's WhiteSpace and LineTerminator characters. */
  const SpaceChars: set<char> := {
    ' ', '\t', '\n', '\r', '\U{B}', '\U{C}', '\U{A0}', '\U{1680}',
    '\U{2000}', '\U{2001}', '\U{2002}', '\U{2003}', '\U{2004}', '\U{2005}',
    '\U{2006}', '\U{2007}', '\U{2008}', '\U{2009}', '\U{200A}',
    '\U{2028}', '\U{2029}', '\U{202F}', '\U{205F}', '\U{3000}', '\U{FEFF}'}

  /** A character that the regular-expression class `\s` and `trim()` treat as
      white space. */
  predicate IsSpace(c: char)
  {
    c in SpaceChars
  }

  /** A character of the regular-expression class `\w`. */
  predicate IsWordChar(c: char)
  {
    ('a' <= c <= 'z') || ('A' <= c <= 'Z') || ('0' <= c <= '9') || c == '_'
  }

  ghost predicate AllSpace(s: String)
  {
    forall i :: 0 <= i < |s| ==> IsSpace(s[i])
  }

  /** The length of the run of white space at the start of `s`. */
  function LeadingSpace(s: String): (n: nat)
    ensures n <= |s|
  {
    if s != [] && IsSpace(s[0]) then 1 + LeadingSpace(s[1..]) else 0
  }

  /** The run is white space throughout and as long as it can be. */
  lemma {:induction false} LeadingSpaceRun(s: String)
    ensures forall i :: 0 <= i < LeadingSpace(s) ==> IsSpace(s[i])
    ensures LeadingSpace(s) == |s| || !IsSpace(s[LeadingSpace(s)])
  {
    if s != [] && IsSpace(s[0]) {
      var n := LeadingSpace(s);
      LeadingSpaceRun(s[1..]);
      forall i | 0 < i < n
        ensures IsSpace(s[i])
      {
        assert s[i] == s[1..][i - 1];
      }
      assert n < |s| ==> s[n] == s[1..][n - 1];
    }
  }

  /** The length of the run of white space at the end of `s`. */
  function TrailingSpace(s: String): (n: nat)
    ensures n <= |s|
  {
    if s != [] && IsSpace(s[|s| - 1]) then 1 + TrailingSpace(s[..|s| - 1]) else 0
  }

  /** The run is white space throughout and as long as it can be. */
  lemma {:induction false} TrailingSpaceRun(s: String)
    ensures forall i :: |s| - TrailingSpace(s) <= i < |s| ==> IsSpace(s[i])
    ensures TrailingSpace(s) == |s| || !IsSpace(s[|s| - TrailingSpace(s) - 1])
  {
    if s != [] && IsSpace(s[|s| - 1]) {
      var front := s[..|s| - 1];
      var n := TrailingSpace(s);
      TrailingSpaceRun(front);
      forall i | |s| - n <= i < |s| - 1
        ensures IsSpace(s[i])
      {
        assert s[i] == front[i];
      }
      assert n < |s| ==> s[|s| - n - 1] == front[|front| - (n - 1) - 1];
    }
  }

  /** The white space `/^\s*` would match at the start of `s` is dropped. */
  function TrimStart(s: String): String
  {
    s[LeadingSpace(s)..]
  }

  /** Trailing white space is dropped. */
  function TrimEnd(s: String): String
  {
    s[..|s| - TrailingSpace(s)]
  }

  /** `s.trim()`: white space cut from both ends. What is left neither
      starts nor ends with white space; `TrimOffset` says where it sits in
      `s`. */
  function Trim(s: String): (r: String)
    ensures |r| <= |s|
    ensures r == [] || (!IsSpace(r[0]) && !IsSpace(r[|r| - 1]))
  {
    var t := TrimStart(s);
    LeadingSpaceRun(s);
    TrailingSpaceRun(t);
    assert t != [] ==> t[0] == s[LeadingSpace(s)];
    TrimEnd(t)
  }

  /** `trim()` yields the empty string exactly on strings made of white space. */
  lemma TrimEmptyIff(s: String)
    ensures Trim(s) == [] <==> AllSpace(s)
  {
    var n := LeadingSpace(s);
    var t := TrimStart(s);
    LeadingSpaceRun(s);
    TrailingSpaceRun(t);
    if Trim(s) == [] {
      assert TrailingSpace(t) == |t|;
      assert n == |s|;
    }
  }

  /** `trim()` leaves a string that starts and ends with other characters as
      it is; in particular trimming twice is trimming once. */
  lemma TrimOfTrimmed(s: String)
    requires s == [] || (!IsSpace(s[0]) && !IsSpace(s[|s| - 1]))
    ensures Trim(s) == s
  {
    assert LeadingSpace(s) == 0;
    assert TrimStart(s) == s;
    assert TrailingSpace(s) == 0;
  }

  lemma TrimIdempotent(s: String)
    ensures Trim(Trim(s)) == Trim(s)
  {
    TrimOfTrimmed(Trim(s));
  }

  /** The length of the run of `c` at the start of `s`. */
  function RunLength(s: String, c: char): (n: nat)
    ensures n <= |s|
  {
    if s != [] && s[0] == c then 1 + RunLength(s[1..], c) else 0
  }

  /** The run is `c` throughout and as long as it can be. */
  lemma {:induction false} RunLengthRun(s: String, c: char)
    ensures forall i :: 0 <= i < RunLength(s, c) ==> s[i] == c
    ensures RunLength(s, c) == |s| || s[RunLength(s, c)] != c
  {
    if s != [] && s[0] == c {
      var n := RunLength(s, c);
      RunLengthRun(s[1..], c);
      forall i | 0 < i < n
        ensures s[i] == c
      {
        assert s[i] == s[1..][i - 1];
      }
      assert n < |s| ==> s[n] == s[1..][n - 1];
    }
  }

  /** The length of the run of `\w` characters at the start of `s`. */
  function WordRunLength(s: String): (n: nat)
    ensures n <= |s|
  {
    if s != [] && IsWordChar(s[0]) then 1 + WordRunLength(s[1..]) else 0
  }

  /** The run is `\w` characters throughout and as long as it can be. */
  lemma {:induction false} WordRun(s: String)
    ensures forall i :: 0 <= i < WordRunLength(s) ==> IsWordChar(s[i])
    ensures WordRunLength(s) == |s| || !IsWordChar(s[WordRunLength(s)])
  {
    if s != [] && IsWordChar(s[0]) {
      var n := WordRunLength(s);
      WordRun(s[1..]);
      forall i | 0 < i < n
        ensures IsWordChar(s[i])
      {
        assert s[i] == s[1..][i - 1];
      }
      assert n < |s| ==> s[n] == s[1..][n - 1];
    }
  }

  /** The run of `\w` characters is the only one that ends at a character
      outside the class. */
  lemma WordRunUnique(s: String, n: nat)
    requires n <= |s| && forall i :: 0 <= i < n ==> IsWordChar(s[i])
    requires n == |s| || !IsWordChar(s[n])
    ensures WordRunLength(s) == n
  {
    WordRun(s);
  }

  /** `toLowerCase()` on one character; only the ASCII letters are mapped. */
  function LowerChar(c: char): char
  {
    if 'A' <= c <= 'Z' then (c as int - 'A' as int + 'a' as int) as char else c
  }

  /** `toLowerCase()`, character by character. */
  function Lower(s: String): String
  {
    seq(|s|, i requires 0 <= i < |s| => LowerChar(s[i]))
  }

  /** Lowering twice is lowering once. */
  lemma LowerIdempotent(s: String)
    ensures Lower(Lower(s)) == Lower(s)
  {
  }

  /** `t` occurs in `s` starting at index `i`. */
  ghost predicate OccursAt(s: String, t: String, i: int)
  {
    0 <= i && i + |t| <= |s| && s[i..i + |t|] == t
  }

  /** `s.includes(t)`: the scan that tries every start position in turn. */
  predicate Includes(s: String, t: String)
  {
    t <= s || (s != [] && Includes(s[1..], t))
  }

  /** `includes` holds exactly when `t` occurs somewhere in `s`. */
  lemma {:induction false} IncludesIff(s: String, t: String)
    ensures Includes(s, t) <==> exists i :: OccursAt(s, t, i)
  {
    if t <= s {
      assert OccursAt(s, t, 0);
    } else if s != [] {
      IncludesIff(s[1..], t);
      if Includes(s[1..], t) {
        var i :| OccursAt(s[1..], t, i);
        assert s[1..][i..i + |t|] == s[i + 1..i + 1 + |t|];
        assert OccursAt(s, t, i + 1);
      }
      if exists i :: OccursAt(s, t, i) {
        var i :| OccursAt(s, t, i) && i > 0;
        assert s[1..][i - 1..i - 1 + |t|] == s[i..i + |t|];
        assert OccursAt(s[1..], t, i - 1);
      }
    }
  }

  /** Lowering works character by character, so it distributes over `+`. */
  lemma LowerAppend(a: String, b: String)
    ensures Lower(a + b) == Lower(a) + Lower(b)
  {
  }


  /** A string includes every infix of it. */
  lemma IncludesInfix(a: String, t: String, b: String)
    ensures Includes(a + t + b, t)
  {
    assert (a + t + b)[|a|..|a| + |t|] == t;
    assert OccursAt(a + t + b, t, |a|);
    IncludesIff(a + t + b, t);
  }

  /** Every string includes the empty string. */
  lemma IncludesEmpty(s: String)
    ensures Includes(s, [])
  {
  }

  /** The number of occurrences of `c` in `s`. */
  function Count(s: String, c: char): nat
  {
    if s == [] then 0 else (if s[0] == c then 1 else 0) + Count(s[1..], c)
  }

  lemma {:induction false} CountAppend(a: String, b: String, c: char)
    ensures Count(a + b, c) == Count(a, c) + Count(b, c)
  {
    if a == [] {
      assert a + b == b;
    } else {
      assert (a + b)[1..] == a[1..] + b;
      CountAppend(a[1..], b, c);
    }
  }

  /** `s.split(sep)` for a one-character separator: the pieces between
      separators, so one more piece than there are separators. */
  function Split(s: String, sep: char): (r: seq<String>)
    ensures |r| >= 1
    decreases |s|
  {
    if s == [] then [[]]
    else
      var rest := Split(s[1..], sep);
      if s[0] == sep then [[]] + rest else [[s[0]] + rest[0]] + rest[1..]
  }

  /** `xs.join(sep)`; the empty list joins to the empty string. */
  function Join(xs: seq<String>, sep: String): String
  {
    if |xs| == 0 then [] else if |xs| == 1 then xs[0] else xs[0] + sep + Join(xs[1..], sep)
  }

  /** Splitting and joining again gives back the string. */
  lemma {:induction false} JoinSplit(s: String, sep: char)
    ensures Join(Split(s, sep), [sep]) == s
  {
    if s != [] {
      var rest := Split(s[1..], sep);
      JoinSplit(s[1..], sep);
      if s[0] == sep {
        assert Split(s, sep) == [[]] + rest;
        assert ([[]] + rest)[1..] == rest;
        assert s == [sep] + s[1..];
      } else {
        var r := Split(s, sep);
        assert r == [[s[0]] + rest[0]] + rest[1..];
        if |rest| == 1 {
          assert s == [s[0]] + rest[0];
        } else {
          assert r[1..] == rest[1..];
          assert Join(rest, [sep]) == rest[0] + [sep] + Join(rest[1..], [sep]);
          assert s == [s[0]] + s[1..];
        }
      }
    }
  }

  /** No piece of a split contains the separator. */
  lemma {:induction false} SplitPiecesFree(s: String, sep: char)
    ensures forall k :: 0 <= k < |Split(s, sep)| ==> sep !in Split(s, sep)[k]
  {
    if s != [] {
      SplitPiecesFree(s[1..], sep);
      var rest := Split(s[1..], sep);
      var r := Split(s, sep);
      if s[0] != sep {
        assert r == [[s[0]] + rest[0]] + rest[1..];
        forall k | 0 <= k < |r| ensures sep !in r[k] {
          if k > 0 {
            assert r[k] == rest[k];
          }
        }
      }
    }
  }

  /** One more piece than there are separators. */
  lemma {:induction false} SplitCount(s: String, sep: char)
    ensures |Split(s, sep)| == Count(s, sep) + 1
  {
    if s != [] {
      SplitCount(s[1..], sep);
    }
  }

  /** Prepending a character to pieces: a separator starts a new empty
      piece, any other character joins the first piece. */
  function ConsPiece(c: char, sep: char, rest: seq<String>): seq<String>
    requires |rest| > 0
  {
    if c == sep then [[]] + rest else [[c] + rest[0]] + rest[1..]
  }

  lemma SplitCons(s: String, sep: char)
    requires s != []
    ensures Split(s, sep) == ConsPiece(s[0], sep, Split(s[1..], sep))
  {
  }

  /** Prepending a character commutes with appending more pieces. */
  lemma ConsPieceAppend(c: char, sep: char, ra: seq<String>, rb: seq<String>)
    requires |ra| > 0
    ensures ConsPiece(c, sep, ra + rb) == ConsPiece(c, sep, ra) + rb
  {
    if c != sep {
      assert (ra + rb)[1..] == ra[1..] + rb;
    }
  }

  /** Splitting at a separator splits the pieces: the pieces of `a + sep + b`
      are those of `a` followed by those of `b`. */
  lemma {:induction false} SplitAppend(a: String, b: String, sep: char)
    ensures Split(a + [sep] + b, sep) == Split(a, sep) + Split(b, sep)
    decreases |a|
  {
    var s := a + [sep] + b;
    if a == [] {
      assert s[1..] == b;
    } else {
      var a1, s1 := a[1..], s[1..];
      assert s[0] == a[0] && s1 == a1 + [sep] + b;
      SplitAppend(a1, b, sep);
      SplitCons(s, sep);
      SplitCons(a, sep);
      ConsPieceAppend(a[0], sep, Split(a1, sep), Split(b, sep));
    }
  }

  /** A string without the separator is a single piece. */
  lemma {:induction false} SplitSingle(s: String, sep: char)
    requires sep !in s
    ensures Split(s, sep) == [s]
  {
    if s != [] {
      assert sep !in s[1..];
      SplitSingle(s[1..], sep);
      assert [s[0]] + s[1..] == s;
    }
  }

  /** Three separator-free pieces joined by the separator split back into
      those three. */
  lemma SplitThree(a: String, b: String, c: String, sep: char)
    requires sep !in a && sep !in b && sep !in c
    ensures Split(a + [sep] + b + [sep] + c, sep) == [a, b, c]
  {
    SplitSingle(a, sep);
    SplitSingle(b, sep);
    SplitSingle(c, sep);
    SplitAppend(b, c, sep);
    SplitAppend(a, b + [sep] + c, sep);
    assert a + [sep] + b + [sep] + c == a + [sep] + (b + [sep] + c);
  }

  /** Joining separator-free pieces and splitting again gives back the pieces. */
  lemma {:induction false} SplitJoin(xs: seq<String>, sep: char)
    requires |xs| > 0
    requires forall k :: 0 <= k < |xs| ==> sep !in xs[k]
    ensures Split(Join(xs, [sep]), sep) == xs
  {
    if |xs| == 1 {
      SplitSingle(xs[0], sep);
    } else {
      SplitJoin(xs[1..], sep);
      SplitSingle(xs[0], sep);
      SplitAppend(xs[0], Join(xs[1..], [sep]), sep);
      assert [xs[0]] + xs[1..] == xs;
    }
  }

  /** Joining two non-empty lists puts one separator between their joins. */
  lemma {:induction false} JoinAppend(a: seq<String>, b: seq<String>, sep: String)
    requires |a| > 0 && |b| > 0
    ensures Join(a + b, sep) == Join(a, sep) + sep + Join(b, sep)
  {
    if |a| == 1 {
      assert (a + b)[1..] == b;
    } else {
      JoinAppend(a[1..], b, sep);
      assert (a + b)[1..] == a[1..] + b;
    }
  }

  /** The pieces of every string of `xs`, one list after another. */
  function SplitAll(xs: seq<String>, sep: char): (r: seq<String>)
    ensures |r| >= |xs|
  {
    if xs == [] then [] else Split(xs[0], sep) + SplitAll(xs[1..], sep)
  }

  /** Splitting a join at its own separator splits every joined string in
      turn: `xs.join(sep).split(sep)` is the pieces of each element, in order. */
  lemma {:induction false} SplitOverJoin(xs: seq<String>, sep: char)
    requires |xs| > 0
    ensures Split(Join(xs, [sep]), sep) == SplitAll(xs, sep)
  {
    if |xs| == 1 {
      assert SplitAll(xs[1..], sep) == [];
    } else {
      SplitOverJoin(xs[1..], sep);
      SplitAppend(xs[0], Join(xs[1..], [sep]), sep);
    }
  }

  /** Where an occurrence sits once more text is put before or after. */
  lemma OccursAfter(a: String, b: String, t: String, i: int)
    requires OccursAt(b, t, i)
    ensures OccursAt(a + b, t, |a| + i)
  {
    assert (a + b)[|a| + i..|a| + i + |t|] == b[i..i + |t|];
  }

  lemma OccursBefore(a: String, b: String, t: String, i: int)
    requires OccursAt(a, t, i)
    ensures OccursAt(a + b, t, i)
  {
    assert (a + b)[i..i + |t|] == a[i..i + |t|];
  }

  /** Where `trim()` cut the string: `Trim(s)` is the slice of `s` from
      index `i` on, with only white space before and after it. */
  lemma TrimOffset(s: String) returns (i: nat)
    ensures i + |Trim(s)| <= |s| && Trim(s) == s[i..i + |Trim(s)|]
    ensures AllSpace(s[..i]) && AllSpace(s[i + |Trim(s)|..])
  {
    i := LeadingSpace(s);
    var t := TrimStart(s);
    var m := |t| - TrailingSpace(t);
    LeadingSpaceRun(s);
    TrailingSpaceRun(t);
    assert Trim(s) == t[..m];
    assert t[..m] == s[i..i + m];
    var after := s[i + m..];
    forall k | 0 <= k < |after|
      ensures IsSpace(after[k])
    {
      assert after[k] == t[m + k];
    }
  }

  /** A run of white space at the front ends before the first other
      character. */
  lemma SpacePrefixBound(s: String, i: nat, j: int)
    requires i <= |s| && AllSpace(s[..i])
    requires 0 <= j < |s| && !IsSpace(s[j])
    ensures i <= j
  {
  }

  /** A run of white space at the end starts after the last other
      character. */
  lemma SpaceSuffixBound(s: String, e: nat, j: int)
    requires e <= |s| && AllSpace(s[e..])
    requires 0 <= j < |s| && !IsSpace(s[j])
    ensures j < e
  {
  }

  /** Cutting only white space off both ends of `s` never cuts into a piece
      of text that starts and ends with other characters: it occurs in what
      is left too, moved by the white space cut from the front. */
  lemma OccursInTrimmed(s: String, r: String, i: nat, t: String, p: int)
    requires i + |r| <= |s| && r == s[i..i + |r|]
    requires AllSpace(s[..i]) && AllSpace(s[i + |r|..])
    requires OccursAt(s, t, p) && t != [] && !IsSpace(t[0]) && !IsSpace(t[|t| - 1])
    ensures p >= i && OccursAt(r, t, p - i)
  {
    assert s[p] == t[0];
    assert p >= i;
    var q := p + |t| - 1;
    assert s[q] == t[|t| - 1];
    assert q < i + |r|;
    var u := r[p - i..p - i + |t|];
    forall k | 0 <= k < |t|
      ensures u[k] == t[k]
    {
      assert u[k] == r[p - i + k] == s[p + k];
      assert s[p..p + |t|][k] == s[p + k];
    }
    assert u == t;
  }

  /** Cutting only white space off both ends of a text that holds pieces
      starting and ending with other characters keeps them all, each moved
      back by the white space cut from the front. */
  lemma TrimmedKeepsPieces(s: String, r: String, i: nat, hs: seq<String>, ps: seq<int>)
    requires i + |r| <= |s| && r == s[i..i + |r|]
    requires AllSpace(s[..i]) && AllSpace(s[i + |r|..])
    requires |ps| == |hs|
    requires forall k :: 0 <= k < |hs| ==> hs[k] != [] && !IsSpace(hs[k][0]) && !IsSpace(hs[k][|hs[k]| - 1])
    requires forall k :: 0 <= k < |hs| ==> OccursAt(s, hs[k], ps[k])
    ensures forall k :: 0 <= k < |hs| ==> i <= ps[k] && OccursAt(r, hs[k], ps[k] - i)
  {
    forall k | 0 <= k < |hs|
      ensures i <= ps[k] && OccursAt(r, hs[k], ps[k] - i)
    {
      var h, p := hs[k], ps[k];
      assert h != [] && !IsSpace(h[0]) && !IsSpace(h[|h| - 1]);
      assert OccursAt(s, h, p);
      OccursInTrimmed(s, r, i, h, p);
    }
  }

  /** The pieces `hs` occur in `doc` at increasing positions, in their order. */
  ghost predicate InOrder(doc: String, hs: seq<String>)
  {
    exists ps: seq<int> ::
      && |ps| == |hs|
      && (forall k :: 0 < k < |ps| ==> ps[k - 1] < ps[k])
      && (forall k :: 0 <= k < |hs| ==> OccursAt(doc, hs[k], ps[k]))
  }

  /** Pieces found at increasing positions, all moved back by the same
      amount, are still in order. */
  lemma ShiftedInOrder(t: String, hs: seq<String>, ps: seq<int>, i: int)
    requires |ps| == |hs| && forall k :: 0 < k < |ps| ==> ps[k - 1] < ps[k]
    requires forall k :: 0 <= k < |hs| ==> OccursAt(t, hs[k], ps[k] - i)
    ensures InOrder(t, hs)
  {
    var qs := seq(|ps|, k requires 0 <= k < |ps| => ps[k] - i);
    assert forall k :: 0 < k < |qs| ==> qs[k - 1] < qs[k];
    assert forall k :: 0 <= k < |hs| ==> OccursAt(t, hs[k], qs[k]);
  }

  /** A text holding pieces that start and end with other characters than
      white space, at increasing positions, still holds them in that order
      once trimmed. */
  lemma TrimKeepsOrder(s: String, hs: seq<String>, ps: seq<int>)
    requires |ps| == |hs| && forall k :: 0 < k < |ps| ==> ps[k - 1] < ps[k]
    requires forall k :: 0 <= k < |hs| ==> hs[k] != [] && !IsSpace(hs[k][0]) && !IsSpace(hs[k][|hs[k]| - 1])
    requires forall k :: 0 <= k < |hs| ==> OccursAt(s, hs[k], ps[k])
    ensures InOrder(Trim(s), hs)
  {
    var i := TrimOffset(s);
    TrimmedKeepsPieces(s, Trim(s), i, hs, ps);
    ShiftedInOrder(Trim(s), hs, ps, i);
  }

  /** When a text starts with one line break and then no white space, and
      has other characters than white space after its first `|top|`,
      trimming it cuts only that line break off those first characters. */
  lemma TrimCutsOneBreak(s: String, top: String, q: int)
    requires top <= s && |top| >= 2 && top[0] == '\n' && !IsSpace(top[1])
    requires |top| <= q < |s| && !IsSpace(s[q])
    ensures top[1..] <= Trim(s)
  {
    var i := TrimOffset(s);
    var t := Trim(s);
    assert s[1] == top[1];
    SpacePrefixBound(s, i, 1);
    SpaceSuffixBound(s, i + |t|, q);
    assert t[0] == s[i];
    assert IsSpace(s[0]) by {
      assert s[0] == top[0];
    }
    assert i == 1;
    assert |top| - 1 <= |t|;
    forall k | 0 <= k < |top| - 1
      ensures t[k] == top[k + 1]
    {
      assert t[k] == s[k + 1] == top[k + 1];
    }
  }

  /** `s.replace(pat, rep)` with a string pattern: only the first occurrence
      is replaced, and a string without one is returned unchanged. The
      replacement is taken literally: the `$` patterns JavaScript expands in
      it (`$&`, `$$`, ...) are not modelled, which is exact for a `rep`
      without `$`, such as the `"_"` of the file name. */
  function ReplaceFirst(s: String, pat: String, rep: String): String
  {
    if pat <= s then rep + s[|pat|..]
    else if s == [] then s
    else [s[0]] + ReplaceFirst(s[1..], pat, rep)
  }

  /** A one-character pattern that does not occur leaves the string unchanged. */
  lemma {:induction false} ReplaceFirstAbsent(s: String, c: char, d: char)
    requires c !in s
    ensures ReplaceFirst(s, [c], [d]) == s
  {
    if s != [] {
      assert s[0] != c;
      assert s[..1] == [s[0]];
      assert c !in s[1..];
      ReplaceFirstAbsent(s[1..], c, d);
      assert [s[0]] + s[1..] == s;
    }
  }

  /** A one-character pattern is replaced at its first occurrence, and the
      rest of the string is kept as it was. */
  lemma {:induction false} ReplaceFirstAt(s: String, c: char, d: char, i: nat)
    requires i < |s| && s[i] == c && c !in s[..i]
    ensures ReplaceFirst(s, [c], [d]) == s[..i] + [d] + s[i + 1..]
  {
    if i == 0 {
      assert [c] <= s;
    } else {
      assert s[..i][0] == s[0];
      assert s[0] != c;
      assert s[..1] == [s[0]];
      assert s[1..][..i - 1] == s[1..i];
      ReplaceFirstAt(s[1..], c, d, i - 1);
      assert s[1..][i..] == s[i + 1..];
      assert s[..i] == [s[0]] + s[1..i];
    }
  }
}
