/**
 * The few Python string operations the core relies on, with Python's
 * semantics: `str.strip()`, `str.strip(chars)`, `str.split(sep)`,
 * `sep.join(xs)`, `str.startswith(p)` and the substring test `t in s`.
 */
module Text {

  /** The characters for which Python's `str.isspace()` holds; `str.strip()`
      with no argument removes exactly these from both ends. */
  const Whitespace: set<char> := {
    ' ', '\t', '\n', '\r', '\U{0B}', '\U{0C}', '\U{1C}', '\U{1D}', '\U{1E}', '\U{1F}',
    '\U{85}', '\U{A0}', '\U{1680}', '\U{2000}', '\U{2001}', '\U{2002}', '\U{2003}',
    '\U{2004}', '\U{2005}', '\U{2006}', '\U{2007}', '\U{2008}', '\U{2009}', '\U{200A}',
    '\U{2028}', '\U{2029}', '\U{202F}', '\U{205F}', '\U{3000}'
  }

  /** `t` occurs in `s` starting at index `i`. */
  predicate OccursAt(s: string, t: string, i: int) {
    0 <= i && i + |t| <= |s| && s[i..i + |t|] == t
  }

  /** Python's `t in s`. */
  predicate Contains(s: string, t: string)
    ensures Contains(s, t) ==> |t| <= |s|
    ensures t == [] ==> Contains(s, t)
  {
    assert OccursAt(s, t, 0) <== t == [];
    exists i | 0 <= i <= |s| - |t| :: OccursAt(s, t, i)
  }

  /** `t` occurs in any string written around it. */
  lemma ContainsInfix(a: string, t: string, b: string)
    ensures Contains(a + t + b, t)
  {
    var s := a + t + b;
    assert s[|a|..|a| + |t|] == t;
    assert OccursAt(s, t, |a|);
  }

  /** Python's `s.startswith(p)`. */
  predicate StartsWith(s: string, p: string)
    ensures StartsWith(s, p) <==> OccursAt(s, p, 0)
    ensures StartsWith(s, p) ==> Contains(s, p)
  {
    assert OccursAt(s, p, 0) ==> Contains(s, p);
    |p| <= |s| && s[..|p|] == p
  }

  /** A string with no leading and no trailing whitespace. */
  predicate Trimmed(s: string) {
    s == [] || (s[0] !in Whitespace && s[|s| - 1] !in Whitespace)
  }

  /** Python's `s.lstrip(cs)`. */
  function TrimStart(s: string, cs: set<char>): (r: string)
    ensures |r| <= |s|
    ensures r == [] || r[0] !in cs
  {
    if s != [] && s[0] in cs then TrimStart(s[1..], cs) else s
  }

  /** Python's `s.rstrip(cs)`. */
  function TrimEnd(s: string, cs: set<char>): (r: string)
    ensures |r| <= |s| && r == s[..|r|]
    ensures r == [] || r[|r| - 1] !in cs
  {
    if s != [] && s[|s| - 1] in cs then TrimEnd(s[..|s| - 1], cs) else s
  }

  /** `s.lstrip(cs)` is the suffix of `s` left once the leading characters of
      `cs` are removed. */
  lemma {:induction false} TrimStartSuffix(s: string, cs: set<char>)
    ensures var r := TrimStart(s, cs);
      r == s[|s| - |r|..] && forall i :: 0 <= i < |s| - |r| ==> s[i] in cs
  {
    if s != [] && s[0] in cs {
      TrimStartSuffix(s[1..], cs);
    }
  }

  /** `s.rstrip(cs)` removes only trailing characters of `cs`. */
  lemma {:induction false} TrimEndPrefix(s: string, cs: set<char>)
    ensures var r := TrimEnd(s, cs);
      forall i :: |r| <= i < |s| ==> s[i] in cs
  {
    if s != [] && s[|s| - 1] in cs {
      TrimEndPrefix(s[..|s| - 1], cs);
    }
  }

  /** Python's `s.strip(cs)`: neither end of the result is in `cs`. */
  function StripChars(s: string, cs: set<char>): (r: string)
    ensures |r| <= |s|
    ensures r == [] || (r[0] !in cs && r[|r| - 1] !in cs)
  {
    TrimEnd(TrimStart(s, cs), cs)
  }

  /** `s.strip(cs)` is the middle slice `s[a..a + |r|]` of `s`, and everything
      outside that slice is in `cs`. */
  lemma StripCharsSlice(s: string, cs: set<char>)
    ensures var r := StripChars(s, cs);
      var a := |s| - |TrimStart(s, cs)|;
      a + |r| <= |s| && r == s[a..a + |r|] &&
      (forall i :: 0 <= i < a ==> s[i] in cs) &&
      (forall i :: a + |r| <= i < |s| ==> s[i] in cs)
  {
    var t := TrimStart(s, cs);
    var r := TrimEnd(t, cs);
    assert r == StripChars(s, cs);
    TrimStartSuffix(s, cs);
    TrimEndPrefix(t, cs);
    var a := |s| - |t|;
    assert t == s[a..];
    assert r == t[..|r|];
    assert r == s[a..a + |r|];
    forall i | a + |r| <= i < |s| ensures s[i] in cs {
      assert s[i] == t[i - a];
    }
  }

  /** Python's `s.strip()`. */
  function Strip(s: string): (r: string)
    ensures Trimmed(r)
    ensures |r| <= |s|
  {
    StripChars(s, Whitespace)
  }

  /** Stripping a string that is already trimmed leaves it unchanged; in
      particular stripping is idempotent. */
  lemma StripTrimmed(s: string)
    requires Trimmed(s)
    ensures Strip(s) == s
  {
    assert TrimStart(s, Whitespace) == s;
  }

  /** A leading character of `cs` is always removed by `TrimStart`. */
  lemma TrimStartSkips(c: char, x: string, cs: set<char>)
    requires c in cs
    ensures TrimStart([c] + x, cs) == TrimStart(x, cs)
  {
    assert ([c] + x)[1..] == x;
  }

  /** Stripping `" " + x` gives back `x` when `x` is trimmed. */
  lemma StripSpaced(x: string)
    requires Trimmed(x)
    ensures Strip(" " + x) == x
  {
    TrimStartSkips(' ', x, Whitespace);
    StripTrimmed(x);
  }

  /** Python's `s.split(sep)` for a one-character separator: the pieces
      between separators, so always one more piece than separators. */
  function Split(s: string, sep: char): (r: seq<string>)
    ensures |r| >= 1
    ensures forall k :: 0 <= k < |r| ==> sep !in r[k]
  {
    if s == [] then [[]]
    else
      var rest := Split(s[1..], sep);
      if s[0] == sep then [[]] + rest else [[s[0]] + rest[0]] + rest[1..]
  }

  /** There is one more piece than there are separators. */
  lemma {:induction false} SplitCount(s: string, sep: char)
    ensures |Split(s, sep)| == multiset(s)[sep] + 1
  {
    if s != [] {
      SplitCount(s[1..], sep);
      assert s == [s[0]] + s[1..];
    }
  }

  /** The number of characters in all of `xs` together. */
  function TotalLength(xs: seq<string>): (r: nat) {
    if xs == [] then 0 else |xs[0]| + TotalLength(xs[1..])
  }

  /** Python's `sep.join(xs)`: every element once, in order, with one
      separator between neighbours and none at either end. */
  function Join(xs: seq<string>, sep: string): (r: string)
  {
    if xs == [] then []
    else if |xs| == 1 then xs[0]
    else xs[0] + sep + Join(xs[1..], sep)
  }

  /** `sep.join(xs)` holds the characters of the elements and one separator
      between each two neighbours: nothing else. */
  lemma {:induction false} JoinLength(xs: seq<string>, sep: string)
    ensures xs == [] ==> Join(xs, sep) == []
    ensures xs != [] ==> |Join(xs, sep)| == TotalLength(xs) + (|xs| - 1) * |sep|
  {
    if |xs| > 1 {
      JoinLength(xs[1..], sep);
      assert |Join(xs, sep)| == |xs[0]| + |sep| + |Join(xs[1..], sep)|;
    }
  }

  /** Joining the pieces of a split with the separator restores the string. */
  lemma {:induction false} JoinSplit(s: string, sep: char)
    ensures Join(Split(s, sep), [sep]) == s
  {
    if s != [] {
      var rest := Split(s[1..], sep);
      JoinSplit(s[1..], sep);
      assert Join(rest, [sep]) == s[1..];
      assert s == [s[0]] + s[1..];
      if s[0] == sep {
        var r := [[]] + rest;
        assert Split(s, sep) == r;
        assert r[0] == [] && r[1..] == rest;
        assert Join(r, [sep]) == [] + [sep] + Join(rest, [sep]);
      } else if |rest| == 1 {
        assert Split(s, sep) == [[s[0]] + rest[0]];
      } else {
        var r := [[s[0]] + rest[0]] + rest[1..];
        assert Split(s, sep) == r;
        assert r[0] == [s[0]] + rest[0] && r[1..] == rest[1..];
        assert Join(r, [sep]) == [s[0]] + rest[0] + [sep] + Join(rest[1..], [sep]);
        assert Join(rest, [sep]) == rest[0] + [sep] + Join(rest[1..], [sep]);
      }
    }
  }

  /** A string without the separator splits into itself alone. */
  lemma {:induction false} SplitWithoutSeparator(s: string, sep: char)
    requires sep !in s
    ensures Split(s, sep) == [s]
  {
    if s != [] {
      assert sep !in s[1..];
      SplitWithoutSeparator(s[1..], sep);
      assert s == [s[0]] + s[1..];
    }
  }

  /** The separator after a separator-free first piece ends that piece. */
  lemma {:induction false} SplitAfterPiece(a: string, sep: char, b: string)
    requires sep !in a
    ensures Split(a + [sep] + b, sep) == [a] + Split(b, sep)
  {
    var s := a + [sep] + b;
    if a == [] {
      assert s == [sep] + b && s[1..] == b;
    } else {
      assert s[1..] == a[1..] + [sep] + b;
      assert sep !in a[1..];
      SplitAfterPiece(a[1..], sep, b);
      assert [a[0]] + a[1..] == a;
    }
  }

  /** Splitting a join of separator-free pieces gives the pieces back. */
  lemma {:induction false} SplitJoin(xs: seq<string>, sep: char)
    requires xs != []
    requires forall k :: 0 <= k < |xs| ==> sep !in xs[k]
    ensures Split(Join(xs, [sep]), sep) == xs
  {
    if |xs| == 1 {
      SplitWithoutSeparator(xs[0], sep);
    } else {
      SplitJoin(xs[1..], sep);
      SplitAfterPiece(xs[0], sep, Join(xs[1..], [sep]));
      assert [xs[0]] + xs[1..] == xs;
    }
  }
}
