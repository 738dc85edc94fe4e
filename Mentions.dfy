/**
 * Mention tokens and their resolution (discord_agent.py, get_user_by_id,
 * get_channel_by_id, get_user_mentions, get_channel_mentions).
 *
 * A token such as `<@123>`, `<#456>` or `@123` is reduced to its digit
 * characters; the digits are read as a decimal id, and the id is looked up
 * in the platform's directory. A token with no digit yields None (Python's
 * `int("")` raises ValueError, which the source turns into None).
 */
module Mentions {
  import opened Wrappers

  /** An ASCII decimal digit. */
  predicate IsDigit(c: char) {
    '0' <= c <= '9'
  }

  predicate AllDigits(s: string) {
    forall i :: 0 <= i < |s| ==> IsDigit(s[i])
  }

  /** `"".join(filter(str.isdigit, s))`: the digit characters of `s`, in order. */
  function DigitsOf(s: string): (r: string)
    ensures |r| <= |s|
    ensures AllDigits(r)
  {
    if s == [] then [] else (if IsDigit(s[0]) then [s[0]] else []) + DigitsOf(s[1..])
  }

  /** Nothing is left exactly when the token has no digit at all. */
  lemma {:induction false} DigitsOfEmpty(s: string)
    ensures DigitsOf(s) == [] <==> forall i :: 0 <= i < |s| ==> !IsDigit(s[i])
  {
    if s != [] {
      DigitsOfEmpty(s[1..]);
      assert forall i :: 1 <= i < |s| ==> s[i] == s[1..][i - 1];
    }
  }

  /** Filtering distributes over concatenation: together with the behaviour on
      one character this says DigitsOf keeps exactly the digits, in order. */
  lemma {:induction false} DigitsOfConcat(a: string, b: string)
    ensures DigitsOf(a + b) == DigitsOf(a) + DigitsOf(b)
  {
    if a == [] {
      assert a + b == b;
    } else {
      var c := a + b;
      assert c[0] == a[0] && c[1..] == a[1..] + b;
      var head := if IsDigit(a[0]) then [a[0]] else [];
      assert DigitsOf(c) == head + DigitsOf(a[1..] + b);
      DigitsOfConcat(a[1..], b);
      assert DigitsOf(a) == head + DigitsOf(a[1..]);
    }
  }

  /** A string made only of digits is kept whole. */
  lemma {:induction false} DigitsOfDigits(s: string)
    requires AllDigits(s)
    ensures DigitsOf(s) == s
  {
    if s != [] {
      DigitsOfDigits(s[1..]);
      assert [s[0]] + s[1..] == s;
    }
  }

  function DigitValue(c: char): (d: nat)
    requires IsDigit(c)
    ensures d < 10
  {
    (c as int) - ('0' as int)
  }

  function DigitChar(d: nat): (c: char)
    requires d < 10
    ensures IsDigit(c) && DigitValue(c) == d
  {
    ('0' as int + d) as char
  }

  /** Python's `int(ds)` on a non-empty string of ASCII digits (leading zeros allowed). */
  function DecimalValue(ds: string): (r: nat)
    requires AllDigits(ds)
    ensures ds != [] ==> r % 10 == DigitValue(ds[|ds| - 1])
    ensures ds != [] && ds[0] == '0' ==> r == DecimalValue(ds[1..])
  {
    if ds == [] then 0
    else
      var front := ds[..|ds| - 1];
      assert |ds| > 1 ==> front[1..] == ds[1..][..|ds| - 2];
      DecimalValue(front) * 10 + DigitValue(ds[|ds| - 1])
  }

  /** Python's `str(n)` for a natural number: its decimal digits, no leading zero. */
  function ShowNat(n: nat): (r: string)
    ensures r != [] && AllDigits(r)
    ensures r[0] != '0' || n == 0
  {
    if n < 10 then [DigitChar(n)] else ShowNat(n / 10) + [DigitChar(n % 10)]
  }

  /** Reading back the decimal form of `n` gives `n`. */
  lemma {:induction false} DecimalValueShowNat(n: nat)
    ensures DecimalValue(ShowNat(n)) == n
  {
    if n >= 10 {
      var s := ShowNat(n);
      assert s[..|s| - 1] == ShowNat(n / 10);
      DecimalValueShowNat(n / 10);
    }
  }

  /** The id a token denotes: the value of its digits, or None when it has none. */
  function ParseId(token: string): (r: Option<nat>)
    ensures r.None? <==> forall i :: 0 <= i < |token| ==> !IsDigit(token[i])
  {
    DigitsOfEmpty(token);
    var ds := DigitsOf(token);
    if ds == [] then None else Some(DecimalValue(ds))
  }

  /** The platform's way to mention a user (`<@id>`) or a channel (`<#id>`)
      parses back to that id, and so does a bare `@id`. */
  lemma ParseIdOfMention(prefix: string, n: nat, suffix: string)
    requires forall i :: 0 <= i < |prefix| ==> !IsDigit(prefix[i])
    requires forall i :: 0 <= i < |suffix| ==> !IsDigit(suffix[i])
    ensures ParseId(prefix + ShowNat(n) + suffix) == Some(n)
  {
    var digits := ShowNat(n);
    DigitsOfConcat(prefix, digits);
    DigitsOfConcat(prefix + digits, suffix);
    DigitsOfDigits(digits);
    DigitsOfEmpty(prefix);
    DigitsOfEmpty(suffix);
    assert DigitsOf(prefix + digits) == digits;
    assert DigitsOf(prefix + digits + suffix) == digits;
    DecimalValueShowNat(n);
  }

  /** get_user_by_id / get_channel_by_id: the directory entry the token's id
      names, or None when the token has no digit or the id is unknown. */
  function Lookup<T(==)>(directory: map<nat, T>, token: string): (r: Option<T>)
    ensures r.Some? <==> ParseId(token).Some? && ParseId(token).value in directory
    ensures r.Some? ==> r.value == directory[ParseId(token).value] && r.value in directory.Values
  {
    match ParseId(token)
    case None => None
    case Some(id) => if id in directory then Some(directory[id]) else None
  }

  /** What get_user_mentions / get_channel_mentions build: the lookups that
      succeed, in token order. */
  function Resolved<T(==)>(directory: map<nat, T>, tokens: seq<string>): (r: seq<T>)
    ensures |r| <= |tokens|
    ensures forall k :: 0 <= k < |r| ==> r[k] in directory.Values
    ensures r == [] <==> forall k :: 0 <= k < |tokens| ==> Lookup(directory, tokens[k]).None?
  {
    if tokens == [] then []
    else
      var last := tokens[|tokens| - 1];
      var front := tokens[..|tokens| - 1];
      assert forall k :: 0 <= k < |front| ==> front[k] == tokens[k];
      Resolved(directory, front) + (match Lookup(directory, last) case Some(v) => [v] case None => [])
  }

  /** A single token resolves to exactly what its own lookup finds. With
      ResolvedConcat this determines the resolution of every list. */
  lemma ResolvedSingle<T>(directory: map<nat, T>, token: string)
    ensures Resolved(directory, [token]) == (match Lookup(directory, token) case Some(v) => [v] case None => [])
  {
    assert [token][..0] == [];
  }

  /** Resolution is order-preserving: resolving two runs of tokens one after
      the other is resolving their concatenation. */
  lemma {:induction false} ResolvedConcat<T>(directory: map<nat, T>, a: seq<string>, b: seq<string>)
    ensures Resolved(directory, a + b) == Resolved(directory, a) + Resolved(directory, b)
  {
    if b == [] {
      assert a + b == a;
    } else {
      var b' := b[..|b| - 1];
      assert (a + b)[..|a + b| - 1] == a + b';
      ResolvedConcat(directory, a, b');
    }
  }

  /** The for-append loop of get_user_mentions / get_channel_mentions. */
  method ResolveTokens<T(==)>(directory: map<nat, T>, tokens: seq<string>) returns (found: seq<T>)
    ensures found == Resolved(directory, tokens)
  {
    found := [];
    for i := 0 to |tokens|
      invariant found == Resolved(directory, tokens[..i])
    {
      assert tokens[..i + 1][..i] == tokens[..i];
      var hit := Lookup(directory, tokens[i]);
      if hit.Some? {
        found := found + [hit.value];
      }
    }
    assert tokens[..|tokens|] == tokens;
  }
}
