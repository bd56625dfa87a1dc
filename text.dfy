// The optional value used wherever the watcher may produce nothing.
module Wrappers {
  datatype Option<+T> = None | Some(value: T)
}

/**
 * The handful of Python `str` operations the watcher relies on, with their
 * Python semantics: `strip`, `startswith`, `replace` and `str(int)`.
 */
module Text {

  /** The characters for which Python's `str.isspace()` holds; `strip()` with no argument removes these. */
  const Whitespace: set<char> := {
    '\t', '\n', '\U{000B}', '\U{000C}', '\r', '\U{001C}', '\U{001D}', '\U{001E}', '\U{001F}', ' ',
    '\U{0085}', '\U{00A0}', '\U{1680}', '\U{2000}', '\U{2001}', '\U{2002}', '\U{2003}', '\U{2004}',
    '\U{2005}', '\U{2006}', '\U{2007}', '\U{2008}', '\U{2009}', '\U{200A}', '\U{2028}', '\U{2029}',
    '\U{202F}', '\U{205F}', '\U{3000}'
  }

  /** Removes every leading character that belongs to `cs`. */
  function TrimStart(s: string, cs: set<char>): (r: string)
    ensures |r| <= |s| && r == s[|s| - |r|..]
    ensures forall k :: 0 <= k < |s| - |r| ==> s[k] in cs
    ensures r != [] ==> r[0] !in cs
    decreases |s|
  {
    if s != [] && s[0] in cs then TrimStart(s[1..], cs) else s
  }

  /** Removes every trailing character that belongs to `cs`. */
  function TrimEnd(s: string, cs: set<char>): (r: string)
    ensures |r| <= |s| && r == s[..|r|]
    ensures forall k :: |r| <= k < |s| ==> s[k] in cs
    ensures r != [] ==> r[|r| - 1] !in cs
    decreases |s|
  {
    if s != [] && s[|s| - 1] in cs then TrimEnd(s[..|s| - 1], cs) else s
  }

  /**
   * Python's `s.strip(chars)` with `chars` given as the set `cs`: the longest
   * slice of `s` whose ends are outside `cs`, obtained by cutting only
   * characters of `cs` from either end.
   */
  function Strip(s: string, cs: set<char>): (r: string)
    ensures exists i, j :: 0 <= i <= j <= |s| && r == s[i..j]
                        && (forall k :: 0 <= k < i ==> s[k] in cs)
                        && (forall k :: j <= k < |s| ==> s[k] in cs)
    ensures r != [] ==> r[0] !in cs && r[|r| - 1] !in cs
  {
    var t := TrimStart(s, cs);
    var r := TrimEnd(t, cs);
    var i := |s| - |t|;
    assert r == s[i..i + |r|];
    r
  }

  /** `Strip` gives a slice of `s`, and leaves nothing exactly when every character belongs to `cs`. */
  lemma StripBlank(s: string, cs: set<char>)
    ensures exists i, j :: 0 <= i <= j <= |s| && Strip(s, cs) == s[i..j]
    ensures Strip(s, cs) == [] <==> forall k :: 0 <= k < |s| ==> s[k] in cs
  {
    var r := Strip(s, cs);
    var i, j :| 0 <= i <= j <= |s| && r == s[i..j]
             && (forall k :: 0 <= k < i ==> s[k] in cs)
             && (forall k :: j <= k < |s| ==> s[k] in cs);
    if r != [] {
      assert r[0] == s[i] && s[i] !in cs;
    } else {
      assert i == j;
    }
  }

  /** A string whose ends are already outside `cs` is left alone by `Strip`. */
  lemma {:induction false} StripKeepsStripped(s: string, cs: set<char>)
    requires s != [] ==> s[0] !in cs && s[|s| - 1] !in cs
    ensures Strip(s, cs) == s
  {
    assert TrimStart(s, cs) == s;
    assert TrimEnd(s, cs) == s;
  }

  /** Stripping twice with the same characters is the same as stripping once. */
  lemma {:induction false} StripIdempotent(s: string, cs: set<char>)
    ensures Strip(Strip(s, cs), cs) == Strip(s, cs)
  {
    StripKeepsStripped(Strip(s, cs), cs);
  }

  /** Stripping never introduces a character: one absent from `s` is absent from the result. */
  lemma StripAbsent(s: string, cs: set<char>, x: char)
    requires x !in s
    ensures x !in Strip(s, cs)
  {
    var r := Strip(s, cs);
    var i, j :| 0 <= i <= j <= |s| && r == s[i..j];
    forall k | 0 <= k < |r| ensures r[k] != x {
      assert r[k] == s[i + k];
    }
  }

  /** Python's `s.startswith(prefix)`: a case-sensitive comparison of the first characters. */
  predicate StartsWith(s: string, prefix: string) {
    |prefix| <= |s| && s[..|prefix|] == prefix
  }

  /** `token` occurs in `s` at position `i`. */
  predicate OccursAt(s: string, token: string, i: nat) {
    i + |token| <= |s| && s[i..i + |token|] == token
  }

  /** Python's `token in s`. */
  predicate Contains(s: string, token: string) {
    exists i: nat | i <= |s| :: OccursAt(s, token, i)
  }

  /**
   * Python's `s.replace(token, value)` for a non-empty `token`: scan from the
   * left and replace each occurrence, resuming after it, so occurrences never
   * overlap and text already inserted is not scanned again by the same call.
   */
  function ReplaceAll(s: string, token: string, value: string): string
    requires token != []
    decreases |s|
  {
    if |s| < |token| then s
    else if s[..|token|] == token then value + ReplaceAll(s[|token|..], token, value)
    else [s[0]] + ReplaceAll(s[1..], token, value)
  }

  /** Replacing a token that does not occur leaves the string as it was. */
  lemma {:induction false} ReplaceAllAbsent(s: string, token: string, value: string)
    requires token != [] && !Contains(s, token)
    ensures ReplaceAll(s, token, value) == s
    decreases |s|
  {
    if |s| >= |token| {
      assert !OccursAt(s, token, 0);
      assert !Contains(s[1..], token) by {
        forall i: nat | OccursAt(s[1..], token, i) ensures false {
          assert s[1..][i..i + |token|] == s[i + 1..i + 1 + |token|];
          assert OccursAt(s, token, i + 1);
        }
      }
      ReplaceAllAbsent(s[1..], token, value);
    }
  }

  /** Replacing a token by itself is the identity: `s.replace(t, t) == s`. */
  lemma {:induction false} ReplaceAllSelf(s: string, token: string)
    requires token != []
    ensures ReplaceAll(s, token, token) == s
    decreases |s|
  {
    if |s| < |token| {
    } else if s[..|token|] == token {
      ReplaceAllSelf(s[|token|..], token);
      assert s == s[..|token|] + s[|token|..];
    } else {
      ReplaceAllSelf(s[1..], token);
      assert s == [s[0]] + s[1..];
    }
  }

  /**
   * A prefix `a` in which no occurrence of `token` can start is copied
   * unchanged: none of its characters after the first is `token[0]`, and
   * `a + b` itself does not start with `token`.
   */
  lemma {:induction false} ReplaceAllSkips(a: string, b: string, token: string, value: string)
    requires token != []
    requires a != [] ==> token[0] !in a[1..] && !StartsWith(a + b, token)
    ensures ReplaceAll(a + b, token, value) == a + ReplaceAll(b, token, value)
    decreases |a|
  {
    if a != [] {
      var s := a + b;
      if |s| < |token| {
        assert |b| < |token| && ReplaceAll(b, token, value) == b;
      } else {
        assert s[..|token|] != token;
        assert s[1..] == a[1..] + b;
        assert ReplaceAll(s, token, value) == [a[0]] + ReplaceAll(a[1..] + b, token, value);
        assert a == [a[0]] + a[1..];
        if |a| > 1 {
          assert a[1..][0] == a[1];
          assert a[1] != token[0];
          assert (a[1..] + b)[0] == a[1];
          assert a[1..][1..] == a[2..];
          assert token[0] !in a[1..][1..];
          ReplaceAllSkips(a[1..], b, token, value);
        } else {
          assert a[1..] + b == b;
        }
      }
    } else {
      assert a + b == b;
    }
  }

  /** The decimal digit character for `d`. */
  function DigitChar(d: nat): (c: char)
    requires d < 10
    ensures '0' <= c <= '9' && c as int - '0' as int == d
  {
    (d + '0' as int) as char
  }

  predicate IsDigits(s: string) {
    forall k :: 0 <= k < |s| ==> '0' <= s[k] <= '9'
  }

  /** Python's `str(n)` for a natural number: decimal digits, no leading zero. */
  function NatToString(n: nat): (r: string)
    ensures r != [] && IsDigits(r)
    ensures r[0] == '0' ==> n == 0
    decreases n
  {
    if n < 10 then [DigitChar(n)] else NatToString(n / 10) + [DigitChar(n % 10)]
  }

  /** Python's `str(i)` for any integer: a minus sign before the digits of a negative value. */
  function IntToString(i: int): string {
    if i < 0 then "-" + NatToString(-i) else NatToString(i)
  }

  /** The number a string of decimal digits denotes, read most significant digit first. */
  function DecimalValue(s: string): nat
    requires IsDigits(s)
    decreases |s|
  {
    if s == [] then 0 else DecimalValue(s[..|s| - 1]) * 10 + (s[|s| - 1] as int - '0' as int)
  }

  /** `NatToString` loses nothing: reading its digits back gives the number. */
  lemma {:induction false} NatToStringRoundTrip(n: nat)
    ensures DecimalValue(NatToString(n)) == n
    decreases n
  {
    var r := NatToString(n);
    if n >= 10 {
      NatToStringRoundTrip(n / 10);
      assert r[..|r| - 1] == NatToString(n / 10);
    }
  }
}
