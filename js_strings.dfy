/**
 * The JavaScript string operations both scripts rely on, over Dafny's
 * `string` (sequences of Unicode scalar values): `trim`, `startsWith`,
 * `includes`, `substring(0, n)` and the rendering of a status number
 * inside a template literal.
 */
module JsStrings {

  /** The characters `String.prototype.trim` removes: ECMAScript's
      WhiteSpace (tab, vertical tab, form feed, space, no-break space,
      byte-order mark and every space separator) and LineTerminator. */
  predicate IsTrimmable(c: char) {
    || c == '\t' || c == '\n' || c == '\U{000B}' || c == '\U{000C}' || c == '\r'
    || c == ' ' || c == '\U{00A0}' || c == '\U{1680}'
    || ('\U{2000}' <= c <= '\U{200A}')
    || c == '\U{2028}' || c == '\U{2029}' || c == '\U{202F}' || c == '\U{205F}'
    || c == '\U{3000}' || c == '\U{FEFF}'
  }

  ghost predicate AllTrimmable(s: string) {
    forall k :: 0 <= k < |s| ==> IsTrimmable(s[k])
  }

  /** Neither end of `s` is a character that `trim` would remove. */
  ghost predicate Trimmed(s: string) {
    s == [] || (!IsTrimmable(s[0]) && !IsTrimmable(s[|s| - 1]))
  }

  /** `t` occurs in `s` at `i`, with only trimmable characters around it. */
  ghost predicate PaddedAt(s: string, t: string, i: int) {
    && 0 <= i <= |s| - |t|
    && AllTrimmable(s[..i])
    && s[i..i + |t|] == t
    && AllTrimmable(s[i + |t|..])
  }

  function TrimStart(s: string): (r: string)
    ensures |r| <= |s| && r == s[|s| - |r|..]
    ensures AllTrimmable(s[..|s| - |r|])
    ensures r != [] ==> !IsTrimmable(r[0])
  {
    if s != [] && IsTrimmable(s[0]) then
      var r := TrimStart(s[1..]);
      assert s[..|s| - |r|] == [s[0]] + s[1..][..|s| - 1 - |r|];
      r
    else s
  }

  function TrimEnd(s: string): (r: string)
    ensures |r| <= |s| && r == s[..|r|]
    ensures AllTrimmable(s[|r|..])
    ensures r != [] ==> !IsTrimmable(r[|r| - 1])
  {
    if s != [] && IsTrimmable(s[|s| - 1]) then
      var r := TrimEnd(s[..|s| - 1]);
      assert s[|r|..] == s[..|s| - 1][|r|..] + [s[|s| - 1]];
      r
    else s
  }

  /** `s.trim()`: the result sits inside `s` with only trimmable characters
      around it, and neither of its ends is trimmable. */
  function Trim(s: string): (r: string)
    ensures Trimmed(r)
    ensures PaddedAt(s, r, |s| - |TrimStart(s)|)
  {
    var u := TrimStart(s);
    var r := TrimEnd(u);
    PaddedWithin(s, |s| - |u|, u, r);
    r
  }

  /** Padding found in a suffix is padding in the whole string. */
  lemma PaddedWithin(s: string, i: int, u: string, r: string)
    requires 0 <= i <= |s| && u == s[i..] && AllTrimmable(s[..i])
    requires |r| <= |u| && r == u[..|r|] && AllTrimmable(u[|r|..])
    ensures PaddedAt(s, r, i)
  {
    assert s[i..i + |r|] == u[..|r|];
    assert s[i + |r|..] == u[|r|..];
  }

  lemma {:induction false} TrimStartSkipsPadding(a: string, x: string)
    requires AllTrimmable(a)
    requires x == [] || !IsTrimmable(x[0])
    ensures TrimStart(a + x) == x
    decreases |a|
  {
    if a != [] {
      assert (a + x)[1..] == a[1..] + x;
      TrimStartSkipsPadding(a[1..], x);
    }
  }

  lemma {:induction false} TrimEndSkipsPadding(x: string, b: string)
    requires AllTrimmable(b)
    requires x == [] || !IsTrimmable(x[|x| - 1])
    ensures TrimEnd(x + b) == x
    decreases |b|
  {
    if b != [] {
      assert (x + b)[..|x + b| - 1] == x + b[..|b| - 1];
      TrimEndSkipsPadding(x, b[..|b| - 1]);
    }
  }

  /** Trimming strips exactly the padding: `trim` of a trimmed string
      surrounded by whitespace is that string. */
  lemma TrimOfPadded(a: string, t: string, b: string)
    requires AllTrimmable(a) && AllTrimmable(b) && Trimmed(t)
    ensures Trim(a + t + b) == t
  {
    if t == [] {
      assert a + t + b == a + b;
      TrimStartSkipsPadding(a + b, []);
      assert a + b + [] == a + b;
    } else {
      assert a + t + b == a + (t + b);
      TrimStartSkipsPadding(a, t + b);
      TrimEndSkipsPadding(t, b);
    }
  }

  /** Together with Trim's own contract, this determines `trim` completely:
      the trimmed string found padded inside `s` is `Trim(s)`. */
  lemma TrimUnique(s: string, t: string, i: int)
    requires PaddedAt(s, t, i) && Trimmed(t)
    ensures Trim(s) == t
  {
    assert s == s[..i] + t + s[i + |t|..];
    TrimOfPadded(s[..i], t, s[i + |t|..]);
  }

  lemma TrimIdempotent(s: string)
    ensures Trim(Trim(s)) == Trim(s)
  {
    var t := Trim(s);
    assert [] + t + [] == t;
    TrimOfPadded([], t, []);
  }

  /** `s.startsWith(p)`. */
  predicate StartsWith(s: string, p: string) {
    |p| <= |s| && s[..|p|] == p
  }

  ghost predicate OccursAt(s: string, sub: string, i: int) {
    0 <= i <= |s| - |sub| && s[i..i + |sub|] == sub
  }

  /** `s.includes(sub)`: `sub` occurs somewhere in `s`. */
  function Includes(s: string, sub: string): (b: bool)
    ensures b <==> exists i :: OccursAt(s, sub, i)
    decreases |s|
  {
    if StartsWith(s, sub) then
      assert OccursAt(s, sub, 0);
      true
    else if |sub| < |s| then
      var b := Includes(s[1..], sub);
      assert forall i :: OccursAt(s[1..], sub, i) <==> OccursAt(s, sub, i + 1);
      assert forall i :: OccursAt(s, sub, i) ==> i == 0 || OccursAt(s[1..], sub, i - 1);
      b
    else
      assert !OccursAt(s, sub, 0);
      false
  }

  lemma IncludesInfix(a: string, sub: string, b: string)
    ensures Includes(a + sub + b, sub)
  {
    assert OccursAt(a + sub + b, sub, |a|);
  }

  /** `s.substring(0, n)`: the first `n` characters, or all of a shorter `s`. */
  function Truncate(s: string, n: nat): (r: string)
    ensures |r| == if |s| <= n then |s| else n
    ensures r == s[..|r|]
  {
    if |s| <= n then s else s[..n]
  }

  predicate IsDigit(c: char) {
    '0' <= c <= '9'
  }

  ghost predicate AllDigits(s: string) {
    forall k :: 0 <= k < |s| ==> IsDigit(s[k])
  }

  function DigitChar(d: nat): (c: char)
    requires d < 10
    ensures IsDigit(c) && c as int - '0' as int == d
  {
    ('0' as int + d) as char
  }

  /** The decimal rendering of a number in a template literal (`${status}`). */
  function NatToString(n: nat): (s: string)
    ensures s != [] && AllDigits(s)
  {
    if n < 10 then [DigitChar(n)] else NatToString(n / 10) + [DigitChar(n % 10)]
  }

  /** The number a string of decimal digits denotes. */
  function DigitsValue(s: string): nat
    requires AllDigits(s)
  {
    if s == [] then 0 else DigitsValue(s[..|s| - 1]) * 10 + (s[|s| - 1] as int - '0' as int)
  }

  lemma {:induction false} NatToStringRoundTrip(n: nat)
    ensures DigitsValue(NatToString(n)) == n
  {
    if n >= 10 {
      var s := NatToString(n);
      assert s[..|s| - 1] == NatToString(n / 10);
      NatToStringRoundTrip(n / 10);
    }
  }

  /** The longest run of digits `s` starts with. */
  function LeadingDigits(s: string): (d: string)
    ensures AllDigits(d) && |d| <= |s| && d == s[..|d|]
  {
    if s != [] && IsDigit(s[0]) then [s[0]] + LeadingDigits(s[1..]) else []
  }

  lemma {:induction false} LeadingDigitsOf(d: string, rest: string)
    requires AllDigits(d)
    requires rest == [] || !IsDigit(rest[0])
    ensures LeadingDigits(d + rest) == d
    decreases |d|
  {
    if d != [] {
      assert (d + rest)[1..] == d[1..] + rest;
      LeadingDigitsOf(d[1..], rest);
    }
  }

  /** A number rendered in front of a space is read back by taking the
      leading digits: the rendering loses nothing. */
  lemma NumberBeforeSpace(n: nat, rest: string)
    ensures DigitsValue(LeadingDigits(NatToString(n) + " " + rest)) == n
  {
    assert NatToString(n) + " " + rest == NatToString(n) + (" " + rest);
    LeadingDigitsOf(NatToString(n), " " + rest);
    NatToStringRoundTrip(n);
  }
}
