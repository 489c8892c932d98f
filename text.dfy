/**
 * The JavaScript string operations the request handlers rely on:
 * `startsWith`, `includes`, `trim`, `toLowerCase`, `Array.prototype.join`,
 * `a || b` on strings, and the decimal rendering of a non-negative integer
 * in a template literal.
 *
 * Strings are sequences of characters; JavaScript counts UTF-16 code units,
 * which coincide with characters for text in the Basic Multilingual Plane.
 */
module Text {

  /** `s.startsWith(p)` */
  predicate StartsWith(s: string, p: string) {
    |p| <= |s| && s[..|p|] == p
  }

  /** `s.includes(sub)`, scanning the start positions left to right. */
  predicate Includes(s: string, sub: string)
    decreases |s|
  {
    StartsWith(s, sub) || (|s| > 0 && Includes(s[1..], sub))
  }

  /** `sub` occurs in `s` starting at position `i`. */
  predicate OccursAt(s: string, sub: string, i: int) {
    0 <= i <= |s| - |sub| && s[i..i + |sub|] == sub
  }

  /** `s.includes(sub)` holds exactly when `sub` occurs at some position of `s`. */
  lemma {:induction false} IncludesIff(s: string, sub: string)
    ensures Includes(s, sub) <==> exists i :: OccursAt(s, sub, i)
    decreases |s|
  {
    if StartsWith(s, sub) {
      assert OccursAt(s, sub, 0);
    } else if |s| == 0 {
      assert |sub| > 0;
    } else {
      IncludesIff(s[1..], sub);
      var t := s[1..];
      if exists i :: OccursAt(t, sub, i) {
        var i :| OccursAt(t, sub, i);
        assert s[i + 1..i + 1 + |sub|] == t[i..i + |sub|];
        assert OccursAt(s, sub, i + 1);
      }
      if exists i :: OccursAt(s, sub, i) {
        var i :| OccursAt(s, sub, i);
        assert i != 0 by { assert s[..|sub|] == s[0..0 + |sub|]; }
        assert t[i - 1..i - 1 + |sub|] == s[i..i + |sub|];
        assert OccursAt(t, sub, i - 1);
      }
    }
  }

  /**
   * The characters `String.prototype.trim` removes: the ECMAScript
   * WhiteSpace and LineTerminator code points.
   */
  predicate IsJsSpace(c: char) {
    c == '\t' || c == '\n' || c == '\U{000B}' || c == '\U{000C}' || c == '\r' || c == ' '
    || c == '\U{00A0}' || c == '\U{1680}' || ('\U{2000}' <= c <= '\U{200A}')
    || c == '\U{2028}' || c == '\U{2029}' || c == '\U{202F}' || c == '\U{205F}'
    || c == '\U{3000}' || c == '\U{FEFF}'
  }

  /** Drops the longest all-space prefix: the result is the rest of `s`. */
  function TrimStart(s: string): (r: string)
    ensures |r| <= |s| && r == s[|s| - |r|..]
    ensures r == [] || !IsJsSpace(r[0])
    ensures forall i :: 0 <= i < |s| - |r| ==> IsJsSpace(s[i])
  {
    if |s| > 0 && IsJsSpace(s[0]) then TrimStart(s[1..]) else s
  }

  /** Drops the longest all-space suffix: the result is the front of `s`. */
  function TrimEnd(s: string): (r: string)
    ensures |r| <= |s| && r == s[..|r|]
    ensures r == [] || !IsJsSpace(r[|r| - 1])
    ensures forall i :: |r| <= i < |s| ==> IsJsSpace(s[i])
  {
    if |s| > 0 && IsJsSpace(s[|s| - 1]) then TrimEnd(s[..|s| - 1]) else s
  }

  /**
   * `s.trim()`: the result is the slice of `s` left once the spaces before
   * and after it are removed, and neither end of it is a space, so exactly
   * the leading and trailing spaces go. It is empty exactly when `s` holds
   * nothing but spaces.
   */
  function Trim(s: string): (r: string)
    ensures |r| <= |s|
    ensures exists k :: TrimmedAt(s, r, k)
    ensures r == [] || (!IsJsSpace(r[0]) && !IsJsSpace(r[|r| - 1]))
    ensures r == [] <==> forall i :: 0 <= i < |s| ==> IsJsSpace(s[i])
  {
    var t := TrimStart(s);
    var r := TrimEnd(t);
    assert TrimmedAt(s, r, |s| - |t|);
    r
  }

  /** `r` is `s[k..k + |r|]`, and every character of `s` before and after that slice is a space. */
  predicate TrimmedAt(s: string, r: string, k: int) {
    && 0 <= k <= k + |r| <= |s|
    && s[k..k + |r|] == r
    && (forall i :: 0 <= i < k ==> IsJsSpace(s[i]))
    && (forall i :: k + |r| <= i < |s| ==> IsJsSpace(s[i]))
  }

  /** Trimming twice is trimming once. */
  lemma TrimIdempotent(s: string)
    ensures Trim(Trim(s)) == Trim(s)
  {
    TrimKeeps(Trim(s));
  }

  /**
   * `Trim` is the only way to cut `s` into leading spaces, a middle with no
   * space at either end, and trailing spaces: any such middle is `Trim(s)`.
   */
  lemma TrimUnique(s: string, r: string, k: int)
    requires TrimmedAt(s, r, k)
    requires r == [] || (!IsJsSpace(r[0]) && !IsJsSpace(r[|r| - 1]))
    ensures r == Trim(s)
  {
    if r == [] {
      AllSpace(s, k);
    } else {
      var t := Trim(s);
      var j :| TrimmedAt(s, t, j);
      assert s[k] == r[0];
      CutStart(s, r, k, t, j);
      CutEnd(s, r, t, k);
    }
  }

  /** A cut with an empty middle leaves only spaces, so the trim is empty. */
  lemma AllSpace(s: string, k: int)
    requires TrimmedAt(s, [], k)
    ensures Trim(s) == []
  {
    forall i | 0 <= i < |s|
      ensures IsJsSpace(s[i])
    {
      if i >= k { assert k + 0 <= i; }
    }
  }

  /** Two such cuts with non-empty middles start at the first non-space of `s`. */
  lemma CutStart(s: string, r: string, k: int, t: string, j: int)
    requires TrimmedAt(s, r, k) && TrimmedAt(s, t, j) && r != [] && t != []
    requires !IsJsSpace(r[0]) && !IsJsSpace(t[0])
    ensures k == j
  {
    assert s[k] == r[0] && s[j] == t[0];
  }

  /** Two such cuts at the same start with non-empty middles end at the last non-space of `s`. */
  lemma CutEnd(s: string, r: string, t: string, k: int)
    requires TrimmedAt(s, r, k) && TrimmedAt(s, t, k) && r != [] && t != []
    requires !IsJsSpace(r[|r| - 1]) && !IsJsSpace(t[|t| - 1])
    ensures r == t
  {
    assert s[k + |r| - 1] == r[|r| - 1] && s[k + |t| - 1] == t[|t| - 1];
    assert |r| == |t|;
  }

  predicate IsUpper(c: char) {
    'A' <= c <= 'Z'
  }

  /** `toLowerCase` on one character (the ASCII letters; see README). */
  function LowerChar(c: char): (r: char)
    ensures !IsUpper(r)
    ensures IsUpper(c) ==> r as int == c as int + 32
    ensures !IsUpper(c) ==> r == c
    ensures IsJsSpace(r) <==> IsJsSpace(c)
  {
    if IsUpper(c) then (c as int + 32) as char else c
  }

  /**
   * `s.toLowerCase()`: same length, no upper-case letter left, every
   * character that was not an upper-case letter kept as it was.
   */
  function ToLower(s: string): (r: string)
    ensures |r| == |s|
    ensures forall i :: 0 <= i < |r| ==> !IsUpper(r[i])
    ensures forall i :: 0 <= i < |s| && !IsUpper(s[i]) ==> r[i] == s[i]
    ensures forall i :: 0 <= i < |s| ==> (IsJsSpace(r[i]) <==> IsJsSpace(s[i]))
  {
    seq(|s|, i requires 0 <= i < |s| => LowerChar(s[i]))
  }

  /** Lower-casing is idempotent. */
  lemma ToLowerIdempotent(s: string)
    ensures ToLower(ToLower(s)) == ToLower(s)
  {
  }

  /** `email.trim().toLowerCase()`: no white space at either end and no upper-case letter. */
  function NormalizeEmail(email: string): (e: string)
    ensures |e| <= |email|
    ensures e != [] ==> !IsJsSpace(e[0]) && !IsJsSpace(e[|e| - 1])
    ensures forall i :: 0 <= i < |e| ==> !IsUpper(e[i])
  {
    var t := Trim(email);
    var e := ToLower(t);
    assert e != [] ==> IsJsSpace(e[0]) == IsJsSpace(t[0]) && IsJsSpace(e[|e| - 1]) == IsJsSpace(t[|t| - 1]);
    e
  }

  /** A string with no space at either end is its own trim. */
  lemma TrimKeeps(s: string)
    requires s == [] || (!IsJsSpace(s[0]) && !IsJsSpace(s[|s| - 1]))
    ensures Trim(s) == s
  {
    if s != [] {
      assert TrimStart(s) == s;
      assert TrimEnd(s) == s;
    }
  }

  /** A string with no upper-case letter is its own lower case. */
  lemma ToLowerKeeps(s: string)
    requires forall i :: 0 <= i < |s| ==> !IsUpper(s[i])
    ensures ToLower(s) == s
  {
  }

  /** Normalising a normalised e-mail changes nothing. */
  lemma NormalizeEmailIdempotent(email: string)
    ensures NormalizeEmail(NormalizeEmail(email)) == NormalizeEmail(email)
  {
    var e := NormalizeEmail(email);
    TrimKeeps(e);
    ToLowerKeeps(e);
  }

  /** `parts.join(sep)` */
  function Join(parts: seq<string>, sep: string): (r: string)
    ensures |parts| == 0 ==> r == []
    ensures |parts| > 0 ==> StartsWith(r, parts[0])
  {
    if |parts| == 0 then ""
    else if |parts| == 1 then parts[0]
    else parts[0] + sep + Join(parts[1..], sep)
  }

  /** `s || fallback` on a string: the empty string is falsy. */
  function OrElse(s: string, fallback: string): (r: string)
    ensures s != [] ==> r == s
    ensures s == [] ==> r == fallback
  {
    if s == [] then fallback else s
  }

  predicate IsDigit(c: char) {
    '0' as int <= c as int <= '9' as int
  }

  function Digit(d: nat): (c: char)
    requires d < 10
    ensures IsDigit(c) && c as int - '0' as int == d
  {
    ('0' as int + d) as char
  }

  /** `${n}` for a non-negative integer: its decimal digits, no leading zero. */
  function NatText(n: nat): (r: string)
    ensures |r| >= 1
    ensures forall i :: 0 <= i < |r| ==> IsDigit(r[i])
  {
    if n < 10 then [Digit(n)] else NatText(n / 10) + [Digit(n % 10)]
  }

  /** Reads a string of decimal digits back as a number. */
  function DigitsValue(s: string): nat
    requires forall i :: 0 <= i < |s| ==> IsDigit(s[i])
  {
    if s == [] then 0
    else
      assert IsDigit(s[|s| - 1]);
      DigitsValue(s[..|s| - 1]) * 10 + (s[|s| - 1] as int - '0' as int)
  }

  /** Rendering a number and reading it back gives the number. */
  lemma {:induction false} NatTextRoundTrip(n: nat)
    ensures DigitsValue(NatText(n)) == n
  {
    if n >= 10 {
      NatTextRoundTrip(n / 10);
      var s := NatText(n);
      assert s[..|s| - 1] == NatText(n / 10);
    }
  }

  /** Distinct numbers render as distinct strings. */
  lemma NatTextInjective(a: nat, b: nat)
    requires NatText(a) == NatText(b)
    ensures a == b
  {
    NatTextRoundTrip(a);
    NatTextRoundTrip(b);
  }
}
