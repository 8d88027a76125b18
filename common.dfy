/** Value helpers shared by every view: an optional value, and the few
    JavaScript string operations the views rely on (`substring`, `split`,
    `parseInt`, `toString`, `toUpperCase`, truthiness, the `\s` class and
    the `/^Dr\.?\s*\/i` doctor-title pattern). */
module Common {

  datatype Option<T> = None | Some(value: T)

  /** JavaScript truthiness of an optional string: absent and "" are falsy. */
  predicate Truthy(s: Option<string>)
  {
    s.Some? && s.value != ""
  }

  /** JavaScript `a || b` on optional strings: `a` when truthy, else `b`. */
  function OrElse(a: Option<string>, b: Option<string>): (r: Option<string>)
    ensures Truthy(a) ==> r == a
    ensures !Truthy(a) ==> r == b
  {
    if Truthy(a) then a else b
  }

  /** `s.substring(0, n)`: the first `n` characters, or all of `s` when shorter. */
  function Take(s: string, n: nat): (r: string)
    ensures |r| == if |s| < n then |s| else n
    ensures r == s[..|r|]
  {
    if |s| <= n then s else s[..n]
  }

  /** `s.split(' ')[0]`: everything before the first space. */
  function FirstWord(s: string): (r: string)
    ensures |r| <= |s| && r == s[..|r|]
    ensures forall i :: 0 <= i < |r| ==> r[i] != ' '
    ensures |r| < |s| ==> s[|r|] == ' '
  {
    if s == [] || s[0] == ' ' then [] else [s[0]] + FirstWord(s[1..])
  }

  /** `s.filter(keep)`: the elements that pass, in their original order. */
  function Filter<T(!new)>(s: seq<T>, keep: T -> bool): (r: seq<T>)
    ensures |r| <= |s|
    ensures forall x :: x in r <==> x in s && keep(x)
  {
    if s == [] then [] else (if keep(s[0]) then [s[0]] else []) + Filter(s[1..], keep)
  }

  /** Filtering distributes over concatenation, so it keeps the order. */
  lemma {:induction false} FilterAppend<T(!new)>(a: seq<T>, b: seq<T>, keep: T -> bool)
    ensures Filter(a + b, keep) == Filter(a, keep) + Filter(b, keep)
  {
    if a != [] {
      assert (a + b)[0] == a[0];
      assert (a + b)[1..] == a[1..] + b;
      FilterAppend(a[1..], b, keep);
    } else {
      assert a + b == b;
    }
  }

  /** Splits `s` at the first occurrence of `c`: what comes before it and
      what comes after it; `s` and "" when `c` does not occur. */
  function SplitAtFirst(s: string, c: char): (r: (string, string))
    ensures c !in s ==> r == (s, "")
    ensures c in s ==> c !in r.0 && s == r.0 + [c] + r.1
  {
    if s == [] then ("", "")
    else if s[0] == c then ("", s[1..])
    else
      var t := SplitAtFirst(s[1..], c);
      assert [s[0]] + s[1..] == s;
      ([s[0]] + t.0, t.1)
  }

  // ---------------------------------------------------------------------
  // Decimal numbers

  predicate IsDigit(c: char)
  {
    '0' <= c <= '9'
  }

  predicate AllDigits(s: string)
  {
    forall i :: 0 <= i < |s| ==> IsDigit(s[i])
  }

  function DigitChar(d: nat): (c: char)
    requires d < 10
    ensures IsDigit(c) && DigitValue(c) == d
  {
    (d + '0' as int) as char
  }

  function DigitValue(c: char): nat
    requires IsDigit(c)
  {
    c as int - '0' as int
  }

  /** The number a string of decimal digits denotes. */
  function DigitsValue(s: string): nat
    requires AllDigits(s)
  {
    if s == [] then 0 else 10 * DigitsValue(s[..|s| - 1]) + DigitValue(s[|s| - 1])
  }

  /** `n.toString()` for a non-negative integer. */
  function NatToString(n: nat): (r: string)
    ensures 1 <= |r| && AllDigits(r)
  {
    if n < 10 then [DigitChar(n)] else NatToString(n / 10) + [DigitChar(n % 10)]
  }

  /** `n.toString()` for any integer. */
  function IntToString(n: int): (r: string)
    ensures n >= 0 ==> r == NatToString(n)
    ensures n < 0 ==> r == "-" + NatToString(-n)
  {
    if n < 0 then "-" + NatToString(-n) else NatToString(n)
  }

  lemma {:induction false} NatToStringValue(n: nat)
    ensures DigitsValue(NatToString(n)) == n
  {
    if n >= 10 {
      NatToStringValue(n / 10);
      var s := NatToString(n);
      assert s[..|s| - 1] == NatToString(n / 10);
    }
  }

  /** The longest prefix of `s` made of decimal digits. */
  function LeadingDigits(s: string): (r: string)
    ensures |r| <= |s| && r == s[..|r|] && AllDigits(r)
    ensures |r| < |s| ==> !IsDigit(s[|r|])
  {
    if s == [] || !IsDigit(s[0]) then [] else [s[0]] + LeadingDigits(s[1..])
  }

  /** `parseInt(s)` with the default radix, on strings without leading
      white space or a `0x` prefix: an optional sign, then the leading
      decimal digits; no digit at all gives NaN, here `None`. */
  function ParseInt(s: string): (r: Option<int>)
    ensures r.None? <==> LeadingDigits(if s != [] && (s[0] == '-' || s[0] == '+') then s[1..] else s) == []
  {
    if s != [] && (s[0] == '-' || s[0] == '+') then
      var d := LeadingDigits(s[1..]);
      var magnitude: int := DigitsValue(d);
      if d == [] then None else Some(if s[0] == '-' then -magnitude else magnitude)
    else
      var d := LeadingDigits(s);
      if d == [] then None else Some(DigitsValue(d))
  }

  lemma {:induction false} LeadingDigitsOfDigits(s: string)
    requires AllDigits(s)
    ensures LeadingDigits(s) == s
  {
    if s != [] {
      LeadingDigitsOfDigits(s[1..]);
    }
  }

  /** `parseInt(String(n))` gives `n` back: the value a `<select>` option
      carries for a doctor is parsed back to that doctor's id. */
  lemma ParseIntOfNatToString(n: nat)
    ensures ParseInt(NatToString(n)) == Some(n)
  {
    var s := NatToString(n);
    LeadingDigitsOfDigits(s);
    NatToStringValue(n);
    assert IsDigit(s[0]);
  }

  // ---------------------------------------------------------------------
  // Case mapping

  /** `toUpperCase` on one character, for every character whose upper case
      is a single ASCII letter (the ASCII lower-case letters, dotless i and
      long s); any other character keeps its own value. */
  function UpperChar(c: char): (u: char)
    ensures 'a' <= c <= 'z' ==> u as int == c as int - 32
    ensures !('a' <= c <= 'z') && c != '\U{0131}' && c != '\U{017F}' ==> u == c
  {
    if 'a' <= c <= 'z' then (c as int - 32) as char
    else if c == '\U{0131}' then 'I'
    else if c == '\U{017F}' then 'S'
    else c
  }

  function ToUpper(s: string): (r: string)
    ensures |r| == |s| && forall i :: 0 <= i < |s| ==> r[i] == UpperChar(s[i])
  {
    if s == [] then [] else [UpperChar(s[0])] + ToUpper(s[1..])
  }

  // ---------------------------------------------------------------------
  // The doctor-title pattern `/^Dr\.?\s*/i`

  /** The characters the regular-expression class `\s` matches. */
  predicate IsJsWhitespace(c: char)
  {
    c == ' ' || c == '\t' || c == '\n' || c == '\r' || c == '\U{000B}' || c == '\U{000C}'
    || c == '\U{00A0}' || c == '\U{1680}' || ('\U{2000}' <= c <= '\U{200A}')
    || c == '\U{2028}' || c == '\U{2029}' || c == '\U{202F}' || c == '\U{205F}'
    || c == '\U{3000}' || c == '\U{FEFF}'
  }

  /** Where `\s*`, taken greedily from index `k`, stops: every character
      in between is white space and the one at the end (if any) is not. */
  function WhitespaceEnd(s: string, k: nat): (e: nat)
    requires k <= |s|
    ensures k <= e <= |s|
    ensures forall i :: k <= i < e ==> IsJsWhitespace(s[i])
    ensures e < |s| ==> !IsJsWhitespace(s[e])
    decreases |s| - k
  {
    if k < |s| && IsJsWhitespace(s[k]) then WhitespaceEnd(s, k + 1) else k
  }

  /** The name starts with "dr" in any case. */
  predicate StartsWithDr(name: string)
  {
    |name| >= 2 && (name[0] == 'D' || name[0] == 'd') && (name[1] == 'R' || name[1] == 'r')
  }

  /** A string the pattern `^Dr\.?\s*` (case-insensitive) matches whole. */
  predicate IsDrPrefix(p: string)
  {
    && StartsWithDr(p)
    && forall i :: 2 <= i < |p| ==> IsJsWhitespace(p[i]) || (i == 2 && p[i] == '.')
  }

  /** Where the title "Dr" ends: after a "." that follows it, if any. */
  function TitleEnd(name: string): (d: nat)
    requires StartsWithDr(name)
    ensures d == 2 || (d == 3 && |name| > 2 && name[2] == '.')
    ensures d == 2 ==> |name| == 2 || name[2] != '.'
  {
    if |name| > 2 && name[2] == '.' then 3 else 2
  }

  /** `name.replace(/^Dr\.?\s*\/i, '')`. */
  function StripDrPrefix(name: string): (r: string)
  {
    if StartsWithDr(name) then name[WhitespaceEnd(name, TitleEnd(name))..] else name
  }

  /** What the replacement does: a name not starting with "dr" is kept; any
      other name loses exactly the leftmost-longest match of the pattern, so
      that a "." right after "Dr" is always consumed and what is left does
      not start with white space. */
  lemma StripDrPrefixSpec(name: string)
    ensures !StartsWithDr(name) ==> StripDrPrefix(name) == name
    ensures StartsWithDr(name) ==>
      var r := StripDrPrefix(name);
      var p := name[..|name| - |r|];
      && |r| <= |name| - 2
      && name == p + r
      && IsDrPrefix(p)
      && (|name| > 2 && name[2] == '.' ==> |p| >= 3)
      && (r != [] ==> !IsJsWhitespace(r[0]))
    ensures StripDrPrefix(name) == name <==> !StartsWithDr(name)
  {
    if StartsWithDr(name) {
      var e := WhitespaceEnd(name, TitleEnd(name));
      assert name[..|name| - |StripDrPrefix(name)|] == name[..e];
    }
  }
}
