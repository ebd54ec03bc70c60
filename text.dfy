/** The few Python string operations the core relies on:
    `str.strip`, `str.lower`, `str.endswith`, `int()` on a digit string and
    `str()` of a natural number or of a float holding whole cents. Only
    ASCII case mapping is modelled. */
module Text {
  import opened Common

  /** The characters Python's `str.strip()` removes: those for which
      `str.isspace()` holds (ASCII whitespace, the separators U+001C to
      U+001F, and the Unicode space and line-break characters). */
  predicate IsSpace(c: char) {
    || '\U{09}' <= c <= '\U{0D}' || '\U{1C}' <= c <= '\U{20}'
    || c == '\U{85}' || c == '\U{A0}' || c == '\U{1680}'
    || '\U{2000}' <= c <= '\U{200A}' || c == '\U{2028}' || c == '\U{2029}'
    || c == '\U{202F}' || c == '\U{205F}' || c == '\U{3000}'
  }

  predicate IsDigit(c: char) {
    '0' <= c <= '9'
  }

  function TrimStart(s: string): (r: string)
    ensures |r| <= |s| && r == s[|s| - |r|..]
    ensures r == [] || !IsSpace(r[0])
    ensures forall i :: 0 <= i < |s| - |r| ==> IsSpace(s[i])
  {
    if s != [] && IsSpace(s[0]) then TrimStart(s[1..]) else s
  }

  function TrimEnd(s: string): (r: string)
    ensures |r| <= |s| && r == s[..|r|]
    ensures r == [] || !IsSpace(r[|r| - 1])
    ensures forall i :: |r| <= i < |s| ==> IsSpace(s[i])
  {
    if s != [] && IsSpace(s[|s| - 1]) then TrimEnd(s[..|s| - 1]) else s
  }

  /** `s.strip()` */
  function Strip(s: string): (r: string)
    ensures r == [] || (!IsSpace(r[0]) && !IsSpace(r[|r| - 1]))
  {
    TrimEnd(TrimStart(s))
  }

  lemma StripUnchanged(s: string)
    requires s == [] || (!IsSpace(s[0]) && !IsSpace(s[|s| - 1]))
    ensures Strip(s) == s
  {
  }

  function LowerChar(c: char): (r: char)
    ensures 'A' <= c <= 'Z' ==> r != c && 'a' <= r <= 'z'
    ensures !('A' <= c <= 'Z') ==> r == c
  {
    if 'A' <= c <= 'Z' then (c as int - 'A' as int + 'a' as int) as char else c
  }

  /** `s.lower()` (ASCII letters only). */
  function Lower(s: string): (r: string)
    ensures |r| == |s|
    ensures forall i :: 0 <= i < |s| ==> r[i] == LowerChar(s[i])
  {
    if s == [] then [] else [LowerChar(s[0])] + Lower(s[1..])
  }

  lemma LowerIdempotent(s: string)
    ensures Lower(Lower(s)) == Lower(s)
  {
  }

  function EndsWith(s: string, suffix: string): bool {
    |suffix| <= |s| && s[|s| - |suffix|..] == suffix
  }

  function StartsWith(s: string, prefix: string): bool {
    |prefix| <= |s| && s[..|prefix|] == prefix
  }

  function DigitValue(c: char): nat
    requires IsDigit(c)
  {
    c as int - '0' as int
  }

  /** Value of a non-empty run of decimal digits (most significant first). */
  function DigitsValue(s: string): nat
    requires forall i :: 0 <= i < |s| ==> IsDigit(s[i])
  {
    if s == [] then 0 else DigitsValue(s[..|s| - 1]) * 10 + DigitValue(s[|s| - 1])
  }

  /** `str(n)` for a natural number. */
  function NatToString(n: nat): (r: string)
    ensures r != []
    ensures forall i :: 0 <= i < |r| ==> IsDigit(r[i])
    ensures DigitsValue(r) == n
    decreases n
  {
    var last := ['0' + (n % 10) as char];
    if n < 10 then last else NatToString(n / 10) + last
  }

  /** `str(i)` for an integer. */
  function IntToString(i: int): (r: string)
    ensures r != []
    ensures i < 0 <==> r[0] == '-'
  {
    if i < 0 then "-" + NatToString(-i) else NatToString(i)
  }

  /** The digits after the point in `str(x)` for a float `x` whose cents
      are `f`: Python writes the shortest form, one digit when the second
      would be a trailing zero. */
  function FracDigits(f: nat): (r: string)
    requires f < 100
    ensures 1 <= |r| <= 2 && forall i :: 0 <= i < |r| ==> IsDigit(r[i])
    ensures |r| == 1 ==> DigitsValue(r) * 10 == f
    ensures |r| == 2 ==> DigitsValue(r) == f && r[1] != '0'
  {
    var tens := ['0' + (f / 10) as char];
    if f % 10 == 0 then tens
    else
      var r := tens + ['0' + (f % 10) as char];
      assert r[..1] == tens;
      assert DigitsValue(tens) == f / 10 by { assert tens[..0] == []; }
      assert DigitValue(r[1]) == f % 10;
      r
  }

  /** `str(x)` for a float `x` holding `cents` hundredths: the whole part,
      a point and `FracDigits` (magnitudes below 10^16, where Python
      switches to exponent notation). */
  function CentsToString(cents: int): (r: string)
    ensures r != [] && (cents < 0 <==> r[0] == '-')
  {
    var m := if cents < 0 then -cents else cents;
    var text := NatToString(m / 100) + "." + FracDigits(m % 100);
    if cents < 0 then "-" + text else text
  }

  /** Python `int(s)` for the texts that can reach it in the numbering code:
      surrounding whitespace, an optional '+' and at least one decimal digit.
      Anything else (the empty text included) is a `ValueError`, here `None`. */
  function ParseNat(s: string): (r: Option<nat>)
  {
    var t := Strip(s);
    var body := if t != [] && t[0] == '+' then t[1..] else t;
    if body != [] && forall i :: 0 <= i < |body| ==> IsDigit(body[i])
    then Some(DigitsValue(body))
    else None
  }

  lemma {:induction false} ParseNatToString(n: nat)
    ensures ParseNat(NatToString(n)) == Some(n)
  {
    var s := NatToString(n);
    assert s[0] != '+' && !IsSpace(s[0]) && !IsSpace(s[|s| - 1]);
    StripUnchanged(s);
  }

  /** Code-point lexicographic order on strings (`ORDER BY` on a text column
      under a binary collation). */
  predicate StrLe(a: string, b: string) {
    a == [] || (b != [] && (a[0] < b[0] || (a[0] == b[0] && StrLe(a[1..], b[1..]))))
  }

  lemma {:induction false} StrLeTotal(a: string, b: string)
    ensures StrLe(a, b) || StrLe(b, a)
    ensures StrLe(a, b) && StrLe(b, a) ==> a == b
  {
    if a != [] && b != [] && a[0] == b[0] {
      StrLeTotal(a[1..], b[1..]);
      assert a == [a[0]] + a[1..] && b == [b[0]] + b[1..];
    }
  }

  lemma {:induction false} StrLeTransitive(a: string, b: string, c: string)
    requires StrLe(a, b) && StrLe(b, c)
    ensures StrLe(a, c)
  {
    if a != [] && a[0] == b[0] && b[0] == c[0] {
      StrLeTransitive(a[1..], b[1..], c[1..]);
    }
  }
}
