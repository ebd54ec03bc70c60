/** `_next_bill_number` / `_next_invoice_number`: "<PREFIX>-<n+1>" after the
    last stored number, "<PREFIX>-1001" for the first one. */
module Numbering {
  import opened Common
  import opened Text

  /** The text after the first '-', if there is one. */
  function AfterDash(s: string): (r: Option<string>)
    ensures r.Some? ==> |r.value| < |s|
  {
    if s == [] then None
    else if s[0] == '-' then Some(s[1..])
    else AfterDash(s[1..])
  }

  /** The text before the first '-' (all of it when there is none). */
  function UpToDash(s: string): (r: string)
    ensures |r| <= |s| && '-' !in r
  {
    if s == [] || s[0] == '-' then [] else [s[0]] + UpToDash(s[1..])
  }

  /** `s.split("-")[1]`: `None` stands for the `IndexError` of a text
      without '-'. */
  function SecondField(s: string): Option<string> {
    var rest := AfterDash(s);
    if rest.None? then None else Some(UpToDash(rest.value))
  }

  /** The number assumed when the last one cannot be read. */
  const FallbackNumber := 1000

  /** The next document number after the last stored one (`None`: no document yet). */
  function NextNumber(prefix: string, last: Option<string>): string {
    if last.None? then prefix + "-1001"
    else
      var field := SecondField(last.value);
      var parsed := if field.Some? then ParseNat(field.value) else None;
      var n := if parsed.Some? then parsed.value else FallbackNumber;
      prefix + "-" + NatToString(n + 1)
  }

  lemma {:induction false} AfterDashOfPrefixed(prefix: string, tail: string)
    requires '-' !in prefix
    ensures AfterDash(prefix + "-" + tail) == Some(tail)
  {
    if prefix != [] {
      assert (prefix + "-" + tail)[1..] == prefix[1..] + "-" + tail;
      AfterDashOfPrefixed(prefix[1..], tail);
    } else {
      assert prefix + "-" + tail == ['-'] + tail;
    }
  }

  lemma {:induction false} UpToDashOfPlain(s: string)
    requires '-' !in s
    ensures UpToDash(s) == s
  {
    if s != [] {
      UpToDashOfPlain(s[1..]);
      assert s == [s[0]] + s[1..];
    }
  }

  /** Numbering continues from the last number: after "<PREFIX>-n" comes
      "<PREFIX>-(n+1)"; the first document gets 1001, and so does the one
      after an unreadable number. */
  lemma NextNumberSpec(prefix: string, n: nat, unreadable: string)
    requires '-' !in prefix
    requires SecondField(unreadable).None? || ParseNat(SecondField(unreadable).value).None?
    ensures NextNumber(prefix, None) == prefix + "-1001"
    ensures NextNumber(prefix, Some(prefix + "-" + NatToString(n))) == prefix + "-" + NatToString(n + 1)
    ensures NextNumber(prefix, Some(unreadable)) == prefix + "-" + NatToString(FallbackNumber + 1)
  {
    var digits := NatToString(n);
    AfterDashOfPrefixed(prefix, digits);
    assert '-' !in digits by {
      assert forall i :: 0 <= i < |digits| ==> IsDigit(digits[i]);
    }
    UpToDashOfPlain(digits);
    ParseNatToString(n);
  }
}
