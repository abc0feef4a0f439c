/**
 The field rules the login, forgot-password and change-password screens share: the messages,
 the mobile and password checks, the digit filter of the mobile input, and the form and error
 objects, which are string-keyed maps. A key that is not in a map reads as "": the
 validators test `!value`, which treats `undefined` and "" alike.
 */
module Forms {

  const MobileRequired := "Mobile number is required"
  const MobileInvalid := "Enter a valid 10-digit mobile number"
  const PasswordRequired := "Password is required"
  const PasswordTooShort := "Password must be at least 6 characters"
  const EmailRequired := "Email is required"

  predicate IsDigit(c: char) {
    '0' <= c <= '9'
  }

  predicate AllDigits(s: string) {
    forall i :: 0 <= i < |s| ==> IsDigit(s[i])
  }

  /** `/^[0-9]{10}$/.test(v)`. */
  predicate TenDigits(v: string) {
    |v| == 10 && AllDigits(v)
  }

  /** The value stored under a key, "" when the key is absent. */
  function Lookup(m: map<string, string>, key: string): string {
    if key in m then m[key] else ""
  }

  /** The mobile rule: required, then exactly ten digits. */
  function MobileError(v: string): (e: string)
    ensures e == "" <==> TenDigits(v)
    ensures v == "" ==> e == MobileRequired
    ensures v != "" && !TenDigits(v) ==> e == MobileInvalid
  {
    if v == "" then MobileRequired else if !TenDigits(v) then MobileInvalid else ""
  }

  /** The password rule: required, then at least six characters. */
  function PasswordError(v: string): (e: string)
    ensures e == "" <==> |v| >= 6
    ensures v == "" ==> e == PasswordRequired
    ensures 0 < |v| < 6 ==> e == PasswordTooShort
  {
    if v == "" then PasswordRequired else if |v| < 6 then PasswordTooShort else ""
  }

  /** `value.replace(/[^0-9]/g, "")`: the digits of the input, in order. */
  function DigitsOnly(s: string): (r: string)
    ensures AllDigits(r) && |r| <= |s|
  {
    if |s| == 0 then ""
    else if IsDigit(s[0]) then [s[0]] + DigitsOnly(s[1..])
    else DigitsOnly(s[1..])
  }

  /** The filter distributes over concatenation, so the digits keep their order. */
  lemma {:induction false} DigitsOnlyConcat(a: string, b: string)
    ensures DigitsOnly(a + b) == DigitsOnly(a) + DigitsOnly(b)
  {
    if |a| == 0 {
      assert a + b == b;
    } else {
      assert (a + b)[1..] == a[1..] + b;
      DigitsOnlyConcat(a[1..], b);
    }
  }

  /** A string of digits passes the filter unchanged. */
  lemma {:induction false} DigitsOnlyKeepsDigits(s: string)
    requires AllDigits(s)
    ensures DigitsOnly(s) == s
  {
    if |s| > 0 {
      assert AllDigits(s[1..]) by {
        forall i | 0 <= i < |s[1..]| ensures IsDigit(s[1..][i]) { assert s[1..][i] == s[i + 1]; }
      }
      DigitsOnlyKeepsDigits(s[1..]);
      assert s == [s[0]] + s[1..];
    }
  }

  /** One character: a digit is kept, anything else is dropped. With `DigitsOnlyConcat` this
      fixes the filter on every string. */
  lemma DigitsOnlySingle(c: char)
    ensures DigitsOnly([c]) == (if IsDigit(c) then [c] else "")
  {
    assert [c][1..] == "";
  }

  /** Filtering twice is filtering once. */
  lemma DigitsOnlyIdempotent(s: string)
    ensures DigitsOnly(DigitsOnly(s)) == DigitsOnly(s)
  {
    DigitsOnlyKeepsDigits(DigitsOnly(s));
  }

  /** After the filter, the mobile rule can only object to the length. */
  lemma SanitisedMobileRule(raw: string)
    ensures MobileError(DigitsOnly(raw)) == "" <==> |DigitsOnly(raw)| == 10
    ensures MobileError(DigitsOnly(raw)) == MobileInvalid <==> 0 < |DigitsOnly(raw)| != 10
  {
  }

  /** `needle` occurs in `s` at index `i`. */
  predicate OccursAt(s: string, needle: string, i: int) {
    0 <= i && i + |needle| <= |s| && s[i..i + |needle|] == needle
  }

  /** Whether `needle` occurs in `s`: the test of a regex made of one literal word. */
  predicate Contains(s: string, needle: string) {
    exists i :: 0 <= i <= |s| && OccursAt(s, needle, i)
  }
}
