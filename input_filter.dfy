/** The filter both sign-in forms put on their phone and one-time-code
    fields: drop every character that is not an ASCII digit, then cut the
    rest to a fixed number of characters (ten for a phone number, six for a
    code). */
module InputFilter {
  import opened Numerals

  const PhoneLength: nat := 10
  const OtpLength: nat := 6

  /** The digits of s, in their order. */
  function DigitsOnly(s: string): (r: string)
    ensures AllDigits(r) && |r| <= |s|
    ensures AllDigits(s) ==> r == s
  {
    if s == [] then []
    else if IsDigit(s[0]) then [s[0]] + DigitsOnly(s[1..])
    else DigitsOnly(s[1..])
  }

  /** DigitsOnly works character by character: it distributes over
      concatenation, so it keeps the digits in their order and drops the
      rest. */
  lemma {:induction false} DigitsOnlyAppend(a: string, b: string)
    ensures DigitsOnly(a + b) == DigitsOnly(a) + DigitsOnly(b)
  {
    if a != [] {
      assert (a + b)[0] == a[0];
      assert (a + b)[1..] == a[1..] + b;
      DigitsOnlyAppend(a[1..], b);
    } else {
      assert a + b == b;
    }
  }

  lemma DigitsOnlyChar(c: char)
    ensures DigitsOnly([c]) == if IsDigit(c) then [c] else []
  {
  }

  function Min(a: nat, b: nat): nat {
    if a <= b then a else b
  }

  /** `replace(/\D/g, '').slice(0, limit)`: the longest prefix of the input's
      digits that fits in `limit` characters. */
  function Sanitize(s: string, limit: nat): (r: string)
    ensures AllDigits(r) && |r| <= limit
    ensures r <= DigitsOnly(s)
    ensures |r| == Min(limit, |DigitsOnly(s)|)
  {
    var d := DigitsOnly(s);
    if |d| <= limit then d else d[..limit]
  }

  /** Filtering an already filtered value changes nothing. */
  lemma SanitizeIdempotent(s: string, limit: nat)
    ensures Sanitize(Sanitize(s, limit), limit) == Sanitize(s, limit)
  {
  }

  /** A value that already passes the filter goes through it unchanged. */
  lemma SanitizeKeepsFiltered(s: string, limit: nat)
    requires AllDigits(s) && |s| <= limit
    ensures Sanitize(s, limit) == s
  {
  }

  function PhoneInput(raw: string): (phone: string)
    ensures AllDigits(phone) && |phone| <= PhoneLength
    ensures phone == Sanitize(raw, PhoneLength)
  {
    Sanitize(raw, PhoneLength)
  }

  function OtpInput(raw: string): (otp: string)
    ensures AllDigits(otp) && |otp| <= OtpLength
    ensures otp == Sanitize(raw, OtpLength)
  {
    Sanitize(raw, OtpLength)
  }
}
