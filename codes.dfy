/**
 * The two generators of registration.service.js. Their randomness is not
 * modelled: the generated values are inputs, and these predicates say which
 * values the generators can produce.
 */
module Codes {

  /** `crypto.randomBytes(16).toString('hex')`: 32 lower-case hexadecimal characters. */
  predicate IsVerificationToken(t: string) {
    |t| == 32 && forall k :: 0 <= k < |t| ==> ('0' <= t[k] <= '9' || 'a' <= t[k] <= 'f')
  }

  /** `Math.floor(100000 + Math.random() * 900000)`: an integer in 100000..999999. */
  predicate IsInvitationCode(n: nat) {
    100000 <= n <= 999999
  }

  function DigitChar(d: nat): char
    requires d < 10
  {
    ['0', '1', '2', '3', '4', '5', '6', '7', '8', '9'][d]
  }

  function DigitValue(c: char): nat
  {
    if '0' <= c <= '9' then (c as int - '0' as int) as nat else 0
  }

  predicate IsDigit(c: char) {
    '0' <= c <= '9'
  }

  /** Decimal digits with no leading zero: what `toString()` gives for the invitation codes (below 10^21). */
  function DecimalString(n: nat): (s: string)
    ensures |s| >= 1
    ensures forall k :: 0 <= k < |s| ==> IsDigit(s[k])
    ensures |s| > 1 ==> s[0] != '0'
  {
    if n < 10 then [DigitChar(n)] else DecimalString(n / 10) + [DigitChar(n % 10)]
  }

  /** The value a string of decimal digits denotes. */
  function DecimalValue(s: string): nat
  {
    if s == [] then 0 else DecimalValue(s[..|s| - 1]) * 10 + DigitValue(s[|s| - 1])
  }

  /** Reading the rendered code back gives the code: distinct codes are distinct strings. */
  lemma {:induction false} DecimalRoundTrip(n: nat)
    ensures DecimalValue(DecimalString(n)) == n
  {
    var s := DecimalString(n);
    if n < 10 {
      assert s[..|s| - 1] == [];
    } else {
      DecimalRoundTrip(n / 10);
      assert s[..|s| - 1] == DecimalString(n / 10);
    }
  }

  function Pow10(k: nat): (p: nat)
    ensures p >= 1
  {
    if k == 0 then 1 else 10 * Pow10(k - 1)
  }

  /** A number from 10^k up to (not including) 10^(k+1) is written with k + 1 digits. */
  lemma {:induction false} DecimalLength(n: nat, k: nat)
    requires Pow10(k) <= n < Pow10(k + 1)
    ensures |DecimalString(n)| == k + 1
  {
    if k > 0 {
      assert Pow10(k + 1) == 10 * Pow10(k);
      DecimalLength(n / 10, k - 1);
    }
  }

  /** A generated invitation code is a string of exactly six decimal digits. */
  lemma InvitationCodeIsSixDigits(n: nat)
    requires IsInvitationCode(n)
    ensures |DecimalString(n)| == 6
  {
    assert Pow10(5) == 100000 && Pow10(6) == 1000000;
    DecimalLength(n, 5);
  }
}
