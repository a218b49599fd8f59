/**
 * One-time passcodes (src/app/api/generate-otp/route.js; the signup and
 * resend-otp routes carry identical local copies of `generateOTP`).
 *
 * `Math.random()` is the model's input `n`: the source computes
 * `Math.floor(100000 + Math.random() * 900000)`, which is `100000 + n` for the
 * integer `n = Math.floor(Math.random() * 900000)` in [0, 900000).
 */
module Otp {
  import opened Text

  /** Number of distinct codes `generateOTP` can produce. */
  const CodeSpan: nat := 900000
  const LowestCode: nat := 100000
  const MillisPerMinute := 60 * 1000
  /** `10 * 60 * 1000`: the lifetime signup and resend give a fresh code. */
  const OtpLifetimeMs := 10 * MillisPerMinute

  /** A well-formed code: exactly six ASCII digits. */
  predicate IsOtpCode(s: string) {
    |s| == 6 && AllDigits(s)
  }

  /** `generateOTP()`: the decimal string of `100000 + n`. */
  function GenerateOtp(n: nat): (code: string)
    requires n < CodeSpan
    ensures IsOtpCode(code)
    ensures DecimalValue(code) == LowestCode + n
    ensures 100000 <= DecimalValue(code) <= 999999
    ensures code[0] != '0'
  {
    var value := LowestCode + n;
    assert Pow10(5) == 100000 && Pow10(6) == 1000000;
    DecimalLength(value, 5);
    DecimalRoundTrip(value);
    DecimalNoLeadingZero(value);
    DecimalString(value)
  }

  /** Distinct random draws give distinct codes. */
  lemma GenerateOtpInjective(n: nat, m: nat)
    requires n < CodeSpan && m < CodeSpan
    ensures GenerateOtp(n) == GenerateOtp(m) <==> n == m
  {
  }

  /**
   * `generateOTPWithExpiry(minutes = 10)`: a code and the absolute expiry
   * `now + minutes * 60000` (ms).
   */
  function GenerateOtpWithExpiry(n: nat, now: int, minutes: int := 10): (r: (string, int))
    requires n < CodeSpan
    ensures IsOtpCode(r.0) && DecimalValue(r.0) == LowestCode + n
    ensures r.1 - now == minutes * MillisPerMinute
    ensures minutes > 0 ==> r.1 > now
  {
    (GenerateOtp(n), now + minutes * MillisPerMinute)
  }

  /** With the default argument the code lives ten minutes, the same lifetime the routes use. */
  lemma DefaultExpiryIsTenMinutes(n: nat, now: int)
    requires n < CodeSpan
    ensures GenerateOtpWithExpiry(n, now).1 == now + OtpLifetimeMs
    ensures OtpLifetimeMs == 600000
  {
  }
}
