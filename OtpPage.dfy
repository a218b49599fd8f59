/**
 * The OTP entry page (src/app/otp-page/page.js): the input sanitiser, the
 * submit guard, and the storage cleanup after a successful verification.
 */
module OtpPage {
  import opened Wrappers
  import opened Text
  import opened Otp
  import opened Auth
  import opened SignupPage

  /** `replace(/\D/g, "")`: the digits of `s`, in order. */
  function Digits(s: string): (d: string)
    ensures AllDigits(d) && |d| <= |s|
    ensures forall c :: multiset(d)[c] == if IsDigit(c) then multiset(s)[c] else 0
  {
    if s == [] then []
    else
      assert s == [s[0]] + s[1..];
      (if IsDigit(s[0]) then [s[0]] else []) + Digits(s[1..])
  }

  lemma {:induction false} DigitsIsSubsequence(s: string)
    ensures IsSubsequence(Digits(s), s)
  {
    if s != [] {
      var d := Digits(s);
      DigitsIsSubsequence(s[1..]);
      if IsDigit(s[0]) {
        assert d == [s[0]] + Digits(s[1..]);
        assert d[1..] == Digits(s[1..]);
      } else {
        assert d == Digits(s[1..]);
        assert d != [] ==> d[0] != s[0];
      }
    }
  }

  lemma {:induction false} DigitsOfDigits(s: string)
    requires AllDigits(s)
    ensures Digits(s) == s
  {
    if s != [] {
      DigitsOfDigits(s[1..]);
      assert s == [s[0]] + s[1..];
    }
  }

  /** The input's `onChange`: the digits typed so far, at most the first six. */
  function Sanitize(input: string): (r: string)
    ensures |r| <= 6 && |r| <= |Digits(input)| && AllDigits(r)
    ensures r == Digits(input)[..|r|]
    ensures |r| == 6 || r == Digits(input)
  {
    var d := Digits(input);
    if |d| <= 6 then d else d[..6]
  }

  /** The sanitiser keeps characters of the input, in their order. */
  lemma SanitizeIsSubsequence(input: string)
    ensures IsSubsequence(Sanitize(input), input)
  {
    DigitsIsSubsequence(input);
    PrefixOfSubsequence(Digits(input), input, |Sanitize(input)|);
  }

  lemma SanitizeIdempotent(input: string)
    ensures Sanitize(Sanitize(input)) == Sanitize(input)
  {
    DigitsOfDigits(Sanitize(input));
  }

  datatype OtpAttempt =
    | OtpRefused(message: string)
    | PostVerify(email: string, otp: string)

  /**
   * `handleSubmit`: a value that is not six characters long is refused on the
   * page; otherwise the stored email (empty when absent) and the value are posted.
   */
  function SubmitOtp(otp: string, storage: Storage): (a: OtpAttempt)
    ensures |otp| != 6 <==> a == OtpRefused("OTP must be 6 digits.")
    ensures |otp| == 6 ==> a == PostVerify(if EmailKey in storage then storage[EmailKey] else "", otp)
  {
    if |otp| != 6 then OtpRefused("OTP must be 6 digits.")
    else PostVerify(if EmailKey in storage then storage[EmailKey] else "", otp)
  }

  /** What the page posts after sanitising is always a well-formed six-digit code. */
  lemma PostedCodeIsWellFormed(input: string, storage: Storage)
    requires SubmitOtp(Sanitize(input), storage).PostVerify?
    ensures IsOtpCode(SubmitOtp(Sanitize(input), storage).otp)
  {
  }

  /**
   * Handling the route's answer: on success the message is shown and both
   * signup keys are removed from storage; otherwise the route's error (or
   * "Invalid OTP") is shown and storage is untouched.
   */
  function AfterVerify(response: VerifyResponse, storage: Storage): (r: (string, Storage))
    ensures response.OtpVerified? ==>
      r.0 == "OTP verified successfully!" && r.1.Keys == storage.Keys - {EmailKey, RoleKey}
      && forall k :: k in r.1 ==> r.1[k] == storage[k]
    ensures response.VerifyRejected? ==>
      r.1 == storage && r.0 == (if response.message != "" then response.message else "Invalid OTP")
  {
    match response
    case OtpVerified(_) => ("OTP verified successfully!", storage - {EmailKey, RoleKey})
    case VerifyRejected(_, message) => (if message != "" then message else "Invalid OTP", storage)
  }

  /** Signing up and then verifying leaves browser storage as it was before, less the two keys. */
  lemma SignupThenVerifyRestoresStorage(form: SignupForm, created: SignupResponse, verified: VerifyResponse,
                                        storage: Storage)
    requires created.SignupCreated? && verified.OtpVerified?
    ensures AfterVerify(verified, AfterSignup(form, created, storage).1).1 == storage - {EmailKey, RoleKey}
  {
    var after := AfterVerify(verified, AfterSignup(form, created, storage).1).1;
    assert after.Keys == (storage - {EmailKey, RoleKey}).Keys;
  }
}
