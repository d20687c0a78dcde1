/** Properties of the verification steps of src/students/model.py: the order
    of the checks, how the attempt counters move, and what repeated attempts
    lead to. */
module StudentModelProperties {
  import opened Common
  import opened StudentUtils
  import opened StudentModel

  /** A correct code past its expiry is refused as expired and nothing is written. */
  lemma CorrectButExpired(s: Student, phoneNumber: string, now: int)
    requires TruthyStr(s.otp) && s.otpAttempts < MAX_PHONE_OTP_ATTEMPTS
    requires s.otpExpiresAt.Some? && s.otpExpiresAt.value < now
    ensures VerifyPhoneStep(s, phoneNumber, s.otp.value, now).result == Err(OtpExpired)
    ensures After(s, VerifyPhoneStep(s, phoneNumber, s.otp.value, now)) == s
  {
  }

  /** Equality is checked before expiry: a wrong code that has also expired is
      refused as incorrect and counted. */
  lemma WrongAndExpired(s: Student, phoneNumber: string, otp: string, now: int)
    requires TruthyStr(s.otp) && s.otpAttempts < MAX_PHONE_OTP_ATTEMPTS && otp != s.otp.value
    requires s.otpExpiresAt.Some? && s.otpExpiresAt.value < now
    ensures VerifyPhoneStep(s, phoneNumber, otp, now).result == Err(IncorrectOtp)
    ensures After(s, VerifyPhoneStep(s, phoneNumber, otp, now)).otpAttempts == s.otpAttempts + 2
  {
  }

  /** The expiry comparison is strict: a code whose expiry is exactly now is accepted. */
  lemma ExpiryAtNowAccepted(s: Student, phoneNumber: string, now: int)
    requires TruthyStr(s.otp) && s.otpAttempts < MAX_PHONE_OTP_ATTEMPTS
    requires s.otpExpiresAt == Some(now)
    ensures VerifyPhoneStep(s, phoneNumber, s.otp.value, now).result.Ok?
  {
  }

  /** A successful phone verification does not clear the code: the same code
      verifies again until it expires. */
  lemma PhoneCodeReusable(s: Student, phoneNumber: string, now: int, later: int)
    requires s.otp.Some? && VerifyPhoneStep(s, phoneNumber, s.otp.value, now).result.Ok?
    requires later <= s.otpExpiresAt.value
    ensures var t := After(s, VerifyPhoneStep(s, phoneNumber, s.otp.value, now));
            t.otp == s.otp && VerifyPhoneStep(t, phoneNumber, s.otp.value, later).result.Ok?
  {
  }

  /** Nineteen attempts, one wrong code: the counter jumps to 21 and the next
      attempt is refused by the ceiling whatever code it brings. */
  lemma NineteenThenLocked(s: Student, phoneNumber: string, wrong: string, next: string, now: int, later: int)
    requires TruthyStr(s.otp) && s.otpAttempts == 19 && wrong != s.otp.value
    ensures var t := After(s, VerifyPhoneStep(s, phoneNumber, wrong, now));
            t.otpAttempts == 21
            && VerifyPhoneStep(t, phoneNumber, next, later).result == Err(MaxOtpAttemptsReached)
  {
  }

  /** The record after a sequence of phone verification attempts. */
  function ReplayPhone(s: Student, phoneNumber: string, codes: seq<string>, now: int): (t: Student)
    ensures SameIdentity(s, t)
    decreases |codes|
  {
    if codes == [] then s
    else ReplayPhone(After(s, VerifyPhoneStep(s, phoneNumber, codes[0], now)), phoneNumber, codes[1..], now)
  }

  /** Every wrong code adds two to the counter, so k wrong codes below the
      ceiling add 2k and change nothing else. */
  lemma {:induction false} WrongCodesCountTwice(s: Student, phoneNumber: string, codes: seq<string>, now: int)
    requires TruthyStr(s.otp)
    requires forall i :: 0 <= i < |codes| ==> codes[i] != s.otp.value
    requires s.otpAttempts + 2 * |codes| <= MAX_PHONE_OTP_ATTEMPTS + 1
    ensures ReplayPhone(s, phoneNumber, codes, now) == s.(otpAttempts := s.otpAttempts + 2 * |codes|)
    decreases |codes|
  {
    if codes != [] {
      var t := After(s, VerifyPhoneStep(s, phoneNumber, codes[0], now));
      assert t == s.(otpAttempts := s.otpAttempts + 2);
      WrongCodesCountTwice(t, phoneNumber, codes[1..], now);
    }
  }

  /** Once the counter is at the ceiling, verification attempts change nothing. */
  lemma {:induction false} LockoutIsPermanent(s: Student, phoneNumber: string, codes: seq<string>, now: int)
    requires s.otpAttempts >= MAX_PHONE_OTP_ATTEMPTS
    ensures ReplayPhone(s, phoneNumber, codes, now) == s
    decreases |codes|
  {
    if codes != [] {
      assert After(s, VerifyPhoneStep(s, phoneNumber, codes[0], now)) == s;
      LockoutIsPermanent(s, phoneNumber, codes[1..], now);
    }
  }

  /** Ten wrong codes on a fresh counter lock the phone login: the eleventh
      attempt is refused even with the right code. */
  lemma TenWrongCodesLockOut(s: Student, phoneNumber: string, codes: seq<string>, now: int, later: int)
    requires TruthyStr(s.otp) && s.otpAttempts == 0
    requires |codes| == 10 && forall i :: 0 <= i < |codes| ==> codes[i] != s.otp.value
    ensures VerifyPhoneStep(ReplayPhone(s, phoneNumber, codes, now), phoneNumber, s.otp.value, later).result
            == Err(MaxOtpAttemptsReached)
  {
    WrongCodesCountTwice(s, phoneNumber, codes, now);
  }

  /** The demo account passes the equality check with any code; the other
      checks still apply. */
  lemma DemoAccountAnyCode(s: Student, otp: string, now: int)
    requires s.email == Some(DEMO_EMAIL)
    requires TruthyStr(s.otp) && s.otpAttempts < MAX_EMAIL_OTP_ATTEMPTS
    ensures VerifyEmailStep(s, DEMO_EMAIL, otp, now).result != Err(IncorrectOtp)
    ensures s.otpExpiresAt.Some? && now <= s.otpExpiresAt.value
            ==> VerifyEmailStep(s, DEMO_EMAIL, otp, now).result.Ok?
    ensures s.otpExpiresAt.Some? && s.otpExpiresAt.value < now
            ==> VerifyEmailStep(s, DEMO_EMAIL, otp, now).result == Err(OtpExpired)
  {
  }

  /** The demo account is still subject to the ceiling and to a missing code. */
  lemma DemoAccountStillLimited(s: Student, otp: string, now: int)
    requires s.email == Some(DEMO_EMAIL)
    requires !TruthyStr(s.otp) || s.otpAttempts >= MAX_EMAIL_OTP_ATTEMPTS
    ensures VerifyEmailStep(s, DEMO_EMAIL, otp, now).result.Err?
    ensures After(s, VerifyEmailStep(s, DEMO_EMAIL, otp, now)) == s
  {
  }

  /** A web code without an organization is refused as not verified, before
      the ceiling and the code are looked at, and nothing is written. */
  lemma WebNeedsOrganization(s: Student, webOtp: string, now: int)
    requires TruthyStr(s.webOtp) && !TruthyInt(s.organizationId)
    ensures VerifyWebStep(s, webOtp, now).result == Err(UserNotVerified)
    ensures After(s, VerifyWebStep(s, webOtp, now)) == s
  {
  }

  /** The three channels keep separate counters: a phone or email attempt never
      touches the web counter, and a web attempt never touches the OTP counter. */
  lemma ChannelsKeepSeparateCounters(s: Student, phoneNumber: string, email: string, code: string, now: int)
    ensures After(s, VerifyPhoneStep(s, phoneNumber, code, now)).webOtpAttempts == s.webOtpAttempts
    ensures After(s, VerifyEmailStep(s, email, code, now)).webOtpAttempts == s.webOtpAttempts
    ensures After(s, VerifyWebStep(s, code, now)).otpAttempts == s.otpAttempts
  {
  }
}
