/** Properties of the student service (src/students/service.py): issuance keeps
    the table well formed, moves the counters as the source does, and a code
    that was issued logs the student in with a token for that student. */
module StudentServiceProperties {
  import opened Common
  import opened Settings
  import opened Jwt
  import opened OtpHelper
  import opened StudentUtils
  import opened StudentModel
  import opened StudentService

  /** Adding a row under the counter for handles no row has keeps the invariant. */
  lemma {:induction false} InsertKeepsInvariant(t: Table, s: Student)
    requires StoreInvariant(t.rows, t.nextId) && s.id == t.nextId
    requires s.email.Some? ==> !Found(t.rows, ByEmail(s.email.value))
    requires s.phoneNumber.Some? ==> !Found(t.rows, ByPhone(s.phoneNumber.value))
    ensures StoreInvariant(t.rows[t.nextId := s], t.nextId + 1)
  {
    var m := t.rows[t.nextId := s];
    forall a, b | a in m && b in m && a != b && m[a].email.Some?
      ensures m[a].email != m[b].email
    {
      if a == t.nextId {
        assert !Selects(t.rows, ByEmail(s.email.value), b);
      } else if b == t.nextId {
        assert !Selects(t.rows, ByEmail(m[a].email.value), a) || s.email != m[a].email;
      }
    }
    forall a, b | a in m && b in m && a != b && m[a].phoneNumber.Some?
      ensures m[a].phoneNumber != m[b].phoneNumber
    {
      if a == t.nextId {
        assert !Selects(t.rows, ByPhone(s.phoneNumber.value), b);
      } else if b == t.nextId {
        assert !Selects(t.rows, ByPhone(m[a].phoneNumber.value), a) || s.phoneNumber != m[a].phoneNumber;
      }
    }
  }

  /** Phone issuance keeps ids keyed, below the counter, and handles unique. */
  lemma {:induction false} PhoneIssueKeepsInvariant(t: Table, phoneNumber: string, otp: string, expiresAt: int)
    requires StoreInvariant(t.rows, t.nextId)
    ensures var o := PhoneIssueOutcome(t, phoneNumber, otp, expiresAt).1;
            StoreInvariant(o.rows, o.nextId) && o.nextId >= t.nextId
  {
    if Found(t.rows, ByPhone(phoneNumber)) {
      var id := Resolve(t.rows, ByPhone(phoneNumber));
      ReplaceKeepsInvariant(t.rows, t.nextId, id, Reissued(t.rows[id], otp, expiresAt));
    } else if phoneNumber != "" {
      InsertKeepsInvariant(t, NewStudent(t.nextId, None, Some(phoneNumber), Some(otp), Some(expiresAt)));
    }
  }

  /** Email issuance keeps the invariant likewise. */
  lemma {:induction false} EmailIssueKeepsInvariant(t: Table, email: string, otp: string, expiresAt: int)
    requires StoreInvariant(t.rows, t.nextId)
    ensures var o := EmailIssueOutcome(t, email, otp, expiresAt).1;
            StoreInvariant(o.rows, o.nextId) && o.nextId >= t.nextId
  {
    if Found(t.rows, ByEmail(email)) {
      var id := Resolve(t.rows, ByEmail(email));
      ReplaceKeepsInvariant(t.rows, t.nextId, id, Reissued(t.rows[id], otp, expiresAt));
    } else if email != "" {
      InsertKeepsInvariant(t, NewStudent(t.nextId, Some(email), None, Some(otp), Some(expiresAt)));
    }
  }

  /** At the phone ceiling issuance is refused and the stored code, expiry and
      counter stay as they were. */
  lemma LockedPhoneIssueChangesNothing(t: Table, phoneNumber: string, otp: string, expiresAt: int)
    requires Found(t.rows, ByPhone(phoneNumber))
    requires t.rows[Resolve(t.rows, ByPhone(phoneNumber))].otpAttempts >= MAX_PHONE_OTP_ATTEMPTS
    ensures PhoneIssueOutcome(t, phoneNumber, otp, expiresAt) == (Err(MaxOtpAttemptsReached), t)
  {
  }

  /** Below the ceiling, reissuing overwrites the code and expiry and adds one
      to the counter: issuance never resets it. */
  lemma ReissueCountsUp(t: Table, phoneNumber: string, otp: string, expiresAt: int)
    requires Found(t.rows, ByPhone(phoneNumber)) && phoneNumber != ""
    requires t.rows[Resolve(t.rows, ByPhone(phoneNumber))].otpAttempts < MAX_PHONE_OTP_ATTEMPTS
    ensures var id := Resolve(t.rows, ByPhone(phoneNumber));
            var o := PhoneIssueOutcome(t, phoneNumber, otp, expiresAt);
            o.0 == Ok(PhoneOtpCreatedResponse(phoneNumber)) && o.1.nextId == t.nextId
            && o.1.rows[id].otp == Some(otp) && o.1.rows[id].otpExpiresAt == Some(expiresAt)
            && o.1.rows[id].otpAttempts == t.rows[id].otpAttempts + 1
            && o.1.rows[id].phoneVerified == t.rows[id].phoneVerified
  {
  }

  /** An unknown number becomes a new student under the next id, holding the
      fresh code and expiry; an empty one is refused by CreateStudent. */
  lemma UnknownPhoneCreatesStudent(t: Table, phoneNumber: string, otp: string, expiresAt: int)
    requires !Found(t.rows, ByPhone(phoneNumber))
    ensures var o := PhoneIssueOutcome(t, phoneNumber, otp, expiresAt);
            if phoneNumber == "" then o == (Err(NoEmailOrPhoneGiven), t)
            else o.0.Ok? && o.1.nextId == t.nextId + 1
                 && o.1.rows == t.rows[t.nextId := NewStudent(t.nextId, None, Some(phoneNumber), Some(otp), Some(expiresAt))]
  {
  }

  /** The guest account is always issued the fixed code, whatever was drawn,
      and the caller receives that code. */
  lemma {:induction false} GuestGetsFixedCode(t: Table, generated: string, expiresAt: int)
    requires StoreInvariant(t.rows, t.nextId)
    requires EmailIssueOutcome(t, GUEST_ACCOUNT_EMAIL, EmailCode(GUEST_ACCOUNT_EMAIL, generated), expiresAt).0.Ok?
    ensures var o := EmailIssueOutcome(t, GUEST_ACCOUNT_EMAIL, EmailCode(GUEST_ACCOUNT_EMAIL, generated), expiresAt);
            o.0.value.0 == GUEST_ACCOUNT_OTP && Found(o.1.rows, ByEmail(GUEST_ACCOUNT_EMAIL))
            && o.1.rows[Resolve(o.1.rows, ByEmail(GUEST_ACCOUNT_EMAIL))].otp == Some(GUEST_ACCOUNT_OTP)
  {
    var o := EmailIssueOutcome(t, GUEST_ACCOUNT_EMAIL, GUEST_ACCOUNT_OTP, expiresAt).1;
    EmailIssueKeepsInvariant(t, GUEST_ACCOUNT_EMAIL, GUEST_ACCOUNT_OTP, expiresAt);
    var id := if Found(t.rows, ByEmail(GUEST_ACCOUNT_EMAIL)) then Resolve(t.rows, ByEmail(GUEST_ACCOUNT_EMAIL)) else t.nextId;
    assert Selects(o.rows, ByEmail(GUEST_ACCOUNT_EMAIL), id);
    ResolveUnique(o.rows, o.nextId, ByEmail(GUEST_ACCOUNT_EMAIL), id);
  }

  /** The web code is refused at the ceiling; below it the fresh code and
      expiry are stored with the counter one up, and returned. */
  lemma WebIssueCountsUp(t: Table, studentId: int, webOtp: string, expiresAt: int)
    requires studentId in t.rows
    ensures var o := WebIssueOutcome(t, studentId, webOtp, expiresAt);
            var s := t.rows[studentId];
            if s.webOtpAttempts >= MAX_WEB_LOGIN_ATTEMPTS then o == (Err(MaxOtpAttemptsReached), t)
            else o.0 == Ok((webOtp, expiresAt)) && o.1.rows[studentId].webOtp == Some(webOtp)
                 && o.1.rows[studentId].webOtpAttempts == s.webOtpAttempts + 1
                 && o.1.rows[studentId].otpAttempts == s.otpAttempts
  {
  }

  /** The code issued to a phone number verifies with that number until it
      expires, as long as the issue left the counter below the phone ceiling:
      the student is marked verified and the counter is reset. */
  lemma {:induction false} IssuedPhoneCodeVerifies(t: Table, phoneNumber: string, otp: string, expiresAt: int, now: int)
    requires StoreInvariant(t.rows, t.nextId)
    requires phoneNumber != "" && otp != "" && now <= expiresAt
    requires !Found(t.rows, ByPhone(phoneNumber))
             || t.rows[Resolve(t.rows, ByPhone(phoneNumber))].otpAttempts + 1 < MAX_PHONE_OTP_ATTEMPTS
    ensures var o := PhoneIssueOutcome(t, phoneNumber, otp, expiresAt).1;
            var v := PhoneVerifyOutcome(o.rows, phoneNumber, otp, now);
            v.0.Ok? && Found(o.rows, ByPhone(phoneNumber))
            && v.1[Resolve(o.rows, ByPhone(phoneNumber))].phoneVerified
            && v.1[Resolve(o.rows, ByPhone(phoneNumber))].otpAttempts == 0
  {
    var o := PhoneIssueOutcome(t, phoneNumber, otp, expiresAt).1;
    PhoneIssueKeepsInvariant(t, phoneNumber, otp, expiresAt);
    var id := if Found(t.rows, ByPhone(phoneNumber)) then Resolve(t.rows, ByPhone(phoneNumber)) else t.nextId;
    assert Selects(o.rows, ByPhone(phoneNumber), id);
    ResolveUnique(o.rows, o.nextId, ByPhone(phoneNumber), id);
  }

  /** A number issued its code at 19 attempts gets the success response, but
      the counter reaches the ceiling, so that code can never be verified. */
  lemma NineteenthCodeIsUnusable(t: Table, phoneNumber: string, otp: string, expiresAt: int, now: int)
    requires StoreInvariant(t.rows, t.nextId) && phoneNumber != "" && otp != ""
    requires Found(t.rows, ByPhone(phoneNumber))
    requires t.rows[Resolve(t.rows, ByPhone(phoneNumber))].otpAttempts == MAX_PHONE_OTP_ATTEMPTS - 1
    ensures var o := PhoneIssueOutcome(t, phoneNumber, otp, expiresAt);
            o.0.Ok? && PhoneVerifyOutcome(o.1.rows, phoneNumber, otp, now).0 == Err(MaxOtpAttemptsReached)
  {
    var o := PhoneIssueOutcome(t, phoneNumber, otp, expiresAt).1;
    var id := Resolve(t.rows, ByPhone(phoneNumber));
    PhoneIssueKeepsInvariant(t, phoneNumber, otp, expiresAt);
    assert Selects(o.rows, ByPhone(phoneNumber), id);
    ResolveUnique(o.rows, o.nextId, ByPhone(phoneNumber), id);
  }

  /** A successful phone login answers without the id and with a token pair
      for the student the number belongs to: role "student", the phone number
      and no organization, whatever organization the student has joined. */
  lemma {:induction false} PhoneLoginTokenNamesStudent(cfg: JwtSettings, now: int, m: map<int, Student>, nextId: int,
                                                       phoneNumber: string, otp: string)
    requires StoreInvariant(m, nextId)
    requires PhoneLoginOutcome(cfg, now, m, phoneNumber, otp).0.Ok?
    ensures var r := PhoneLoginOutcome(cfg, now, m, phoneNumber, otp);
            var id := Resolve(m, ByPhone(phoneNumber));
            m[id].phoneNumber == Some(phoneNumber) && r.1[id].phoneVerified
            && "id" !in r.0.value && "token" in r.0.value && r.0.value["token"].VToken?
            && IssuedUnder(cfg.jwtSecretKey, r.0.value["token"].t,
                           StandardClaims(now + 60 * ACCESS_TOKEN_EXPIRE_MINUTES, id, "student", None, Some(phoneNumber), None))
  {
    var v := PhoneVerifyOutcome(m, phoneNumber, otp, now);
    var id := Resolve(m, ByPhone(phoneNumber));
    assert m[id].id == id;
    assert ReportedId(v.0.value) == id;
  }

  /** Tokens are minted only after the model has written the row: when no
      signing key is configured the login fails with JwtKeyNotFound, yet the
      student is already marked verified and the counter reset. */
  lemma {:induction false} LoginWithoutKeyStillVerifies(cfg: JwtSettings, now: int, m: map<int, Student>,
                                                        phoneNumber: string, otp: string)
    requires !TruthyStr(cfg.jwtSecretKey)
    requires PhoneVerifyOutcome(m, phoneNumber, otp, now).0.Ok?
    ensures var r := PhoneLoginOutcome(cfg, now, m, phoneNumber, otp);
            var id := Resolve(m, ByPhone(phoneNumber));
            r.0 == Err(JwtKeyNotFound) && r.1[id].phoneVerified && r.1[id].otpAttempts == 0
  {
    var v := PhoneVerifyOutcome(m, phoneNumber, otp, now);
    var id := Resolve(m, ByPhone(phoneNumber));
    var st := VerifyPhoneStep(m[id], phoneNumber, otp, now);
    assert st.result.Ok?;
    assert v.1 == m[id := After(m[id], st)];
  }

  /** A failed phone login mints nothing: the response is the model's error. */
  lemma FailedLoginMintsNothing(cfg: JwtSettings, now: int, m: map<int, Student>, phoneNumber: string, otp: string)
    requires PhoneVerifyOutcome(m, phoneNumber, otp, now).0.Err?
    ensures PhoneLoginOutcome(cfg, now, m, phoneNumber, otp) == PhoneVerifyOutcome(m, phoneNumber, otp, now)
  {
  }

  /** A successful web login carries the organization the student belongs to
      in its token, unlike the phone and email logins. */
  lemma {:induction false} WebLoginTokenCarriesOrganization(cfg: JwtSettings, now: int, m: map<int, Student>,
                                                            nextId: int, studentEmail: string, webOtp: string)
    requires StoreInvariant(m, nextId)
    requires WebLoginOutcome(cfg, now, m, studentEmail, webOtp).0.Ok?
    ensures var r := WebLoginOutcome(cfg, now, m, studentEmail, webOtp);
            var id := Resolve(m, ByEmail(studentEmail));
            m[id].organizationId.Some? && m[id].organizationId.value != 0
            && "id" !in r.0.value && "token" in r.0.value && r.0.value["token"].VToken?
            && IssuedUnder(cfg.jwtSecretKey, r.0.value["token"].t,
                           StandardClaims(now + 60 * ACCESS_TOKEN_EXPIRE_MINUTES, id, "student", Some(studentEmail), None,
                                          m[id].organizationId))
  {
    var v := WebVerifyOutcome(m, studentEmail, webOtp, now);
    var id := Resolve(m, ByEmail(studentEmail));
    assert m[id].id == id;
    assert ReportedId(v.0.value) == id;
    assert VerifyWebStep(m[id], webOtp, now).result.Ok?;
  }
}
