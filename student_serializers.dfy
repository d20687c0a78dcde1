/** The root validators of the student schemas (src/students/serializers.py).
    A validator receives the already-parsed field values as a dict (unset
    optional fields hold None) and either returns them or raises. */
module StudentSerializers {
  import opened Common

  /** The fields of CreateStudent (serializers.py:43-50). */
  const CREATE_STUDENT_FIELDS: set<string> :=
    {"name", "email", "phone_number", "age", "otp", "otp_expires_at", "profile"}

  /** verify_email_or_phone_present (serializers.py:10-18). */
  function VerifyEmailOrPhonePresent(values: Dict): (r: Result<Dict>)
    ensures r.Ok? <==> TruthyValue(Get(values, "email")) || TruthyValue(Get(values, "phone_number"))
    ensures r.Ok? ==> r.value == values
    ensures r.Err? ==> r.error == NoEmailOrPhoneGiven
  {
    if !(TruthyValue(Get(values, "email")) || TruthyValue(Get(values, "phone_number"))) then Err(NoEmailOrPhoneGiven)
    else Ok(values)
  }

  /** verify_otp_and_expiry_present AS WRITTEN (serializers.py:21-29): the code
      is read from the key "opt", which no schema has. */
  function VerifyOtpAndExpiryPresentAsWritten(values: Dict): (r: Result<Dict>)
    ensures r.Ok? <==> !(TruthyValue(Get(values, "opt")) && !TruthyValue(Get(values, "otp_expires_at")))
    ensures r.Ok? ==> r.value == values
    ensures r.Err? ==> r.error == OtpExpiryNotSet
  {
    if TruthyValue(Get(values, "opt")) && !TruthyValue(Get(values, "otp_expires_at")) then Err(OtpExpiryNotSet)
    else Ok(values)
  }

  /** verify_otp_and_expiry_present as its docstring states it: a set OTP needs
      a set expiry. */
  function VerifyOtpAndExpiryPresent(values: Dict): (r: Result<Dict>)
    ensures r.Ok? <==> !(TruthyValue(Get(values, "otp")) && !TruthyValue(Get(values, "otp_expires_at")))
    ensures r.Ok? ==> r.value == values
    ensures r.Err? ==> r.error == OtpExpiryNotSet
  {
    if TruthyValue(Get(values, "otp")) && !TruthyValue(Get(values, "otp_expires_at")) then Err(OtpExpiryNotSet)
    else Ok(values)
  }

  /** On any CreateStudent value dict the as-written validator never raises. */
  lemma OptKeyNeverPresent(values: Dict)
    requires values.Keys <= CREATE_STUDENT_FIELDS
    ensures VerifyOtpAndExpiryPresentAsWritten(values) == Ok(values)
  {
    assert "opt" !in CREATE_STUDENT_FIELDS;
  }

  /** The input that shows it: an OTP without an expiry passes the validator as
      written and is refused by the intended one. */
  lemma OtpWithoutExpiryPassesAsWritten()
    ensures var values := map["email" := VStr("a@b.c"), "otp" := VStr("123456"), "otp_expires_at" := VNull];
            VerifyOtpAndExpiryPresentAsWritten(values) == Ok(values)
            && VerifyOtpAndExpiryPresent(values) == Err(OtpExpiryNotSet)
  {
  }

  /** Where an expiry is set the two agree: every code the service stores comes
      with an expiry, so the typo never changes an outcome there. */
  lemma ExpirySetMakesThemAgree(values: Dict)
    requires TruthyValue(Get(values, "otp_expires_at"))
    ensures VerifyOtpAndExpiryPresentAsWritten(values) == VerifyOtpAndExpiryPresent(values) == Ok(values)
  {
  }

  /** CreateStudent's two root validators (serializers.py:52-58) as written, in
      declaration order: the first refusal wins, and the second reads "opt". */
  function ValidateCreateStudent(values: Dict): (r: Result<Dict>)
    ensures r.Ok? <==> (TruthyValue(Get(values, "email")) || TruthyValue(Get(values, "phone_number")))
                       && !(TruthyValue(Get(values, "opt")) && !TruthyValue(Get(values, "otp_expires_at")))
    ensures r.Ok? ==> r.value == values
    ensures r.Err? && !(TruthyValue(Get(values, "email")) || TruthyValue(Get(values, "phone_number")))
            ==> r.error == NoEmailOrPhoneGiven
    ensures r.Err? && (TruthyValue(Get(values, "email")) || TruthyValue(Get(values, "phone_number")))
            ==> r.error == OtpExpiryNotSet
  {
    match VerifyEmailOrPhonePresent(values)
    case Err(e) => Err(e)
    case Ok(v) => VerifyOtpAndExpiryPresentAsWritten(v)
  }

  /** The same two validators with the corrected second one: a set OTP needs a
      set expiry. */
  function ValidateCreateStudentIntended(values: Dict): (r: Result<Dict>)
    ensures r.Ok? <==> (TruthyValue(Get(values, "email")) || TruthyValue(Get(values, "phone_number")))
                       && !(TruthyValue(Get(values, "otp")) && !TruthyValue(Get(values, "otp_expires_at")))
    ensures r.Ok? ==> r.value == values
    ensures r.Err? && !(TruthyValue(Get(values, "email")) || TruthyValue(Get(values, "phone_number")))
            ==> r.error == NoEmailOrPhoneGiven
    ensures r.Err? && (TruthyValue(Get(values, "email")) || TruthyValue(Get(values, "phone_number")))
            ==> r.error == OtpExpiryNotSet
  {
    match VerifyEmailOrPhonePresent(values)
    case Err(e) => Err(e)
    case Ok(v) => VerifyOtpAndExpiryPresent(v)
  }

  /** On a CreateStudent dict the schema as written checks only that a handle is
      given; with an expiry set it agrees with the corrected schema. */
  lemma CreateStudentSchemaAsWritten(values: Dict)
    requires values.Keys <= CREATE_STUDENT_FIELDS
    ensures ValidateCreateStudent(values) == VerifyEmailOrPhonePresent(values)
    ensures TruthyValue(Get(values, "otp_expires_at"))
            ==> ValidateCreateStudent(values) == ValidateCreateStudentIntended(values)
  {
    OptKeyNeverPresent(values);
  }

  /** The student TokenPayload schema (serializers.py:70-80) runs only the
      email-or-phone validator. */
  function ValidateStudentTokenPayload(values: Dict): (r: Result<Dict>)
    ensures r.Ok? <==> TruthyValue(Get(values, "email")) || TruthyValue(Get(values, "phone_number"))
    ensures r.Err? ==> r.error == NoEmailOrPhoneGiven
  {
    VerifyEmailOrPhonePresent(values)
  }
}
