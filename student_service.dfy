/** The student service (src/students/service.py): issuing login codes on the
    phone, email and web channels, and the verify wrappers that mint a token
    pair once the model has accepted a code.  Each operation is stated as an
    outcome function over the table (the response, the rows, the id counter);
    StudentService's methods perform it on the StudentStore in place. */
module StudentService {
  import opened Common
  import opened Settings
  import opened Jwt
  import opened AuthUtils
  import opened OtpHelper
  import opened StudentUtils
  import opened StudentSerializers
  import opened StudentModel

  /** The guest account of create_email_otp (service.py:86-87). */
  const GUEST_ACCOUNT_OTP: string := "071123"
  const GUEST_ACCOUNT_EMAIL: string := "guest@letsevolve.in"

  /** A student row as the dict the routes serialise. */
  function RecordOf(s: Student): (d: Dict)
    ensures "otp" in d && "web_otp" in d && "id" in d && d["id"] == VInt(s.id)
    ensures d["otp"] == OptStr(s.otp) && d["web_otp"] == OptStr(s.webOtp)
  {
    map["id" := VInt(s.id), "email" := OptStr(s.email), "phone_number" := OptStr(s.phoneNumber),
        "otp" := OptStr(s.otp), "otp_expires_at" := OptTime(s.otpExpiresAt), "otp_attempts" := VInt(s.otpAttempts),
        "web_otp" := OptStr(s.webOtp), "web_otp_expires_at" := OptTime(s.webOtpExpiresAt),
        "web_otp_attempts" := VInt(s.webOtpAttempts), "phone_verified" := VBool(s.phoneVerified),
        "is_active" := VBool(s.isActive), "organization_id" := OptInt(s.organizationId),
        "batch_id" := OptInt(s.batchId), "activation_attempts" := VInt(s.activationAttempts),
        "live_class_enabled" := VBool(s.liveClassEnabled), "last_web_login_at" := OptTime(s.lastWebLoginAt)]
  }

  function OptTime(t: Option<int>): Value {
    if t.Some? then VTime(t.value) else VNull
  }

  /** delete_secrets (service.py:25-32): drops the login code and the activation
      code, whichever the record has, and nothing else. */
  function DeleteSecrets(record: Dict): (r: Dict)
    ensures "otp" !in r && "activation_code" !in r
    ensures forall k :: k in record && k != "otp" && k != "activation_code" ==> k in r && r[k] == record[k]
    ensures r.Keys <= record.Keys
  {
    record - {"otp", "activation_code"}
  }

  /** The web code survives delete_secrets; the login code does not. */
  lemma DeleteSecretsKeepsWebOtp(s: Student)
    ensures var d := DeleteSecrets(RecordOf(s));
            "otp" !in d && "web_otp" in d && d["web_otp"] == OptStr(s.webOtp) && d["id"] == VInt(s.id)
  {
  }

  /** The CreateStudent values of an issuance for an unknown handle
      (service.py:70-72, 109-111): the handle, the code and its expiry. */
  function CreateStudentValues(email: Option<string>, phoneNumber: Option<string>, otp: string, expiresAt: int)
    : (values: Dict)
    ensures values.Keys == CREATE_STUDENT_FIELDS
    ensures ValidateCreateStudent(values).Ok? <==> TruthyStr(email) || TruthyStr(phoneNumber)
    ensures ValidateCreateStudent(values) == ValidateCreateStudentIntended(values)
  {
    map["name" := VNull, "email" := OptStr(email), "phone_number" := OptStr(phoneNumber), "age" := VNull,
        "otp" := VStr(otp), "otp_expires_at" := VTime(expiresAt), "profile" := VNull]
  }

  /** The code an email issuance stores: the guest account always gets the
      fixed code, everyone else the generated one. */
  function EmailCode(email: string, generated: string): (code: string)
    ensures email == GUEST_ACCOUNT_EMAIL ==> code == GUEST_ACCOUNT_OTP
    ensures email != GUEST_ACCOUNT_EMAIL ==> code == generated
  {
    if email == GUEST_ACCOUNT_EMAIL then GUEST_ACCOUNT_OTP else generated
  }

  /** A table of students with its id counter. */
  datatype Table = Table(rows: map<int, Student>, nextId: int)

  /** Issuing a code to a row that has one stored: the code and expiry are
      overwritten and the counter goes up by one (set_otp adds one to the
      count it is given). */
  function Reissued(s: Student, otp: string, expiresAt: int): (t: Student)
    ensures SameIdentity(s, t) && t.otpAttempts == s.otpAttempts + 1
  {
    s.(otp := Some(otp), otpExpiresAt := Some(expiresAt), otpAttempts := s.otpAttempts + 1)
  }

  /** create_student_otp (service.py:44-76) over the table: a known number below
      the ceiling is reissued through set_otp(phone_number=...); an unknown
      one becomes a new student through CreateStudent. */
  ghost function PhoneIssueOutcome(t: Table, phoneNumber: string, otp: string, expiresAt: int)
    : (o: (Result<Dict>, Table))
  {
    if Found(t.rows, ByPhone(phoneNumber)) then
      var id := Resolve(t.rows, ByPhone(phoneNumber));
      if t.rows[id].otpAttempts >= MAX_PHONE_OTP_ATTEMPTS then (Err(MaxOtpAttemptsReached), t)
      else if phoneNumber == "" then (Err(DBUpdate), t)
      else (Ok(PhoneOtpCreatedResponse(phoneNumber)), t.(rows := t.rows[id := Reissued(t.rows[id], otp, expiresAt)]))
    else if phoneNumber == "" then (Err(NoEmailOrPhoneGiven), t)
    else
      (Ok(PhoneOtpCreatedResponse(phoneNumber)),
       Table(t.rows[t.nextId := NewStudent(t.nextId, None, Some(phoneNumber), Some(otp), Some(expiresAt))], t.nextId + 1))
  }

  /** create_email_otp (service.py:78-117) over the table, with the code
      already chosen by EmailCode; the code is returned with the response. */
  ghost function EmailIssueOutcome(t: Table, email: string, otp: string, expiresAt: int)
    : (o: (Result<(string, Dict)>, Table))
  {
    if Found(t.rows, ByEmail(email)) then
      var id := Resolve(t.rows, ByEmail(email));
      if t.rows[id].otpAttempts >= MAX_EMAIL_OTP_ATTEMPTS then (Err(MaxOtpAttemptsReached), t)
      else if email == "" then (Err(DBUpdate), t)
      else (Ok((otp, EmailOtpCreatedResponse(email))), t.(rows := t.rows[id := Reissued(t.rows[id], otp, expiresAt)]))
    else if email == "" then (Err(NoEmailOrPhoneGiven), t)
    else
      (Ok((otp, EmailOtpCreatedResponse(email))),
       Table(t.rows[t.nextId := NewStudent(t.nextId, Some(email), None, Some(otp), Some(expiresAt))], t.nextId + 1))
  }

  /** get_web_otp (service.py:119-137) over the table: the row by id, the web
      ceiling, then set_web_otp; the code and its expiry are returned. */
  ghost function WebIssueOutcome(t: Table, studentId: int, webOtp: string, expiresAt: int)
    : (o: (Result<(string, int)>, Table))
  {
    if studentId !in t.rows then (Err(RecordNotFound(studentId)), t)
    else
      var s := t.rows[studentId];
      if s.webOtpAttempts >= MAX_WEB_LOGIN_ATTEMPTS then (Err(MaxOtpAttemptsReached), t)
      else
        (Ok((webOtp, expiresAt)),
         t.(rows := t.rows[studentId := s.(webOtp := Some(webOtp), webOtpExpiresAt := Some(expiresAt),
                                           webOtpAttempts := s.webOtpAttempts + 1)]))
  }

  /** The login response (service.py:162-168, 179-185, 199-204): the model's
      response without "id", plus both tokens of the pair. */
  function LoginResponse(response: Dict, tokens: map<string, Token>): (r: Dict)
    requires PairShape(tokens, true)
    ensures r.Keys == response.Keys - {"id"} + {"token", "refresh_token"}
    ensures r["token"] == VToken(tokens["token"]) && r["refresh_token"] == VToken(tokens["refresh_token"])
    ensures forall k :: k in response && k != "id" && k != "token" && k != "refresh_token" ==> r[k] == response[k]
  {
    (response - {"id"})["token" := VToken(tokens["token"])]["refresh_token" := VToken(tokens["refresh_token"])]
  }

  /** The id a successful verification reports. */
  function ReportedId(response: Dict): int
    requires "id" in response && response["id"].VInt?
  {
    response["id"].i
  }

  /** verify_otp (service.py:171-185): the model's verification, then a phone
      pair for role "student" with no organization.  A failure to mint comes
      after the model has written the row. */
  ghost function PhoneLoginOutcome(cfg: JwtSettings, now: int, m: map<int, Student>, phoneNumber: string, otp: string)
    : (o: (Result<Dict>, map<int, Student>))
  {
    var v := PhoneVerifyOutcome(m, phoneNumber, otp, now);
    if v.0.Err? then v
    else
      match GetPhoneJwt(cfg, now, phoneNumber, ReportedId(v.0.value), RoleName(StudentRole), None, true)
      case Err(e) => (Err(e), v.1)
      case Ok(tokens) => (Ok(LoginResponse(v.0.value, tokens)), v.1)
  }

  /** verify_email_otp (service.py:154-169): as for the phone, with an email pair. */
  ghost function EmailLoginOutcome(cfg: JwtSettings, now: int, m: map<int, Student>, email: string, otp: string)
    : (o: (Result<Dict>, map<int, Student>))
  {
    var v := EmailVerifyOutcome(m, email, otp, now);
    if v.0.Err? then v
    else
      match GetEmailJwt(cfg, now, email, ReportedId(v.0.value), RoleName(StudentRole), None, true)
      case Err(e) => (Err(e), v.1)
      case Ok(tokens) => (Ok(LoginResponse(v.0.value, tokens)), v.1)
  }

  /** verify_web_otp (service.py:187-204): a student pair carrying the
      organization the model reported. */
  ghost function WebLoginOutcome(cfg: JwtSettings, now: int, m: map<int, Student>, studentEmail: string, webOtp: string)
    : (o: (Result<Dict>, map<int, Student>))
  {
    var v := WebVerifyOutcome(m, studentEmail, webOtp, now);
    if v.0.Err? then v
    else
      match GetStudentJwt(cfg, now, studentEmail, ReportedId(v.0.value), Some(v.0.value["organization_id"].i), true)
      case Err(e) => (Err(e), v.1)
      case Ok(tokens) => (Ok(LoginResponse(v.0.value, tokens)), v.1)
  }

  class StudentService {
    const model: StudentStore

    ghost predicate Valid()
      reads this, model
    {
      model.Valid()
    }

    ghost function Snapshot(): Table
      reads this, model
    {
      Table(model.students, model.nextId)
    }

    constructor ()
      ensures Valid() && fresh(model) && model.students == map[]
    {
      model := new StudentStore();
    }

    /** create_student_otp (service.py:44-76); the six draws are randbelow(10)'s. */
    method CreateStudentOtp(phoneNumber: string, draws: seq<int>, now: int) returns (r: Result<Dict>)
      requires Valid()
      requires |draws| == OTP_LENGTH && forall i :: 0 <= i < |draws| ==> 0 <= draws[i] < 10
      modifies model
      ensures Valid()
      ensures (r, Snapshot()) == PhoneIssueOutcome(old(Snapshot()), phoneNumber, DigitsOf(draws), OtpExpiresAt(now))
    {
      ghost var t := Snapshot();
      ghost var o := PhoneIssueOutcome(t, phoneNumber, DigitsOf(draws), OtpExpiresAt(now));
      var otp := GenerateOtp(draws);
      var otpExpiresIn := OtpExpiresAt(now);
      var existing := model.GetByPhoneNumber(phoneNumber);
      if existing.Ok? {
        ghost var id := Resolve(t.rows, ByPhone(phoneNumber));
        var otpCount := existing.value.otpAttempts;
        if otpCount >= MAX_PHONE_OTP_ATTEMPTS {
          return Err(MaxOtpAttemptsReached);
        }
        assert o.0.Ok? <==> phoneNumber != "";
        var written := model.SetOtp(Some(otp), Some(otpExpiresIn), otpCount, Some(phoneNumber), None);
        if written.Err? {
          return Err(written.error);
        }
        assert model.students == t.rows[id := Reissued(t.rows[id], otp, otpExpiresIn)];
        return Ok(PhoneOtpCreatedResponse(phoneNumber));
      }
      var valid := ValidateCreateStudent(CreateStudentValues(None, Some(phoneNumber), otp, otpExpiresIn));
      if valid.Err? {
        return Err(valid.error);
      }
      var _ := model.Create(None, Some(phoneNumber), Some(otp), Some(otpExpiresIn));
      r := Ok(PhoneOtpCreatedResponse(phoneNumber));
    }

    /** create_email_otp (service.py:78-117). */
    method CreateEmailOtp(email: string, draws: seq<int>, now: int) returns (r: Result<(string, Dict)>)
      requires Valid()
      requires |draws| == OTP_LENGTH && forall i :: 0 <= i < |draws| ==> 0 <= draws[i] < 10
      modifies model
      ensures Valid()
      ensures (r, Snapshot()) == EmailIssueOutcome(old(Snapshot()), email, EmailCode(email, DigitsOf(draws)), OtpExpiresAt(now))
    {
      ghost var t := Snapshot();
      ghost var o := EmailIssueOutcome(t, email, EmailCode(email, DigitsOf(draws)), OtpExpiresAt(now));
      var otp := GenerateOtp(draws);
      var otpExpiresIn := OtpExpiresAt(now);
      if email == GUEST_ACCOUNT_EMAIL {
        otp := GUEST_ACCOUNT_OTP;
      }
      assert otp == EmailCode(email, DigitsOf(draws));
      var existing := model.GetByEmail(email);
      if existing.Ok? {
        ghost var id := Resolve(t.rows, ByEmail(email));
        var otpCount := existing.value.otpAttempts;
        if otpCount >= MAX_EMAIL_OTP_ATTEMPTS {
          return Err(MaxOtpAttemptsReached);
        }
        assert o.0.Ok? <==> email != "";
        var written := model.SetOtp(Some(otp), Some(otpExpiresIn), otpCount, None, Some(email));
        if written.Err? {
          return Err(written.error);
        }
        assert model.students == t.rows[id := Reissued(t.rows[id], otp, otpExpiresIn)];
        return Ok((otp, EmailOtpCreatedResponse(email)));
      }
      var valid := ValidateCreateStudent(CreateStudentValues(Some(email), None, otp, otpExpiresIn));
      if valid.Err? {
        return Err(valid.error);
      }
      var _ := model.Create(Some(email), None, Some(otp), Some(otpExpiresIn));
      r := Ok((otp, EmailOtpCreatedResponse(email)));
    }

    /** get_web_otp (service.py:119-137). */
    method GetWebOtp(studentId: int, draws: seq<int>, now: int) returns (r: Result<(string, int)>)
      requires Valid()
      requires |draws| == OTP_LENGTH && forall i :: 0 <= i < |draws| ==> 0 <= draws[i] < 10
      modifies model
      ensures Valid()
      ensures (r, Snapshot()) == WebIssueOutcome(old(Snapshot()), studentId, DigitsOf(draws), OtpExpiresAt(now))
    {
      var webOtp := GenerateOtp(draws);
      var webOtpExpiresAt := OtpExpiresAt(now);
      var student := model.Get(studentId);
      if student.Err? {
        return Err(student.error);
      }
      var webOtpCount := student.value.webOtpAttempts;
      if webOtpCount >= MAX_WEB_LOGIN_ATTEMPTS {
        return Err(MaxOtpAttemptsReached);
      }
      var _ := model.SetWebOtp(studentId, Some(webOtp), Some(webOtpExpiresAt), webOtpCount);
      r := Ok((webOtp, webOtpExpiresAt));
    }

    /** verify_otp (service.py:171-185). */
    method VerifyOtp(cfg: JwtSettings, now: int, phoneNumber: string, otp: string) returns (r: Result<Dict>)
      requires Valid()
      modifies model
      ensures Valid() && model.nextId == old(model.nextId)
      ensures (r, model.students) == PhoneLoginOutcome(cfg, now, old(model.students), phoneNumber, otp)
    {
      var response := model.VerifyOtp(phoneNumber, otp, now);
      if response.Err? {
        return response;
      }
      var tokens := GetPhoneJwt(cfg, now, phoneNumber, ReportedId(response.value), RoleName(StudentRole), None, true);
      if tokens.Err? {
        return Err(tokens.error);
      }
      r := Ok(LoginResponse(response.value, tokens.value));
    }

    /** verify_email_otp (service.py:154-169). */
    method VerifyEmailOtp(cfg: JwtSettings, now: int, email: string, otp: string) returns (r: Result<Dict>)
      requires Valid()
      modifies model
      ensures Valid() && model.nextId == old(model.nextId)
      ensures (r, model.students) == EmailLoginOutcome(cfg, now, old(model.students), email, otp)
    {
      var response := model.VerifyEmailOtp(email, otp, now);
      if response.Err? {
        return response;
      }
      var tokens := GetEmailJwt(cfg, now, email, ReportedId(response.value), RoleName(StudentRole), None, true);
      if tokens.Err? {
        return Err(tokens.error);
      }
      r := Ok(LoginResponse(response.value, tokens.value));
    }

    /** verify_web_otp (service.py:187-204). */
    method VerifyWebOtp(cfg: JwtSettings, now: int, studentEmail: string, webOtp: string) returns (r: Result<Dict>)
      requires Valid()
      modifies model
      ensures Valid() && model.nextId == old(model.nextId)
      ensures (r, model.students) == WebLoginOutcome(cfg, now, old(model.students), studentEmail, webOtp)
    {
      var response := model.VerifyWebOtp(studentEmail, webOtp, now);
      if response.Err? {
        return response;
      }
      var organizationId := response.value["organization_id"].i;
      var tokens := GetStudentJwt(cfg, now, studentEmail, ReportedId(response.value), Some(organizationId), true);
      if tokens.Err? {
        return Err(tokens.error);
      }
      r := Ok(LoginResponse(response.value, tokens.value));
    }
  }
}
