/** Student helpers (src/students/utils.py): the rate limits, the response
    dicts, the student guard over the current user and the student token pair. */
module StudentUtils {
  import opened Common
  import opened Settings
  import opened Jwt
  import opened AuthUtils
  import opened OtpHelper

  /** StudentRateLimitConfig (utils.py:10-16). */
  const MAX_WEB_LOGIN_ATTEMPTS: int := 100
  const MAX_EMAIL_OTP_ATTEMPTS: int := 100
  const MAX_PHONE_OTP_ATTEMPTS: int := 20
  const MAX_ACTIVATION_ATTEMPTS: int := 100

  /** A status/message response: status is "Success" exactly when success holds. */
  function StatusResponse(success: bool, msg: string): (r: Dict)
    ensures r.Keys == {"status", "message"}
    ensures r["status"] == VStr("Success") <==> success
    ensures !success ==> r["status"] == VStr("Failed")
    ensures r["message"] == VStr(msg)
  {
    map["status" := VStr(if success then "Success" else "Failed"), "message" := VStr(msg)]
  }

  /** model_updated_response (utils.py:19-20; the same helper is teachers/utils.py:10-14). */
  function ModelUpdatedResponse(success: bool, msg: string): (r: Dict)
    ensures r.Keys == {"status", "message"}
    ensures r["status"] == VStr("Success") <==> success
    ensures r["message"] == VStr(msg)
  {
    StatusResponse(success, msg)
  }

  /** email_otp_created_response (utils.py:23-27). */
  function EmailOtpCreatedResponse(email: string): (r: Dict)
    ensures r == ModelUpdatedResponse(true, "Verification OTP sent to " + email + ".")
  {
    StatusResponse(true, "Verification OTP sent to " + email + ".")
  }

  /** phone_otp_created_response (utils.py:30-34): Indian numbers, +91 prefix. */
  function PhoneOtpCreatedResponse(phoneNumber: string): (r: Dict)
    ensures r == ModelUpdatedResponse(true, "Verification OTP sent to +91 " + phoneNumber + ".")
  {
    StatusResponse(true, "Verification OTP sent to +91 " + phoneNumber + ".")
  }

  /** get_current_student (utils.py:37-45): refuses any role but student and
      keeps exactly email, id and role of the current user. */
  function GetCurrentStudent(tokenData: Dict): (r: Result<Dict>)
    requires {"role", "id", "email"} <= tokenData.Keys
    ensures r.Ok? <==> tokenData["role"] == VStr(RoleName(StudentRole))
    ensures r.Err? ==> r.error == RoleNotAuthorized
    ensures r.Ok? ==> r.value.Keys == {"email", "id", "role"}
                      && forall k :: k in r.value ==> r.value[k] == tokenData[k]
  {
    if tokenData["role"] != VStr(RoleName(StudentRole)) then Err(RoleNotAuthorized)
    else Ok(map["email" := tokenData["email"], "id" := tokenData["id"], "role" := tokenData["role"]])
  }

  /** get_student_jwt (utils.py:48-76): a pair for role "student" whose subject
      is the email, carrying the organization id. */
  function GetStudentJwt(cfg: JwtSettings, now: int, email: string, id: int,
                         organizationId: Option<int>, refresh: bool): (r: Result<map<string, Token>>)
    ensures r.Ok? <==> TruthyStr(cfg.jwtSecretKey) && email != "" && id != 0
    ensures r.Ok? ==> PairShape(r.value, refresh)
    ensures r.Ok? ==> IssuedUnder(cfg.jwtSecretKey, r.value["token"],
                                  StandardClaims(now + 60 * ACCESS_TOKEN_EXPIRE_MINUTES, id, "student", Some(email), None, organizationId))
    ensures r.Ok? && refresh ==> IssuedUnder(cfg.jwtSecretKey, r.value["refresh_token"],
                                  StandardClaims(now + 60 * REFRESH_TOKEN_EXPIRE_MINUTES, id, "student", Some(email), None, organizationId))
  {
    TokenPair(cfg, now, id, RoleName(StudentRole), Some(email), None, organizationId, refresh)
  }

  /** A student pair is exactly an email-login pair for role "student". */
  lemma StudentJwtIsEmailJwt(cfg: JwtSettings, now: int, email: string, id: int,
                             organizationId: Option<int>, refresh: bool)
    ensures GetStudentJwt(cfg, now, email, id, organizationId, refresh)
            == GetEmailJwt(cfg, now, email, id, "student", organizationId, refresh)
  {
  }

  /** The student guard over get_current_user admits a valid token exactly when
      its role claim is student. */
  lemma StudentGuardAdmitsStudentsOnly(cfg: JwtSettings, token: Token, now: int)
    requires GetCurrentUser(cfg, token, now).Ok?
    ensures GetCurrentStudent(GetCurrentUser(cfg, token, now).value).Ok?
            <==> DecodeToken(cfg, token, now).value.role == StudentRole
  {
  }

  /** A student access token passes the student guard until it expires and
      identifies the same student. */
  lemma StudentTokenAuthenticates(cfg: JwtSettings, now: int, later: int, email: string, id: int,
                                  organizationId: Option<int>, refresh: bool)
    requires GetStudentJwt(cfg, now, email, id, organizationId, refresh).Ok?
    requires later <= now + 60 * ACCESS_TOKEN_EXPIRE_MINUTES
    ensures var t := GetStudentJwt(cfg, now, email, id, organizationId, refresh).value["token"];
            GetCurrentUser(cfg, t, later).Ok?
            && GetCurrentStudent(GetCurrentUser(cfg, t, later).value)
               == Ok(map["email" := VStr(email), "id" := VInt(id), "role" := VStr("student")])
  {
    IssueThenDecode(cfg, now, later, id, "student", Some(email), None, ACCESS_TOKEN_EXPIRE_MINUTES, organizationId);
  }
}
