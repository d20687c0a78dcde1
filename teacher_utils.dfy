/** Teacher helpers (src/teachers/utils.py): the teacher guard over the current
    user and the teacher token pair. */
module TeacherUtils {
  import opened Common
  import opened Settings
  import opened Jwt
  import opened AuthUtils
  import opened OtpHelper

  /** get_current_teacher (utils.py:17-25): refuses any role but teacher and
      keeps exactly email, id and role of the current user. */
  function GetCurrentTeacher(tokenData: Dict): (r: Result<Dict>)
    requires {"role", "id", "email"} <= tokenData.Keys
    ensures r.Ok? <==> tokenData["role"] == VStr(RoleName(TeacherRole))
    ensures r.Err? ==> r.error == RoleNotAuthorized
    ensures r.Ok? ==> r.value.Keys == {"email", "id", "role"}
                      && forall k :: k in r.value ==> r.value[k] == tokenData[k]
  {
    if tokenData["role"] != VStr(RoleName(TeacherRole)) then Err(RoleNotAuthorized)
    else Ok(map["email" := tokenData["email"], "id" := tokenData["id"], "role" := tokenData["role"]])
  }

  /** get_teacher_jwt (utils.py:28-56): a pair for role "teacher" carrying both
      the email and the phone number and no organization. */
  function GetTeacherJwt(cfg: JwtSettings, now: int, id: int, email: string,
                         phoneNumber: Option<string>, refresh: bool): (r: Result<map<string, Token>>)
    ensures r.Ok? <==> TruthyStr(cfg.jwtSecretKey) && (email != "" || TruthyStr(phoneNumber)) && id != 0
    ensures r.Ok? ==> PairShape(r.value, refresh)
    ensures r.Ok? ==> IssuedUnder(cfg.jwtSecretKey, r.value["token"],
                                  StandardClaims(now + 60 * ACCESS_TOKEN_EXPIRE_MINUTES, id, "teacher", Some(email), phoneNumber, None))
    ensures r.Ok? && refresh ==> IssuedUnder(cfg.jwtSecretKey, r.value["refresh_token"],
                                  StandardClaims(now + 60 * REFRESH_TOKEN_EXPIRE_MINUTES, id, "teacher", Some(email), phoneNumber, None))
  {
    TokenPair(cfg, now, id, RoleName(TeacherRole), Some(email), phoneNumber, None, refresh)
  }

  /** A teacher token carries no organization: its organization_id claim is null. */
  lemma TeacherTokenHasNoOrganization(cfg: JwtSettings, now: int, later: int, id: int, email: string,
                                      phoneNumber: Option<string>, refresh: bool)
    requires GetTeacherJwt(cfg, now, id, email, phoneNumber, refresh).Ok?
    requires later <= now + 60 * ACCESS_TOKEN_EXPIRE_MINUTES
    ensures var t := GetTeacherJwt(cfg, now, id, email, phoneNumber, refresh).value["token"];
            DecodeToken(cfg, t, later).Ok?
            && DecodeToken(cfg, t, later).value.organizationId == None
            && DecodeToken(cfg, t, later).value.role == TeacherRole
  {
    IssueThenDecode(cfg, now, later, id, "teacher", Some(email), phoneNumber, ACCESS_TOKEN_EXPIRE_MINUTES, None);
  }

  /** A teacher access token passes the teacher guard and fails the student's. */
  lemma TeacherTokenAuthenticates(cfg: JwtSettings, now: int, later: int, id: int, email: string,
                                  phoneNumber: Option<string>, refresh: bool)
    requires GetTeacherJwt(cfg, now, id, email, phoneNumber, refresh).Ok?
    requires later <= now + 60 * ACCESS_TOKEN_EXPIRE_MINUTES
    ensures var t := GetTeacherJwt(cfg, now, id, email, phoneNumber, refresh).value["token"];
            GetCurrentUser(cfg, t, later).Ok?
            && GetCurrentTeacher(GetCurrentUser(cfg, t, later).value).Ok?
            && GetCurrentTeacher(GetCurrentUser(cfg, t, later).value).value["id"] == VInt(id)
  {
    IssueThenDecode(cfg, now, later, id, "teacher", Some(email), phoneNumber, ACCESS_TOKEN_EXPIRE_MINUTES, None);
  }
}
