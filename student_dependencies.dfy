/** The student guard used by the student routes (src/students/dependencies.py).
    Unlike the helper in students/utils.py it keeps email and phone number only
    when they are set. */
module StudentDependencies {
  import opened Common
  import opened Settings
  import opened Jwt
  import opened AuthUtils

  /** get_current_student (dependencies.py:9-23). */
  function GetCurrentStudent(tokenData: Dict): (r: Result<Dict>)
    requires {"role", "id"} <= tokenData.Keys
    ensures r.Ok? <==> tokenData["role"] == VStr(RoleName(StudentRole))
    ensures r.Err? ==> r.error == RoleNotAuthorized
    ensures r.Ok? ==> "id" in r.value && "role" in r.value
    ensures r.Ok? ==> r.value.Keys <= {"id", "role", "email", "phone_number"}
    ensures r.Ok? ==> forall k :: k in r.value ==> k in tokenData && r.value[k] == tokenData[k]
    ensures r.Ok? ==> ("email" in r.value <==> Get(tokenData, "email") != VNull)
    ensures r.Ok? ==> ("phone_number" in r.value <==> Get(tokenData, "phone_number") != VNull)
  {
    if tokenData["role"] != VStr(RoleName(StudentRole)) then Err(RoleNotAuthorized)
    else
      var base := map["id" := tokenData["id"], "role" := tokenData["role"]];
      var withEmail := if Get(tokenData, "email") != VNull then base["email" := tokenData["email"]] else base;
      Ok(if Get(tokenData, "phone_number") != VNull then withEmail["phone_number" := tokenData["phone_number"]] else withEmail)
  }

  /** Over a phone-login token the guard yields the phone number and no email:
      the absent email claim decodes to None and is dropped. */
  lemma PhoneStudentHasNoEmail(cfg: JwtSettings, now: int, later: int, id: int, phoneNumber: string,
                               organizationId: Option<int>)
    requires CreateToken(cfg, now, id, "student", None, Some(phoneNumber), ACCESS_TOKEN_EXPIRE_MINUTES, organizationId).Ok?
    requires later <= now + 60 * ACCESS_TOKEN_EXPIRE_MINUTES
    ensures var t := CreateToken(cfg, now, id, "student", None, Some(phoneNumber), ACCESS_TOKEN_EXPIRE_MINUTES, organizationId).value;
            GetCurrentUser(cfg, t, later).Ok?
            && GetCurrentStudent(GetCurrentUser(cfg, t, later).value)
               == Ok(map["id" := VInt(id), "role" := VStr("student"), "phone_number" := VStr(phoneNumber)])
  {
    IssueThenDecode(cfg, now, later, id, "student", None, Some(phoneNumber), ACCESS_TOKEN_EXPIRE_MINUTES, organizationId);
  }
}
