/** Configuration the core reads (src/config.py) and the user roles
    (src/auth/serializers.py).  Secrets come from the environment and are
    therefore a parameter, JwtSettings; the durations are constants. */
module Settings {
  import opened Common

  /** OTP validity window in minutes (config.py:38). */
  const TIME_OUT_MINUTES: int := 10

  /** Token lifetimes in minutes (config.py:32-33); both are six months. */
  const ACCESS_TOKEN_EXPIRE_MINUTES: int := 60 * 24 * 180
  const REFRESH_TOKEN_EXPIRE_MINUTES: int := 60 * 24 * 180

  /** The three signing secrets (config.py:29-31); None when unset. */
  datatype JwtSettings = JwtSettings(
    jwtSecretKey: Option<string>,
    jwtAdminSecretKey: Option<string>,
    jwtRefreshSecretKey: Option<string>)

  /** UserRoles (auth/serializers.py:7-10). */
  datatype Role = StudentRole | TeacherRole | AdminRole

  function RoleName(r: Role): string {
    match r
    case StudentRole => "student"
    case TeacherRole => "teacher"
    case AdminRole => "admin"
  }

  /** `UserRoles(s)`: the enum member whose value is s, if any. */
  function ParseRole(s: string): (r: Option<Role>)
    ensures r.Some? <==> s in {"student", "teacher", "admin"}
    ensures r.Some? ==> RoleName(r.value) == s
  {
    if s == "student" then Some(StudentRole)
    else if s == "teacher" then Some(TeacherRole)
    else if s == "admin" then Some(AdminRole)
    else None
  }

  lemma ParseRoleName(r: Role)
    ensures ParseRole(RoleName(r)) == Some(r)
  {
  }
}
