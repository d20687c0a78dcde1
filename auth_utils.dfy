/** Token validation and the current-user projections (src/auth/utils.py).
    Each decoder checks its key, decodes under it, validates the payload the way
    the pydantic TokenPayload schemas do, and then checks `exp` itself. */
module AuthUtils {
  import opened Common
  import opened Settings
  import opened Jwt

  /** auth/serializers.py:41-47 */
  datatype TokenPayload = TokenPayload(
    id: int, exp: int, role: Role,
    email: Option<string>, phoneNumber: Option<string>, organizationId: Option<int>)

  /** admins/serializers.py:27-30 */
  datatype AdminTokenPayload = AdminTokenPayload(id: int, exp: int, role: Role)

  /** A required integer claim; None when absent or of another type. */
  function IntClaim(c: Dict, k: string): (r: Option<int>)
    ensures r.Some? <==> k in c && c[k].VInt?
    ensures r.Some? ==> c[k] == VInt(r.value)
  {
    if k in c && c[k].VInt? then Some(c[k].i) else None
  }

  /** A required role claim: a string naming one of the three roles. */
  function RoleClaim(c: Dict): (r: Option<Role>)
    ensures r.Some? <==> "role" in c && c["role"].VStr? && ParseRole(c["role"].s).Some?
    ensures r.Some? ==> c["role"] == VStr(RoleName(r.value))
  {
    if "role" in c && c["role"].VStr? then ParseRole(c["role"].s) else None
  }

  /** An Optional[str] claim: Some(None) when absent or null, None when ill-typed. */
  function OptStrClaim(c: Dict, k: string): (r: Option<Option<string>>)
    ensures r == Some(None) <==> k !in c || c[k] == VNull
    ensures r.Some? && r.value.Some? <==> k in c && c[k].VStr?
    ensures r.Some? && r.value.Some? ==> c[k] == VStr(r.value.value)
  {
    if k !in c || c[k] == VNull then Some(None)
    else if c[k].VStr? then Some(Some(c[k].s))
    else None
  }

  /** An Optional[int] claim, likewise. */
  function OptIntClaim(c: Dict, k: string): (r: Option<Option<int>>)
    ensures r == Some(None) <==> k !in c || c[k] == VNull
    ensures r.Some? && r.value.Some? <==> k in c && c[k].VInt?
    ensures r.Some? && r.value.Some? ==> c[k] == VInt(r.value.value)
  {
    if k !in c || c[k] == VNull then Some(None)
    else if c[k].VInt? then Some(Some(c[k].i))
    else None
  }

  /** `TokenPayload(**payload)`: None is a pydantic ValidationError. */
  function ParsePayload(c: Dict): (r: Option<TokenPayload>)
    ensures r.Some? <==> IntClaim(c, "id").Some? && IntClaim(c, "exp").Some? && RoleClaim(c).Some?
                         && OptStrClaim(c, "email").Some? && OptStrClaim(c, "phone_number").Some?
                         && OptIntClaim(c, "organization_id").Some?
    ensures r.Some? ==> c["id"] == VInt(r.value.id) && c["exp"] == VInt(r.value.exp)
                        && c["role"] == VStr(RoleName(r.value.role))
  {
    match (IntClaim(c, "id"), IntClaim(c, "exp"), RoleClaim(c),
           OptStrClaim(c, "email"), OptStrClaim(c, "phone_number"), OptIntClaim(c, "organization_id"))
    case (Some(id), Some(exp), Some(role), Some(email), Some(phone), Some(org)) =>
      Some(TokenPayload(id, exp, role, email, phone, org))
    case _ => None
  }

  /** `AdminTokenPayload(**payload)`. */
  function ParseAdminPayload(c: Dict): (r: Option<AdminTokenPayload>)
    ensures r.Some? <==> IntClaim(c, "id").Some? && IntClaim(c, "exp").Some? && RoleClaim(c).Some?
  {
    match (IntClaim(c, "id"), IntClaim(c, "exp"), RoleClaim(c))
    case (Some(id), Some(exp), Some(role)) => Some(AdminTokenPayload(id, exp, role))
    case _ => None
  }

  /** decode_token (utils.py:22-38).  Only JWTError and ValidationError become
      CredentialsException; the explicit expiry check raises TokenExpired. */
  function DecodeToken(cfg: JwtSettings, token: Token, now: int): (r: Result<TokenPayload>)
    ensures !TruthyStr(cfg.jwtSecretKey) ==> r == Err(JwtKeyNotFound)
    ensures TruthyStr(cfg.jwtSecretKey) && Unsign(cfg.jwtSecretKey.value, token).None?
            ==> r == Err(CredentialsException)
    ensures TruthyStr(cfg.jwtSecretKey) && Unsign(cfg.jwtSecretKey.value, token).Some?
            && ParsePayload(token.claims).None?
            ==> r == Err(CredentialsException)
    ensures TruthyStr(cfg.jwtSecretKey) && Unsign(cfg.jwtSecretKey.value, token).Some?
            && ParsePayload(token.claims).Some? && ParsePayload(token.claims).value.exp < now
            ==> r == Err(TokenExpired)
    ensures TruthyStr(cfg.jwtSecretKey) && Unsign(cfg.jwtSecretKey.value, token).Some?
            && ParsePayload(token.claims).Some? && now <= ParsePayload(token.claims).value.exp
            ==> r == Ok(ParsePayload(token.claims).value)
    ensures r.Ok? ==> Unsign(cfg.jwtSecretKey.value, token) == Some(token.claims)
                      && ParsePayload(token.claims) == Some(r.value) && now <= r.value.exp
  {
    if !TruthyStr(cfg.jwtSecretKey) then Err(JwtKeyNotFound)
    else match Unsign(cfg.jwtSecretKey.value, token)
      case None => Err(CredentialsException)
      case Some(claims) =>
        match ParsePayload(claims)
        case None => Err(CredentialsException)
        case Some(p) => if p.exp < now then Err(TokenExpired) else Ok(p)
  }

  /** decode_admin_token (utils.py:41-57): the same steps under JWT_ADMIN_SECRET_KEY. */
  function DecodeAdminToken(cfg: JwtSettings, token: Token, now: int): (r: Result<AdminTokenPayload>)
    ensures !TruthyStr(cfg.jwtAdminSecretKey) ==> r == Err(JwtKeyNotFound)
    ensures TruthyStr(cfg.jwtAdminSecretKey) && Unsign(cfg.jwtAdminSecretKey.value, token).None?
            ==> r == Err(CredentialsException)
    ensures TruthyStr(cfg.jwtAdminSecretKey) && Unsign(cfg.jwtAdminSecretKey.value, token).Some?
            && ParseAdminPayload(token.claims).None?
            ==> r == Err(CredentialsException)
    ensures TruthyStr(cfg.jwtAdminSecretKey) && Unsign(cfg.jwtAdminSecretKey.value, token).Some?
            && ParseAdminPayload(token.claims).Some? && ParseAdminPayload(token.claims).value.exp < now
            ==> r == Err(TokenExpired)
    ensures TruthyStr(cfg.jwtAdminSecretKey) && Unsign(cfg.jwtAdminSecretKey.value, token).Some?
            && ParseAdminPayload(token.claims).Some? && now <= ParseAdminPayload(token.claims).value.exp
            ==> r == Ok(ParseAdminPayload(token.claims).value)
    ensures r.Ok? ==> Unsign(cfg.jwtAdminSecretKey.value, token) == Some(token.claims)
                      && ParseAdminPayload(token.claims) == Some(r.value) && now <= r.value.exp
  {
    if !TruthyStr(cfg.jwtAdminSecretKey) then Err(JwtKeyNotFound)
    else match Unsign(cfg.jwtAdminSecretKey.value, token)
      case None => Err(CredentialsException)
      case Some(claims) =>
        match ParseAdminPayload(claims)
        case None => Err(CredentialsException)
        case Some(p) => if p.exp < now then Err(TokenExpired) else Ok(p)
  }

  /** The user dict get_current_user builds from a payload (utils.py:66-80):
      every TokenPayload field is an attribute, so all five keys are present. */
  function UserData(p: TokenPayload): (d: Dict)
    ensures d.Keys == {"id", "role", "email", "phone_number", "organization_id"}
    ensures d["id"] == VInt(p.id) && d["role"] == VStr(RoleName(p.role))
    ensures d["email"] == OptStr(p.email) && d["phone_number"] == OptStr(p.phoneNumber)
    ensures d["organization_id"] == OptInt(p.organizationId)
  {
    map["id" := VInt(p.id), "role" := VStr(RoleName(p.role)), "email" := OptStr(p.email),
        "phone_number" := OptStr(p.phoneNumber), "organization_id" := OptInt(p.organizationId)]
  }

  /** get_current_user (utils.py:60-80).  The None check at line 63 cannot fire:
      decode_token either raises or returns a payload. */
  function GetCurrentUser(cfg: JwtSettings, token: Token, now: int): (r: Result<Dict>)
    ensures r.Err? <==> DecodeToken(cfg, token, now).Err?
    ensures r.Err? ==> r.error == DecodeToken(cfg, token, now).error
    ensures r.Ok? ==> r.value == UserData(DecodeToken(cfg, token, now).value)
  {
    match DecodeToken(cfg, token, now)
    case Err(e) => Err(e)
    case Ok(p) => Ok(UserData(p))
  }

  /** get_current_admin (utils.py:83-97): any role but admin is refused; the
      result holds only id and role. */
  function GetCurrentAdmin(cfg: JwtSettings, token: Token, now: int): (r: Result<Dict>)
    ensures DecodeAdminToken(cfg, token, now).Err? ==> r == Err(DecodeAdminToken(cfg, token, now).error)
    ensures DecodeAdminToken(cfg, token, now).Ok? && DecodeAdminToken(cfg, token, now).value.role != AdminRole
            ==> r == Err(RoleNotAuthorized)
    ensures DecodeAdminToken(cfg, token, now).Ok? && DecodeAdminToken(cfg, token, now).value.role == AdminRole
            ==> r.Ok?
    ensures r.Ok? ==> r.value.Keys == {"id", "role"} && r.value["role"] == VStr("admin")
                      && r.value["id"] == VInt(DecodeAdminToken(cfg, token, now).value.id)
  {
    match DecodeAdminToken(cfg, token, now)
    case Err(e) => Err(e)
    case Ok(p) =>
      if p.role != AdminRole then Err(RoleNotAuthorized)
      else Ok(map["id" := VInt(p.id), "role" := VStr(RoleName(p.role))])
  }

  // ---------------------------------------------------------------------------
  // Issue-then-validate properties

  /** A token create_token issued decodes, up to its expiry, to a payload with
      the same subject: id, role, the truthy one(s) of email and phone number,
      and organization_id. */
  lemma IssueThenDecode(cfg: JwtSettings, now: int, later: int, id: int, role: string,
                        email: Option<string>, phoneNumber: Option<string>, expiresIn: int,
                        organizationId: Option<int>)
    requires CreateToken(cfg, now, id, role, email, phoneNumber, expiresIn, organizationId).Ok?
    requires ParseRole(role).Some?
    requires later <= now + 60 * expiresIn
    ensures DecodeToken(cfg, CreateToken(cfg, now, id, role, email, phoneNumber, expiresIn, organizationId).value, later)
            == Ok(TokenPayload(id, now + 60 * expiresIn, ParseRole(role).value,
                               if TruthyStr(email) then email else None,
                               if TruthyStr(phoneNumber) then phoneNumber else None,
                               organizationId))
  {
    var t := CreateToken(cfg, now, id, role, email, phoneNumber, expiresIn, organizationId).value;
    var c := StandardClaims(now + 60 * expiresIn, id, role, email, phoneNumber, organizationId);
    assert Unsign(cfg.jwtSecretKey.value, t) == Some(c);
    assert OptStrClaim(c, "email") == Some(if TruthyStr(email) then email else None);
    assert OptStrClaim(c, "phone_number") == Some(if TruthyStr(phoneNumber) then phoneNumber else None);
    assert OptIntClaim(c, "organization_id") == Some(organizationId);
  }

  /** Past its `exp` the same token is refused with TokenExpired, not with
      CredentialsException. */
  lemma IssuedTokenExpires(cfg: JwtSettings, now: int, later: int, id: int, role: string,
                           email: Option<string>, phoneNumber: Option<string>, expiresIn: int,
                           organizationId: Option<int>)
    requires CreateToken(cfg, now, id, role, email, phoneNumber, expiresIn, organizationId).Ok?
    requires ParseRole(role).Some?
    requires later > now + 60 * expiresIn
    ensures DecodeToken(cfg, CreateToken(cfg, now, id, role, email, phoneNumber, expiresIn, organizationId).value, later)
            == Err(TokenExpired)
  {
    var t := CreateToken(cfg, now, id, role, email, phoneNumber, expiresIn, organizationId).value;
    var c := StandardClaims(now + 60 * expiresIn, id, role, email, phoneNumber, organizationId);
    assert Unsign(cfg.jwtSecretKey.value, t) == Some(c);
    assert OptStrClaim(c, "email").Some? && OptStrClaim(c, "phone_number").Some?;
    assert OptIntClaim(c, "organization_id") == Some(organizationId);
  }

  /** A role create_token accepts but UserRoles does not know yields a token
      that never validates. */
  lemma UnknownRoleNeverValidates(cfg: JwtSettings, now: int, later: int, id: int, role: string,
                                  email: Option<string>, phoneNumber: Option<string>, expiresIn: int,
                                  organizationId: Option<int>)
    requires CreateToken(cfg, now, id, role, email, phoneNumber, expiresIn, organizationId).Ok?
    requires ParseRole(role).None?
    ensures DecodeToken(cfg, CreateToken(cfg, now, id, role, email, phoneNumber, expiresIn, organizationId).value, later)
            == Err(CredentialsException)
  {
    var c := StandardClaims(now + 60 * expiresIn, id, role, email, phoneNumber, organizationId);
    assert RoleClaim(c).None?;
  }

  /** Separate signing domains: with distinct standard and admin keys, an admin
      token never decodes as a standard token and a standard token never
      decodes as an admin token, whatever their claims. */
  lemma DomainSeparation(cfg: JwtSettings, now: int, later: int, id: int, role: string,
                         email: Option<string>, phoneNumber: Option<string>, expiresIn: int,
                         organizationId: Option<int>)
    requires TruthyStr(cfg.jwtSecretKey) && TruthyStr(cfg.jwtAdminSecretKey)
    requires cfg.jwtSecretKey != cfg.jwtAdminSecretKey
    ensures CreateAdminToken(cfg, now, id, expiresIn).Ok?
            ==> DecodeToken(cfg, CreateAdminToken(cfg, now, id, expiresIn).value, later) == Err(CredentialsException)
    ensures CreateToken(cfg, now, id, role, email, phoneNumber, expiresIn, organizationId).Ok?
            ==> DecodeAdminToken(cfg, CreateToken(cfg, now, id, role, email, phoneNumber, expiresIn, organizationId).value, later)
                == Err(CredentialsException)
  {
  }

  /** When both secrets are configured equal the domains collapse: an admin
      token then validates as a standard token. */
  lemma SharedKeyCrossesDomains(cfg: JwtSettings, now: int, later: int, id: int)
    requires TruthyStr(cfg.jwtSecretKey) && cfg.jwtSecretKey == cfg.jwtAdminSecretKey
    requires id != 0 && later <= now
    ensures DecodeToken(cfg, CreateAdminToken(cfg, now, id, ACCESS_TOKEN_EXPIRE_MINUTES).value, later)
            == Ok(TokenPayload(id, now + 60 * ACCESS_TOKEN_EXPIRE_MINUTES, AdminRole, None, None, None))
  {
    var c := AdminClaims(now + 60 * ACCESS_TOKEN_EXPIRE_MINUTES, id);
    assert OptStrClaim(c, "email") == Some(None);
    assert OptStrClaim(c, "phone_number") == Some(None);
    assert OptIntClaim(c, "organization_id") == Some(None);
  }

  /** An admin token validates under the admin decoder up to its expiry and
      get_current_admin gives back its id. */
  lemma AdminIssueThenDecode(cfg: JwtSettings, now: int, later: int, id: int, expiresIn: int)
    requires CreateAdminToken(cfg, now, id, expiresIn).Ok?
    requires later <= now + 60 * expiresIn
    ensures DecodeAdminToken(cfg, CreateAdminToken(cfg, now, id, expiresIn).value, later)
            == Ok(AdminTokenPayload(id, now + 60 * expiresIn, AdminRole))
    ensures GetCurrentAdmin(cfg, CreateAdminToken(cfg, now, id, expiresIn).value, later)
            == Ok(map["id" := VInt(id), "role" := VStr("admin")])
  {
  }

  /** Past its `exp` an admin token is refused with TokenExpired, and
      get_current_admin passes that refusal on. */
  lemma AdminIssuedTokenExpires(cfg: JwtSettings, now: int, later: int, id: int, expiresIn: int)
    requires CreateAdminToken(cfg, now, id, expiresIn).Ok?
    requires later > now + 60 * expiresIn
    ensures DecodeAdminToken(cfg, CreateAdminToken(cfg, now, id, expiresIn).value, later) == Err(TokenExpired)
    ensures GetCurrentAdmin(cfg, CreateAdminToken(cfg, now, id, expiresIn).value, later) == Err(TokenExpired)
  {
  }
}
