/** Token issuance (src/auth/jwt.py).  A JSON Web Token (RFC 7519) is signed
    over its claims with a secret; the model keeps signing symbolic: Sign pairs
    the key with the claims and Unsign is its partial inverse under the same
    key, which is all the source relies on.  The registered `exp` claim
    (section 4.1.4 of RFC 7519) is an absolute time in seconds. */
module Jwt {
  import opened Common
  import opened Settings

  /** jwt.encode(claims, key, HS256), symbolically. */
  function Sign(key: string, claims: Dict): Token {
    Signed(key, claims)
  }

  /** jwt.decode(token, key): the claims when the token was signed with this key. */
  function Unsign(key: string, t: Token): (r: Option<Dict>)
    ensures r.Some? <==> t.Signed? && t.key == key
  {
    if t.Signed? && t.key == key then Some(t.claims) else None
  }

  /** Decoding under the signing key gives the claims back; under any other key it fails. */
  lemma SignUnsign(key: string, other: string, claims: Dict)
    ensures Unsign(key, Sign(key, claims)) == Some(claims)
    ensures other != key ==> Unsign(other, Sign(key, claims)) == None
  {
  }

  /** t was signed with the configured key over exactly the claims c. */
  predicate IssuedUnder(key: Option<string>, t: Token, c: Dict) {
    key.Some? && Unsign(key.value, t) == Some(c)
  }

  /** create_expires_delta (jwt.py:34-37): now plus a window given in minutes. */
  function CreateExpiresDelta(now: int, minutes: int): (exp: int)
    ensures exp - now == 60 * minutes
    ensures minutes >= 0 ==> exp >= now
  {
    now + 60 * minutes
  }

  /** The claims create_token encodes (jwt.py:77-88). */
  function StandardClaims(exp: int, id: int, role: string, email: Option<string>,
                          phoneNumber: Option<string>, organizationId: Option<int>): (c: Dict)
    ensures c.Keys == {"exp", "id", "role", "organization_id"}
                      + (if TruthyStr(phoneNumber) then {"phone_number"} else {})
                      + (if TruthyStr(email) then {"email"} else {})
    ensures c["exp"] == VInt(exp) && c["id"] == VInt(id) && c["role"] == VStr(role)
    ensures c["organization_id"] == OptInt(organizationId)
    ensures "phone_number" in c ==> c["phone_number"] == VStr(phoneNumber.value)
    ensures "email" in c ==> c["email"] == VStr(email.value)
  {
    var base := map["exp" := VInt(exp), "id" := VInt(id), "role" := VStr(role),
                    "organization_id" := OptInt(organizationId)];
    var withPhone := if TruthyStr(phoneNumber) then base["phone_number" := VStr(phoneNumber.value)] else base;
    if TruthyStr(email) then withPhone["email" := VStr(email.value)] else withPhone
  }

  /** The claims create_admin_token encodes (jwt.py:122-126). */
  function AdminClaims(exp: int, id: int): (c: Dict)
    ensures c.Keys == {"exp", "id", "role"}
    ensures c["exp"] == VInt(exp) && c["id"] == VInt(id) && c["role"] == VStr(RoleName(AdminRole))
  {
    map["exp" := VInt(exp), "id" := VInt(id), "role" := VStr(RoleName(AdminRole))]
  }

  /** JWTHelper.create_token (jwt.py:39-94).  The key check comes first; then a
      subject needs a truthy phone number or email, a non-zero id and a
      non-empty role.  The token is signed with JWT_SECRET_KEY. */
  function CreateToken(cfg: JwtSettings, now: int, id: int, role: string, email: Option<string>,
                       phoneNumber: Option<string>, expiresIn: int, organizationId: Option<int>): (r: Result<Token>)
    ensures !TruthyStr(cfg.jwtSecretKey) ==> r == Err(JwtKeyNotFound)
    ensures TruthyStr(cfg.jwtSecretKey) && r.Err? ==> r.error == InfoMissingForJwt
    ensures r.Ok? <==> TruthyStr(cfg.jwtSecretKey) && (TruthyStr(phoneNumber) || TruthyStr(email))
                       && id != 0 && role != ""
    ensures r.Ok? ==> Unsign(cfg.jwtSecretKey.value, r.value)
                      == Some(StandardClaims(now + 60 * expiresIn, id, role, email, phoneNumber, organizationId))
  {
    if !TruthyStr(cfg.jwtSecretKey) then Err(JwtKeyNotFound)
    else if !(TruthyStr(phoneNumber) || TruthyStr(email)) || !(id != 0 && role != "") then Err(InfoMissingForJwt)
    else
      var exp := CreateExpiresDelta(now, expiresIn);
      Ok(Sign(cfg.jwtSecretKey.value, StandardClaims(exp, id, role, email, phoneNumber, organizationId)))
  }

  /** JWTHelper.create_admin_token (jwt.py:96-132): admin key first, then a
      non-zero id; role is always "admin"; signed with JWT_ADMIN_SECRET_KEY. */
  function CreateAdminToken(cfg: JwtSettings, now: int, id: int, expiresIn: int): (r: Result<Token>)
    ensures !TruthyStr(cfg.jwtAdminSecretKey) ==> r == Err(JwtKeyNotFound)
    ensures TruthyStr(cfg.jwtAdminSecretKey) && id == 0 ==> r == Err(InfoMissingForJwt)
    ensures r.Ok? <==> TruthyStr(cfg.jwtAdminSecretKey) && id != 0
    ensures r.Ok? ==> Unsign(cfg.jwtAdminSecretKey.value, r.value) == Some(AdminClaims(now + 60 * expiresIn, id))
  {
    if !TruthyStr(cfg.jwtAdminSecretKey) then Err(JwtKeyNotFound)
    else if id == 0 then Err(InfoMissingForJwt)
    else Ok(Sign(cfg.jwtAdminSecretKey.value, AdminClaims(CreateExpiresDelta(now, expiresIn), id)))
  }

  /** JWT_REFRESH_SECRET_KEY is never used: changing it changes no token. */
  lemma RefreshKeyUnused(cfg: JwtSettings, refreshKey: Option<string>, now: int, id: int, role: string,
                         email: Option<string>, phoneNumber: Option<string>, expiresIn: int,
                         organizationId: Option<int>)
    ensures var cfg' := cfg.(jwtRefreshSecretKey := refreshKey);
            CreateToken(cfg', now, id, role, email, phoneNumber, expiresIn, organizationId)
              == CreateToken(cfg, now, id, role, email, phoneNumber, expiresIn, organizationId)
            && CreateAdminToken(cfg', now, id, expiresIn) == CreateAdminToken(cfg, now, id, expiresIn)
  {
  }

  /** The access and refresh windows are both six months, so an access token and
      a refresh token minted in the same second for the same subject are the
      same token. */
  lemma AccessAndRefreshCoincide(cfg: JwtSettings, now: int, id: int, role: string,
                                 email: Option<string>, phoneNumber: Option<string>, organizationId: Option<int>)
    ensures CreateToken(cfg, now, id, role, email, phoneNumber, ACCESS_TOKEN_EXPIRE_MINUTES, organizationId)
            == CreateToken(cfg, now, id, role, email, phoneNumber, REFRESH_TOKEN_EXPIRE_MINUTES, organizationId)
  {
  }
}
