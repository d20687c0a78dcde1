/** OTPHelper (src/auth/otp.py): six-digit login codes, their expiry, and the
    token pairs minted after a phone or email login.  The secure random source
    is an oracle: the caller supplies the six draws of randbelow(10). */
module OtpHelper {
  import opened Common
  import opened Settings
  import opened Jwt

  const OTP_LENGTH: nat := 6

  /** The code spelled by a sequence of draws, one decimal digit per draw. */
  function DigitsOf(draws: seq<int>): (s: string)
    requires forall i :: 0 <= i < |draws| ==> 0 <= draws[i] < 10
    ensures |s| == |draws|
    ensures forall i :: 0 <= i < |s| ==> s[i] == DigitChar(draws[i]) && IsDigit(s[i])
  {
    if draws == [] then "" else DigitsOf(draws[..|draws| - 1]) + [DigitChar(draws[|draws| - 1])]
  }

  /** generate_otp (otp.py:11-20): appends str(randbelow(10)) six times. */
  method GenerateOtp(draws: seq<int>) returns (otp: string)
    requires |draws| == OTP_LENGTH
    requires forall i :: 0 <= i < |draws| ==> 0 <= draws[i] < 10
    ensures |otp| == OTP_LENGTH
    ensures forall i :: 0 <= i < |otp| ==> IsDigit(otp[i])
    ensures otp == DigitsOf(draws)
  {
    otp := "";
    var i := 0;
    while i < OTP_LENGTH
      invariant 0 <= i <= OTP_LENGTH
      invariant otp == DigitsOf(draws[..i])
    {
      assert draws[..i + 1][..i] == draws[..i];
      otp := otp + [DigitChar(draws[i])];
      i := i + 1;
    }
    assert draws[..OTP_LENGTH] == draws;
  }

  /** create_expires_delta (otp.py:22-29): the code's absolute expiry, now plus
      TIME_OUT_MINUTES.  The ISO string formatting is not modelled. */
  function OtpExpiresAt(now: int): (exp: int)
    ensures exp == now + 60 * TIME_OUT_MINUTES && exp > now
  {
    CreateExpiresDelta(now, TIME_OUT_MINUTES)
  }

  /** The token dict of a login: "token" always, "refresh_token" iff asked for. */
  predicate PairShape(tokens: map<string, Token>, refresh: bool) {
    tokens.Keys == {"token"} + (if refresh then {"refresh_token"} else {})
  }

  /** Both tokens of a pair, minted with the same subject: the access token
      over the ACCESS window, the refresh token over the REFRESH window. */
  function TokenPair(cfg: JwtSettings, now: int, id: int, role: string, email: Option<string>,
                     phoneNumber: Option<string>, organizationId: Option<int>, refresh: bool): (r: Result<map<string, Token>>)
    ensures r.Ok? <==> CreateToken(cfg, now, id, role, email, phoneNumber, ACCESS_TOKEN_EXPIRE_MINUTES, organizationId).Ok?
    ensures r.Err? ==> r.error == CreateToken(cfg, now, id, role, email, phoneNumber, ACCESS_TOKEN_EXPIRE_MINUTES, organizationId).error
    ensures r.Ok? ==> PairShape(r.value, refresh)
    ensures r.Ok? ==> IssuedUnder(cfg.jwtSecretKey, r.value["token"],
                                  StandardClaims(now + 60 * ACCESS_TOKEN_EXPIRE_MINUTES, id, role, email, phoneNumber, organizationId))
    ensures r.Ok? && refresh ==> IssuedUnder(cfg.jwtSecretKey, r.value["refresh_token"],
                                  StandardClaims(now + 60 * REFRESH_TOKEN_EXPIRE_MINUTES, id, role, email, phoneNumber, organizationId))
  {
    match CreateToken(cfg, now, id, role, email, phoneNumber, ACCESS_TOKEN_EXPIRE_MINUTES, organizationId)
    case Err(e) => Err(e)
    case Ok(access) =>
      if !refresh then Ok(map["token" := access])
      else
        match CreateToken(cfg, now, id, role, email, phoneNumber, REFRESH_TOKEN_EXPIRE_MINUTES, organizationId)
        case Err(e) => Err(e)
        case Ok(refreshToken) => Ok(map["token" := access, "refresh_token" := refreshToken])
  }

  /** get_phone_jwt (otp.py:31-59): the subject is the phone number, never an email. */
  function GetPhoneJwt(cfg: JwtSettings, now: int, phoneNumber: string, id: int, role: string,
                       organizationId: Option<int>, refresh: bool): (r: Result<map<string, Token>>)
    ensures r.Ok? <==> TruthyStr(cfg.jwtSecretKey) && phoneNumber != "" && id != 0 && role != ""
    ensures r.Err? ==> r.error == JwtKeyNotFound || r.error == InfoMissingForJwt
    ensures r.Ok? ==> PairShape(r.value, refresh)
    ensures r.Ok? ==> IssuedUnder(cfg.jwtSecretKey, r.value["token"],
                                  StandardClaims(now + 60 * ACCESS_TOKEN_EXPIRE_MINUTES, id, role, None, Some(phoneNumber), organizationId))
    ensures r.Ok? && refresh ==> IssuedUnder(cfg.jwtSecretKey, r.value["refresh_token"],
                                  StandardClaims(now + 60 * REFRESH_TOKEN_EXPIRE_MINUTES, id, role, None, Some(phoneNumber), organizationId))
  {
    TokenPair(cfg, now, id, role, None, Some(phoneNumber), organizationId, refresh)
  }

  /** get_email_jwt (otp.py:61-89): the same shape with the email as subject. */
  function GetEmailJwt(cfg: JwtSettings, now: int, email: string, id: int, role: string,
                       organizationId: Option<int>, refresh: bool): (r: Result<map<string, Token>>)
    ensures r.Ok? <==> TruthyStr(cfg.jwtSecretKey) && email != "" && id != 0 && role != ""
    ensures r.Err? ==> r.error == JwtKeyNotFound || r.error == InfoMissingForJwt
    ensures r.Ok? ==> PairShape(r.value, refresh)
    ensures r.Ok? ==> IssuedUnder(cfg.jwtSecretKey, r.value["token"],
                                  StandardClaims(now + 60 * ACCESS_TOKEN_EXPIRE_MINUTES, id, role, Some(email), None, organizationId))
    ensures r.Ok? && refresh ==> IssuedUnder(cfg.jwtSecretKey, r.value["refresh_token"],
                                  StandardClaims(now + 60 * REFRESH_TOKEN_EXPIRE_MINUTES, id, role, Some(email), None, organizationId))
  {
    TokenPair(cfg, now, id, role, Some(email), None, organizationId, refresh)
  }

  /** A phone-login token carries phone_number, id, role and organization_id and
      no email claim. */
  lemma PhoneTokenHasNoEmail(cfg: JwtSettings, now: int, phoneNumber: string, id: int, role: string,
                             organizationId: Option<int>, refresh: bool)
    requires GetPhoneJwt(cfg, now, phoneNumber, id, role, organizationId, refresh).Ok?
    ensures var tokens := GetPhoneJwt(cfg, now, phoneNumber, id, role, organizationId, refresh).value;
            forall k :: k in tokens ==>
              tokens[k].Signed? && tokens[k].key == cfg.jwtSecretKey.value
              && tokens[k].claims.Keys == {"exp", "id", "role", "organization_id", "phone_number"}
              && tokens[k].claims["phone_number"] == VStr(phoneNumber)
  {
  }
}
