/** Shared vocabulary of the model: optional values, results, the error kinds the
    backend raises as HTTP exceptions, JSON-like values for the dicts it builds,
    Python truthiness, and decimal rendering of integers for response messages. */
module Common {

  datatype Option<+T> = None | Some(value: T)

  /** Every exception kind of the core (src/exceptions.py, src/auth/exceptions.py,
      src/students/exceptions.py, src/organizations/exceptions.py,
      src/organizations/batches/exceptions.py, src/live_class/exceptions.py). */
  datatype Error =
    // src/auth/exceptions.py
    | CredentialsException
    | TokenExpired
    | UserNotFound
    | UserNotVerified
    | UserNotActive
    | RoleNotAuthorized
    | RoleNotAllowed(role: string)
    | NoOtpFound
    | IncorrectOtp
    | OtpExpired
    | JwtKeyNotFound
    | InfoMissingForJwt
    | IncorrectActivationCode
    // src/students/exceptions.py
    | NoEmailOrPhoneGiven
    | OtpExpiryNotSet
    | MaxOtpAttemptsReached
    // src/exceptions.py
    | EmailNotFound(email: string)
    | PhoneNumberNotFound(phoneNumber: string)
    | RecordNotFound(id: int)
    | NoSuchRecord(msg: string)
    | UniqueConstraintFailed(msg: string)
    | DBCreate(msg: string)
    | DBUpdate
    // src/organizations/exceptions.py, batches/exceptions.py, live_class/exceptions.py
    | MaxJoiningAttempts
    | BatchOutsideOrganization
    | BatchNotAllowed
    // the 404 raised by the lesson generator when no module follows the last one
    | AllModulesFinished(lastModule: int)
    // a Python exception the source does not catch (TypeError, AttributeError,
    // a pydantic ValidationError raised inside a handler)
    | InternalError(what: string)

  datatype Result<+T> = Ok(value: T) | Err(error: Error)

  /** A scalar of a JSON object (VTime is a datetime, in seconds): what the source's dicts, claims and responses hold. */
  datatype Value = VInt(i: int) | VStr(s: string) | VBool(b: bool) | VNull | VToken(t: Token) | VTime(at: int)

  /** A signed JSON Web Token, symbolically: a token is the claims it was signed
      over together with the key that signed it; anything else a client presents
      is Malformed.  Signing and decoding live in module Jwt. */
  datatype Token = Signed(key: string, claims: map<string, Value>) | Malformed(text: string)

  type Dict = map<string, Value>

  /** Python truthiness of an optional string: None and "" are falsy. */
  predicate TruthyStr(s: Option<string>) {
    s.Some? && s.value != ""
  }

  /** Python truthiness of an optional integer: None and 0 are falsy. */
  predicate TruthyInt(i: Option<int>) {
    i.Some? && i.value != 0
  }

  /** Python truthiness of a JSON scalar. */
  predicate TruthyValue(v: Value) {
    match v
    case VInt(i) => i != 0
    case VStr(s) => s != ""
    case VBool(b) => b
    case VNull => false
    case VToken(_) => true
    case VTime(_) => true
  }

  /** `d.get(k)`: the value at k, or None (VNull) when k is absent. */
  function Get(d: Dict, k: string): (v: Value)
    ensures k !in d ==> v == VNull
    ensures k in d ==> v == d[k]
  {
    if k in d then d[k] else VNull
  }

  /** An optional string or integer as the JSON value the source stores for it. */
  function OptStr(s: Option<string>): Value {
    if s.Some? then VStr(s.value) else VNull
  }

  function OptInt(i: Option<int>): Value {
    if i.Some? then VInt(i.value) else VNull
  }

  predicate IsDigit(c: char) {
    '0' <= c <= '9'
  }

  function DigitChar(d: int): (c: char)
    requires 0 <= d < 10
    ensures IsDigit(c)
  {
    ['0', '1', '2', '3', '4', '5', '6', '7', '8', '9'][d]
  }

  /** Decimal rendering of a natural number, as Python's str() gives it. */
  function NatToString(n: nat): (s: string)
    ensures |s| >= 1
    ensures forall i :: 0 <= i < |s| ==> IsDigit(s[i])
    decreases n
  {
    if n < 10 then [DigitChar(n)] else NatToString(n / 10) + [DigitChar(n % 10)]
  }

  function IntToString(i: int): (s: string)
    ensures |s| >= 1
  {
    if i < 0 then "-" + NatToString(-i) else NatToString(i)
  }
}
