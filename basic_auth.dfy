/** Password authentication (src/auth/basic_auth.py): admin login by username,
    teacher login by email, the two signups and the admin token pair.
    bcrypt is kept symbolic, as signing is in module Jwt: a salted hash
    verifies exactly the password it was made from, and a stored value that
    is not a bcrypt hash makes passlib raise. */
module BasicAuth {
  import opened Common
  import opened Settings
  import opened Jwt
  import opened OtpHelper
  import opened TeacherUtils
  import CrudBase

  /** A stored password: a bcrypt hash over a salt, or text passlib does not
      recognise as a hash. */
  datatype Credential = BcryptHash(salt: string, plaintext: string) | NotAHash(text: string)

  /** passlib's error for a stored value it cannot identify. */
  const UNKNOWN_HASH: Error := InternalError("hash could not be identified")

  /** get_password_hash (basic_auth.py:52-53); the salt is the random part. */
  function HashPassword(password: string, salt: string): (h: Credential)
    ensures h.BcryptHash?
  {
    BcryptHash(salt, password)
  }

  /** verify_password (basic_auth.py:55-56). */
  function VerifyPassword(plainPassword: string, hashedPassword: Credential): (r: Result<bool>)
    ensures r.Err? <==> hashedPassword.NotAHash?
    ensures r.Err? ==> r.error == UNKNOWN_HASH
    ensures r == Ok(true) <==> hashedPassword.BcryptHash? && hashedPassword.plaintext == plainPassword
  {
    match hashedPassword
    case NotAHash(_) => Err(UNKNOWN_HASH)
    case BcryptHash(_, plaintext) => Ok(plaintext == plainPassword)
  }

  /** A hash verifies the password it was made from and no other, whatever
      the salt. */
  lemma HashThenVerify(password: string, attempt: string, salt: string)
    ensures VerifyPassword(attempt, HashPassword(password, salt)) == Ok(attempt == password)
  {
  }

  /** An Admin row; find_unique selects it by its unique username. */
  datatype Admin = Admin(id: int, username: string, password: Credential, isVerified: bool)

  /** A Teacher row; find_unique selects it by its unique email. */
  datatype Teacher = Teacher(id: int, name: string, email: string, phoneNumber: Option<string>, age: Option<int>,
                             password: Credential, phoneVerified: bool, isActive: bool)

  /** What a signup returns once `del ....password` has run. */
  datatype AdminView = AdminView(id: int, username: string, isVerified: bool)
  datatype TeacherView = TeacherView(id: int, name: string, email: string, phoneNumber: Option<string>,
                                     age: Option<int>, phoneVerified: bool, isActive: bool)

  function ViewOfAdmin(a: Admin): AdminView {
    AdminView(a.id, a.username, a.isVerified)
  }

  function ViewOfTeacher(t: Teacher): TeacherView {
    TeacherView(t.id, t.name, t.email, t.phoneNumber, t.age, t.phoneVerified, t.isActive)
  }

  /** admin_login reads `user.password` of the None find_unique returns for an
      unknown username (basic_auth.py:62-64). */
  const NO_SUCH_USER: Error := InternalError("'NoneType' object has no attribute 'password'")

  /** get_admin_jwt (basic_auth.py:114-127): an admin token over the access
      window, and a second one over the refresh window iff `refresh`. */
  function GetAdminJwt(cfg: JwtSettings, now: int, id: int, refresh: bool): (r: Result<map<string, Token>>)
    ensures r.Ok? <==> TruthyStr(cfg.jwtAdminSecretKey) && id != 0
    ensures r.Err? ==> r.error == JwtKeyNotFound || r.error == InfoMissingForJwt
    ensures r.Ok? ==> PairShape(r.value, refresh)
    ensures r.Ok? ==> IssuedUnder(cfg.jwtAdminSecretKey, r.value["token"],
                                  AdminClaims(now + 60 * ACCESS_TOKEN_EXPIRE_MINUTES, id))
    ensures r.Ok? && refresh ==> IssuedUnder(cfg.jwtAdminSecretKey, r.value["refresh_token"],
                                             AdminClaims(now + 60 * REFRESH_TOKEN_EXPIRE_MINUTES, id))
  {
    match CreateAdminToken(cfg, now, id, ACCESS_TOKEN_EXPIRE_MINUTES)
    case Err(e) => Err(e)
    case Ok(access) =>
      if !refresh then Ok(map["token" := access])
      else
        match CreateAdminToken(cfg, now, id, REFRESH_TOKEN_EXPIRE_MINUTES)
        case Err(e) => Err(e)
        case Ok(refreshToken) => Ok(map["token" := access, "refresh_token" := refreshToken])
  }

  /** admin_login (basic_auth.py:58-70): the password is checked before the
      verification flag, and only a verified admin with the right password is
      given an admin token pair. */
  function AdminLogin(cfg: JwtSettings, now: int, admins: map<string, Admin>, username: string, password: string)
    : (r: Result<map<string, Token>>)
    ensures username !in admins ==> r == Err(NO_SUCH_USER)
    ensures r == Err(CredentialsException)
            <==> username in admins && VerifyPassword(password, admins[username].password) == Ok(false)
    ensures r == Err(UserNotVerified)
            <==> username in admins && VerifyPassword(password, admins[username].password) == Ok(true)
                 && !admins[username].isVerified
    ensures r.Ok? <==> username in admins && VerifyPassword(password, admins[username].password) == Ok(true)
                       && admins[username].isVerified && TruthyStr(cfg.jwtAdminSecretKey) && admins[username].id != 0
    ensures r.Ok? ==> PairShape(r.value, true)
                      && IssuedUnder(cfg.jwtAdminSecretKey, r.value["token"],
                                     AdminClaims(now + 60 * ACCESS_TOKEN_EXPIRE_MINUTES, admins[username].id))
  {
    if username !in admins then Err(NO_SUCH_USER)
    else
      var user := admins[username];
      match VerifyPassword(password, user.password)
      case Err(e) => Err(e)
      case Ok(matches) =>
        if !matches then Err(CredentialsException)
        else if !user.isVerified then Err(UserNotVerified)
        else GetAdminJwt(cfg, now, user.id, true)
  }

  /** teacher_login (basic_auth.py:72-90): not found, then the password, then
      the phone verification, then the active flag; a teacher passing all
      four is given a teacher pair with email and phone number. */
  function TeacherLogin(cfg: JwtSettings, now: int, teachers: map<string, Teacher>, email: string, password: string)
    : (r: Result<map<string, Token>>)
    ensures r == Err(UserNotFound) <==> email !in teachers
    ensures r == Err(CredentialsException)
            <==> email in teachers && VerifyPassword(password, teachers[email].password) == Ok(false)
    ensures r == Err(UserNotVerified)
            <==> email in teachers && VerifyPassword(password, teachers[email].password) == Ok(true)
                 && !teachers[email].phoneVerified
    ensures r == Err(UserNotActive)
            <==> email in teachers && VerifyPassword(password, teachers[email].password) == Ok(true)
                 && teachers[email].phoneVerified && !teachers[email].isActive
    ensures r.Ok? <==> email in teachers && VerifyPassword(password, teachers[email].password) == Ok(true)
                       && teachers[email].phoneVerified && teachers[email].isActive
                       && TruthyStr(cfg.jwtSecretKey) && teachers[email].id != 0
                       && (teachers[email].email != "" || TruthyStr(teachers[email].phoneNumber))
    ensures r.Ok? ==> var t := teachers[email];
                      VerifyPassword(password, t.password) == Ok(true) && t.phoneVerified && t.isActive
                      && PairShape(r.value, true)
                      && IssuedUnder(cfg.jwtSecretKey, r.value["token"],
                                     StandardClaims(now + 60 * ACCESS_TOKEN_EXPIRE_MINUTES, t.id, "teacher",
                                                    Some(t.email), t.phoneNumber, None))
  {
    if email !in teachers then Err(UserNotFound)
    else
      var user := teachers[email];
      match VerifyPassword(password, user.password)
      case Err(e) => Err(e)
      case Ok(matches) =>
        if !matches then Err(CredentialsException)
        else if !user.phoneVerified then Err(UserNotVerified)
        else if !user.isActive then Err(UserNotActive)
        else GetTeacherJwt(cfg, now, user.id, user.email, user.phoneNumber, true)
  }

  /** Rows keyed by their handle, with ids positive, distinct and below the counter. */
  ghost predicate AdminsValid(admins: map<string, Admin>, nextId: int) {
    0 < nextId
    && (forall u :: u in admins ==> admins[u].username == u && 0 < admins[u].id < nextId)
    && (forall u, v :: u in admins && v in admins && u != v ==> admins[u].id != admins[v].id)
  }

  ghost predicate TeachersValid(teachers: map<string, Teacher>, nextId: int) {
    0 < nextId
    && (forall e :: e in teachers ==> teachers[e].email == e && 0 < teachers[e].id < nextId)
    && (forall e, f :: e in teachers && f in teachers && e != f ==> teachers[e].id != teachers[f].id)
  }

  /** What admin_signup (basic_auth.py:92-101) returns and leaves in the admin
      table; `verifiedByDefault` is the schema's default for is_verified. */
  ghost function AdminSignupOutcome(userType: Role, admins: map<string, Admin>, nextId: int, verifiedByDefault: bool,
                                    username: string, password: string, salt: string)
    : (o: (Result<AdminView>, map<string, Admin>, int))
  {
    if userType != AdminRole then (Err(RoleNotAllowed(RoleName(userType))), admins, nextId)
    else if username in admins then
      (Err(CrudBase.ClassifyCreateError(CrudBase.UniqueViolationMessage("username"))), admins, nextId)
    else
      var row := Admin(nextId, username, HashPassword(password, salt), verifiedByDefault);
      (Ok(ViewOfAdmin(row)), admins[username := row], nextId + 1)
  }

  /** What teacher_signup (basic_auth.py:103-112) returns and leaves in the
      teacher table; the flags of a new row are the schema's defaults. */
  ghost function TeacherSignupOutcome(userType: Role, teachers: map<string, Teacher>, nextId: int,
                                      phoneVerifiedByDefault: bool, activeByDefault: bool,
                                      name: string, email: string, phoneNumber: string, age: Option<int>,
                                      password: string, salt: string)
    : (o: (Result<TeacherView>, map<string, Teacher>, int))
  {
    if userType != TeacherRole then (Err(RoleNotAllowed(RoleName(userType))), teachers, nextId)
    else if email in teachers then
      (Err(CrudBase.ClassifyCreateError(CrudBase.UniqueViolationMessage("email"))), teachers, nextId)
    else
      var row := Teacher(nextId, name, email, Some(phoneNumber), age, HashPassword(password, salt),
                         phoneVerifiedByDefault, activeByDefault);
      (Ok(ViewOfTeacher(row)), teachers[email := row], nextId + 1)
  }

  /** A handler for another role refuses to sign anyone up and writes nothing. */
  lemma WrongHandlerSignsNobodyUp(userType: Role, admins: map<string, Admin>, teachers: map<string, Teacher>,
                                  nextId: int, flag: bool, name: string, handle: string, phoneNumber: string,
                                  age: Option<int>, password: string, salt: string)
    ensures userType != AdminRole ==>
              AdminSignupOutcome(userType, admins, nextId, flag, handle, password, salt)
              == (Err(RoleNotAllowed(RoleName(userType))), admins, nextId)
    ensures userType != TeacherRole ==>
              TeacherSignupOutcome(userType, teachers, nextId, flag, flag, name, handle, phoneNumber, age, password, salt)
              == (Err(RoleNotAllowed(RoleName(userType))), teachers, nextId)
  {
  }

  /** Signing up keeps the table's invariant. */
  lemma {:induction false} AdminSignupKeepsInvariant(userType: Role, admins: map<string, Admin>, nextId: int,
                                                     verifiedByDefault: bool, username: string,
                                                     password: string, salt: string)
    requires AdminsValid(admins, nextId)
    ensures var o := AdminSignupOutcome(userType, admins, nextId, verifiedByDefault, username, password, salt);
            AdminsValid(o.1, o.2)
  {
    var o := AdminSignupOutcome(userType, admins, nextId, verifiedByDefault, username, password, salt);
    if o.0.Ok? {
      forall u, v | u in o.1 && v in o.1 && u != v ensures o.1[u].id != o.1[v].id {
        if u != username && v != username {
          assert o.1[u] == admins[u] && o.1[v] == admins[v];
        }
      }
    }
  }

  lemma {:induction false} TeacherSignupKeepsInvariant(userType: Role, teachers: map<string, Teacher>, nextId: int,
                                                       phoneVerifiedByDefault: bool, activeByDefault: bool,
                                                       name: string, email: string, phoneNumber: string,
                                                       age: Option<int>, password: string, salt: string)
    requires TeachersValid(teachers, nextId)
    ensures var o := TeacherSignupOutcome(userType, teachers, nextId, phoneVerifiedByDefault, activeByDefault,
                                          name, email, phoneNumber, age, password, salt);
            TeachersValid(o.1, o.2)
  {
    var o := TeacherSignupOutcome(userType, teachers, nextId, phoneVerifiedByDefault, activeByDefault,
                                  name, email, phoneNumber, age, password, salt);
    if o.0.Ok? {
      forall e, f | e in o.1 && f in o.1 && e != f ensures o.1[e].id != o.1[f].id {
        if e != email && f != email {
          assert o.1[e] == teachers[e] && o.1[f] == teachers[f];
        }
      }
    }
  }

  /** The signup stores a hash, never the plaintext, and that hash lets the
      new admin log in with the password chosen and with no other: the right
      password gets a token pair for the new id once the account is verified,
      a wrong one is refused as bad credentials. */
  lemma {:induction false} SignedUpAdminLogsIn(cfg: JwtSettings, now: int, admins: map<string, Admin>, nextId: int,
                                               verifiedByDefault: bool, username: string, password: string,
                                               salt: string, attempt: string)
    requires AdminsValid(admins, nextId)
    requires AdminSignupOutcome(AdminRole, admins, nextId, verifiedByDefault, username, password, salt).0.Ok?
    ensures var table := AdminSignupOutcome(AdminRole, admins, nextId, verifiedByDefault, username, password, salt).1;
            table[username].password.BcryptHash? && table[username].password != NotAHash(password)
            && (attempt != password ==> AdminLogin(cfg, now, table, username, attempt) == Err(CredentialsException))
            && (verifiedByDefault && TruthyStr(cfg.jwtAdminSecretKey) ==>
                  AdminLogin(cfg, now, table, username, password).Ok?
                  && IssuedUnder(cfg.jwtAdminSecretKey, AdminLogin(cfg, now, table, username, password).value["token"],
                                 AdminClaims(now + 60 * ACCESS_TOKEN_EXPIRE_MINUTES, nextId)))
            && (!verifiedByDefault ==> AdminLogin(cfg, now, table, username, password) == Err(UserNotVerified))
  {
    var table := AdminSignupOutcome(AdminRole, admins, nextId, verifiedByDefault, username, password, salt).1;
    assert table[username] == Admin(nextId, username, HashPassword(password, salt), verifiedByDefault);
    HashThenVerify(password, attempt, salt);
    HashThenVerify(password, password, salt);
  }

  /** A new teacher logs in with the password chosen and no other; with the
      flags set and a handle to name, the pair names the teacher's id, email
      and phone number. */
  lemma {:induction false} SignedUpTeacherLogsIn(cfg: JwtSettings, now: int, teachers: map<string, Teacher>,
                                                 nextId: int, phoneVerifiedByDefault: bool, activeByDefault: bool,
                                                 name: string, email: string, phoneNumber: string, age: Option<int>,
                                                 password: string, salt: string, attempt: string)
    requires TeachersValid(teachers, nextId)
    requires TeacherSignupOutcome(TeacherRole, teachers, nextId, phoneVerifiedByDefault, activeByDefault,
                                  name, email, phoneNumber, age, password, salt).0.Ok?
    ensures var table := TeacherSignupOutcome(TeacherRole, teachers, nextId, phoneVerifiedByDefault, activeByDefault,
                                              name, email, phoneNumber, age, password, salt).1;
            table[email].password.BcryptHash?
            && (attempt != password ==> TeacherLogin(cfg, now, table, email, attempt) == Err(CredentialsException))
            && (phoneVerifiedByDefault && activeByDefault && TruthyStr(cfg.jwtSecretKey)
                && (email != "" || phoneNumber != "") ==>
                  TeacherLogin(cfg, now, table, email, password).Ok?
                  && IssuedUnder(cfg.jwtSecretKey, TeacherLogin(cfg, now, table, email, password).value["token"],
                                 StandardClaims(now + 60 * ACCESS_TOKEN_EXPIRE_MINUTES, nextId, "teacher",
                                                Some(email), Some(phoneNumber), None)))
  {
    var table := TeacherSignupOutcome(TeacherRole, teachers, nextId, phoneVerifiedByDefault, activeByDefault,
                                      name, email, phoneNumber, age, password, salt).1;
    assert table[email] == Teacher(nextId, name, email, Some(phoneNumber), age, HashPassword(password, salt),
                                   phoneVerifiedByDefault, activeByDefault);
    HashThenVerify(password, attempt, salt);
    HashThenVerify(password, password, salt);
  }

  /** An admin token is not a standard token: under distinct keys the
      standard decoder cannot open it. */
  lemma AdminTokenOnlyUnderAdminKey(cfg: JwtSettings, now: int, id: int, refresh: bool)
    requires GetAdminJwt(cfg, now, id, refresh).Ok? && cfg.jwtSecretKey != cfg.jwtAdminSecretKey
    requires cfg.jwtSecretKey.Some?
    ensures forall k :: k in GetAdminJwt(cfg, now, id, refresh).value ==>
              Unsign(cfg.jwtSecretKey.value, GetAdminJwt(cfg, now, id, refresh).value[k]).None?
  {
    var tokens := GetAdminJwt(cfg, now, id, refresh).value;
    forall k | k in tokens ensures Unsign(cfg.jwtSecretKey.value, tokens[k]).None? {
      assert k == "token" || (refresh && k == "refresh_token");
      assert tokens[k].Signed? && tokens[k].key == cfg.jwtAdminSecretKey.value;
    }
  }

  class AdminStore {
    var admins: map<string, Admin>
    var nextId: int
    /** is_verified of a new row: the schema's default. */
    const verifiedByDefault: bool

    ghost predicate Valid()
      reads this
    {
      AdminsValid(admins, nextId)
    }

    constructor (verifiedByDefault: bool)
      ensures Valid() && admins == map[] && this.verifiedByDefault == verifiedByDefault
    {
      admins := map[];
      nextId := 1;
      this.verifiedByDefault := verifiedByDefault;
    }
  }

  class TeacherStore {
    var teachers: map<string, Teacher>
    var nextId: int
    const phoneVerifiedByDefault: bool
    const activeByDefault: bool

    ghost predicate Valid()
      reads this
    {
      TeachersValid(teachers, nextId)
    }

    constructor (phoneVerifiedByDefault: bool, activeByDefault: bool)
      ensures Valid() && teachers == map[]
      ensures this.phoneVerifiedByDefault == phoneVerifiedByDefault && this.activeByDefault == activeByDefault
    {
      teachers := map[];
      nextId := 1;
      this.phoneVerifiedByDefault := phoneVerifiedByDefault;
      this.activeByDefault := activeByDefault;
    }
  }

  /** BasicAuthHandler (basic_auth.py:26-38), bound to one role. */
  class BasicAuthHandler {
    const userType: Role
    const adminStore: AdminStore
    const teacherStore: TeacherStore

    ghost predicate Valid()
      reads this, adminStore, teacherStore
    {
      adminStore.Valid() && teacherStore.Valid()
    }

    constructor (userType: Role, adminStore: AdminStore, teacherStore: TeacherStore)
      ensures this.userType == userType && this.adminStore == adminStore && this.teacherStore == teacherStore
    {
      this.userType := userType;
      this.adminStore := adminStore;
      this.teacherStore := teacherStore;
    }

    /** admin_signup (basic_auth.py:92-101): the hash replaces the password
        before the row is created, and the row is returned without it. */
    method AdminSignup(username: string, password: string, salt: string) returns (r: Result<AdminView>)
      requires Valid()
      modifies adminStore
      ensures Valid()
      ensures (r, adminStore.admins, adminStore.nextId)
              == AdminSignupOutcome(userType, old(adminStore.admins), old(adminStore.nextId),
                                    adminStore.verifiedByDefault, username, password, salt)
    {
      if userType != AdminRole {
        return Err(RoleNotAllowed(RoleName(userType)));
      }
      var hashedPassword := HashPassword(password, salt);
      if username in adminStore.admins {
        return Err(CrudBase.ClassifyCreateError(CrudBase.UniqueViolationMessage("username")));
      }
      AdminSignupKeepsInvariant(userType, adminStore.admins, adminStore.nextId, adminStore.verifiedByDefault,
                                username, password, salt);
      var newAdmin := Admin(adminStore.nextId, username, hashedPassword, adminStore.verifiedByDefault);
      adminStore.admins := adminStore.admins[username := newAdmin];
      adminStore.nextId := adminStore.nextId + 1;
      r := Ok(ViewOfAdmin(newAdmin));
    }

    /** teacher_signup (basic_auth.py:103-112). */
    method TeacherSignup(name: string, email: string, phoneNumber: string, age: Option<int>,
                         password: string, salt: string) returns (r: Result<TeacherView>)
      requires Valid()
      modifies teacherStore
      ensures Valid()
      ensures (r, teacherStore.teachers, teacherStore.nextId)
              == TeacherSignupOutcome(userType, old(teacherStore.teachers), old(teacherStore.nextId),
                                      teacherStore.phoneVerifiedByDefault, teacherStore.activeByDefault,
                                      name, email, phoneNumber, age, password, salt)
    {
      if userType != TeacherRole {
        return Err(RoleNotAllowed(RoleName(userType)));
      }
      var hashedPassword := HashPassword(password, salt);
      if email in teacherStore.teachers {
        return Err(CrudBase.ClassifyCreateError(CrudBase.UniqueViolationMessage("email")));
      }
      TeacherSignupKeepsInvariant(userType, teacherStore.teachers, teacherStore.nextId,
                                  teacherStore.phoneVerifiedByDefault, teacherStore.activeByDefault,
                                  name, email, phoneNumber, age, password, salt);
      var newTeacher := Teacher(teacherStore.nextId, name, email, Some(phoneNumber), age, hashedPassword,
                                teacherStore.phoneVerifiedByDefault, teacherStore.activeByDefault);
      teacherStore.teachers := teacherStore.teachers[email := newTeacher];
      teacherStore.nextId := teacherStore.nextId + 1;
      r := Ok(ViewOfTeacher(newTeacher));
    }
  }
}
