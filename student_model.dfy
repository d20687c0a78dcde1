/** The student record and its OTP / enrolment state machine
    (src/students/model.py).  Each verification is a pure decision over the
    looked-up record (the Verify*Step functions below): the result it returns and the one
    write it performs.  StudentStore is the table of records that the model's
    methods read and update in place, as Prisma's update_field does. */
module StudentModel {
  import opened Common
  import opened StudentUtils
  import CrudBase

  /** A Student row.  Times are integer seconds. */
  datatype Student = Student(
    id: int,
    email: Option<string>,
    phoneNumber: Option<string>,
    otp: Option<string>,
    otpExpiresAt: Option<int>,
    otpAttempts: int,
    webOtp: Option<string>,
    webOtpExpiresAt: Option<int>,
    webOtpAttempts: int,
    phoneVerified: bool,
    isActive: bool,
    organizationId: Option<int>,
    batchId: Option<int>,
    activationAttempts: int,
    liveClassEnabled: bool,
    lastWebLoginAt: Option<int>)

  /** The demo account whose email login skips the code comparison (model.py:227). */
  const DEMO_EMAIL: string := "ycdemo@letsevolve.in"

  /** A row as created from CreateStudent: the given handles and code, counters
      at zero, flags false, no organization, batch or web code. */
  function NewStudent(id: int, email: Option<string>, phoneNumber: Option<string>,
                      otp: Option<string>, otpExpiresAt: Option<int>): (s: Student)
    ensures s.id == id && s.email == email && s.phoneNumber == phoneNumber
    ensures s.otp == otp && s.otpExpiresAt == otpExpiresAt
    ensures s.otpAttempts == 0 && s.webOtpAttempts == 0 && s.activationAttempts == 0
    ensures s.webOtp == None && s.organizationId == None && s.batchId == None
    ensures !s.phoneVerified && !s.isActive && !s.liveClassEnabled
  {
    Student(id, email, phoneNumber, otp, otpExpiresAt, 0, None, None, 0, false, false, None, None, 0, false, None)
  }

  /** The fields that identify a row and that no edit of this module touches. */
  predicate SameIdentity(a: Student, b: Student) {
    a.id == b.id && a.email == b.email && a.phoneNumber == b.phoneNumber
  }

  /** The `data` dicts the model passes to update_field. */
  datatype Edit =
    | OtpSet(otp: Option<string>, expiresAt: Option<int>, attempts: int)      // set_otp, model.py:321-327
    | WebOtpSet(webOtp: Option<string>, expiresAt: Option<int>, attempts: int) // set_web_otp, model.py:268-275
    | PhoneVerified                                                           // model.py:145-150
    | EmailActivated                                                          // model.py:247-248
    | WebLogin(at: int)                                                       // model.py:196-202
    | ActivationAttempts(attempts: int)                                       // model.py:289-296
    | OrganizationJoined(organizationId: int)                                 // model.py:47-50
    | BatchSet(batchId: Option<int>)                                          // model.py:70, 89
    | Deactivated                                                             // model.py:106-108

  /** The row after Prisma applies an edit.  Both setters store the count they
      are given plus one. */
  function Apply(s: Student, e: Edit): (t: Student)
    ensures SameIdentity(s, t)
  {
    match e
    case OtpSet(otp, exp, n) => s.(otp := otp, otpExpiresAt := exp, otpAttempts := n + 1)
    case WebOtpSet(otp, exp, n) => s.(webOtp := otp, webOtpExpiresAt := exp, webOtpAttempts := n + 1)
    case PhoneVerified => s.(phoneVerified := true, otpAttempts := 0)
    case EmailActivated => s.(isActive := true, otpAttempts := 0)
    case WebLogin(at) => s.(lastWebLoginAt := Some(at), webOtpAttempts := 0)
    case ActivationAttempts(n) => s.(activationAttempts := n)
    case OrganizationJoined(org) => s.(organizationId := Some(org), liveClassEnabled := true)
    case BatchSet(b) => s.(batchId := b)
    case Deactivated => s.(isActive := false)
  }

  /** What one verification decides: its result, and the write it performs
      before returning (None when it writes nothing). */
  datatype Step = Step(result: Result<Dict>, write: Option<Edit>)

  function After(s: Student, st: Step): Student {
    if st.write.Some? then Apply(s, st.write.value) else s
  }

  /** The result and row a step leaves when its wrong-code write does or does
      not reach the row: when it does not, update_field's DBUpdate surfaces
      before the code is reported incorrect and nothing is written. */
  function Settle(s: Student, st: Step, reaches: bool): (o: (Result<Dict>, Student))
    ensures o.0.Ok? ==> o.0 == st.result
  {
    if st.result == Err(IncorrectOtp) && !reaches then (Err(DBUpdate), s) else (st.result, After(s, st))
  }

  /** Python's `datetime < datetime` with a stored None on the left: a TypeError. */
  const EXPIRY_NOT_COMPARABLE: Error := InternalError("TypeError: None compared with datetime")

  /** The success response: the status dict plus the fields the method adds. */
  function SuccessWithId(msg: string, id: int): (r: Dict)
    ensures r.Keys == {"status", "message", "id"} && r["id"] == VInt(id)
    ensures r["status"] == VStr("Success") && r["message"] == VStr(msg)
  {
    ModelUpdatedResponse(true, msg)["id" := VInt(id)]
  }

  /** verify_otp's decision (model.py:121-158) over the row found by phone number:
      code present, then the phone ceiling, then equality, then a strict expiry. */
  function VerifyPhoneStep(s: Student, phoneNumber: string, otp: string, now: int): (st: Step)
    ensures st.result.Ok? <==> TruthyStr(s.otp) && s.otpAttempts < MAX_PHONE_OTP_ATTEMPTS && s.otp.value == otp
                               && s.otpExpiresAt.Some? && now <= s.otpExpiresAt.value
    ensures !TruthyStr(s.otp) ==> st.result == Err(NoOtpFound)
    ensures TruthyStr(s.otp) && s.otpAttempts >= MAX_PHONE_OTP_ATTEMPTS ==> st.result == Err(MaxOtpAttemptsReached)
    ensures st.result == Err(IncorrectOtp)
            <==> TruthyStr(s.otp) && s.otpAttempts < MAX_PHONE_OTP_ATTEMPTS && s.otp.value != otp
    ensures st.result == Err(OtpExpired)
            <==> TruthyStr(s.otp) && s.otpAttempts < MAX_PHONE_OTP_ATTEMPTS && s.otp.value == otp
                 && s.otpExpiresAt.Some? && s.otpExpiresAt.value < now
    ensures st.result == Err(IncorrectOtp) ==> After(s, st) == s.(otpAttempts := s.otpAttempts + 2)
    ensures st.result.Err? && st.result != Err(IncorrectOtp) ==> After(s, st) == s
    ensures st.result.Ok? ==> After(s, st) == s.(phoneVerified := true, otpAttempts := 0)
                              && "id" in st.result.value && st.result.value["id"] == VInt(s.id)
  {
    if !TruthyStr(s.otp) then Step(Err(NoOtpFound), None)
    else if s.otpAttempts >= MAX_PHONE_OTP_ATTEMPTS then Step(Err(MaxOtpAttemptsReached), None)
    else if s.otp.value != otp then Step(Err(IncorrectOtp), Some(OtpSet(s.otp, s.otpExpiresAt, s.otpAttempts + 1)))
    else if s.otpExpiresAt.None? then Step(Err(EXPIRY_NOT_COMPARABLE), None)
    else if s.otpExpiresAt.value < now then Step(Err(OtpExpired), None)
    else Step(Ok(SuccessWithId("successfully activated account with phone_number : +91 " + phoneNumber, s.id)),
              Some(PhoneVerified))
  }

  /** verify_web_otp's decision (model.py:168-210) over the row found by email:
      code present, then an organization, then the web ceiling, then equality,
      then a strict expiry.  The login time is `now`; its ISO text is not modelled. */
  function VerifyWebStep(s: Student, webOtp: string, now: int): (st: Step)
    ensures st.result.Ok? <==> TruthyStr(s.webOtp) && TruthyInt(s.organizationId)
                               && s.webOtpAttempts < MAX_WEB_LOGIN_ATTEMPTS && s.webOtp.value == webOtp
                               && s.webOtpExpiresAt.Some? && now <= s.webOtpExpiresAt.value
    ensures !TruthyStr(s.webOtp) ==> st.result == Err(NoOtpFound)
    ensures TruthyStr(s.webOtp) && !TruthyInt(s.organizationId) ==> st.result == Err(UserNotVerified)
    ensures TruthyStr(s.webOtp) && TruthyInt(s.organizationId) && s.webOtpAttempts >= MAX_WEB_LOGIN_ATTEMPTS
            ==> st.result == Err(MaxOtpAttemptsReached)
    ensures st.result == Err(IncorrectOtp)
            <==> TruthyStr(s.webOtp) && TruthyInt(s.organizationId) && s.webOtpAttempts < MAX_WEB_LOGIN_ATTEMPTS
                 && s.webOtp.value != webOtp
    ensures st.result == Err(IncorrectOtp) ==> After(s, st) == s.(webOtpAttempts := s.webOtpAttempts + 2)
    ensures st.result.Err? && st.result != Err(IncorrectOtp) ==> After(s, st) == s
    ensures st.result.Ok? ==> After(s, st) == s.(lastWebLoginAt := Some(now), webOtpAttempts := 0)
                              && st.result.value.Keys == {"status", "message", "id", "organization_id"}
                              && st.result.value["id"] == VInt(s.id)
                              && st.result.value["organization_id"] == VInt(s.organizationId.value)
  {
    if !TruthyStr(s.webOtp) then Step(Err(NoOtpFound), None)
    else if !TruthyInt(s.organizationId) then Step(Err(UserNotVerified), None)
    else if s.webOtpAttempts >= MAX_WEB_LOGIN_ATTEMPTS then Step(Err(MaxOtpAttemptsReached), None)
    else if s.webOtp.value != webOtp then
      Step(Err(IncorrectOtp), Some(WebOtpSet(s.webOtp, s.webOtpExpiresAt, s.webOtpAttempts + 1)))
    else if s.webOtpExpiresAt.None? then Step(Err(EXPIRY_NOT_COMPARABLE), None)
    else if s.webOtpExpiresAt.value < now then Step(Err(OtpExpired), None)
    else
      var response := SuccessWithId("successfully logged into web account at " + IntToString(now), s.id);
      Step(Ok(response["organization_id" := VInt(s.organizationId.value)]), Some(WebLogin(now)))
  }

  /** verify_email_otp's decision (model.py:220-256) over the row found by email:
      as for the phone, with the email ceiling, and the demo account skips
      only the equality check. */
  function VerifyEmailStep(s: Student, email: string, otp: string, now: int): (st: Step)
    ensures st.result.Ok? <==> TruthyStr(s.otp) && s.otpAttempts < MAX_EMAIL_OTP_ATTEMPTS
                               && (s.email == Some(DEMO_EMAIL) || s.otp.value == otp)
                               && s.otpExpiresAt.Some? && now <= s.otpExpiresAt.value
    ensures !TruthyStr(s.otp) ==> st.result == Err(NoOtpFound)
    ensures TruthyStr(s.otp) && s.otpAttempts >= MAX_EMAIL_OTP_ATTEMPTS ==> st.result == Err(MaxOtpAttemptsReached)
    ensures st.result == Err(IncorrectOtp)
            <==> TruthyStr(s.otp) && s.otpAttempts < MAX_EMAIL_OTP_ATTEMPTS
                 && s.email != Some(DEMO_EMAIL) && s.otp.value != otp
    ensures st.result == Err(IncorrectOtp) ==> After(s, st) == s.(otpAttempts := s.otpAttempts + 2)
    ensures st.result.Err? && st.result != Err(IncorrectOtp) ==> After(s, st) == s
    ensures st.result.Ok? ==> After(s, st) == s.(isActive := true, otpAttempts := 0)
                              && "id" in st.result.value && st.result.value["id"] == VInt(s.id)
  {
    if !TruthyStr(s.otp) then Step(Err(NoOtpFound), None)
    else if s.otpAttempts >= MAX_EMAIL_OTP_ATTEMPTS then Step(Err(MaxOtpAttemptsReached), None)
    else if s.email != Some(DEMO_EMAIL) && s.otp.value != otp then
      Step(Err(IncorrectOtp), Some(OtpSet(s.otp, s.otpExpiresAt, s.otpAttempts + 1)))
    else if s.otpExpiresAt.None? then Step(Err(EXPIRY_NOT_COMPARABLE), None)
    else if s.otpExpiresAt.value < now then Step(Err(OtpExpired), None)
    else Step(Ok(SuccessWithId("successfully activated account with email " + email, s.id)), Some(EmailActivated))
  }

  // ---------------------------------------------------------------------------
  // The table of students

  /** update_field's `where`: the unique field a write selects its row by. */
  datatype Where = ById(id: int) | ByEmail(email: string) | ByPhone(phoneNumber: string) | Nowhere

  predicate Selects(m: map<int, Student>, w: Where, id: int) {
    id in m &&
    match w
    case ById(i) => id == i
    case ByEmail(e) => m[id].email == Some(e)
    case ByPhone(p) => m[id].phoneNumber == Some(p)
    case Nowhere => false
  }

  predicate Found(m: map<int, Student>, w: Where) {
    exists id :: id in m && Selects(m, w, id)
  }

  /** Rows are keyed by their id, ids are positive and below the counter, and
      emails and phone numbers are unique (Prisma's @unique). */
  ghost predicate StoreInvariant(m: map<int, Student>, nextId: int) {
    0 < nextId
    && (forall id :: id in m ==> m[id].id == id && 0 < id < nextId)
    && (forall a, b :: a in m && b in m && a != b && m[a].email.Some? ==> m[a].email != m[b].email)
    && (forall a, b :: a in m && b in m && a != b && m[a].phoneNumber.Some? ==> m[a].phoneNumber != m[b].phoneNumber)
  }

  /** The row a `where` selects, which the invariant makes unique. */
  ghost function Resolve(m: map<int, Student>, w: Where): (id: int)
    requires Found(m, w)
    ensures Selects(m, w, id)
  {
    var id :| Selects(m, w, id); id
  }

  lemma ResolveUnique(m: map<int, Student>, nextId: int, w: Where, id: int)
    requires StoreInvariant(m, nextId) && Selects(m, w, id)
    ensures Found(m, w) && Resolve(m, w) == id
  {
  }

  /** Rewriting one row without changing its handles keeps the invariant. */
  lemma {:induction false} ReplaceKeepsInvariant(m: map<int, Student>, nextId: int, id: int, t: Student)
    requires StoreInvariant(m, nextId) && id in m && SameIdentity(m[id], t)
    ensures StoreInvariant(m[id := t], nextId)
  {
    var m' := m[id := t];
    forall a, b | a in m' && b in m' && a != b && m'[a].email.Some?
      ensures m'[a].email != m'[b].email
    {
      assert m'[a].email == m[a].email && m'[b].email == m[b].email;
    }
    forall a, b | a in m' && b in m' && a != b && m'[a].phoneNumber.Some?
      ensures m'[a].phoneNumber != m'[b].phoneNumber
    {
      assert m'[a].phoneNumber == m[a].phoneNumber && m'[b].phoneNumber == m[b].phoneNumber;
    }
  }

  /** A successful verification reports the id stored in the row. */
  predicate ReportsId(r: Result<Dict>, id: int) {
    r.Ok? ==> "id" in r.value && r.value["id"] == VInt(id)
  }

  /** What verify_otp returns and leaves in the table.  A wrong code is
      written back through set_otp(phone_number=...), which selects nothing
      for an empty number. */
  ghost function PhoneVerifyOutcome(m: map<int, Student>, phoneNumber: string, otp: string, now: int)
    : (o: (Result<Dict>, map<int, Student>))
    ensures o.0.Ok? ==> Found(m, ByPhone(phoneNumber)) && ReportsId(o.0, m[Resolve(m, ByPhone(phoneNumber))].id)
  {
    if !Found(m, ByPhone(phoneNumber)) then (Err(PhoneNumberNotFound(phoneNumber)), m)
    else
      var id := Resolve(m, ByPhone(phoneNumber));
      var o := Settle(m[id], VerifyPhoneStep(m[id], phoneNumber, otp, now), phoneNumber != "");
      (o.0, m[id := o.1])
  }

  /** What verify_web_otp returns and leaves in the table. */
  ghost function WebVerifyOutcome(m: map<int, Student>, studentEmail: string, webOtp: string, now: int)
    : (o: (Result<Dict>, map<int, Student>))
    ensures o.0.Ok? ==> Found(m, ByEmail(studentEmail)) && ReportsId(o.0, m[Resolve(m, ByEmail(studentEmail))].id)
    ensures o.0.Ok? ==> var s := m[Resolve(m, ByEmail(studentEmail))];
                        s.organizationId.Some? && "organization_id" in o.0.value
                        && o.0.value["organization_id"] == VInt(s.organizationId.value)
  {
    if !Found(m, ByEmail(studentEmail)) then (Err(EmailNotFound(studentEmail)), m)
    else
      var id := Resolve(m, ByEmail(studentEmail));
      var st := VerifyWebStep(m[id], webOtp, now);
      (st.result, m[id := After(m[id], st)])
  }

  /** What verify_email_otp returns and leaves in the table.  A wrong code is
      written back through set_otp(email=...), which selects nothing for an
      empty email. */
  ghost function EmailVerifyOutcome(m: map<int, Student>, email: string, otp: string, now: int)
    : (o: (Result<Dict>, map<int, Student>))
    ensures o.0.Ok? ==> Found(m, ByEmail(email)) && ReportsId(o.0, m[Resolve(m, ByEmail(email))].id)
  {
    if !Found(m, ByEmail(email)) then (Err(EmailNotFound(email)), m)
    else
      var id := Resolve(m, ByEmail(email));
      var o := Settle(m[id], VerifyEmailStep(m[id], email, otp, now), email != "");
      (o.0, m[id := o.1])
  }

  /** set_otp's `where` (model.py:315-319): the phone number when truthy, else
      the email when truthy, else nothing. */
  function OtpWhere(phoneNumber: Option<string>, email: Option<string>): (w: Where)
    ensures TruthyStr(phoneNumber) ==> w == ByPhone(phoneNumber.value)
    ensures !TruthyStr(phoneNumber) && TruthyStr(email) ==> w == ByEmail(email.value)
    ensures !TruthyStr(phoneNumber) && !TruthyStr(email) ==> w == Nowhere
  {
    if TruthyStr(phoneNumber) then ByPhone(phoneNumber.value)
    else if TruthyStr(email) then ByEmail(email.value)
    else Nowhere
  }

  /** join_organization's `where` (model.py:41-45): the id when truthy, else the
      email when truthy, else nothing. */
  function JoinWhere(studentId: Option<int>, email: Option<string>): (w: Where)
    ensures TruthyInt(studentId) ==> w == ById(studentId.value)
    ensures !TruthyInt(studentId) && TruthyStr(email) ==> w == ByEmail(email.value)
    ensures !TruthyInt(studentId) && !TruthyStr(email) ==> w == Nowhere
  {
    if TruthyInt(studentId) then ById(studentId.value)
    else if TruthyStr(email) then ByEmail(email.value)
    else Nowhere
  }

  class StudentStore {
    var students: map<int, Student>
    var nextId: int

    ghost predicate Valid()
      reads this
    {
      StoreInvariant(students, nextId)
    }

    constructor ()
      ensures Valid() && students == map[] && nextId == 1
    {
      students := map[];
      nextId := 1;
    }

    /** update_field (crud_base.py:184-189): the edit is applied to the row the
        `where` selects.  Prisma's update answers None for a unique `where`
        that selects no row, and refuses an empty `where`, which surfaces as
        DBUpdate. */
    method UpdateField(w: Where, e: Edit) returns (r: Result<Option<Student>>)
      requires Valid()
      modifies this
      ensures Valid() && nextId == old(nextId)
      ensures w == Nowhere ==> r == Err(DBUpdate) && students == old(students)
      ensures w != Nowhere && !Found(old(students), w) ==> r == Ok(None) && students == old(students)
      ensures Found(old(students), w) ==>
                var id := Resolve(old(students), w);
                students == old(students)[id := Apply(old(students)[id], e)] && r == Ok(Some(students[id]))
    {
      if w == Nowhere {
        return Err(DBUpdate);
      }
      if !(exists id :: id in students && Selects(students, w, id)) {
        return Ok(None);
      }
      var id :| id in students && Selects(students, w, id);
      ResolveUnique(students, nextId, w, id);
      ReplaceKeepsInvariant(students, nextId, id, Apply(students[id], e));
      students := students[id := Apply(students[id], e)];
      r := Ok(Some(students[id]));
    }

    /** get_unique (crud_base.py:88-93) by id, as StudentService.get_student
        (students/service.py:139-144) calls it. */
    method GetUnique(id: int) returns (r: Result<Student>)
      ensures id in students ==> r == Ok(students[id])
      ensures id !in students ==> r == Err(NoSuchRecord(CrudBase.NO_UNIQUE_RECORD))
    {
      if id !in students {
        return Err(NoSuchRecord(CrudBase.NO_UNIQUE_RECORD));
      }
      r := Ok(students[id]);
    }

    /** get (crud_base.py:62-74). */
    method Get(id: int) returns (r: Result<Student>)
      ensures r.Ok? <==> id in students
      ensures r.Ok? ==> r.value == students[id]
      ensures r.Err? ==> r.error == RecordNotFound(id)
    {
      if id !in students {
        return Err(RecordNotFound(id));
      }
      r := Ok(students[id]);
    }

    /** get_by_email (crud_base.py:100-104). */
    method GetByEmail(email: string) returns (r: Result<Student>)
      requires Valid()
      ensures r.Ok? <==> Found(students, ByEmail(email))
      ensures r.Ok? ==> r.value == students[Resolve(students, ByEmail(email))]
      ensures r.Err? ==> r.error == EmailNotFound(email)
    {
      if !(exists id :: id in students && Selects(students, ByEmail(email), id)) {
        return Err(EmailNotFound(email));
      }
      var id :| id in students && Selects(students, ByEmail(email), id);
      ResolveUnique(students, nextId, ByEmail(email), id);
      r := Ok(students[id]);
    }

    /** get_by_phone_number (crud_base.py:106-112). */
    method GetByPhoneNumber(phoneNumber: string) returns (r: Result<Student>)
      requires Valid()
      ensures r.Ok? <==> Found(students, ByPhone(phoneNumber))
      ensures r.Ok? ==> r.value == students[Resolve(students, ByPhone(phoneNumber))]
      ensures r.Err? ==> r.error == PhoneNumberNotFound(phoneNumber)
    {
      if !(exists id :: id in students && Selects(students, ByPhone(phoneNumber), id)) {
        return Err(PhoneNumberNotFound(phoneNumber));
      }
      var id :| id in students && Selects(students, ByPhone(phoneNumber), id);
      ResolveUnique(students, nextId, ByPhone(phoneNumber), id);
      r := Ok(students[id]);
    }

    /** Carries out a verification step on the row it was decided for.  The
        write goes through the `where` the source uses, which selects that row
        or, for set_otp with an empty handle, nothing; then update_field fails. */
    method Perform(id: int, w: Where, st: Step) returns (r: Result<Dict>)
      requires Valid() && id in students && (w == Nowhere || Selects(students, w, id))
      modifies this
      ensures Valid() && nextId == old(nextId)
      ensures st.write.Some? && w == Nowhere ==> r == Err(DBUpdate) && students == old(students)
      ensures !(st.write.Some? && w == Nowhere) ==>
                students == old(students)[id := After(old(students)[id], st)] && r == st.result
    {
      if st.write.Some? {
        if w != Nowhere {
          ResolveUnique(students, nextId, w, id);
        }
        var u := UpdateField(w, st.write.value);
        if u.Err? {
          return Err(DBUpdate);
        }
      }
      r := st.result;
    }

    /** verify_otp (model.py:116-161). */
    method VerifyOtp(phoneNumber: string, otp: string, now: int) returns (r: Result<Dict>)
      requires Valid()
      modifies this
      ensures Valid() && nextId == old(nextId)
      ensures (r, students) == PhoneVerifyOutcome(old(students), phoneNumber, otp, now)
    {
      var found := GetByPhoneNumber(phoneNumber);
      if found.Err? {
        return Err(found.error);
      }
      var st := VerifyPhoneStep(found.value, phoneNumber, otp, now);
      var w := if st.result == Err(IncorrectOtp) then OtpWhere(Some(phoneNumber), None) else ByPhone(phoneNumber);
      ghost var m := students;
      r := Perform(found.value.id, w, st);
      assert m[found.value.id := found.value] == m;
    }

    /** verify_web_otp (model.py:163-213); both writes select by id. */
    method VerifyWebOtp(studentEmail: string, webOtp: string, now: int) returns (r: Result<Dict>)
      requires Valid()
      modifies this
      ensures Valid() && nextId == old(nextId)
      ensures (r, students) == WebVerifyOutcome(old(students), studentEmail, webOtp, now)
    {
      var found := GetByEmail(studentEmail);
      if found.Err? {
        return Err(found.error);
      }
      var id := found.value.id;
      r := Perform(id, ById(id), VerifyWebStep(found.value, webOtp, now));
    }

    /** verify_email_otp (model.py:215-259). */
    method VerifyEmailOtp(email: string, otp: string, now: int) returns (r: Result<Dict>)
      requires Valid()
      modifies this
      ensures Valid() && nextId == old(nextId)
      ensures (r, students) == EmailVerifyOutcome(old(students), email, otp, now)
    {
      var found := GetByEmail(email);
      if found.Err? {
        return Err(found.error);
      }
      var st := VerifyEmailStep(found.value, email, otp, now);
      var w := if st.result == Err(IncorrectOtp) then OtpWhere(None, Some(email)) else ByEmail(email);
      ghost var m := students;
      r := Perform(found.value.id, w, st);
      assert m[found.value.id := found.value] == m;
    }

    /** set_otp (model.py:298-328): stores the code and expiry and the given
        count plus one, on the row of the phone number or else the email. */
    method SetOtp(otp: Option<string>, otpExpiresIn: Option<int>, otpAttempts: int,
                  phoneNumber: Option<string>, email: Option<string>) returns (r: Result<Option<Student>>)
      requires Valid()
      modifies this
      ensures Valid() && nextId == old(nextId)
      ensures var w := OtpWhere(phoneNumber, email);
              if Found(old(students), w) then
                var id := Resolve(old(students), w);
                students == old(students)[id := old(students)[id].(otp := otp, otpExpiresAt := otpExpiresIn,
                                                                  otpAttempts := otpAttempts + 1)]
                && r == Ok(Some(students[id]))
              else if w == Nowhere then r == Err(DBUpdate) && students == old(students)
              else r == Ok(None) && students == old(students)
    {
      r := UpdateField(OtpWhere(phoneNumber, email), OtpSet(otp, otpExpiresIn, otpAttempts));
    }

    /** set_web_otp (model.py:261-275). */
    method SetWebOtp(studentId: int, webOtp: Option<string>, webOtpExpiresIn: Option<int>,
                     webOtpAttempts: int) returns (r: Result<Option<Student>>)
      requires Valid()
      modifies this
      ensures Valid() && nextId == old(nextId)
      ensures studentId in old(students) ==>
                students == old(students)[studentId := old(students)[studentId].(
                  webOtp := webOtp, webOtpExpiresAt := webOtpExpiresIn, webOtpAttempts := webOtpAttempts + 1)]
                && r == Ok(Some(students[studentId]))
      ensures studentId !in old(students) ==> r == Ok(None) && students == old(students)
    {
      if studentId in students {
        ResolveUnique(students, nextId, ById(studentId), studentId);
      }
      r := UpdateField(ById(studentId), WebOtpSet(webOtp, webOtpExpiresIn, webOtpAttempts));
    }

    /** set_activation_attempt (model.py:277-296): 0 after a correct attempt,
        else one more than the stored count; no other field changes. */
    method SetActivationAttempt(studentEmail: string, correct: bool) returns (r: Result<Option<Student>>)
      requires Valid()
      modifies this
      ensures Valid() && nextId == old(nextId)
      ensures !Found(old(students), ByEmail(studentEmail)) ==>
                r == Err(EmailNotFound(studentEmail)) && students == old(students)
      ensures Found(old(students), ByEmail(studentEmail)) ==>
                var id := Resolve(old(students), ByEmail(studentEmail));
                var s := old(students)[id];
                students == old(students)[id := s.(activationAttempts := if correct then 0 else s.activationAttempts + 1)]
                && r == Ok(Some(students[id]))
    {
      var found := GetByEmail(studentEmail);
      if found.Err? {
        return Err(found.error);
      }
      var attempts := if correct then 0 else found.value.activationAttempts + 1;
      r := UpdateField(ByEmail(studentEmail), ActivationAttempts(attempts));
    }

    /** join_organization (model.py:26-57): sets the organization and enables
        live classes on the row selected by id, else by email.  A `where` that
        selects no row writes nothing and still answers success; an empty one
        is a DBUpdate. */
    method JoinOrganization(organizationId: int, studentId: Option<int>, studentEmail: Option<string>)
      returns (r: Result<Dict>)
      requires Valid()
      modifies this
      ensures Valid() && nextId == old(nextId)
      ensures var w := JoinWhere(studentId, studentEmail);
              if Found(old(students), w) then
                var id := Resolve(old(students), w);
                students == old(students)[id := old(students)[id].(organizationId := Some(organizationId),
                                                                  liveClassEnabled := true)]
                && r == Ok(ModelUpdatedResponse(true, "Successfully joined organization with id : " + IntToString(organizationId)))
              else if w == Nowhere then r == Err(DBUpdate) && students == old(students)
              else r == Ok(ModelUpdatedResponse(true, "Successfully joined organization with id : " + IntToString(organizationId)))
                   && students == old(students)
    {
      var w := UpdateField(JoinWhere(studentId, studentEmail), OrganizationJoined(organizationId));
      if w.Err? {
        return Err(DBUpdate);
      }
      r := Ok(ModelUpdatedResponse(true, "Successfully joined organization with id : " + IntToString(organizationId)));
    }

    /** join_batch (model.py:59-77): only batch_id changes; for an unknown id
        nothing is written and the answer is the same. */
    method JoinBatch(batchId: int, studentId: int) returns (r: Result<Dict>)
      requires Valid()
      modifies this
      ensures Valid() && nextId == old(nextId)
      ensures studentId in old(students) ==>
                students == old(students)[studentId := old(students)[studentId].(batchId := Some(batchId))]
                && r == Ok(ModelUpdatedResponse(true, "Successfully joined batch with id : " + IntToString(batchId)))
      ensures studentId !in old(students) ==>
                r == Ok(ModelUpdatedResponse(true, "Successfully joined batch with id : " + IntToString(batchId)))
                && students == old(students)
    {
      if studentId in students {
        ResolveUnique(students, nextId, ById(studentId), studentId);
      }
      var w := UpdateField(ById(studentId), BatchSet(Some(batchId)));
      if w.Err? {
        return Err(DBUpdate);
      }
      r := Ok(ModelUpdatedResponse(true, "Successfully joined batch with id : " + IntToString(batchId)));
    }

    /** leave_batch (model.py:79-94): batch_id becomes None; for an unknown id
        nothing is written and the answer is the same. */
    method LeaveBatch(studentId: int) returns (r: Result<Dict>)
      requires Valid()
      modifies this
      ensures Valid() && nextId == old(nextId)
      ensures studentId in old(students) ==>
                students == old(students)[studentId := old(students)[studentId].(batchId := None)]
                && r == Ok(ModelUpdatedResponse(true, "Successfully left batch"))
      ensures studentId !in old(students) ==>
                r == Ok(ModelUpdatedResponse(true, "Successfully left batch")) && students == old(students)
    {
      if studentId in students {
        ResolveUnique(students, nextId, ById(studentId), studentId);
      }
      var w := UpdateField(ById(studentId), BatchSet(None));
      if w.Err? {
        return Err(DBUpdate);
      }
      r := Ok(ModelUpdatedResponse(true, "Successfully left batch"));
    }

    /** deactivate (model.py:96-114): a soft delete, is_active becomes false;
        for an unknown id nothing is written and the answer is the same. */
    method Deactivate(studentId: int) returns (r: Result<Dict>)
      requires Valid()
      modifies this
      ensures Valid() && nextId == old(nextId)
      ensures studentId in old(students) ==>
                students == old(students)[studentId := old(students)[studentId].(isActive := false)]
                && r == Ok(ModelUpdatedResponse(true, "successfully deactivated accounts of student with id : "
                                                      + IntToString(studentId)))
      ensures studentId !in old(students) ==>
                r == Ok(ModelUpdatedResponse(true, "successfully deactivated accounts of student with id : "
                                                   + IntToString(studentId)))
                && students == old(students)
    {
      if studentId in students {
        ResolveUnique(students, nextId, ById(studentId), studentId);
      }
      var w := UpdateField(ById(studentId), Deactivated);
      if w.Err? {
        return Err(DBUpdate);
      }
      r := Ok(ModelUpdatedResponse(true, "successfully deactivated accounts of student with id : " + IntToString(studentId)));
    }

    /** create (crud_base.py:130-140) of a validated CreateStudent: a handle
        already taken is Prisma's unique violation; otherwise a new row under
        the next id. */
    method Create(email: Option<string>, phoneNumber: Option<string>, otp: Option<string>,
                  otpExpiresAt: Option<int>) returns (r: Result<Student>)
      requires Valid()
      modifies this
      ensures Valid()
      ensures r.Err? ==> students == old(students) && nextId == old(nextId)
                         && r.error.UniqueConstraintFailed?
      ensures r.Err? <==> (email.Some? && Found(old(students), ByEmail(email.value)))
                          || (phoneNumber.Some? && Found(old(students), ByPhone(phoneNumber.value)))
      ensures r.Ok? ==> r.value == NewStudent(old(nextId), email, phoneNumber, otp, otpExpiresAt)
                        && students == old(students)[old(nextId) := r.value] && nextId == old(nextId) + 1
    {
      if email.Some? && exists id :: id in students && Selects(students, ByEmail(email.value), id) {
        return Err(CrudBase.ClassifyCreateError(CrudBase.UniqueViolationMessage("email")));
      }
      if phoneNumber.Some? && exists id :: id in students && Selects(students, ByPhone(phoneNumber.value), id) {
        return Err(CrudBase.ClassifyCreateError(CrudBase.UniqueViolationMessage("phone_number")));
      }
      var s := NewStudent(nextId, email, phoneNumber, otp, otpExpiresAt);
      students := students[nextId := s];
      nextId := nextId + 1;
      r := Ok(s);
    }
  }
}
