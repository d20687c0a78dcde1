/** The student-facing routes of src/organizations/router.py: a student joins
    an organization with an activation code under their own stored email, and
    the join route refuses everyone whose activation counter has reached the
    ceiling.  The admin routes delegate without that gate. */
module OrganizationRouter {
  import opened Common
  import CrudBase
  import opened StudentUtils
  import opened StudentModel
  import opened ActivationCodeModel
  import opened Organizations

  /** The route builds AddStudentToOrganizationReq itself, so a student
      without a stored email makes pydantic raise inside the handler: the
      ValidationError is not a request error but an unhandled one. */
  const NO_STUDENT_EMAIL: Error := InternalError("ValidationError: student_email")

  /** What join_organization (router.py:126-139) returns and leaves in the
      student table, for the student named by the token's id. */
  ghost function JoinOutcome(codes: CodeTable, orgs: map<int, Organization>, m: map<int, Student>,
                             studentId: int, activationCode: string)
    : (o: (Result<Dict>, map<int, Student>))
  {
    if studentId !in m then (Err(NoSuchRecord(CrudBase.NO_UNIQUE_RECORD)), m)
    else if m[studentId].activationAttempts >= MAX_ACTIVATION_ATTEMPTS then (Err(MaxJoiningAttempts), m)
    else if m[studentId].email.None? then (Err(NO_STUDENT_EMAIL), m)
    else RedeemOutcome(codes, orgs, m, m[studentId].email.value, activationCode)
  }

  /** At the ceiling every code is refused, the right one included, before
      anything is looked up or written. */
  lemma CeilingRefusesEveryCode(codes: CodeTable, orgs: map<int, Organization>, m: map<int, Student>,
                                studentId: int, activationCode: string)
    requires studentId in m && m[studentId].activationAttempts >= MAX_ACTIVATION_ATTEMPTS
    ensures JoinOutcome(codes, orgs, m, studentId, activationCode) == (Err(MaxJoiningAttempts), m)
  {
  }

  /** Below the ceiling, a student without a stored email fails with the
      unhandled validation error and nothing is written. */
  lemma MissingEmailFailsUnhandled(codes: CodeTable, orgs: map<int, Organization>, m: map<int, Student>,
                                   studentId: int, activationCode: string)
    requires studentId in m && m[studentId].activationAttempts < MAX_ACTIVATION_ATTEMPTS
    requires m[studentId].email.None?
    ensures JoinOutcome(codes, orgs, m, studentId, activationCode) == (Err(NO_STUDENT_EMAIL), m)
  {
  }

  /** The code is redeemed for the caller's stored email: whatever happens,
      no other student's row changes. */
  lemma {:induction false} JoinChangesOnlyTheCaller(codes: CodeTable, orgs: map<int, Organization>,
                                                    m: map<int, Student>, nextId: int,
                                                    studentId: int, activationCode: string)
    requires Consistent(codes, orgs, m, nextId)
    ensures var m' := JoinOutcome(codes, orgs, m, studentId, activationCode).1;
            m'.Keys == m.Keys && StoreInvariant(m', nextId)
            && forall k :: k in m && k != studentId ==> m'[k] == m[k]
  {
    if studentId in m && m[studentId].activationAttempts < MAX_ACTIVATION_ATTEMPTS && m[studentId].email.Some? {
      var email := m[studentId].email.value;
      RedeemTouchesOneStudent(codes, orgs, m, nextId, email, activationCode);
      forall k | k in m && k != studentId ensures !Selects(m, ByEmail(email), k) {
      }
    }
  }

  /** A correct code joins the caller to the code's organization; below the
      ceiling the route and the admin route agree. */
  lemma {:induction false} JoinWithCorrectCode(codes: CodeTable, orgs: map<int, Organization>,
                                               m: map<int, Student>, nextId: int,
                                               studentId: int, activationCode: string)
    requires Consistent(codes, orgs, m, nextId)
    requires studentId in m && m[studentId].activationAttempts < MAX_ACTIVATION_ATTEMPTS
    requires m[studentId].email.Some? && m[studentId].email.value != ""
    requires var e := m[studentId].email.value;
             e in codes && codes[e].activationCode == Some(activationCode) && codes[e].organizationId in orgs
    ensures var org := codes[m[studentId].email.value].organizationId;
            JoinOutcome(codes, orgs, m, studentId, activationCode)
            == (Ok(JoinedResponse(org)),
                m[studentId := m[studentId].(activationAttempts := 0, organizationId := Some(org),
                                             liveClassEnabled := true)])
  {
    CorrectCodeJoins(codes, orgs, m, nextId, m[studentId].email.value, activationCode, studentId);
  }

  /** The admin route add_student_to_organization (router.py:90-95) has no
      ceiling: a student the join route refuses is still joined by it. */
  lemma {:induction false} AdminRouteHasNoCeiling(codes: CodeTable, orgs: map<int, Organization>,
                                                  m: map<int, Student>, nextId: int,
                                                  studentId: int, activationCode: string)
    requires Consistent(codes, orgs, m, nextId)
    requires studentId in m && m[studentId].activationAttempts >= MAX_ACTIVATION_ATTEMPTS
    requires m[studentId].email.Some? && m[studentId].email.value != ""
    requires var e := m[studentId].email.value;
             e in codes && codes[e].activationCode == Some(activationCode) && codes[e].organizationId in orgs
    ensures JoinOutcome(codes, orgs, m, studentId, activationCode).0 == Err(MaxJoiningAttempts)
    ensures RedeemOutcome(codes, orgs, m, m[studentId].email.value, activationCode).0.Ok?
  {
    CorrectCodeJoins(codes, orgs, m, nextId, m[studentId].email.value, activationCode, studentId);
  }

  /** The table after a student tries the codes in turn on the join route. */
  ghost function ReplayJoin(codes: CodeTable, orgs: map<int, Organization>, m: map<int, Student>,
                            studentId: int, tries: seq<string>): map<int, Student>
    decreases |tries|
  {
    if tries == [] then m
    else ReplayJoin(codes, orgs, JoinOutcome(codes, orgs, m, studentId, tries[0]).1, studentId, tries[1..])
  }

  /** Each wrong code on the join route adds one to the caller's counter and
      changes nothing else. */
  lemma {:induction false} WrongTriesCount(codes: CodeTable, orgs: map<int, Organization>, m: map<int, Student>,
                                           nextId: int, studentId: int, tries: seq<string>)
    requires Consistent(codes, orgs, m, nextId)
    requires studentId in m && m[studentId].email.Some? && m[studentId].email.value in codes
    requires forall i :: 0 <= i < |tries| ==> codes[m[studentId].email.value].activationCode != Some(tries[i])
    requires m[studentId].activationAttempts + |tries| <= MAX_ACTIVATION_ATTEMPTS
    ensures ReplayJoin(codes, orgs, m, studentId, tries)
            == m[studentId := m[studentId].(activationAttempts := m[studentId].activationAttempts + |tries|)]
    decreases |tries|
  {
    if tries == [] {
      assert m[studentId := m[studentId]] == m;
    } else {
      var email := m[studentId].email.value;
      WrongCodeCounts(codes, orgs, m, nextId, email, tries[0], studentId);
      var m1 := m[studentId := m[studentId].(activationAttempts := m[studentId].activationAttempts + 1)];
      ReplaceKeepsInvariant(m, nextId, studentId, m1[studentId]);
      WrongTriesCount(codes, orgs, m1, nextId, studentId, tries[1..]);
    }
  }

  /** A student who keeps guessing is locked out: after MAX_ACTIVATION_ATTEMPTS
      wrong codes from a zero counter, even the right code is refused. */
  lemma {:induction false} GuessingLocksOut(codes: CodeTable, orgs: map<int, Organization>, m: map<int, Student>,
                                            nextId: int, studentId: int, tries: seq<string>, activationCode: string)
    requires Consistent(codes, orgs, m, nextId)
    requires studentId in m && m[studentId].email.Some? && m[studentId].email.value in codes
    requires m[studentId].activationAttempts == 0 && |tries| == MAX_ACTIVATION_ATTEMPTS
    requires forall i :: 0 <= i < |tries| ==> codes[m[studentId].email.value].activationCode != Some(tries[i])
    ensures var locked := ReplayJoin(codes, orgs, m, studentId, tries);
            JoinOutcome(codes, orgs, locked, studentId, activationCode) == (Err(MaxJoiningAttempts), locked)
  {
    WrongTriesCount(codes, orgs, m, nextId, studentId, tries);
  }

  /** join_organization (router.py:126-139). */
  method JoinOrganization(service: OrganizationService, studentId: int, activationCode: string)
    returns (r: Result<Dict>)
    requires service.Valid()
    modifies service.students
    ensures service.Valid() && service.students.nextId == old(service.students.nextId)
    ensures (r, service.students.students)
            == JoinOutcome(service.codes.codes, service.organizations, old(service.students.students),
                           studentId, activationCode)
  {
    var student := service.students.GetUnique(studentId);
    if student.Err? {
      return Err(student.error);
    }
    if student.value.activationAttempts >= MAX_ACTIVATION_ATTEMPTS {
      return Err(MaxJoiningAttempts);
    }
    if student.value.email.None? {
      return Err(NO_STUDENT_EMAIL);
    }
    r := service.AddStudentToOrganization(student.value.email.value, activationCode);
  }

  /** remove_student_from_batch (router.py:117-123): the student's batch is
      cleared whatever organization it belongs to; an unknown id writes
      nothing and gets the same answer. */
  method RemoveStudentFromBatch(students: StudentStore, studentId: int) returns (r: Result<Dict>)
    requires students.Valid()
    modifies students
    ensures students.Valid() && students.nextId == old(students.nextId)
    ensures studentId in old(students.students) ==>
              students.students == old(students.students)[studentId := old(students.students)[studentId].(batchId := None)]
              && r.Ok?
    ensures studentId !in old(students.students) ==>
              r == Ok(ModelUpdatedResponse(true, "Successfully left batch")) && students.students == old(students.students)
  {
    r := students.LeaveBatch(studentId);
  }
}
