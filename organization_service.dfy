/** OrganizationService (src/organizations/service.py): a student joins an
    organization by redeeming the activation code issued for their email.  A
    correct code resets the student's activation counter and moves them into
    the code's organization; a wrong code counts one more attempt. */
module Organizations {
  import opened Common
  import opened StudentUtils
  import opened StudentModel
  import opened ActivationCodeModel
  import CrudBase

  /** An Organization row (serializers.py:6-8). */
  datatype Organization = Organization(id: int, name: string, maxCapacity: int)

  /** Organizations keyed by their id. */
  predicate OrganizationsKeyed(orgs: map<int, Organization>) {
    forall k :: k in orgs ==> orgs[k].id == k
  }

  /** The reply of join_organization (model.py:49-54). */
  function JoinedResponse(organizationId: int): (d: Dict)
    ensures "message" in d && d["message"] == VStr("Successfully joined organization with id : " + IntToString(organizationId))
  {
    ModelUpdatedResponse(true, "Successfully joined organization with id : " + IntToString(organizationId))
  }

  /** What add_student_to_organization (service.py:39-69) returns and leaves
      in the student table. */
  ghost function RedeemOutcome(codes: CodeTable, orgs: map<int, Organization>, m: map<int, Student>,
                               studentEmail: string, activationCode: string)
    : (o: (Result<Dict>, map<int, Student>))
  {
    var v := VerifyActivationCode(codes, studentEmail, activationCode);
    if v == Err(IncorrectActivationCode) then
      // set_activation_attempt(correct=False), then the exception is raised again
      if !Found(m, ByEmail(studentEmail)) then (Err(EmailNotFound(studentEmail)), m)
      else
        var id := Resolve(m, ByEmail(studentEmail));
        (Err(IncorrectActivationCode), m[id := m[id].(activationAttempts := m[id].activationAttempts + 1)])
    else if v.Err? then (Err(v.error), m)
    else if v.value.organizationId !in orgs then (Err(RecordNotFound(v.value.organizationId)), m)
    else if !Found(m, ByEmail(studentEmail)) then (Err(EmailNotFound(studentEmail)), m)
    else
      var organization := orgs[v.value.organizationId];
      var id := Resolve(m, ByEmail(studentEmail));
      var reset := m[id := m[id].(activationAttempts := 0)];
      var w := JoinWhere(None, Some(studentEmail));
      if w == Nowhere then (Err(DBUpdate), reset)
      else if !Found(reset, w) then (Ok(JoinedResponse(organization.id)), reset)
      else
        var j := Resolve(reset, w);
        (Ok(JoinedResponse(organization.id)),
         reset[j := reset[j].(organizationId := Some(organization.id), liveClassEnabled := true)])
  }

  /** The state of the three stores the redeem flow reads and writes. */
  ghost predicate Consistent(codes: CodeTable, orgs: map<int, Organization>, m: map<int, Student>, nextId: int) {
    WellKeyed(codes) && OrganizationsKeyed(orgs) && StoreInvariant(m, nextId)
  }

  /** A correct code for a student of that email, in an organization that
      exists, resets the counter to zero, sets the organization and enables
      live classes on that student and on no one else. */
  lemma {:induction false} CorrectCodeJoins(codes: CodeTable, orgs: map<int, Organization>, m: map<int, Student>,
                                            nextId: int, studentEmail: string, activationCode: string, id: int)
    requires Consistent(codes, orgs, m, nextId)
    requires studentEmail != "" && Selects(m, ByEmail(studentEmail), id)
    requires studentEmail in codes && codes[studentEmail].activationCode == Some(activationCode)
    requires codes[studentEmail].organizationId in orgs
    ensures var org := codes[studentEmail].organizationId;
            RedeemOutcome(codes, orgs, m, studentEmail, activationCode)
            == (Ok(JoinedResponse(org)),
                m[id := m[id].(activationAttempts := 0, organizationId := Some(org), liveClassEnabled := true)])
  {
    ResolveUnique(m, nextId, ByEmail(studentEmail), id);
    var reset := m[id := m[id].(activationAttempts := 0)];
    ReplaceKeepsInvariant(m, nextId, id, reset[id]);
    assert JoinWhere(None, Some(studentEmail)) == ByEmail(studentEmail);
    ResolveUnique(reset, nextId, ByEmail(studentEmail), id);
    var org := codes[studentEmail].organizationId;
    assert orgs[org].id == org;
    var o := RedeemOutcome(codes, orgs, m, studentEmail, activationCode);
    var joined := m[id].(activationAttempts := 0, organizationId := Some(org), liveClassEnabled := true);
    assert reset[id].(organizationId := Some(org), liveClassEnabled := true) == joined;
    assert o.1 == reset[id := joined];
    assert reset[id := joined] == m[id := joined];
  }

  /** A wrong code adds one to the student's activation counter, changes
      nothing else and is reported as incorrect. */
  lemma {:induction false} WrongCodeCounts(codes: CodeTable, orgs: map<int, Organization>, m: map<int, Student>,
                                           nextId: int, studentEmail: string, activationCode: string, id: int)
    requires Consistent(codes, orgs, m, nextId)
    requires Selects(m, ByEmail(studentEmail), id)
    requires studentEmail in codes && codes[studentEmail].activationCode != Some(activationCode)
    ensures RedeemOutcome(codes, orgs, m, studentEmail, activationCode)
            == (Err(IncorrectActivationCode), m[id := m[id].(activationAttempts := m[id].activationAttempts + 1)])
  {
    ResolveUnique(m, nextId, ByEmail(studentEmail), id);
  }

  /** Without a code record for the email the lookup fails before anything is
      written; a missing organization fails before the counter is reset. */
  lemma NothingWrittenBeforeTheReset(codes: CodeTable, orgs: map<int, Organization>, m: map<int, Student>,
                                     studentEmail: string, activationCode: string)
    requires studentEmail !in codes
             || (codes[studentEmail].activationCode == Some(activationCode)
                 && codes[studentEmail].organizationId !in orgs)
    ensures var o := RedeemOutcome(codes, orgs, m, studentEmail, activationCode);
            o.1 == m
            && (studentEmail !in codes ==> o.0 == Err(NoSuchRecord(CrudBase.NO_UNIQUE_RECORD)))
            && (studentEmail in codes ==> o.0 == Err(RecordNotFound(codes[studentEmail].organizationId)))
  {
  }

  /** Redeeming succeeds exactly when the code matches, its organization
      exists and a student holds the (non-empty) email; there is no capacity
      check. */
  lemma {:induction false} RedeemSucceedsIff(codes: CodeTable, orgs: map<int, Organization>, m: map<int, Student>,
                                             nextId: int, studentEmail: string, activationCode: string)
    requires Consistent(codes, orgs, m, nextId)
    ensures RedeemOutcome(codes, orgs, m, studentEmail, activationCode).0.Ok?
            <==> studentEmail in codes && codes[studentEmail].activationCode == Some(activationCode)
                 && codes[studentEmail].organizationId in orgs
                 && Found(m, ByEmail(studentEmail)) && studentEmail != ""
  {
    if studentEmail in codes && codes[studentEmail].activationCode == Some(activationCode)
       && codes[studentEmail].organizationId in orgs && Found(m, ByEmail(studentEmail)) {
      var id := Resolve(m, ByEmail(studentEmail));
      if studentEmail != "" {
        CorrectCodeJoins(codes, orgs, m, nextId, studentEmail, activationCode, id);
      }
    }
  }

  /** Whatever the outcome, only the row holding the email can change, no
      row appears or disappears, and the table keeps its invariant. */
  lemma {:induction false} RedeemTouchesOneStudent(codes: CodeTable, orgs: map<int, Organization>, m: map<int, Student>,
                                                   nextId: int, studentEmail: string, activationCode: string)
    requires Consistent(codes, orgs, m, nextId)
    ensures var m' := RedeemOutcome(codes, orgs, m, studentEmail, activationCode).1;
            m'.Keys == m.Keys && StoreInvariant(m', nextId)
            && forall k :: k in m && !Selects(m, ByEmail(studentEmail), k) ==> m'[k] == m[k]
  {
    var o := RedeemOutcome(codes, orgs, m, studentEmail, activationCode);
    if o.1 != m {
      var id := Resolve(m, ByEmail(studentEmail));
      ResolveUnique(m, nextId, ByEmail(studentEmail), id);
      if studentEmail in codes && codes[studentEmail].activationCode != Some(activationCode) {
        WrongCodeCounts(codes, orgs, m, nextId, studentEmail, activationCode, id);
        ReplaceKeepsInvariant(m, nextId, id, o.1[id]);
      } else {
        var reset := m[id := m[id].(activationAttempts := 0)];
        ReplaceKeepsInvariant(m, nextId, id, reset[id]);
        if studentEmail != "" {
          CorrectCodeJoins(codes, orgs, m, nextId, studentEmail, activationCode, id);
          ReplaceKeepsInvariant(m, nextId, id, o.1[id]);
        } else {
          assert o.1 == reset;
        }
      }
    }
  }

  class OrganizationService {
    /** OrganizationModel's table. */
    var organizations: map<int, Organization>
    const students: StudentStore
    const codes: ActivationCodeStore

    ghost predicate Valid()
      reads this, students, codes
    {
      students.Valid() && codes.Valid() && OrganizationsKeyed(organizations)
    }

    constructor (students: StudentStore, codes: ActivationCodeStore)
      requires students.Valid() && codes.Valid()
      ensures Valid() && organizations == map[] && this.students == students && this.codes == codes
    {
      organizations := map[];
      this.students := students;
      this.codes := codes;
    }

    /** get (crud_base.py:62-74) on the organization table. */
    method Get(organizationId: int) returns (r: Result<Organization>)
      ensures organizationId in organizations ==> r == Ok(organizations[organizationId])
      ensures organizationId !in organizations ==> r == Err(RecordNotFound(organizationId))
    {
      if organizationId !in organizations {
        return Err(RecordNotFound(organizationId));
      }
      r := Ok(organizations[organizationId]);
    }

    /** add_student_to_organization (service.py:39-69). */
    method AddStudentToOrganization(studentEmail: string, activationCode: string) returns (r: Result<Dict>)
      requires Valid()
      modifies students
      ensures Valid() && students.nextId == old(students.nextId)
      ensures (r, students.students)
              == RedeemOutcome(codes.codes, organizations, old(students.students), studentEmail, activationCode)
    {
      var record := VerifyActivationCode(codes.codes, studentEmail, activationCode);
      if record.Err? {
        if record.error == IncorrectActivationCode {
          var counted := students.SetActivationAttempt(studentEmail, false);
          if counted.Err? {
            return Err(counted.error);
          }
          return Err(IncorrectActivationCode);
        }
        return Err(record.error);
      }
      var organization := Get(record.value.organizationId);
      if organization.Err? {
        return Err(organization.error);
      }
      var reset := students.SetActivationAttempt(studentEmail, true);
      if reset.Err? {
        return Err(reset.error);
      }
      r := students.JoinOrganization(organization.value.id, None, Some(studentEmail));
    }
  }
}
