/** BatchService.add_student_to_batch (src/organizations/batches/service.py):
    a student may join only a batch of their own organization, and joining
    sets the student's batch and nothing else. */
module BatchService {
  import opened Common
  import opened StudentUtils
  import opened StudentModel

  /** A Batch row (batches/serializers.py:6-9); a batch always belongs to an
      organization. */
  datatype Batch = Batch(id: int, name: string, availableSeats: int, organizationId: int)

  predicate BatchesKeyed(batches: map<int, Batch>) {
    forall k :: k in batches ==> batches[k].id == k
  }

  /** What add_student_to_batch (service.py:33-43) returns and leaves in the
      student table. */
  ghost function AddToBatchOutcome(batches: map<int, Batch>, m: map<int, Student>, studentId: int, batchId: int)
    : (o: (Result<Dict>, map<int, Student>))
  {
    if studentId !in m then (Err(RecordNotFound(studentId)), m)
    else if batchId !in batches then (Err(RecordNotFound(batchId)), m)
    else if m[studentId].organizationId != Some(batches[batchId].organizationId) then
      (Err(BatchOutsideOrganization), m)
    else
      var b := batches[batchId];
      (Ok(ModelUpdatedResponse(true, "Successfully joined batch with id : " + IntToString(b.id))),
       m[studentId := m[studentId].(batchId := Some(b.id))])
  }

  /** Joining succeeds exactly when both records exist and the student is in
      the batch's organization; on success only the student's batch_id
      changes, to the batch's id; on failure nothing is written. */
  lemma {:induction false} AddToBatchSucceedsIff(batches: map<int, Batch>, m: map<int, Student>,
                                                 studentId: int, batchId: int)
    requires BatchesKeyed(batches)
    ensures var o := AddToBatchOutcome(batches, m, studentId, batchId);
            (o.0.Ok? <==> studentId in m && batchId in batches
                          && m[studentId].organizationId == Some(batches[batchId].organizationId))
            && (o.0.Ok? ==> o.1 == m[studentId := m[studentId].(batchId := Some(batchId))])
            && (o.0.Err? ==> o.1 == m)
  {
    if studentId in m && batchId in batches {
      assert batches[batchId].id == batchId;
    }
  }

  /** A batch of another organization is refused, and so is every batch for
      a student outside any organization: batches always carry one. */
  lemma OutsideOrganizationRefused(batches: map<int, Batch>, m: map<int, Student>, studentId: int, batchId: int)
    requires studentId in m && batchId in batches
    requires m[studentId].organizationId.None?
             || m[studentId].organizationId.value != batches[batchId].organizationId
    ensures AddToBatchOutcome(batches, m, studentId, batchId) == (Err(BatchOutsideOrganization), m)
  {
  }

  /** The student is looked up before the batch: when both are missing the
      student's id is reported. */
  lemma StudentLookedUpFirst(batches: map<int, Batch>, m: map<int, Student>, studentId: int, batchId: int)
    requires studentId !in m
    ensures AddToBatchOutcome(batches, m, studentId, batchId) == (Err(RecordNotFound(studentId)), m)
  {
  }

  /** Joining again the batch one is in changes nothing. */
  lemma {:induction false} RejoinIsIdempotent(batches: map<int, Batch>, m: map<int, Student>, studentId: int, batchId: int)
    requires BatchesKeyed(batches)
    requires AddToBatchOutcome(batches, m, studentId, batchId).0.Ok?
    ensures var m1 := AddToBatchOutcome(batches, m, studentId, batchId).1;
            AddToBatchOutcome(batches, m1, studentId, batchId).1 == m1
  {
    var b := batches[batchId];
    var m1 := AddToBatchOutcome(batches, m, studentId, batchId).1;
    assert m1[studentId].batchId == Some(b.id);
    assert m1[studentId := m1[studentId].(batchId := Some(b.id))] == m1;
  }

  class BatchService {
    /** BatchModel's table; no operation here changes it, so available_seats
        is never touched. */
    var batches: map<int, Batch>
    const students: StudentStore

    ghost predicate Valid()
      reads this, students
    {
      students.Valid() && BatchesKeyed(batches)
    }

    constructor (students: StudentStore)
      requires students.Valid()
      ensures Valid() && batches == map[] && this.students == students
    {
      batches := map[];
      this.students := students;
    }

    /** get (crud_base.py:62-74) on the batch table. */
    method Get(batchId: int) returns (r: Result<Batch>)
      ensures batchId in batches ==> r == Ok(batches[batchId])
      ensures batchId !in batches ==> r == Err(RecordNotFound(batchId))
    {
      if batchId !in batches {
        return Err(RecordNotFound(batchId));
      }
      r := Ok(batches[batchId]);
    }

    /** add_student_to_batch (service.py:33-43); there is no seat check. */
    method AddStudentToBatch(studentId: int, batchId: int) returns (r: Result<Dict>)
      requires Valid()
      modifies students
      ensures Valid() && students.nextId == old(students.nextId)
      ensures (r, students.students) == AddToBatchOutcome(batches, old(students.students), studentId, batchId)
    {
      var student := students.Get(studentId);
      if student.Err? {
        return Err(student.error);
      }
      var batch := Get(batchId);
      if batch.Err? {
        return Err(batch.error);
      }
      if student.value.organizationId != Some(batch.value.organizationId) {
        return Err(BatchOutsideOrganization);
      }
      r := students.JoinBatch(batch.value.id, studentId);
    }
  }
}
