/** Activation codes (src/organizations/activation_codes/model.py): one record
    per student email, looked up by that email and compared in plain text.
    The table is keyed by student_email, its unique field. */
module ActivationCodeModel {
  import opened Common
  import CrudBase

  datatype ActivationCode = ActivationCode(id: int, organizationId: int, activationCode: Option<string>,
                                           studentEmail: string)

  type CodeTable = map<string, ActivationCode>

  /** Each record sits under its own email. */
  predicate WellKeyed(t: CodeTable) {
    forall e :: e in t ==> t[e].studentEmail == e
  }

  /** verify_activation_code (model.py:15-34): the record of the email, when its
      stored code equals the given one exactly. */
  function VerifyActivationCode(t: CodeTable, studentEmail: string, activationCode: string)
    : (r: Result<ActivationCode>)
    ensures r == Err(NoSuchRecord(CrudBase.NO_UNIQUE_RECORD)) <==> studentEmail !in t
    ensures r == Err(IncorrectActivationCode)
            <==> studentEmail in t && t[studentEmail].activationCode != Some(activationCode)
    ensures r.Ok? <==> studentEmail in t && t[studentEmail].activationCode == Some(activationCode)
    ensures r.Ok? ==> r.value == t[studentEmail]
  {
    if studentEmail !in t then Err(NoSuchRecord(CrudBase.NO_UNIQUE_RECORD))
    else if t[studentEmail].activationCode != Some(activationCode) then Err(IncorrectActivationCode)
    else Ok(t[studentEmail])
  }

  /** Only the exact stored code is accepted: two codes that both verify for
      the same email are equal. */
  lemma OnlyTheStoredCodeVerifies(t: CodeTable, studentEmail: string, a: string, b: string)
    requires VerifyActivationCode(t, studentEmail, a).Ok? && VerifyActivationCode(t, studentEmail, b).Ok?
    ensures a == b
  {
  }

  class ActivationCodeStore {
    var codes: CodeTable
    var nextId: int

    ghost predicate Valid()
      reads this
    {
      WellKeyed(codes) && 0 < nextId && forall e :: e in codes ==> 0 < codes[e].id < nextId
    }

    constructor ()
      ensures Valid() && codes == map[]
    {
      codes := map[];
      nextId := 1;
    }

    /** create (crud_base.py:130-140): a second record for the same email is
        Prisma's unique violation; otherwise a new record under the next id. */
    method Create(organizationId: int, activationCode: string, studentEmail: string)
      returns (r: Result<ActivationCode>)
      requires Valid()
      modifies this
      ensures Valid()
      ensures studentEmail in old(codes) ==>
                r == Err(CrudBase.ClassifyCreateError(CrudBase.UniqueViolationMessage("student_email")))
                && codes == old(codes) && nextId == old(nextId)
      ensures studentEmail !in old(codes) ==>
                r == Ok(ActivationCode(old(nextId), organizationId, Some(activationCode), studentEmail))
                && codes == old(codes)[studentEmail := r.value] && nextId == old(nextId) + 1
    {
      if studentEmail in codes {
        return Err(CrudBase.ClassifyCreateError(CrudBase.UniqueViolationMessage("student_email")));
      }
      var record := ActivationCode(nextId, organizationId, Some(activationCode), studentEmail);
      codes := codes[studentEmail := record];
      nextId := nextId + 1;
      r := Ok(record);
    }
  }
}
