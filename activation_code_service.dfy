/** ActivationCodeService.create (src/organizations/activation_codes/service.py):
    a generated code is stored for the student's email and returned to the
    caller once, while the record handed back no longer carries it. */
module ActivationCodeService {
  import opened Common
  import CrudBase
  import opened ActivationCodeUtils
  import opened ActivationCodeModel

  /** A CreateActivationCode request (serializers.py:6-9); `activationCodeSet`
      says whether the client set activation_code explicitly. */
  datatype CreateActivationCodeReq = CreateActivationCodeReq(
    organizationId: int,
    studentEmail: string,
    activationCodeSet: bool)

  /** Passing activation_code both in the unpacked request and by name. */
  const DUPLICATE_KEYWORD: Error := InternalError("TypeError: got multiple values for keyword argument 'activation_code'")

  /** A record as the dict the route returns. */
  function RecordOf(a: ActivationCode): (d: Dict)
    ensures d.Keys == {"id", "organization_id", "activation_code", "student_email"}
  {
    map["id" := VInt(a.id), "organization_id" := VInt(a.organizationId),
        "activation_code" := OptStr(a.activationCode), "student_email" := VStr(a.studentEmail)]
  }

  /** What create returns and leaves in the table, for the generated code. */
  ghost function CreateOutcome(t: CodeTable, nextId: int, req: CreateActivationCodeReq, code: string)
    : (o: (Result<(string, Dict)>, CodeTable, int))
  {
    if req.activationCodeSet then (Err(DUPLICATE_KEYWORD), t, nextId)
    else if req.studentEmail in t then
      (Err(CrudBase.ClassifyCreateError(CrudBase.UniqueViolationMessage("student_email"))), t, nextId)
    else
      var record := ActivationCode(nextId, req.organizationId, Some(code), req.studentEmail);
      (Ok((code, RecordOf(record) - {"activation_code"})), t[req.studentEmail := record], nextId + 1)
  }

  /** The code handed to the caller is the one stored: it verifies for the
      student's email and names the request's organization, and the returned
      record does not reveal it. */
  lemma {:induction false} CreatedCodeVerifies(t: CodeTable, nextId: int, req: CreateActivationCodeReq, code: string)
    requires CreateOutcome(t, nextId, req, code).0.Ok?
    ensures var o := CreateOutcome(t, nextId, req, code);
            o.0.value.0 == code
            && VerifyActivationCode(o.1, req.studentEmail, code).Ok?
            && VerifyActivationCode(o.1, req.studentEmail, code).value.organizationId == req.organizationId
            && "activation_code" !in o.0.value.1
            && o.0.value.1["student_email"] == VStr(req.studentEmail)
  {
    var o := CreateOutcome(t, nextId, req, code);
    assert req.studentEmail in o.1;
  }

  /** A student already holding a code cannot be given a second one. */
  lemma SecondCodeRefused(t: CodeTable, nextId: int, req: CreateActivationCodeReq, code: string)
    requires req.studentEmail in t
    ensures var o := CreateOutcome(t, nextId, req, code);
            o.0.Err? && o.1 == t && o.2 == nextId
  {
  }

  class ActivationCodeService {
    const model: ActivationCodeStore

    constructor ()
      ensures fresh(model) && model.Valid() && model.codes == map[]
    {
      model := new ActivationCodeStore();
    }

    /** create (service.py:14-26); `samples` are the generator's candidates. */
    method Create(req: CreateActivationCodeReq, samples: seq<seq<int>>) returns (r: Result<(string, Dict)>)
      requires model.Valid()
      requires ValidSamples(samples) && FirstAcceptable(samples).Some?
      modifies model
      ensures model.Valid()
      ensures (r, model.codes, model.nextId)
              == CreateOutcome(old(model.codes), old(model.nextId), req, Spell(samples[FirstAcceptable(samples).value]))
      ensures r.Ok? ==> Acceptable(r.value.0)
    {
      var activationCodeValue := GenerateActivationCode(samples);
      if req.activationCodeSet {
        return Err(DUPLICATE_KEYWORD);
      }
      var created := model.Create(req.organizationId, activationCodeValue, req.studentEmail);
      if created.Err? {
        return Err(created.error);
      }
      r := Ok((activationCodeValue, RecordOf(created.value) - {"activation_code"}));
    }
  }
}
