/**
 * `ExecutionResultMapper`: projections of a cached result document onto the responses sent
 * to clients. Each field is the document's property of that name, `undefined` where it has none.
 */
module ExecutionResultMapper {
  import opened Wrappers
  import opened Json
  import opened Dtos
  import opened JsValues
  import opened Payloads

  /** `stdOut ? stdOut : undefined`: a falsy or absent output becomes absent. */
  function Truthful(p: Option<Json>): (r: Option<Json>)
    ensures r.Some? <==> p.Some? && JsTruthy(p.value)
    ensures r.Some? ==> r == p
  {
    if p.Some? && JsTruthy(p.value) then p else None
  }

  /** `toSubmitCodeResultOutDTO`: exactly the four result fields, unchanged. */
  function ToSubmitCodeResultOutDTO(data: Json): (r: SubmitCodeResultOut)
    ensures r.executionResult == Prop(data, "executionResult") && r.executionTime == Prop(data, "executionTime")
    ensures r.memoryUsage == Prop(data, "memoryUsage") && r.status == Prop(data, "status")
  {
    SubmitCodeResultOut(Prop(data, "executionResult"), Prop(data, "executionTime"), Prop(data, "memoryUsage"), Prop(data, "status"))
  }

  /** `toRunCodeResultOutDTO`: the same four fields plus `stdOut`, whose falsy value is dropped. */
  function ToRunCodeResultOutDTO(data: Json): (r: RunCodeResultOut)
    ensures r.executionResult == Prop(data, "executionResult") && r.executionTime == Prop(data, "executionTime")
    ensures r.memoryUsage == Prop(data, "memoryUsage") && r.status == Prop(data, "status")
    ensures r.stdOut.Some? <==> Prop(data, "stdOut").Some? && JsTruthy(Prop(data, "stdOut").value)
    ensures r.stdOut.Some? ==> r.stdOut == Prop(data, "stdOut")
  {
    RunCodeResultOut(Prop(data, "executionResult"), Prop(data, "executionTime"), Prop(data, "memoryUsage"),
      Prop(data, "status"), Truthful(Prop(data, "stdOut")))
  }

  /** `toCustomCodeResultOutDTO`: time, memory and output only; no status, no execution result. */
  function ToCustomCodeResultOutDTO(data: Json): (r: CustomCodeResultOut)
    ensures r.executionTime == Prop(data, "executionTime") && r.memoryUsage == Prop(data, "memoryUsage")
    ensures r.stdOut == Prop(data, "stdOut")
  {
    CustomCodeResultOut(Prop(data, "executionTime"), Prop(data, "memoryUsage"), Prop(data, "stdOut"))
  }

  /** The run projection agrees with the submit projection on the fields they share, whatever the documents. */
  lemma RunAndSubmitProjectionsAgree(s: Json, r: Json)
    requires Prop(s, "executionResult") == Prop(r, "executionResult") && Prop(s, "executionTime") == Prop(r, "executionTime")
    requires Prop(s, "memoryUsage") == Prop(r, "memoryUsage") && Prop(s, "status") == Prop(r, "status")
    ensures var a, b := ToSubmitCodeResultOutDTO(s), ToRunCodeResultOutDTO(r);
      a.executionResult == b.executionResult && a.executionTime == b.executionTime
      && a.memoryUsage == b.memoryUsage && a.status == b.status
  {
  }

  /** The projections forget everything else: documents that agree on the four fields project equally. */
  lemma ProjectionsIgnoreOtherFields(s1: Json, s2: Json)
    requires Prop(s1, "executionResult") == Prop(s2, "executionResult") && Prop(s1, "executionTime") == Prop(s2, "executionTime")
    requires Prop(s1, "memoryUsage") == Prop(s2, "memoryUsage") && Prop(s1, "status") == Prop(s2, "status")
    ensures ToSubmitCodeResultOutDTO(s1) == ToSubmitCodeResultOutDTO(s2)
  {
  }

  /** A submission result as the workers encode it projects onto its own four fields, all present. */
  lemma SubmitProjectionOfEncoded(r: SubmissionResult)
    ensures ToSubmitCodeResultOutDTO(EncodeSubmissionResult(r))
      == SubmitCodeResultOut(Some(r.executionResult), Some(JNum(r.executionTime)), Some(JNum(r.memoryUsage)), Some(Str(r.status)))
  {
    SubmissionResultLeadingFields(r);
    SubmissionResultTrailingFields(r);
  }

  /** An encoded run result projects onto its own fields; its output is kept exactly when it is a non-empty text. */
  lemma RunProjectionOfEncoded(r: RunResult)
    ensures ToRunCodeResultOutDTO(EncodeRunResult(r))
      == RunCodeResultOut(Some(r.executionResult), Some(JNum(r.executionTime)), Some(JNum(r.memoryUsage)), Some(Str(r.status)),
           if r.stdOut.Some? && r.stdOut.value != "" then Some(Str(r.stdOut.value)) else None)
  {
    RunResultLeadingFields(r);
    RunResultTrailingFields(r);
  }

  /** An encoded custom result projects onto its time, memory and output. */
  lemma CustomProjectionOfEncoded(r: CustomResult)
    ensures ToCustomCodeResultOutDTO(EncodeCustomResult(r))
      == CustomCodeResultOut(Some(JNum(r.executionTime)), Some(JNum(r.memoryUsage)), Some(Str(r.stdOut)))
  {
    var f := EncodeCustomResult(r).fields;
    LookupAt(f, "stdOut", 1);
    LookupAt(f, "executionTime", 3);
    LookupAt(f, "memoryUsage", 4);
  }
}
