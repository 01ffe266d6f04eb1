/**
 * The two shapes of a completed submission: budget mode, when the service
 * evaluated a budget specification and returned a test id with the number of
 * failed assertions, and plain mode, when it returned result data.
 */
module Submission {
  import opened Wrappers
  import opened Js

  /** The `data` object of a plain-mode result. */
  datatype RawData = RawData(id: JsValue, summary: JsValue)

  /** The `result` object the service returns. */
  datatype RawResult = RawResult(testId: JsValue, data: Option<RawData>)

  /** What a successful submission resolves to: the result and the `err`
      argument that came with it (the failed-assertion count in budget mode). */
  datatype Response = Response(result: RawResult, err: Option<int>)

  datatype SubmissionOutcome =
    | BudgetMode(testId: JsValue, failureCount: Option<int>)
    | PlainMode(resultId: JsValue, summary: JsValue)
    | NoResult

  /**
   * A truthy `testId` means budget mode, even when `data` is present;
   * otherwise `data` means plain mode; otherwise nothing is done.
   */
  function Classify(resp: Response): (r: SubmissionOutcome)
    ensures r.BudgetMode? <==> Truthy(resp.result.testId)
    ensures r.PlainMode? <==> !Truthy(resp.result.testId) && resp.result.data.Some?
    ensures r.BudgetMode? ==> r.testId == resp.result.testId && r.failureCount == resp.err
    ensures r.PlainMode? ==> r.resultId == resp.result.data.value.id && r.summary == resp.result.data.value.summary
  {
    if Truthy(resp.result.testId) then BudgetMode(resp.result.testId, resp.err)
    else if resp.result.data.Some? then PlainMode(resp.result.data.value.id, resp.result.data.value.summary)
    else NoResult
  }

  /** The id a shaped result is retrieved under: `testId` in budget mode,
      `data.id` in plain mode. */
  function FetchId(o: SubmissionOutcome): JsValue
    requires !o.NoResult?
  {
    if o.BudgetMode? then o.testId else o.resultId
  }
}
