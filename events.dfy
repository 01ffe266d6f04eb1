/**
 * The triggering event: whether a report applies to it, and which thread
 * number the comment goes to (`isReportSupported` and the `prNumber`
 * selection of `renderComment`).
 */
module Events {
  import opened Wrappers

  const PullRequestEvent: string := "pull_request"
  const IssueCommentEvent: string := "issue_comment"

  /** Reporting applies to pull-request events and issue-comment events. */
  predicate IsReportSupported(eventName: string) {
    eventName == PullRequestEvent || eventName == IssueCommentEvent
  }

  /** Exactly the two comment-bearing events are supported; the match is on the whole name. */
  lemma SupportedEvents()
    ensures IsReportSupported("pull_request") && IsReportSupported("issue_comment")
    ensures !IsReportSupported("push") && !IsReportSupported("pull_request_target")
    ensures !IsReportSupported("issues") && !IsReportSupported("")
  {
  }

  /** A `pull_request` or `issue` object of the event payload. */
  datatype Thread = Thread(number: Option<int>)

  /** The part of the event payload read; `None` is a missing object. */
  datatype EventPayload = EventPayload(pullRequest: Option<Thread>, issue: Option<Thread>)

  datatype Trigger = Trigger(eventName: string, payload: EventPayload)

  /** Why no thread number could be resolved: reading `number` of a missing
      object (a `TypeError`), or the "Incompatible event" error. */
  datatype ThreadError = MissingPayload | IncompatibleEvent(eventName: string)

  /** The thread object has a truthy number. */
  predicate HasNumber(t: Option<Thread>) {
    t.Some? && t.value.number.Some? && t.value.number.value != 0
  }

  function ThreadNumber(eventName: string, t: Option<Thread>): Result<int, ThreadError> {
    if t.None? then Err(MissingPayload)
    else if HasNumber(t) then Ok(t.value.number.value)
    else Err(IncompatibleEvent(eventName))
  }

  /**
   * The number a comment is posted to: `pull_request.number` for a
   * pull-request event, `issue.number` for an issue-comment event; any other
   * event, or a falsy number, is an "Incompatible event" error.
   */
  function ResolvePrNumber(eventName: string, payload: EventPayload): (r: Result<int, ThreadError>)
    ensures !IsReportSupported(eventName) ==> r == Err(IncompatibleEvent(eventName))
    ensures eventName == PullRequestEvent ==>
      (r.Ok? <==> HasNumber(payload.pullRequest))
      && (r.Ok? ==> Some(r.value) == payload.pullRequest.value.number)
      && (r == Err(MissingPayload) <==> payload.pullRequest.None?)
    ensures eventName == IssueCommentEvent ==>
      (r.Ok? <==> HasNumber(payload.issue))
      && (r.Ok? ==> Some(r.value) == payload.issue.value.number)
      && (r == Err(MissingPayload) <==> payload.issue.None?)
    ensures r.Ok? ==> IsReportSupported(eventName) && r.value != 0
    ensures r.Err? && r.error.IncompatibleEvent? ==> r.error.eventName == eventName
  {
    if eventName == PullRequestEvent then ThreadNumber(eventName, payload.pullRequest)
    else if eventName == IssueCommentEvent then ThreadNumber(eventName, payload.issue)
    else Err(IncompatibleEvent(eventName))
  }
}
