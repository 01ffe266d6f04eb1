# WebPageTest GitHub Action: orchestration model

This project models the core of the WebPageTest GitHub Action (`index.js`). The action
submits one WebPageTest run per configured URL. It reads the completed result in one of
two shapes: budget mode (a test id plus the number of failed budget assertions) or plain
mode (result data). When the run was triggered by a pull request or an issue comment, it
retrieves each result, turns it into a per-URL record with a fixed catalog of metrics, and
renders and posts one comment holding all records. Failed budgets, and failures caught at
each URL's boundary, mark the run failed through `core.setFailed`.

Modules, one per component of `index.js`:

- `Js`: the JavaScript values the action reads and copies, truthiness (`if (v)`), and a
  caught exception, represented by the text it is reported with
  (`e.statusText || JSON.stringify(e)`).
- `Decimal`: the decimal text JavaScript produces when a count is joined to a string.
- `Metrics`: the `METRICS` catalog, the result payload, and the record `collectData`
  builds. `BuildTestRecord` is the loop over the catalog. It is proved equal to
  `ExtractMetrics`, and the lemmas next to it characterise that function.
- `Budget`: the message chosen for a failed-assertion count.
- `Events`: `isReportSupported` and the thread-number selection of `renderComment`.
- `TestOptions`: the defaults, the settings merge, and `specs`/`label` set on top.
- `Submission`: the shape dispatch (`testId` first, then `data`, then nothing) as a
  tagged union.
- `Run`: the specification of a whole run as functions. `UrlEffect` gives what one URL's
  pipeline fetches, pushes and fails the run with. `Processed` folds the URLs in the order
  they settle. `Published` is `renderComment`. `RunResult` is the whole of `run`. The
  lemmas about the run are here.
- `Orchestrator`: class `Action` holds the mutable state: `runData.tests`, the failed
  status, the `setFailed` messages, and a record of the calls made to the collaborators.
  Its methods do the source's steps in the source's order, and each one is proved to
  reach the state the `Run` functions define.

Collaborators become values. The testing service is a pair of functions: `submit` takes a
URL and the options and gives a response or a failure; `fetch` takes an id and gives a
payload or a failure. The renderer and the comment poster are outcomes in the same way.
`WPT_URLS.map` calls `runTest` for every URL synchronously, in list order, before any
submission settles. The model therefore records all URLs as submitted first. The rest of
`Promise.all` becomes a fold over `schedule`, which is any permutation of the URL list:
the order in which the URLs' pipelines finish. For `runData.tests`, the failed status and
the `setFailed` messages, this fold is exact. The reason: each URL pushes at most one
record and calls `setFailed` at most once. Both happen in one synchronous stretch after
that URL's last `await`, so any interleaving changes them as some sequential order
would. For ids passed to `getTestResults`, the model records which ones were fetched (a
multiset), not in which order: a fetch starts when a submission settles, not when a
pipeline finishes.

Behaviour of the code worth knowing:

- In budget mode, the result is retrieved and `collectData` runs before the budget is
  evaluated (index.js:163-175). If retrieval or extraction throws, the catch at
  index.js:194-197 reports that error, and the budget message is never given. The run is
  still failed (`Run.BudgetModeFailures`).
- A settings value that is not an object fails the run, but the run goes on with the
  defaults (index.js:121-129). It is not fatal.
- The "Incompatible event" error, and the `TypeError`s thrown while a record is built,
  reach `setFailed` as `Action failed with error: {}`. `JSON.stringify` of an `Error`
  is `{}`, and its message only goes to `console.log`.
- The comment template path is fixed (index.js:63): the comment is always rendered from
  `templates/comment.md`.

## Model

| member | source | states |
|---|---|---|
| `Decimal.NatToString` | index.js:173 | the text of a count is non-empty, made only of digits, with no leading zero for a positive count |
| `Decimal.NatToStringRoundTrip` | index.js:173 | reading the digits of a count's text gives back the count |
| `Decimal.NatToStringInjective` | index.js:173 | different counts have different texts |
| `Metrics.MetricsUpToShape` | index.js:94-103 | after the first n catalog entries: record k is the record of the k-th emitted entry; emitted positions strictly increase; each emitted field is truthy; no entry with a truthy field is skipped |
| `Metrics.ExtractMetricsIsCatalogSubsequence` | index.js:16-22 | the metrics list is a subsequence of the catalog in catalog order; each name is the catalog label of its key and each value is that key's field; it has at most as many entries as the catalog |
| `Metrics.MetricPresentIffReported` | index.js:97-102 | a label appears in the list exactly when its first-view field is present and truthy; a missing or falsy field (such as 0) leaves no entry under that label |
| `Metrics.CatalogWellFormed` | index.js:16-22 | the catalog has five entries with distinct keys and distinct labels |
| `Metrics.ExtractMetrics` | index.js:94-103 | the metrics list has no more entries than the catalog, and no placeholder: every value in it is truthy |
| `Metrics.TestRecordOf` | index.js:88-103 | a record is built exactly when the path to the waterfall image exists, otherwise a TypeError; url, test link and waterfall come from that same payload, and the metrics are its first view's extraction |
| `Metrics.BuildTestRecord` | index.js:88-103 | succeeds exactly when the path to the waterfall image exists; url, test link and waterfall come from that same payload; the metrics are the catalog extraction of its first view; it agrees with `TestRecordOf` |
| `Budget.BudgetVerdict` | index.js:169-175 | the run is failed exactly when a count is given and exceeds 0; a count of 1 yields "One performance budget not met." |
| `Budget.PluralMessageStatesCount` | index.js:173 | a count n > 1 yields n's decimal text followed by " performance budgets not met." |
| `Budget.BudgetVerdictInjective` | index.js:169-175 | equal failure messages come from equal counts; the singular message is never a plural one |
| `Budget.TwoBudgetsMessage` | index.js:173 | a count of 2 yields "2 performance budgets not met." |
| `Events.SupportedEvents` | index.js:24 | a report applies to pull_request and issue_comment, and not to other events such as push, pull_request_target or issues: the whole event name must match |
| `Events.ResolvePrNumber` | index.js:66-73 | pull_request uses `pull_request.number` and issue_comment uses `issue.number`, resolving exactly when that number is truthy; a missing object is a TypeError; any other event, or a falsy number, is the "Incompatible event" error for that event |
| `TestOptions.MergedOptions` | index.js:110-136 | a default key keeps its value unless the settings object supplies it; a supplied key takes the setting's value unless `specs` or `label` overrides it; `specs` and `label` are set when given; no other keys appear |
| `TestOptions.DefaultsWithoutOverrides` | index.js:110-118 | with no settings, budget or label the options are exactly the seven defaults; `specs` and `label` are not among them |
| `TestOptions.RejectedSettingsKeepDefaults` | index.js:121-129 | settings that are not an object give the same options as no settings at all |
| `Submission.Classify` | index.js:152-193 | budget mode exactly when `testId` is truthy, even if `data` is present; plain mode exactly when `testId` is falsy and `data` is present; each case carries the fields of its own shape |
| `Run.UrlEffect` | index.js:148-203 | one URL fetches at most once (never without reporting); its record, if any, is the one retrieved under the fetched id; a submission failure contributes only its caught message; when reporting applies and the result has a shape, it fetches exactly its own `testId` or `data.id` and has a record exactly when retrieval and extraction succeed |
| `Run.SucceedingUrlIsRecorded` | index.js:163-188 | when reporting applies and a URL's submission, retrieval and extraction succeed, it fetches its own id once and contributes the record built from that payload |
| `Run.AllSucceedingUrlsReported` | index.js:147-208 | for a supported event where every URL succeeds, for example two URLs in plain mode under a pull request: one record per URL in settling order, each built from the payload fetched under its own id, rendered once with exactly those records |
| `Run.Processed` | index.js:147-203 | settling the URLs keeps the earlier records as a prefix, adds at most one record per URL, never clears a failure, and submits, renders or posts nothing |
| `Run.Published` | index.js:58-86 | `renderComment` renders once with the current records, posts at most one comment, leaves records and URL traffic alone, and fails the run exactly when rendering, thread resolution or posting fails |
| `Run.RunResult` | index.js:106-211 | every URL is submitted in list order; the template is rendered exactly when the event supports a report; rejected settings fail the run |
| `Run.ProcessedShape` | index.js:147-203 | processing appends: tests and messages are the URLs' own contributions appended, in settling order, to the old state; the fetched ids are added; nothing is submitted, rendered or posted |
| `Run.ProcessedFailed` | index.js:147-203 | after processing, the run is failed exactly when it already was or some URL's pipeline failed it |
| `Run.RecordsBounded` | index.js:147-203 | the URLs contribute no more records and no more fetches than there are URLs |
| `Run.RecordFromOwnPayload` | index.js:163-188 | a URL's record exists only when reporting applies; it is built from the payload fetched under its own `testId` (budget mode) or `data.id` (plain mode) |
| `Run.UnsupportedUrlEffect` | index.js:163-189 | without reporting a URL fetches nothing and pushes nothing; it can fail only by its submission failure or, in budget mode, its budget verdict |
| `Run.NeitherShapeDoesNothing` | index.js:191-193 | a result with neither `testId` nor `data` adds no record, fetches nothing and does not fail the run |
| `Run.PlainModeIgnoresCount` | index.js:177-190 | in plain mode the run is failed only by a retrieval or extraction failure, never by a budget count |
| `Run.BudgetModeFailures` | index.js:163-175 | in budget mode a thrown retrieval or extraction error is reported in place of the budget message; otherwise the budget verdict is given; a positive count always fails the URL |
| `Run.BudgetViolationFailsRun` | index.js:169-175 | a positive failure count on any URL marks the whole run failed, with or without a report |
| `Run.RecordSurvivesOtherFailures` | index.js:194-202 | a URL whose own pipeline yields a record has it in the final report, whatever the other URLs do |
| `Run.RecordsComeFromUrls` | index.js:104 | every record in the report is the record of some URL of the schedule |
| `Run.AllRecorded` | index.js:147-203 | when every URL yields a record, the report has one record per URL in settling order, each one its own URL's |
| `Run.RunBounded` | index.js:147-208 | over a whole run there are no more records and no more fetches than entries in the URL list |
| `Run.UnsupportedEventReportsNothing` | index.js:204-208 | for an event other than pull_request or issue_comment: nothing is retrieved, `runData.tests` stays empty, and no comment is rendered or posted |
| `Run.SupportedEventPublishesOnce` | index.js:204-208 | for a supported event the template is rendered once, after all URLs, with all their records; at most one comment is posted, exactly when rendering succeeded and a thread number resolved, to that number with that body |
| `Run.FailedStatus` | index.js:106-208 | the run ends failed exactly when the settings were rejected, some URL failed it, or (for a supported event) rendering fails, no thread number resolves, or posting fails |
| `Run.UnresolvedThreadFailsRun` | index.js:73 | for a supported event whose thread object is missing or whose number is falsy, the caught error fails the run and no comment is posted |
| `Run.ZeroPullRequestNumberFailsRun` | index.js:66-73 | a pull request with number 0 fails the run and gets no comment |
| `Run.BudgetMessageIsNotCaughtFailure` | index.js:169-175 | no budget message equals a catch block's failure message, so each message tells whether a budget or a caught error failed the URL |
| `Orchestrator.Action.constructor` | index.js:144-145 | the run starts with no tests, no failure and no collaborator calls |
| `Orchestrator.Action.SetFailed` | index.js:128 | `setFailed` marks the run failed and appends its message |
| `Orchestrator.Action.BuildOptions` | index.js:110-136 | the options built are the merged options; settings that are not an object fail the run and change nothing else |
| `Orchestrator.Action.CollectData` | index.js:87-105 | pushes exactly the payload's record onto `runData.tests` and changes nothing else; when the record cannot be built it returns the TypeError and nothing changes |
| `Orchestrator.Action.SubmitAll` | index.js:147-150 | every URL's test is submitted, in list order, before any settles; nothing else changes |
| `Orchestrator.Action.RetrieveAndCollect` | index.js:164-165 | fetches the given id once; then pushes the retrieved record, or returns what retrieval or extraction threw |
| `Orchestrator.Action.ProcessUrl` | index.js:150-203 | one URL's pipeline from the moment its submission settles, with both catch boundaries, reaches `Run.UrlStep` of the old state |
| `Orchestrator.Action.ProcessOutcome` | index.js:152-193 | the dispatch on a settled submission's shape, with retrieval, `collectData` and the budget verdict, reaches `Run.Applied` of the old state and the outcome's effect |
| `Orchestrator.Action.ProcessAll` | index.js:147-203 | processing the URLs in settling order reaches `Run.Processed` of the old state |
| `Orchestrator.Action.RenderComment` | index.js:58-86 | render, resolve the thread number and post, with every failure caught and reported; reaches `Run.Published` of the old state |
| `Orchestrator.RunAction` | index.js:106-211 | the whole run (options, all submissions, every URL as it settles, then the comment when the event supports it) ends in `Run.RunResult` |

## Left out

- The `webpagetest` client (index.js:26-57): submission, result polling, timeouts and the
  host name. Each call is an outcome given as input. The deep clone of the options at
  index.js:28 needs no model: the options are an immutable map value, so no call can
  change the template another URL sees.
- The `try`/`catch` inside the `runTest` callback (index.js:33-42). If `core.debug(result)`
  throws there, the promise never settles. `Promise.all` then never resolves, and no
  comment is rendered. The model lets every submission settle.
- A submission that fails with a nullish `err` (index.js:37-38). The outer catch then
  reads `e.statusText` of `undefined` (index.js:201) and throws out of that URL's
  callback. `Promise.all` rejects, `renderComment` never runs, and the unhandled
  rejection ends the process, so later URLs are not processed. That breaks the per-URL
  failure boundary. The model gives every submission failure a description and keeps
  processing the other URLs. A nullish retrieval failure is contained, because the inner
  catch's TypeError reaches the outer catch. It is represented by the description `{}`.
- A URL listed more than once gets the same outcome each time, because `submit` is a
  function of the URL and the options. In the source each entry of the list
  (index.js:11, 148) is a separate test with its own id, so its record can differ, for
  example in the test link.
- Promise and async scheduling (index.js:147-208). It becomes a fold over any
  permutation of the URLs, for the reason given above. `run` returns before the URLs
  settle; that is not modelled.
- Octokit and `github.context` beyond the event name and the two thread numbers
  (index.js:60-61, 76-81). Posting a comment is an outcome given as input. If
  `github.getOctokit` throws (for example with an empty token), it does so before the
  template is rendered. The run is then failed, nothing is rendered, and
  `Run.SupportedEventPublishesOnce`'s "rendered once" does not hold. The model has no
  such failure.
- EJS rendering (index.js:63). The renderer is an outcome given as input, a function of
  `runData.tests`.
- The `%`/newline escaping at index.js:64. Its result is thrown away.
- Reading the action's inputs and environment, and loading the settings and budget
  files (index.js:8-15, 120, 132). The settings, the budget specification and the label
  are given as values. A file that cannot be loaded throws out of `run` before any URL
  is tested; that path is not modelled. Splitting the URL input at line breaks is also
  left out: the URL list is given.
- Logging through `core.info`, `core.debug`, `core.startGroup` and `console.log`. It has
  no effect on the state. `core.setFailed` is modelled as the failed flag plus the list
  of its messages.
- The colour-library imports (index.js:5-6) and the bundling configuration in
  build.mjs. Neither holds program logic.
- Budget.BudgetVerdict: the count (`err`) is modelled as an optional integer. Non-numeric
  `err` values are not modelled, and neither are counts of 10^21 or more, for which
  JavaScript writes an exponent.
- Js.JsValue: numbers are exact reals. Floating-point rounding is not modelled, and -0
  equals 0. An object's contents and its property order are not modelled; the order only
  affects logged output.
