/**
 * The specification of one run of the action: what each URL's pipeline
 * contributes, the fold of all URLs in completion order, and the comment
 * published afterwards. The `Action` class carries out the same steps on
 * mutable state and is proved to reach the states defined here.
 */
module Run {
  import opened Wrappers
  import opened Js
  import opened Metrics
  import opened Budget
  import opened Events
  import opened TestOptions
  import opened Submission
  import Decimal

  /** The testing service: `runTest` and `getTestResults`, as outcomes. */
  datatype Service = Service(
    submit: (string, OptionBag) -> Result<Response, Failure>,
    fetch: JsValue -> Result<Payload, Failure>)

  /** The template renderer (given `runData`) and the comment poster, as
      outcomes; `post` gives `None` when the comment was created. */
  datatype Publisher = Publisher(
    render: seq<TestRecord> -> Result<string, Failure>,
    post: (int, string) -> Option<Failure>)

  datatype Comment = Comment(issueNumber: int, body: string)

  /**
   * What the run has done so far: `runData.tests`, the failed status and the
   * messages given to `core.setFailed`, and the calls made to the
   * collaborators: the URLs submitted (in list order, since every `runTest`
   * call is made synchronously by the `map` before any URL settles), the ids
   * fetched (which ones, not in which order), the data handed to the
   * template and the comments posted.
   */
  datatype RunState = RunState(
    tests: seq<TestRecord>,
    failed: bool,
    errors: seq<string>,
    submitted: seq<string>,
    fetched: multiset<JsValue>,
    rendered: seq<seq<TestRecord>>,
    comments: seq<Comment>)

  const Initial: RunState := RunState([], false, [], [], multiset{}, [], [])

  /** The state after `core.setFailed(message)`. */
  function Failed(s: RunState, message: string): RunState {
    s.(failed := true, errors := s.errors + [message])
  }

  /** What one URL's pipeline does: the ids it fetches, the record it
      pushes and the message it fails the run with. */
  datatype Effect = Effect(fetched: seq<JsValue>, record: Option<TestRecord>, error: Option<string>)

  const NoEffect: Effect := Effect([], None, None)

  /** Retrieval followed by `collectData`: the record, or what was thrown. */
  function Retrieved(svc: Service, id: JsValue): Result<TestRecord, Failure> {
    match svc.fetch(id)
    case Err(f) => Err(f)
    case Ok(p) => TestRecordOf(p)
  }

  function Collected(svc: Service, id: JsValue): Effect {
    match Retrieved(svc, id)
    case Err(f) => Effect([id], None, Some(FailureMessage(f)))
    case Ok(rec) => Effect([id], Some(rec), None)
  }

  /**
   * One URL's pipeline. A submission failure is caught by the outer catch. In
   * budget mode the result is retrieved first (when reporting applies) and the
   * budget is evaluated only if that did not throw; in plain mode the result
   * is retrieved when reporting applies; with neither shape nothing happens.
   */
  function UrlEffect(svc: Service, options: OptionBag, supported: bool, url: string): (e: Effect)
    ensures |e.fetched| <= 1
    ensures !supported ==> e.fetched == [] && e.record.None?
    ensures e.record.Some? ==> |e.fetched| == 1 && Retrieved(svc, e.fetched[0]) == Ok(e.record.value)
    ensures svc.submit(url, options).Err? ==> e == Effect([], None, Some(FailureMessage(svc.submit(url, options).error)))
    ensures supported && svc.submit(url, options).Ok? && !Classify(svc.submit(url, options).value).NoResult? ==>
      var id := FetchId(Classify(svc.submit(url, options).value));
      e.fetched == [id] && (e.record.Some? <==> Retrieved(svc, id).Ok?)
  {
    match svc.submit(url, options)
    case Err(f) => Effect([], None, Some(FailureMessage(f)))
    case Ok(resp) => OutcomeEffect(svc, supported, Classify(resp))
  }

  /** What a URL's pipeline does once its submission has settled with this
      outcome. */
  function OutcomeEffect(svc: Service, supported: bool, outcome: SubmissionOutcome): Effect {
    match outcome
    case NoResult => NoEffect
    case PlainMode(id, _) => if supported then Collected(svc, id) else NoEffect
    case BudgetMode(id, count) =>
      var e := if supported then Collected(svc, id) else NoEffect;
      if e.error.Some? then e else e.(error := BudgetVerdict(count))
  }

  function Applied(s: RunState, url: string, e: Effect): RunState {
    var s' := s.(fetched := s.fetched + multiset(e.fetched), tests := s.tests + AsSeq(e.record));
    if e.error.Some? then Failed(s', e.error.value) else s'
  }

  function UrlStep(s: RunState, svc: Service, options: OptionBag, supported: bool, url: string): RunState {
    Applied(s, url, UrlEffect(svc, options, supported, url))
  }

  /** The state after every URL of `schedule`, in that order, has settled. */
  function Processed(s: RunState, svc: Service, options: OptionBag, supported: bool, schedule: seq<string>): (t: RunState)
    ensures t.submitted == s.submitted && t.rendered == s.rendered && t.comments == s.comments
    ensures s.tests <= t.tests && |t.tests| <= |s.tests| + |schedule|
    ensures s.failed ==> t.failed
    decreases |schedule|
  {
    if schedule == [] then s
    else UrlStep(Processed(s, svc, options, supported, schedule[..|schedule| - 1]), svc, options, supported, schedule[|schedule| - 1])
  }

  /** `renderComment`: render, resolve the thread number, post the comment. */
  function Published(s: RunState, pub: Publisher, trigger: Trigger): (t: RunState)
    ensures t.tests == s.tests && t.submitted == s.submitted && t.fetched == s.fetched
    ensures t.rendered == s.rendered + [s.tests]
    ensures |s.comments| <= |t.comments| <= |s.comments| + 1
    ensures t.failed == (s.failed || PublishFails(pub, s.tests, trigger))
  {
    var s1 := s.(rendered := s.rendered + [s.tests]);
    match pub.render(s.tests)
    case Err(f) => Failed(s1, FailureMessage(f))
    case Ok(body) =>
      match ResolvePrNumber(trigger.eventName, trigger.payload)
      case Err(_) => Failed(s1, FailureMessage(Failure(ErrorObjectDescription)))
      case Ok(n) =>
        var s2 := s1.(comments := s1.comments + [Comment(n, body)]);
        match pub.post(n, body)
        case Some(f) => Failed(s2, FailureMessage(f))
        case None => s2
  }

  /** The inputs of one run: the URL list, the settings object, the budget
      specification, the label and the triggering event. */
  datatype Config = Config(
    urls: seq<string>,
    settings: Option<Settings>,
    budget: Option<JsValue>,
    labelInput: string,
    trigger: Trigger)

  /** The state once the options are built and every URL's test has been
      submitted, before any submission settles. */
  function Configured(cfg: Config): RunState {
    var s := if SettingsRejected(cfg.settings) then Failed(Initial, InvalidSettingsMessage) else Initial;
    s.(submitted := cfg.urls)
  }

  function OptionsOf(cfg: Config): OptionBag {
    MergedOptions(cfg.settings, cfg.budget, cfg.labelInput)
  }

  /** Publishing reports a failure: rendering fails, no thread number
      resolves, or posting fails. */
  predicate PublishFails(pub: Publisher, tests: seq<TestRecord>, trigger: Trigger) {
    || pub.render(tests).Err?
    || ResolvePrNumber(trigger.eventName, trigger.payload).Err?
    || pub.post(ResolvePrNumber(trigger.eventName, trigger.payload).value, pub.render(tests).value).Some?
  }

  /** The whole run, with the URLs settling in the order `schedule`. */
  function RunResult(cfg: Config, svc: Service, pub: Publisher, schedule: seq<string>): (r: RunState)
    ensures r.submitted == cfg.urls
    ensures IsReportSupported(cfg.trigger.eventName) <==> |r.rendered| == 1
    ensures SettingsRejected(cfg.settings) ==> r.failed
  {
    var supported := IsReportSupported(cfg.trigger.eventName);
    var s := Processed(Configured(cfg), svc, OptionsOf(cfg), supported, schedule);
    if supported then Published(s, pub, cfg.trigger) else s
  }

  // ---------------------------------------------------------------------
  // What the URLs contribute, URL by URL.

  function Records(svc: Service, options: OptionBag, supported: bool, schedule: seq<string>): seq<TestRecord>
    decreases |schedule|
  {
    if schedule == [] then []
    else
      var e := UrlEffect(svc, options, supported, schedule[|schedule| - 1]);
      Records(svc, options, supported, schedule[..|schedule| - 1]) + AsSeq(e.record)
  }

  function Errors(svc: Service, options: OptionBag, supported: bool, schedule: seq<string>): seq<string>
    decreases |schedule|
  {
    if schedule == [] then []
    else
      var e := UrlEffect(svc, options, supported, schedule[|schedule| - 1]);
      Errors(svc, options, supported, schedule[..|schedule| - 1]) + AsSeq(e.error)
  }

  function Fetches(svc: Service, options: OptionBag, supported: bool, schedule: seq<string>): multiset<JsValue>
    decreases |schedule|
  {
    if schedule == [] then multiset{}
    else
      var e := UrlEffect(svc, options, supported, schedule[|schedule| - 1]);
      Fetches(svc, options, supported, schedule[..|schedule| - 1]) + multiset(e.fetched)
  }

  /** Some URL of the schedule fails the run. */
  predicate SomeUrlFails(svc: Service, options: OptionBag, supported: bool, schedule: seq<string>) {
    exists i :: 0 <= i < |schedule| && UrlEffect(svc, options, supported, schedule[i]).error.Some?
  }

  /** `Applied` appends the effect's parts to the state. */
  lemma AppliedShape(s: RunState, url: string, e: Effect)
    ensures var t := Applied(s, url, e);
      && t.submitted == s.submitted
      && t.tests == s.tests + AsSeq(e.record)
      && t.errors == s.errors + AsSeq(e.error)
      && t.fetched == s.fetched + multiset(e.fetched)
      && t.failed == (s.failed || e.error.Some?)
      && t.rendered == s.rendered && t.comments == s.comments
  {
  }

  /** Settling one more URL is one more step of the fold. */
  lemma ProcessedSnoc(s: RunState, svc: Service, options: OptionBag, supported: bool, init: seq<string>, url: string)
    ensures Processed(s, svc, options, supported, init + [url]) ==
      UrlStep(Processed(s, svc, options, supported, init), svc, options, supported, url)
  {
    assert (init + [url])[..|init|] == init;
  }

  /** The records after processing are the old ones followed by the URLs'
      records, in settling order. */
  lemma {:induction false} ProcessedTests(s: RunState, svc: Service, options: OptionBag, supported: bool, schedule: seq<string>)
    ensures Processed(s, svc, options, supported, schedule).tests == s.tests + Records(svc, options, supported, schedule)
    decreases |schedule|
  {
    if schedule != [] {
      var init := schedule[..|schedule| - 1];
      var url := schedule[|schedule| - 1];
      assert schedule == init + [url];
      ProcessedTests(s, svc, options, supported, init);
      ProcessedSnoc(s, svc, options, supported, init, url);
      AppliedShape(Processed(s, svc, options, supported, init), url, UrlEffect(svc, options, supported, url));
    }
  }

  /** The messages after processing are the old ones followed by the URLs'
      messages, in settling order. */
  lemma {:induction false} ProcessedErrors(s: RunState, svc: Service, options: OptionBag, supported: bool, schedule: seq<string>)
    ensures Processed(s, svc, options, supported, schedule).errors == s.errors + Errors(svc, options, supported, schedule)
    decreases |schedule|
  {
    if schedule != [] {
      var init := schedule[..|schedule| - 1];
      var url := schedule[|schedule| - 1];
      assert schedule == init + [url];
      ProcessedErrors(s, svc, options, supported, init);
      ProcessedSnoc(s, svc, options, supported, init, url);
      AppliedShape(Processed(s, svc, options, supported, init), url, UrlEffect(svc, options, supported, url));
    }
  }

  /** The ids fetched after processing are the old ones plus the URLs' fetches. */
  lemma {:induction false} ProcessedFetched(s: RunState, svc: Service, options: OptionBag, supported: bool, schedule: seq<string>)
    ensures Processed(s, svc, options, supported, schedule).fetched == s.fetched + Fetches(svc, options, supported, schedule)
    decreases |schedule|
  {
    if schedule != [] {
      var init := schedule[..|schedule| - 1];
      var url := schedule[|schedule| - 1];
      assert schedule == init + [url];
      ProcessedFetched(s, svc, options, supported, init);
      ProcessedSnoc(s, svc, options, supported, init, url);
      AppliedShape(Processed(s, svc, options, supported, init), url, UrlEffect(svc, options, supported, url));
    }
  }

  /**
   * Processing appends: the records and messages are the URLs' own
   * contributions appended, in settling order, to what was there; the ids
   * fetched are added; nothing is submitted, rendered or posted.
   */
  lemma ProcessedShape(s: RunState, svc: Service, options: OptionBag, supported: bool, schedule: seq<string>)
    ensures var t := Processed(s, svc, options, supported, schedule);
      && t.submitted == s.submitted
      && t.tests == s.tests + Records(svc, options, supported, schedule)
      && t.errors == s.errors + Errors(svc, options, supported, schedule)
      && t.fetched == s.fetched + Fetches(svc, options, supported, schedule)
      && t.rendered == s.rendered && t.comments == s.comments
  {
    ProcessedTests(s, svc, options, supported, schedule);
    ProcessedErrors(s, svc, options, supported, schedule);
    ProcessedFetched(s, svc, options, supported, schedule);
  }

  /** The run is failed after processing exactly when it was before or some
      URL of the schedule fails it. */
  lemma {:induction false} ProcessedFailed(s: RunState, svc: Service, options: OptionBag, supported: bool, schedule: seq<string>)
    ensures Processed(s, svc, options, supported, schedule).failed == (s.failed || SomeUrlFails(svc, options, supported, schedule))
    decreases |schedule|
  {
    if schedule != [] {
      var init := schedule[..|schedule| - 1];
      var url := schedule[|schedule| - 1];
      ProcessedFailed(s, svc, options, supported, init);
      AppliedShape(Processed(s, svc, options, supported, init), url, UrlEffect(svc, options, supported, url));
      if SomeUrlFails(svc, options, supported, init) {
        var i :| 0 <= i < |init| && UrlEffect(svc, options, supported, init[i]).error.Some?;
        assert schedule[i] == init[i];
      }
      if SomeUrlFails(svc, options, supported, schedule) {
        var i :| 0 <= i < |schedule| && UrlEffect(svc, options, supported, schedule[i]).error.Some?;
        if i < |init| {
          assert init[i] == schedule[i];
        }
      }
    }
  }

  lemma {:induction false} RecordsBounded(svc: Service, options: OptionBag, supported: bool, schedule: seq<string>)
    ensures |Records(svc, options, supported, schedule)| <= |schedule|
    ensures |Fetches(svc, options, supported, schedule)| <= |schedule|
    decreases |schedule|
  {
    if schedule != [] {
      RecordsBounded(svc, options, supported, schedule[..|schedule| - 1]);
    }
  }

  /**
   * A URL's record, when it has one, is the record `collectData` builds from
   * the payload fetched under that URL's own test id (budget mode) or result
   * id (plain mode), and it is only produced when reporting applies.
   */
  lemma RecordFromOwnPayload(svc: Service, options: OptionBag, supported: bool, url: string)
    requires UrlEffect(svc, options, supported, url).record.Some?
    ensures supported
    ensures svc.submit(url, options).Ok?
    ensures var outcome := Classify(svc.submit(url, options).value);
      && !outcome.NoResult?
      && UrlEffect(svc, options, supported, url).fetched ==
           [if outcome.BudgetMode? then outcome.testId else outcome.resultId]
      && Retrieved(svc, UrlEffect(svc, options, supported, url).fetched[0])
           == Ok(UrlEffect(svc, options, supported, url).record.value)
  {
  }

  /**
   * When reporting does not apply, no URL fetches anything or pushes a
   * record; the only messages are submission failures and budget verdicts.
   */
  lemma UnsupportedUrlEffect(svc: Service, options: OptionBag, url: string)
    ensures UrlEffect(svc, options, false, url).fetched == []
    ensures UrlEffect(svc, options, false, url).record == None
    ensures UrlEffect(svc, options, false, url).error ==
      match svc.submit(url, options)
      case Err(f) => Some(FailureMessage(f))
      case Ok(resp) => if Classify(resp).BudgetMode? then BudgetVerdict(resp.err) else None
  {
  }

  /**
   * A result with neither a test id nor data adds no record, fetches nothing
   * and does not fail the run.
   */
  lemma NeitherShapeDoesNothing(svc: Service, options: OptionBag, supported: bool, url: string)
    requires svc.submit(url, options).Ok?
    requires Classify(svc.submit(url, options).value).NoResult?
    ensures UrlEffect(svc, options, supported, url) == NoEffect
  {
  }

  /**
   * Budget evaluation happens only in budget mode: in plain mode the run is
   * failed only when retrieval or extraction throws, whatever count came
   * with the result.
   */
  lemma PlainModeIgnoresCount(svc: Service, options: OptionBag, supported: bool, url: string)
    requires svc.submit(url, options).Ok?
    requires Classify(svc.submit(url, options).value).PlainMode?
    ensures var id := Classify(svc.submit(url, options).value).resultId;
      UrlEffect(svc, options, supported, url).error ==
        if supported && Retrieved(svc, id).Err? then Some(FailureMessage(Retrieved(svc, id).error)) else None
  {
  }

  /**
   * In budget mode a positive count always fails the URL. When retrieval or
   * extraction throws first, the message is the caught error's and the
   * budget message is not given; otherwise it is the budget verdict.
   */
  lemma BudgetModeFailures(svc: Service, options: OptionBag, supported: bool, url: string)
    requires svc.submit(url, options).Ok?
    requires Classify(svc.submit(url, options).value).BudgetMode?
    ensures var outcome := Classify(svc.submit(url, options).value);
      var caught := supported && Retrieved(svc, outcome.testId).Err?;
      && (caught ==> UrlEffect(svc, options, supported, url).error == Some(FailureMessage(Retrieved(svc, outcome.testId).error)))
      && (!caught ==> UrlEffect(svc, options, supported, url).error == BudgetVerdict(outcome.failureCount))
      && (outcome.failureCount.Some? && outcome.failureCount.value > 0 ==> UrlEffect(svc, options, supported, url).error.Some?)
  {
  }

  /** A positive failure count on any URL marks the run failed, whether or
      not a report is published. */
  lemma BudgetViolationFailsRun(cfg: Config, svc: Service, pub: Publisher, schedule: seq<string>, i: nat)
    requires i < |schedule|
    requires svc.submit(schedule[i], OptionsOf(cfg)).Ok?
    requires var outcome := Classify(svc.submit(schedule[i], OptionsOf(cfg)).value);
      outcome.BudgetMode? && outcome.failureCount.Some? && outcome.failureCount.value > 0
    ensures RunResult(cfg, svc, pub, schedule).failed
  {
    var supported := IsReportSupported(cfg.trigger.eventName);
    BudgetModeFailures(svc, OptionsOf(cfg), supported, schedule[i]);
    ProcessedFailed(Configured(cfg), svc, OptionsOf(cfg), supported, schedule);
  }

  /**
   * Failure containment: a URL whose own pipeline yields a record has that
   * record in the final report, whatever the other URLs do.
   */
  lemma RecordSurvivesOtherFailures(s: RunState, svc: Service, options: OptionBag, supported: bool, schedule: seq<string>, i: nat)
    requires i < |schedule|
    requires UrlEffect(svc, options, supported, schedule[i]).record.Some?
    ensures UrlEffect(svc, options, supported, schedule[i]).record.value in Processed(s, svc, options, supported, schedule).tests
  {
    ProcessedShape(s, svc, options, supported, schedule);
    RecordInRecords(svc, options, supported, schedule, i);
  }

  lemma {:induction false} RecordInRecords(svc: Service, options: OptionBag, supported: bool, schedule: seq<string>, i: nat)
    requires i < |schedule|
    requires UrlEffect(svc, options, supported, schedule[i]).record.Some?
    ensures UrlEffect(svc, options, supported, schedule[i]).record.value in Records(svc, options, supported, schedule)
    decreases |schedule|
  {
    var init := schedule[..|schedule| - 1];
    if i < |init| {
      assert init[i] == schedule[i];
      RecordInRecords(svc, options, supported, init, i);
    }
  }

  /** Every record in the report is the record of some URL of the schedule. */
  lemma {:induction false} RecordsComeFromUrls(svc: Service, options: OptionBag, supported: bool, schedule: seq<string>, rec: TestRecord)
    requires rec in Records(svc, options, supported, schedule)
    ensures exists i :: 0 <= i < |schedule| && UrlEffect(svc, options, supported, schedule[i]).record == Some(rec)
    decreases |schedule|
  {
    var init := schedule[..|schedule| - 1];
    var last := UrlEffect(svc, options, supported, schedule[|schedule| - 1]).record;
    if rec in Records(svc, options, supported, init) {
      RecordsComeFromUrls(svc, options, supported, init, rec);
      var i :| 0 <= i < |init| && UrlEffect(svc, options, supported, init[i]).record == Some(rec);
      assert schedule[i] == init[i];
    } else {
      assert rec in AsSeq(last);
    }
  }

  /**
   * When every URL yields a record, the report holds one record per URL, in
   * the order the URLs settled, each that URL's own.
   */
  lemma {:induction false} AllRecorded(svc: Service, options: OptionBag, supported: bool, schedule: seq<string>)
    requires forall i :: 0 <= i < |schedule| ==> UrlEffect(svc, options, supported, schedule[i]).record.Some?
    ensures |Records(svc, options, supported, schedule)| == |schedule|
    ensures forall i :: 0 <= i < |schedule| ==>
      Records(svc, options, supported, schedule)[i] == UrlEffect(svc, options, supported, schedule[i]).record.value
    decreases |schedule|
  {
    if schedule != [] {
      var init := schedule[..|schedule| - 1];
      var e := UrlEffect(svc, options, supported, schedule[|schedule| - 1]);
      assert forall i :: 0 <= i < |init| ==> init[i] == schedule[i];
      AllRecorded(svc, options, supported, init);
      var prefix := Records(svc, options, supported, init);
      assert Records(svc, options, supported, schedule) == prefix + [e.record.value];
      forall i | 0 <= i < |schedule|
        ensures Records(svc, options, supported, schedule)[i] == UrlEffect(svc, options, supported, schedule[i]).record.value
      {
        if i < |init| {
          assert prefix[i] == UrlEffect(svc, options, supported, init[i]).record.value;
        }
      }
    }
  }

  /** A URL's submission settles with a shaped result, and retrieving and
      extracting it succeeds. */
  predicate UrlSucceeds(svc: Service, options: OptionBag, url: string) {
    && svc.submit(url, options).Ok?
    && !Classify(svc.submit(url, options).value).NoResult?
    && Retrieved(svc, FetchId(Classify(svc.submit(url, options).value))).Ok?
  }

  /** When reporting applies, a URL that succeeds fetches its own id once
      and contributes the record built from that payload. */
  lemma SucceedingUrlIsRecorded(svc: Service, options: OptionBag, url: string)
    requires UrlSucceeds(svc, options, url)
    ensures var id := FetchId(Classify(svc.submit(url, options).value));
      && UrlEffect(svc, options, true, url).fetched == [id]
      && UrlEffect(svc, options, true, url).record == Some(Retrieved(svc, id).value)
  {
  }

  /**
   * A supported event over URLs that all succeed: the report holds one record
   * per URL, in settling order, each built from the payload fetched under
   * that URL's own id, and it is rendered once with exactly those records.
   */
  lemma AllSucceedingUrlsReported(cfg: Config, svc: Service, pub: Publisher, schedule: seq<string>)
    requires multiset(schedule) == multiset(cfg.urls)
    requires IsReportSupported(cfg.trigger.eventName)
    requires forall u :: u in cfg.urls ==> UrlSucceeds(svc, OptionsOf(cfg), u)
    ensures var t := RunResult(cfg, svc, pub, schedule);
      && |t.tests| == |schedule| == |cfg.urls|
      && (forall i :: 0 <= i < |schedule| ==>
            UrlSucceeds(svc, OptionsOf(cfg), schedule[i]) &&
            t.tests[i] == Retrieved(svc, FetchId(Classify(svc.submit(schedule[i], OptionsOf(cfg)).value))).value)
      && t.rendered == [t.tests]
  {
    var options := OptionsOf(cfg);
    forall i | 0 <= i < |schedule|
      ensures UrlSucceeds(svc, options, schedule[i])
      ensures UrlEffect(svc, options, true, schedule[i]).record ==
        Some(Retrieved(svc, FetchId(Classify(svc.submit(schedule[i], options).value))).value)
    {
      assert schedule[i] in multiset(cfg.urls);
      SucceedingUrlIsRecorded(svc, options, schedule[i]);
    }
    AllRecorded(svc, options, true, schedule);
    ProcessedTests(Configured(cfg), svc, options, true, schedule);
    assert |schedule| == |multiset(schedule)| == |multiset(cfg.urls)| == |cfg.urls|;
  }

  /** A whole run has no more records and no more fetches than URLs. */
  lemma RunBounded(cfg: Config, svc: Service, pub: Publisher, schedule: seq<string>)
    requires multiset(schedule) == multiset(cfg.urls)
    ensures |RunResult(cfg, svc, pub, schedule).tests| <= |cfg.urls|
    ensures |RunResult(cfg, svc, pub, schedule).fetched| <= |cfg.urls|
  {
    var supported := IsReportSupported(cfg.trigger.eventName);
    var s := Processed(Configured(cfg), svc, OptionsOf(cfg), supported, schedule);
    ProcessedShape(Configured(cfg), svc, OptionsOf(cfg), supported, schedule);
    RecordsBounded(svc, OptionsOf(cfg), supported, schedule);
    assert Configured(cfg).tests == [] && Configured(cfg).fetched == multiset{};
    assert |schedule| == |multiset(schedule)| == |multiset(cfg.urls)| == |cfg.urls|;
  }

  lemma {:induction false} UnsupportedContributesNothing(svc: Service, options: OptionBag, schedule: seq<string>)
    ensures Records(svc, options, false, schedule) == []
    ensures Fetches(svc, options, false, schedule) == multiset{}
    decreases |schedule|
  {
    if schedule != [] {
      UnsupportedContributesNothing(svc, options, schedule[..|schedule| - 1]);
      UnsupportedUrlEffect(svc, options, schedule[|schedule| - 1]);
    }
  }

  /**
   * For an event other than a pull request or an issue comment, nothing is
   * retrieved, `runData.tests` stays empty and no comment is rendered or
   * posted, whatever each URL's outcome.
   */
  lemma UnsupportedEventReportsNothing(cfg: Config, svc: Service, pub: Publisher, schedule: seq<string>)
    requires !IsReportSupported(cfg.trigger.eventName)
    ensures RunResult(cfg, svc, pub, schedule).tests == []
    ensures RunResult(cfg, svc, pub, schedule).fetched == multiset{}
    ensures RunResult(cfg, svc, pub, schedule).rendered == []
    ensures RunResult(cfg, svc, pub, schedule).comments == []
  {
    ProcessedShape(Configured(cfg), svc, OptionsOf(cfg), false, schedule);
    UnsupportedContributesNothing(svc, OptionsOf(cfg), schedule);
  }

  /**
   * For a supported event the template is rendered exactly once, after every
   * URL has settled, with all their records; at most one comment is posted,
   * to the resolved thread number with the rendered body, and only when
   * rendering succeeded and a number was resolved.
   */
  lemma SupportedEventPublishesOnce(cfg: Config, svc: Service, pub: Publisher, schedule: seq<string>)
    requires IsReportSupported(cfg.trigger.eventName)
    ensures var s := Processed(Configured(cfg), svc, OptionsOf(cfg), true, schedule);
      var t := RunResult(cfg, svc, pub, schedule);
      && t.tests == s.tests
      && t.rendered == [s.tests]
      && |t.comments| <= 1
      && (|t.comments| == 1 <==>
            pub.render(s.tests).Ok? && ResolvePrNumber(cfg.trigger.eventName, cfg.trigger.payload).Ok?)
      && (|t.comments| == 1 ==>
            t.comments[0] == Comment(ResolvePrNumber(cfg.trigger.eventName, cfg.trigger.payload).value, pub.render(s.tests).value))
      && (s.failed ==> t.failed)
  {
    ProcessedShape(Configured(cfg), svc, OptionsOf(cfg), true, schedule);
  }

  /**
   * The run's failed status, in terms of the inputs: it is set by rejected
   * settings, by any URL's caught failure or budget verdict, or, when the
   * event supports a report, by a rendering failure, an unresolved thread
   * number or a posting failure; otherwise it stays clear.
   */
  lemma FailedStatus(cfg: Config, svc: Service, pub: Publisher, schedule: seq<string>)
    ensures var supported := IsReportSupported(cfg.trigger.eventName);
      var s := Processed(Configured(cfg), svc, OptionsOf(cfg), supported, schedule);
      RunResult(cfg, svc, pub, schedule).failed <==>
        || SettingsRejected(cfg.settings)
        || SomeUrlFails(svc, OptionsOf(cfg), supported, schedule)
        || (supported && PublishFails(pub, s.tests, cfg.trigger))
  {
    var supported := IsReportSupported(cfg.trigger.eventName);
    ProcessedFailed(Configured(cfg), svc, OptionsOf(cfg), supported, schedule);
  }

  /**
   * A pull-request or issue-comment event whose thread number is falsy or
   * whose thread object is missing raises the error that `renderComment`
   * catches, and the run ends failed.
   */
  lemma UnresolvedThreadFailsRun(cfg: Config, svc: Service, pub: Publisher, schedule: seq<string>)
    requires IsReportSupported(cfg.trigger.eventName)
    requires ResolvePrNumber(cfg.trigger.eventName, cfg.trigger.payload).Err?
    ensures RunResult(cfg, svc, pub, schedule).failed
    ensures RunResult(cfg, svc, pub, schedule).comments == []
  {
    ProcessedShape(Configured(cfg), svc, OptionsOf(cfg), true, schedule);
  }

  /** A pull request whose number is 0 fails the run and gets no comment. */
  lemma ZeroPullRequestNumberFailsRun(cfg: Config, svc: Service, pub: Publisher, schedule: seq<string>)
    requires cfg.trigger.eventName == PullRequestEvent
    requires cfg.trigger.payload.pullRequest == Some(Thread(Some(0)))
    ensures RunResult(cfg, svc, pub, schedule).failed
    ensures RunResult(cfg, svc, pub, schedule).comments == []
  {
    UnresolvedThreadFailsRun(cfg, svc, pub, schedule);
  }

  /**
   * A failure message from a catch block is never a budget message, so the
   * message of a URL tells which of the two failed it.
   */
  lemma BudgetMessageIsNotCaughtFailure(count: Option<int>, f: Failure)
    ensures BudgetVerdict(count) != Some(FailureMessage(f))
  {
    if count.Some? && count.value > 1 {
      PluralDigitFirst(count.value);
      var s := Decimal.NatToString(count.value);
      assert BudgetVerdict(count).value[0] == s[0];
    }
    assert FailureMessage(f)[0] == FailurePrefix[0];
  }
}
