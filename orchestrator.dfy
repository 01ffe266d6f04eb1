/**
 * The action carried out on mutable state: `runData.tests`, the failed
 * status kept by `core.setFailed`, and the calls made to the collaborators.
 * Each method is proved to reach the state the `Run` module defines.
 */
module Orchestrator {
  import opened Wrappers
  import opened Js
  import opened Metrics
  import opened Budget
  import opened Events
  import opened TestOptions
  import opened Submission
  import opened Run

  class Action {
    var tests: seq<TestRecord>
    var failed: bool
    var errors: seq<string>
    var submitted: seq<string>
    var fetched: multiset<JsValue>
    var rendered: seq<seq<TestRecord>>
    var comments: seq<Comment>

    function State(): RunState
      reads this
    {
      RunState(tests, failed, errors, submitted, fetched, rendered, comments)
    }

    constructor ()
      ensures State() == Initial
    {
      tests, failed, errors := [], false, [];
      submitted, fetched, rendered, comments := [], multiset{}, [], [];
    }

    /** `core.setFailed`: the run ends failed and the message is reported. */
    method SetFailed(message: string)
      modifies this
      ensures State() == Failed(old(State()), message)
    {
      failed := true;
      errors := errors + [message];
    }

    /**
     * The options merge of `run`: defaults, then the settings object, then
     * `specs` and `label`; settings that are not an object fail the run and
     * leave the defaults in place.
     */
    method BuildOptions(settings: Option<Settings>, budget: Option<JsValue>, labelInput: string) returns (options: OptionBag)
      modifies this
      ensures options == MergedOptions(settings, budget, labelInput)
      ensures State() == if SettingsRejected(settings) then Failed(old(State()), InvalidSettingsMessage) else old(State())
    {
      options := Defaults;
      if settings.Some? {
        match settings.value
        case SettingsObject(fields) =>
          options := options + fields;
        case NotAnObject =>
          SetFailed(InvalidSettingsMessage);
      }
      if budget.Some? {
        options := options[SpecsKey := budget.value];
      }
      if labelInput != "" {
        options := options[LabelKey := Str(labelInput)];
      }
    }

    /**
     * `collectData`: builds the record from the payload and pushes it onto
     * `runData.tests`; when the payload lacks the waterfall path the
     * `TypeError` is returned and nothing is pushed.
     */
    method CollectData(results: Payload) returns (thrown: Option<Failure>)
      modifies this
      ensures TestRecordOf(results).Ok? ==>
        thrown.None? && State() == old(State()).(tests := old(tests) + [TestRecordOf(results).value])
      ensures TestRecordOf(results).Err? ==>
        thrown == Some(TestRecordOf(results).error) && State() == old(State())
    {
      var r := BuildTestRecord(results);
      if r.Err? {
        return Some(r.error);
      }
      tests := tests + [r.value];
      thrown := None;
    }

    /** `retrieveResults` followed by `collectData`, with what either threw. */
    method RetrieveAndCollect(svc: Service, id: JsValue) returns (thrown: Option<Failure>)
      modifies this
      ensures Retrieved(svc, id).Ok? ==>
        thrown.None? && State() == old(State()).(fetched := old(fetched) + multiset{id}, tests := old(tests) + [Retrieved(svc, id).value])
      ensures Retrieved(svc, id).Err? ==>
        thrown == Some(Retrieved(svc, id).error) && State() == old(State()).(fetched := old(fetched) + multiset{id})
    {
      fetched := fetched + multiset{id};
      var data := svc.fetch(id);
      if data.Err? {
        return Some(data.error);
      }
      thrown := CollectData(data.value);
    }

    /** The synchronous part of `WPT_URLS.map`: every URL's `runTest` call
        is made, in list order, before any of them settles. */
    method SubmitAll(urls: seq<string>)
      modifies this
      ensures State() == old(State()).(submitted := old(submitted) + urls)
    {
      submitted := submitted + urls;
    }

    /** One URL's pipeline from the moment its submission settles, with both
        catch boundaries. */
    method ProcessUrl(svc: Service, options: OptionBag, supported: bool, url: string)
      modifies this
      ensures State() == UrlStep(old(State()), svc, options, supported, url)
    {
      var submission := svc.submit(url, options);
      if submission.Err? {
        SetFailed(FailureMessage(submission.error));
        return;
      }
      ProcessOutcome(svc, supported, url, Classify(submission.value));
    }

    /** The dispatch on a settled submission's shape: retrieve and collect
        when reporting applies, then in budget mode give the budget verdict
        unless retrieval or extraction threw. */
    method ProcessOutcome(svc: Service, supported: bool, url: string, outcome: SubmissionOutcome)
      modifies this
      ensures State() == Applied(old(State()), url, OutcomeEffect(svc, supported, outcome))
    {
      match outcome
      case NoResult =>
      case PlainMode(id, _) =>
        if supported {
          var thrown := RetrieveAndCollect(svc, id);
          if thrown.Some? {
            SetFailed(FailureMessage(thrown.value));
          }
        }
      case BudgetMode(id, count) =>
        var thrown: Option<Failure> := None;
        if supported {
          thrown := RetrieveAndCollect(svc, id);
        }
        if thrown.Some? {
          SetFailed(FailureMessage(thrown.value));
        } else {
          var verdict := BudgetVerdict(count);
          if verdict.Some? {
            SetFailed(verdict.value);
          }
        }
    }

    /** All URLs, settling in the order `schedule`. */
    method ProcessAll(svc: Service, options: OptionBag, supported: bool, schedule: seq<string>)
      modifies this
      ensures State() == Processed(old(State()), svc, options, supported, schedule)
    {
      var i := 0;
      while i < |schedule|
        invariant 0 <= i <= |schedule|
        invariant State() == Processed(old(State()), svc, options, supported, schedule[..i])
      {
        ProcessUrl(svc, options, supported, schedule[i]);
        ProcessedSnoc(old(State()), svc, options, supported, schedule[..i], schedule[i]);
        assert schedule[..i + 1] == schedule[..i] + [schedule[i]];
        i := i + 1;
      }
      assert schedule[..|schedule|] == schedule;
    }

    /** `renderComment`: every failure is caught and fails the run. */
    method RenderComment(pub: Publisher, trigger: Trigger)
      modifies this
      ensures State() == Published(old(State()), pub, trigger)
    {
      rendered := rendered + [tests];
      var markdown := pub.render(tests);
      if markdown.Err? {
        SetFailed(FailureMessage(markdown.error));
        return;
      }
      var prNumber := ResolvePrNumber(trigger.eventName, trigger.payload);
      if prNumber.Err? {
        SetFailed(FailureMessage(Failure(ErrorObjectDescription)));
        return;
      }
      comments := comments + [Comment(prNumber.value, markdown.value)];
      var posted := pub.post(prNumber.value, markdown.value);
      if posted.Some? {
        SetFailed(FailureMessage(posted.value));
      }
    }
  }

  /**
   * `run`: merge the options, submit every URL, process each URL as it
   * settles (in the order `schedule`, a permutation of the URL list), then
   * render the comment when the event supports a report.
   */
  method RunAction(cfg: Config, svc: Service, pub: Publisher, schedule: seq<string>) returns (action: Action)
    requires multiset(schedule) == multiset(cfg.urls)
    ensures fresh(action)
    ensures action.State() == RunResult(cfg, svc, pub, schedule)
  {
    action := new Action();
    var options := action.BuildOptions(cfg.settings, cfg.budget, cfg.labelInput);
    action.SubmitAll(cfg.urls);
    assert action.submitted == cfg.urls;
    var supported := IsReportSupported(cfg.trigger.eventName);
    action.ProcessAll(svc, options, supported, schedule);
    if supported {
      action.RenderComment(pub, cfg.trigger);
    }
  }
}
