/**
 * The options every test is submitted with: the defaults, overridden by the
 * user's settings object, then the budget specification and the label.
 */
module TestOptions {
  import opened Wrappers
  import opened Js

  type OptionBag = map<string, JsValue>

  const Defaults: OptionBag := map[
    "firstViewOnly" := Bool(true),
    "runs" := Num(3.0),
    "location" := Str("Dulles:Chrome"),
    "connectivity" := Str("4G"),
    "pollResults" := Num(5.0),
    "timeout" := Num(240.0),
    "emulateMobile" := Bool(true)
  ]

  const SpecsKey: string := "specs"
  const LabelKey: string := "label"

  const InvalidSettingsMessage: string := "The specified WebPageTest settings aren't a valid JavaScript object"

  /** What the settings file evaluates to: an object (`typeof` "object" and not
      null) with its own enumerable properties, or anything else. */
  datatype Settings = SettingsObject(fields: map<string, JsValue>) | NotAnObject

  /** The settings were given and are not an object: the run is failed. */
  predicate SettingsRejected(settings: Option<Settings>) {
    settings.Some? && settings.value.NotAnObject?
  }

  predicate Supplies(settings: Option<Settings>, k: string) {
    settings.Some? && settings.value.SettingsObject? && k in settings.value.fields
  }

  /**
   * The merged options. `settings` is `None` when no settings file is named,
   * `budget` is `None` when no budget file is named, and an empty `labelInput` is
   * no label.
   */
  function MergedOptions(settings: Option<Settings>, budget: Option<JsValue>, labelInput: string): (r: OptionBag)
    ensures forall k :: k in Defaults && !Supplies(settings, k) ==> k in r && r[k] == Defaults[k]
    ensures forall k :: Supplies(settings, k) && !(k == SpecsKey && budget.Some?) && !(k == LabelKey && labelInput != "") ==>
      k in r && r[k] == settings.value.fields[k]
    ensures budget.Some? ==> SpecsKey in r && r[SpecsKey] == budget.value
    ensures labelInput != "" ==> LabelKey in r && r[LabelKey] == Str(labelInput)
    ensures forall k :: k in r ==>
      k in Defaults || Supplies(settings, k) || (k == SpecsKey && budget.Some?) || (k == LabelKey && labelInput != "")
  {
    var base := if settings.Some? && settings.value.SettingsObject? then Defaults + settings.value.fields else Defaults;
    var withSpecs := if budget.Some? then base[SpecsKey := budget.value] else base;
    if labelInput != "" then withSpecs[LabelKey := Str(labelInput)] else withSpecs
  }

  /** With no settings, budget or label the options are the seven defaults;
      `specs` and `label` are not among them. */
  lemma DefaultsWithoutOverrides()
    ensures MergedOptions(None, None, "") == Defaults
    ensures Defaults.Keys == {"firstViewOnly", "runs", "location", "connectivity", "pollResults", "timeout", "emulateMobile"}
    ensures SpecsKey !in Defaults && LabelKey !in Defaults
  {
  }

  /** Settings that are not an object leave exactly the defaults with the
      budget specification and label set on top. */
  lemma RejectedSettingsKeepDefaults(settings: Option<Settings>, budget: Option<JsValue>, labelInput: string)
    requires SettingsRejected(settings)
    ensures MergedOptions(settings, budget, labelInput) == MergedOptions(None, budget, labelInput)
  {
  }
}
