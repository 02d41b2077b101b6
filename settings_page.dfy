/**
 * src/pages/SettingsPage.jsx: the model-name initialisers and the effective
 * model the page stores, the safety-setting updater and the page's own
 * stored-value reader.
 */
module SettingsPage {
  import opened Wrappers
  import opened Constants
  import opened Text
  import AiSlice

  /** The custom-model field starts with a stored name that is not one of the offered models. */
  function InitialCustomModel(stored: Option<string>): (r: string)
    ensures r != "" <==> stored.Some? && stored.value != "" && stored.value !in MODELS
    ensures r != "" ==> r == stored.value
  {
    if stored.Some? && stored.value != "" && stored.value !in MODELS then stored.value else ""
  }

  /** The model selector starts with the stored name when it is offered, else the first offered model. */
  function InitialSelectedModel(stored: Option<string>): (r: string)
    ensures r in MODELS
    ensures stored.Some? && stored.value in MODELS ==> r == stored.value
    ensures !(stored.Some? && stored.value in MODELS) ==> r == MODELS[0]
  {
    if stored.Some? && stored.value != "" && stored.value in MODELS then stored.value else MODELS[0]
  }

  /** `customModel.trim() || selectedModel`: the model shown and stored. */
  function EffectiveModel(customModel: string, selectedModel: string): (r: string)
    ensures Trim(customModel) != "" ==> r == Trim(customModel)
    ensures Trim(customModel) == "" ==> r == selectedModel
  {
    if Trim(customModel) != "" then Trim(customModel) else selectedModel
  }

  /** handleSafetyChange: only the given category changes. */
  function HandleSafetyChange(settings: map<string, string>, category: string, value: string): (r: map<string, string>)
    ensures r.Keys == settings.Keys + {category}
    ensures r[category] == value
    ensures forall k :: k in settings && k != category ==> r[k] == settings[k]
  {
    settings[category := value]
  }

  /**
   * The page's getStoredValue: `JSON.parse(stored) ?? default`, with the default
   * also for an absent key and for a parse error.
   */
  function StoredValue<T>(stored: Option<Parsed<T>>, default: T): (r: T)
    ensures stored.Some? && stored.value.Value? ==> r == stored.value.value
    ensures !(stored.Some? && stored.value.Value?) ==> r == default
  {
    if stored.Some? && stored.value.Value? then stored.value.value else default
  }

  // ---------------------------------------------------------------------------
  // Properties

  /**
   * Reloading the page after it stored its effective model reproduces the same
   * effective model, whether it was a custom name or an offered one.
   */
  lemma ReloadKeepsModel(customModel: string, selectedModel: string)
    requires selectedModel in MODELS
    ensures var saved := EffectiveModel(customModel, selectedModel);
            EffectiveModel(InitialCustomModel(Some(saved)), InitialSelectedModel(Some(saved))) == saved
  {
    var saved := EffectiveModel(customModel, selectedModel);
    assert Trim("") == "";
    if Trim(customModel) == "" {
      assert InitialCustomModel(Some(saved)) == "";
      assert InitialSelectedModel(Some(saved)) == saved;
    } else if saved in MODELS {
      assert InitialCustomModel(Some(saved)) == "";
      assert InitialSelectedModel(Some(saved)) == saved;
    } else {
      TrimIdempotent(customModel);
      assert InitialCustomModel(Some(saved)) == saved;
    }
  }

  /** The model the page shows is the one the generation request names. */
  lemma ShownModelIsRequested(customModel: string, selectedModel: string, env: AiSlice.Env)
    requires env.storedModel == Some(EffectiveModel(customModel, selectedModel))
    ensures AiSlice.ModelName(env) == EffectiveModel(customModel, selectedModel)
  {
  }

  /** The keys of the four categories, in the order the request lists them. */
  const CATEGORY_KEYS: seq<string> := [HARASSMENT, HATE_SPEECH, SEXUAL, DANGEROUS]

  /**
   * A change made on the page reaches the request in that category only: the
   * other three entries of the formatted settings are unchanged.
   */
  lemma SafetyChangeIsLocal(settings: map<string, string>, k: nat, value: string)
    requires k < 4
    ensures var before := AiSlice.FormatSafetySettings(settings);
            var after := AiSlice.FormatSafetySettings(HandleSafetyChange(settings, CATEGORY_KEYS[k], value));
            && (forall j :: 0 <= j < 4 && j != k ==> after[j] == before[j])
            && after[k].threshold == (if AiSlice.ThresholdNamed(value).Some? then AiSlice.ThresholdNamed(value).value
                                      else AiSlice.NoneThreshold)
  {
  }

  /**
   * The two stored-value readers agree except on a stored `null`, which the
   * page replaces by the default and the generation thunk keeps.
   */
  lemma ReadersDifferOnlyOnNull<T>(stored: Option<Parsed<T>>, default: T)
    ensures stored != Some(Null) ==> AiSlice.GetStoredValue(stored, default) == Some(StoredValue(stored, default))
    ensures stored == Some(Null) ==>
              AiSlice.GetStoredValue(stored, default) == None && StoredValue(stored, default) == default
  {
  }
}
