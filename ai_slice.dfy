/**
 * src/features/aiSlice.js: the generateAIResponse thunk (credential check,
 * history filter and guard, history cap, the request handed to the
 * generation SDK, accumulation of the streamed chunks), the safety-setting
 * mapping and the ai reducer.
 */
module AiSlice {
  import opened Wrappers
  import opened Records
  import opened Constants
  import opened Seqs
  import opened Text

  const MISSING_API_KEY: string := "API key is missing. Please log in."
  const INVALID_HISTORY: string := "Invalid chat history: Must end with a user message."
  const UNEXPECTED_ERROR: string := "An unexpected error occurred."
  /** The TypeError a JavaScript engine raises when the stored safety settings are `null`. */
  const NULL_SAFETY_SETTINGS: string := "Cannot read properties of null (reading 'harassment')"

  // ---------------------------------------------------------------------------
  // Stored configuration

  /**
   * getStoredValue: the parsed stored value, or the default when the key is
   * absent or the parser throws. A parser that yields `null` yields `None`.
   * `stored` is `None` for an absent key, else the parser's verdict on the string.
   */
  function GetStoredValue<T>(stored: Option<Parsed<T>>, default: T): (r: Option<T>)
    ensures stored.None? ==> r == Some(default)
    ensures r.None? <==> stored == Some(Null)
    ensures stored.Some? && stored.value.Value? ==> r == Some(stored.value.value)
    ensures stored.Some? && stored.value.Malformed? ==> r == Some(default)
  {
    match stored
    case None => Some(default)
    case Some(Value(v)) => Some(v)
    case Some(Null) => None
    case Some(Malformed(_)) => Some(default)
  }

  /**
   * What the thunk reads from local storage, each already parsed: the API key,
   * the model name, the output-token limit (`Number` of the stored text), the safety settings, the history cap
   * and the saved seed messages.
   */
  datatype Env = Env(
    apiKey: Option<string>,
    storedModel: Option<string>,
    storedMaxTokens: Option<int>,
    storedSafety: Option<Parsed<map<string, string>>>,
    maxHistoryLength: int,
    savedSeeds: Parsed<seq<Seed>>)

  predicate HasApiKey(env: Env) {
    env.apiKey.Some? && env.apiKey.value != ""
  }

  function ModelName(env: Env): string {
    GetStoredValue(if env.storedModel.Some? then Some(Value(env.storedModel.value)) else None, DEFAULT_AI_MODEL).value
  }

  /** The output-token limit: the stored number, or the default when the key is absent. */
  function MaxTokens(env: Env): (r: int)
    ensures env.storedMaxTokens.None? ==> r == DEFAULT_OUTPUT_TOKENS
    ensures env.storedMaxTokens.Some? ==> r == env.storedMaxTokens.value
  {
    GetStoredValue(if env.storedMaxTokens.Some? then Some(Value(env.storedMaxTokens.value)) else None,
                   DEFAULT_OUTPUT_TOKENS).value
  }

  function SafetyObject(env: Env): Option<map<string, string>> {
    GetStoredValue(env.storedSafety, DEFAULT_SAFETY_SETTINGS)
  }

  /** getInitialMessages().length || 0: the number of saved seeds, 0 when they are missing or malformed. */
  function SeedCount(saved: Parsed<seq<Seed>>): (n: nat)
    ensures saved.Value? ==> n == |saved.value|
    ensures !saved.Value? ==> n == 0
  {
    if saved.Value? then |saved.value| else 0
  }

  // ---------------------------------------------------------------------------
  // Safety settings

  datatype HarmCategory = HarmCategoryHarassment | HarmCategoryHateSpeech
                        | HarmCategorySexuallyExplicit | HarmCategoryDangerousContent

  /** The SDK's block thresholds; `NoneThreshold` is the fallback `HarmBlockThreshold.NONE`. */
  datatype Threshold = BlockNone | BlockLowAndAbove | BlockMediumAndAbove | BlockOnlyHigh | NoneThreshold

  datatype SafetySetting = SafetySetting(category: HarmCategory, threshold: Threshold)

  /** `HarmBlockThreshold[name]` for the threshold names the settings page offers. */
  function ThresholdNamed(name: string): Option<Threshold> {
    if name == BLOCK_NONE then Some(BlockNone)
    else if name == BLOCK_LOW_AND_ABOVE then Some(BlockLowAndAbove)
    else if name == BLOCK_MEDIUM_AND_ABOVE then Some(BlockMediumAndAbove)
    else if name == BLOCK_ONLY_HIGH then Some(BlockOnlyHigh)
    else None
  }

  /** `HarmBlockThreshold[settings[key]] || HarmBlockThreshold.NONE`. */
  function ThresholdFor(settings: map<string, string>, key: string): (t: Threshold)
    ensures key !in settings || ThresholdNamed(settings[key]).None? ==> t == NoneThreshold
    ensures key in settings && ThresholdNamed(settings[key]).Some? ==> t == ThresholdNamed(settings[key]).value
  {
    if key in settings && ThresholdNamed(settings[key]).Some? then ThresholdNamed(settings[key]).value
    else NoneThreshold
  }

  /** formatSafetySettings: one entry per category, in a fixed order. */
  function FormatSafetySettings(settings: map<string, string>): (r: seq<SafetySetting>)
    ensures |r| == 4
    ensures r[0].category == HarmCategoryHarassment && r[1].category == HarmCategoryHateSpeech
    ensures r[2].category == HarmCategorySexuallyExplicit && r[3].category == HarmCategoryDangerousContent
    ensures r[0].threshold == ThresholdFor(settings, HARASSMENT) && r[1].threshold == ThresholdFor(settings, HATE_SPEECH)
    ensures r[2].threshold == ThresholdFor(settings, SEXUAL) && r[3].threshold == ThresholdFor(settings, DANGEROUS)
  {
    [ SafetySetting(HarmCategoryHarassment, ThresholdFor(settings, HARASSMENT)),
      SafetySetting(HarmCategoryHateSpeech, ThresholdFor(settings, HATE_SPEECH)),
      SafetySetting(HarmCategorySexuallyExplicit, ThresholdFor(settings, SEXUAL)),
      SafetySetting(HarmCategoryDangerousContent, ThresholdFor(settings, DANGEROUS)) ]
  }

  /** The default settings block nothing in any category. */
  lemma DefaultSafetyBlocksNone()
    ensures forall i :: 0 <= i < 4 ==> FormatSafetySettings(DEFAULT_SAFETY_SETTINGS)[i].threshold == BlockNone
  {
    var r := FormatSafetySettings(DEFAULT_SAFETY_SETTINGS);
    assert ThresholdNamed(BLOCK_NONE) == Some(BlockNone);
  }

  /** An empty settings object falls back to NONE in every category. */
  lemma MissingSafetyFallsBack()
    ensures forall i :: 0 <= i < 4 ==> FormatSafetySettings(map[])[i].threshold == NoneThreshold
  {
  }

  // ---------------------------------------------------------------------------
  // The history guard and cap

  /** `msg?.parts?.[0]?.text && msg.role`. */
  predicate IsValidEntry(e: Entry) { e.text != "" && e.role != "" }

  /** The entries kept by the filter, in their original order. */
  function ValidHistory(history: seq<Entry>): (r: seq<Entry>)
    ensures |r| <= |history|
    ensures forall i :: 0 <= i < |r| ==> IsValidEntry(r[i]) && r[i] in history
    ensures forall e :: e in history && IsValidEntry(e) ==> e in r
  {
    Filter(history, IsValidEntry)
  }

  /** The guard: a non-empty history whose last entry has role "user". */
  predicate HistoryAccepted(h: seq<Entry>) {
    |h| > 0 && h[|h| - 1].role == USER
  }

  /** `Array.prototype.splice(start, deleteCount)` applied to a copy: the sequence left behind. */
  function Splice<T>(s: seq<T>, start: nat, deleteCount: nat): (r: seq<T>)
    requires start <= |s|
    ensures start + deleteCount <= |s| ==> |r| == |s| - deleteCount
    ensures start + deleteCount > |s| ==> |r| == start
    ensures r[..start] == s[..start]
    ensures r[start..] == s[|s| - (|r| - start)..]
  {
    s[..start] + s[if start + deleteCount <= |s| then start + deleteCount else |s|..]
  }

  /** Where the splice starts: after the seeds, or after the first entry when there are none. */
  function SpliceStart(seedCount: int): (start: int)
    ensures start >= 1
  {
    if seedCount > 0 then seedCount else 1
  }

  /** The cap: when a positive limit is exceeded, a middle run starting at SpliceStart is removed. */
  function CapHistory(h: seq<Entry>, maxHistoryLength: int, seedCount: int): (r: seq<Entry>)
    ensures maxHistoryLength <= 0 || |h| <= maxHistoryLength || SpliceStart(seedCount) >= |h| ==> r == h
    ensures |r| <= |h|
    ensures var p := if SpliceStart(seedCount) < |h| then SpliceStart(seedCount) else |h|;
            p <= |r| && r[..p] == h[..p] && r[p..] == h[|h| - (|r| - p)..]
  {
    if maxHistoryLength > 0 && |h| - maxHistoryLength > 0 && SpliceStart(seedCount) < |h|
    then Splice(h, SpliceStart(seedCount), |h| - maxHistoryLength)
    else h
  }

  /** `validHistory.slice(0, -1)`: everything but the last entry. */
  function SdkHistory(h: seq<Entry>): (r: seq<Entry>)
    ensures h != [] ==> r + [h[|h| - 1]] == h
    ensures h == [] ==> r == []
  {
    if h == [] then [] else h[..|h| - 1]
  }

  // ---------------------------------------------------------------------------
  // The request and the response

  /** What the thunk hands to the SDK: the model configuration, the session history and the prompt. */
  datatype SdkRequest = SdkRequest(
    model: string,
    maxOutputTokens: int,
    safetySettings: seq<SafetySetting>,
    history: seq<Entry>,
    prompt: string)

  /** What the SDK's stream yields: all chunk texts, or the message of the error it threw. */
  datatype StreamOutcome = Chunks(chunks: seq<string>) | StreamError(message: string)

  /** The settled thunk: fulfilled with the reply or rejected with a message. */
  datatype GenResult = Fulfilled(response: string) | Rejected(error: string) {
    /** `action.payload`: the reply, or the rejection value. */
    function Payload(): string {
      if Fulfilled? then response else error
    }
  }

  /** Every step before the SDK is called: the request it receives, or the rejection message. */
  function PrepareRequest(env: Env, prompt: string, history: seq<Entry>): (r: Result<SdkRequest, string>)
    ensures !HasApiKey(env) ==> r == Failure(MISSING_API_KEY)
    ensures HasApiKey(env) && SafetyObject(env).None? ==> r == Failure(NULL_SAFETY_SETTINGS)
    ensures HasApiKey(env) && SafetyObject(env).Some? ==> (r.Success? <==> HistoryAccepted(ValidHistory(history)))
    ensures HasApiKey(env) && SafetyObject(env).Some? && !HistoryAccepted(ValidHistory(history)) ==>
              r == Failure(INVALID_HISTORY)
    ensures r.Success? ==>
              && r.value.prompt == prompt && r.value.model == ModelName(env)
              && r.value.maxOutputTokens == MaxTokens(env)
              && r.value.safetySettings == FormatSafetySettings(SafetyObject(env).value)
              && r.value.history == SdkHistory(CapHistory(ValidHistory(history), env.maxHistoryLength,
                                                          SeedCount(env.savedSeeds)))
  {
    if !HasApiKey(env) then Failure(MISSING_API_KEY)
    else
      var safety := SafetyObject(env);
      if safety.None? then Failure(NULL_SAFETY_SETTINGS)
      else
        var valid := ValidHistory(history);
        if !HistoryAccepted(valid) then Failure(INVALID_HISTORY)
        else
          var capped := CapHistory(valid, env.maxHistoryLength, SeedCount(env.savedSeeds));
          Success(SdkRequest(ModelName(env), MaxTokens(env), FormatSafetySettings(safety.value),
                             SdkHistory(capped), prompt))
  }

  /** The request the SDK receives, if the thunk gets that far. */
  function RequestSent(env: Env, prompt: string, history: seq<Entry>): Option<SdkRequest> {
    var p := PrepareRequest(env, prompt, history);
    if p.Success? then Some(p.value) else None
  }

  /** Given a key and a safety object, a history that passes the guard reaches the SDK with the prompt unchanged. */
  lemma AcceptedHistoryIsSent(env: Env, prompt: string, history: seq<Entry>)
    requires HasApiKey(env) && SafetyObject(env).Some? && HistoryAccepted(ValidHistory(history))
    ensures RequestSent(env, prompt, history).Some? && RequestSent(env, prompt, history).value.prompt == prompt
  {
  }

  /** `response += chunk.text()` over the whole stream. */
  function Concat(chunks: seq<string>): string {
    if chunks == [] then "" else chunks[0] + Concat(chunks[1..])
  }

  lemma {:induction false} ConcatSnoc(chunks: seq<string>, c: string)
    ensures Concat(chunks + [c]) == Concat(chunks) + c
  {
    if chunks != [] {
      assert (chunks + [c])[1..] == chunks[1..] + [c];
      ConcatSnoc(chunks[1..], c);
    }
  }

  /** `error.message || "An unexpected error occurred."` */
  function ErrorValue(message: string): (r: string)
    ensures r != ""
    ensures message != "" ==> r == message
    ensures message == "" ==> r == UNEXPECTED_ERROR
  {
    if message != "" then message else UNEXPECTED_ERROR
  }

  /** The settled thunk for a given SDK behaviour. */
  function Generate(env: Env, prompt: string, history: seq<Entry>, sdk: SdkRequest -> StreamOutcome): (r: GenResult)
    ensures r.Rejected? ==> r.error != ""
    ensures r.Fulfilled? ==> Trim(r.response) == r.response
    ensures PrepareRequest(env, prompt, history).Failure? ==> r == Rejected(PrepareRequest(env, prompt, history).error)
    ensures PrepareRequest(env, prompt, history).Success? ==>
              match sdk(PrepareRequest(env, prompt, history).value)
              case Chunks(chunks) => r == Fulfilled(Trim(Concat(chunks)))
              case StreamError(m) => r == Rejected(ErrorValue(m))
  {
    match PrepareRequest(env, prompt, history)
    case Failure(e) => Rejected(e)
    case Success(request) =>
      match sdk(request)
      case StreamError(m) => Rejected(ErrorValue(m))
      case Chunks(chunks) =>
        TrimIdempotent(Concat(chunks));
        Fulfilled(Trim(Concat(chunks)))
  }

  /** The cap as the thunk performs it: an in-place splice of the filtered history. */
  method CapInPlace(validHistory: seq<Entry>, maxHistoryLength: int, initialMessagesLength: int)
    returns (capped: seq<Entry>)
    ensures capped == CapHistory(validHistory, maxHistoryLength, initialMessagesLength)
  {
    capped := validHistory;
    if maxHistoryLength > 0 {
      var maxLength := |capped| - maxHistoryLength;
      if maxLength > 0 {
        var startIndex := if initialMessagesLength > 0 then initialMessagesLength else 1;
        if startIndex < |capped| {
          capped := Splice(capped, startIndex, maxLength);
        }
      }
    }
  }

  /** The stream loop: every chunk's text appended in order. */
  method ReadStream(chunks: seq<string>) returns (response: string)
    ensures response == Concat(chunks)
  {
    response := "";
    for i := 0 to |chunks|
      invariant response == Concat(chunks[..i])
    {
      ConcatSnoc(chunks[..i], chunks[i]);
      assert chunks[..i + 1] == chunks[..i] + [chunks[i]];
      response := response + chunks[i];
    }
    assert chunks[..|chunks|] == chunks;
  }

  /**
   * generateAIResponse: the thunk step by step; `sent` is the request the SDK
   * receives, if the thunk gets that far.
   */
  method GenerateAIResponse(env: Env, prompt: string, history: seq<Entry>, sdk: SdkRequest -> StreamOutcome)
    returns (r: GenResult, sent: Option<SdkRequest>)
    ensures sent == RequestSent(env, prompt, history)
    ensures r == Generate(env, prompt, history, sdk)
  {
    if !HasApiKey(env) {
      return Rejected(MISSING_API_KEY), None;
    }
    var safety := GetStoredValue(env.storedSafety, DEFAULT_SAFETY_SETTINGS);
    if safety.None? {
      return Rejected(NULL_SAFETY_SETTINGS), None;
    }
    var validHistory := Filter(history, IsValidEntry);
    if |validHistory| == 0 || validHistory[|validHistory| - 1].role != USER {
      return Rejected(INVALID_HISTORY), None;
    }
    validHistory := CapInPlace(validHistory, env.maxHistoryLength, SeedCount(env.savedSeeds));
    var historyForSdk := if |validHistory| == 0 then [] else validHistory[..|validHistory| - 1];
    var request := SdkRequest(ModelName(env), MaxTokens(env), FormatSafetySettings(safety.value), historyForSdk, prompt);
    assert PrepareRequest(env, prompt, history) == Success(request);
    sent := Some(request);
    match sdk(request)
    case StreamError(m) =>
      r := Rejected(ErrorValue(m));
    case Chunks(chunks) =>
      var response := ReadStream(chunks);
      r := Fulfilled(Trim(response));
  }

  // ---------------------------------------------------------------------------
  // Properties of the cap

  /** Once the cap applies, the result has max(start, limit) entries. */
  lemma CapLength(h: seq<Entry>, maxHistoryLength: int, seedCount: int)
    requires 0 < maxHistoryLength < |h| && SpliceStart(seedCount) < |h|
    ensures var start := SpliceStart(seedCount);
            |CapHistory(h, maxHistoryLength, seedCount)| == if start <= maxHistoryLength then maxHistoryLength else start
  {
  }

  /**
   * With the splice starting strictly below the limit, the capped history has
   * exactly `maxHistoryLength` entries and still ends with the original last entry.
   */
  lemma CapKeepsLast(h: seq<Entry>, maxHistoryLength: int, seedCount: int)
    requires 0 < maxHistoryLength < |h| && SpliceStart(seedCount) < maxHistoryLength
    ensures var r := CapHistory(h, maxHistoryLength, seedCount);
            |r| == maxHistoryLength && r[|r| - 1] == h[|h| - 1]
  {
    var r := CapHistory(h, maxHistoryLength, seedCount);
    var p := SpliceStart(seedCount);
    assert r[p..] == h[|h| - (|r| - p)..];
    assert r[|r| - 1] == r[p..][|r| - 1 - p];
  }

  /**
   * With the splice starting at or above the limit (but inside the history), the
   * whole tail from the start is removed, the trailing user entry included.
   */
  lemma CapDropsTail(h: seq<Entry>, maxHistoryLength: int, seedCount: int)
    requires 0 < maxHistoryLength < |h| && maxHistoryLength <= SpliceStart(seedCount) < |h|
    ensures CapHistory(h, maxHistoryLength, seedCount) == h[..SpliceStart(seedCount)]
  {
    var r := CapHistory(h, maxHistoryLength, seedCount);
    assert r == r[..SpliceStart(seedCount)];
  }

  /** A guarded history that leaves the cap ending with a model entry. */
  lemma CapCanEndWithModel()
    ensures var h := [Entry(USER, "a"), Entry(MODEL, "b"), Entry(USER, "c")];
            && HistoryAccepted(ValidHistory(h))
            && CapHistory(ValidHistory(h), 1, 2) == [Entry(USER, "a"), Entry(MODEL, "b")]
  {
    var h := [Entry(USER, "a"), Entry(MODEL, "b"), Entry(USER, "c")];
    FilterKeepsAll(h, IsValidEntry);
    CapDropsTail(h, 1, 2);
  }

  /** The guard's promise survives the cap whenever the splice starts below the limit or the cap is idle. */
  lemma CapKeepsGuard(h: seq<Entry>, maxHistoryLength: int, seedCount: int)
    requires HistoryAccepted(h)
    requires maxHistoryLength <= 0 || |h| <= maxHistoryLength || SpliceStart(seedCount) < maxHistoryLength
    ensures var r := CapHistory(h, maxHistoryLength, seedCount);
            HistoryAccepted(r) && r[|r| - 1] == h[|h| - 1]
  {
    if !(maxHistoryLength <= 0 || |h| <= maxHistoryLength || SpliceStart(seedCount) >= |h|) {
      CapKeepsLast(h, maxHistoryLength, seedCount);
    }
  }

  /** Twelve exchanges, no seeds, a limit of ten: the first entry and the nine most recent remain. */
  lemma CapTwelveExchanges(h: seq<Entry>)
    requires |h| == 24
    ensures CapHistory(h, 10, 0) == h[..1] + h[15..]
  {
    var r := CapHistory(h, 10, 0);
    assert r[..1] == h[..1];
    assert r[1..] == h[15..];
    assert r == r[..1] + r[1..];
  }

  /**
   * When the guard passed and the cap kept the last entry, the SDK's history
   * followed by the last entry is exactly the capped history.
   */
  lemma RequestHistoryPlusLast(env: Env, prompt: string, history: seq<Entry>)
    requires RequestSent(env, prompt, history).Some?
    requires var n := |ValidHistory(history)|;
             env.maxHistoryLength <= 0 || n <= env.maxHistoryLength
             || SpliceStart(SeedCount(env.savedSeeds)) < env.maxHistoryLength
    ensures var valid := ValidHistory(history);
            var capped := CapHistory(valid, env.maxHistoryLength, SeedCount(env.savedSeeds));
            && RequestSent(env, prompt, history).value.history + [valid[|valid| - 1]] == capped
            && valid[|valid| - 1].role == USER
  {
    var valid := ValidHistory(history);
    CapKeepsGuard(valid, env.maxHistoryLength, SeedCount(env.savedSeeds));
  }

  // ---------------------------------------------------------------------------
  // The ai reducer

  datatype AiAction = GeneratePending | GenerateFulfilled(payload: string) | GenerateRejected(payload: string) | ClearResponse

  /** The last reply, the in-flight flag and the last error. */
  class AiState {
    var response: string
    var loading: bool
    var error: Option<string>

    constructor ()
      ensures response == "" && !loading && error == None
    {
      response, loading, error := "", false, None;
    }

    method Apply(action: AiAction)
      modifies this
      ensures action.GeneratePending? ==> loading && error == None && response == old(response)
      ensures action.GenerateFulfilled? ==> !loading && response == action.payload && error == old(error)
      ensures action.GenerateRejected? ==> !loading && error == Some(action.payload) && response == old(response)
      ensures action.ClearResponse? ==> response == "" && error == None && loading == old(loading)
    {
      match action
      case GeneratePending =>
        loading := true;
        error := None;
      case GenerateFulfilled(payload) =>
        loading := false;
        response := payload;
      case GenerateRejected(payload) =>
        loading := false;
        error := Some(payload);
      case ClearResponse =>
        response := "";
        error := None;
    }
  }
}
