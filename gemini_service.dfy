/** services/geminiService.ts: where the API key comes from, how it is shown masked, and how
    the outcome of each generative call is turned into the string or flag callers see.
    Every SDK call is an input: its outcome is passed in. */
module GeminiService {
  import opened Wrappers
  import opened Text
  import opened Types
  import Storage

  /** The localStorage key under which a user-entered API key is kept. */
  const StorageKey := "SILVERCARE_USER_API_KEY"

  /** The sentinel `getGeminiResponse` returns when no key is configured. */
  const ErrorNoKey := "ERROR_NO_KEY"
  /** The message of the error `getAI` throws on an empty key. */
  const NoApiKeyMessage := "NO_API_KEY"

  const AskAgainText := "对不起，我没听清楚，请再说一遍。"
  const ReconnectText := "小玲连接不到大脑了，请检查网络或点击首页“配置密钥”。"
  const ExplainDefault := "没看清楚。"
  const ExplainFallback := "网络不太稳定，看图失败。"
  const IdentifyDefault := "看不太清。"
  const IdentifyFallback := "功能暂时不可用。"

  /** `saveUserApiKey`: stores the trimmed key when it is not blank. */
  method SaveUserApiKey(store: Storage.LocalStorage, key: string) returns (ok: bool)
    modifies store
    ensures ok <==> Trim(key) != ""
    ensures ok ==> store.items == old(store.items)[StorageKey := Trim(key)]
    ensures !ok ==> store.items == old(store.items)
  {
    var trimmed := Trim(key);
    if trimmed != "" {
      store.SetItem(StorageKey, trimmed);
      ok := true;
    } else {
      ok := false;
    }
  }

  /** A blank key is refused, and a refused key changes nothing: saving is exactly
      "the input had a non-whitespace character". */
  lemma SaveAcceptsExactlyNonBlank(key: string)
    ensures Trim(key) != "" <==> !IsBlank(key)
  {
    TrimEmptyIffBlank(key);
  }

  /** `getActiveApiKey`: `stored || env || ""`, where `stored` is localStorage's value
      (None for `null`) and `env` is `process.env.API_KEY`. */
  function ActiveApiKey(stored: Option<string>, env: Option<string>): (r: string)
    ensures Truthy(stored) ==> r == stored.value
    ensures !Truthy(stored) && Truthy(env) ==> r == env.value
    ensures r == "" <==> !Truthy(stored) && !Truthy(env)
  {
    if Truthy(stored) then stored.value else if Truthy(env) then env.value else ""
  }

  /** A key saved through `saveUserApiKey` is the one every later call uses. */
  lemma SavedKeyIsActive(key: string, env: Option<string>)
    requires Trim(key) != ""
    ensures ActiveApiKey(Some(Trim(key)), env) == Trim(key)
  {
  }

  datatype KeyStatus = KeyStatus(source: string, display: string, configured: bool)

  /** The masked form of a key: its first six characters, "...", then its last four
      (`substring(0, 6)` and `substring(length - 4)`). */
  function Mask(key: string): string {
    Prefix(key, 6) + "..." + SuffixFrom(key, |key| - 4)
  }

  /** A key of ten or more characters shows exactly its first six and last four. */
  lemma MaskOfLongKey(key: string)
    requires |key| >= 10
    ensures |Mask(key)| == 13
    ensures Mask(key) == key[..6] + "..." + key[|key| - 4..]
  {
  }

  /** A key shorter than four characters shows in full on both sides of "...", because
      `substring` clamps the negative start to 0. */
  lemma MaskOfShortKey(key: string)
    requires |key| < 4
    ensures Mask(key) == key + "..." + key
  {
  }

  /** `getApiKeyStatus`. */
  function GetApiKeyStatus(stored: Option<string>, env: Option<string>): KeyStatus {
    if Truthy(stored) then KeyStatus("已手动配置密钥", Mask(stored.value), true)
    else if Truthy(env) then KeyStatus("系统注入密钥", Mask(env.value), true)
    else KeyStatus("未配置密钥", "无", false)
  }

  /** The status agrees with the key the service will use: it is configured exactly when
      there is an active key, and then it shows that key masked. */
  lemma StatusAgreesWithActiveKey(stored: Option<string>, env: Option<string>)
    ensures GetApiKeyStatus(stored, env).configured <==> ActiveApiKey(stored, env) != ""
    ensures GetApiKeyStatus(stored, env).configured ==>
      GetApiKeyStatus(stored, env).display == Mask(ActiveApiKey(stored, env))
    ensures !GetApiKeyStatus(stored, env).configured ==> GetApiKeyStatus(stored, env).display == "无"
  {
  }

  datatype AiError = NoApiKey

  /** `getAI`: a client for a non-empty key (the client is identified by its key), else the
      `NO_API_KEY` error. */
  function GetAI(key: string): (r: Result<string, AiError>)
    ensures r.Failure? <==> key == ""
    ensures r.Success? ==> r.value == key
  {
    if key == "" then Failure(NoApiKey) else Success(key)
  }

  /** What `generateContent` did: returned a response whose `text` may be undefined, or
      threw an error with the given message. */
  datatype GenerateOutcome = Responded(text: Option<string>) | Threw(message: string)

  /** `response.text || fallbackText`. */
  function TextOr(text: Option<string>, fallbackText: string): string {
    if Truthy(text) then text.value else fallbackText
  }

  /** `getGeminiResponse`: the generated text, the ask-again default for an empty text,
      "ERROR_NO_KEY" for an error whose message is NO_API_KEY (thrown by `getAI` when the
      key is empty), and the reconnect message for any other error. */
  function GetGeminiResponse(key: string, outcome: GenerateOutcome): string {
    match GetAI(key)
    case Failure(_) => ErrorNoKey
    case Success(_) =>
      match outcome
      case Responded(text) => TextOr(text, AskAgainText)
      case Threw(message) => if message == NoApiKeyMessage then ErrorNoKey else ReconnectText
  }

  /** The reply is never empty, and it is the sentinel exactly when there was no key, the
      call threw NO_API_KEY, or the model itself answered with the sentinel's text. */
  lemma GeminiResponseMapping(key: string, outcome: GenerateOutcome)
    ensures GetGeminiResponse(key, outcome) != ""
    ensures GetGeminiResponse(key, outcome) == ErrorNoKey <==>
      key == "" || outcome == Threw(NoApiKeyMessage) || outcome == Responded(Some(ErrorNoKey))
    ensures key != "" && outcome.Threw? && outcome.message != NoApiKeyMessage ==>
      GetGeminiResponse(key, outcome) == ReconnectText
    ensures key != "" && outcome.Responded? && !Truthy(outcome.text) ==>
      GetGeminiResponse(key, outcome) == AskAgainText
    ensures key != "" && outcome.Responded? && Truthy(outcome.text) ==>
      GetGeminiResponse(key, outcome) == outcome.text.value
  {
  }

  /** Shared shape of `explainEverything` and `identifyPerson`: any error, including the
      missing key, becomes the fixed fallback. */
  function DescribeImage(key: string, outcome: GenerateOutcome, emptyText: string, failureText: string): string {
    match GetAI(key)
    case Failure(_) => failureText
    case Success(_) =>
      match outcome
      case Responded(text) => TextOr(text, emptyText)
      case Threw(_) => failureText
  }

  function ExplainEverything(key: string, outcome: GenerateOutcome): string {
    DescribeImage(key, outcome, ExplainDefault, ExplainFallback)
  }

  function IdentifyPerson(key: string, outcome: GenerateOutcome): string {
    DescribeImage(key, outcome, IdentifyDefault, IdentifyFallback)
  }

  /** Both image calls answer with the model's text when there is one, with their default
      when it is empty, and with their fallback whenever the key is missing or the call
      threw; they never return "". */
  lemma ImageCallsMapping(key: string, outcome: GenerateOutcome)
    ensures key == "" || outcome.Threw? ==>
      ExplainEverything(key, outcome) == ExplainFallback && IdentifyPerson(key, outcome) == IdentifyFallback
    ensures key != "" && outcome.Responded? && !Truthy(outcome.text) ==>
      ExplainEverything(key, outcome) == ExplainDefault && IdentifyPerson(key, outcome) == IdentifyDefault
    ensures key != "" && outcome.Responded? && Truthy(outcome.text) ==>
      ExplainEverything(key, outcome) == outcome.text.value && IdentifyPerson(key, outcome) == outcome.text.value
    ensures ExplainEverything(key, outcome) != "" && IdentifyPerson(key, outcome) != ""
  {
  }

  /** What the text-to-speech `generateContent` did: a response carrying inline audio data
      (maybe absent), or an exception. */
  datatype TtsOutcome = TtsResponse(audio: Option<string>) | TtsThrew

  /** `playTTS`. `playbackOk` is whether decoding the audio and starting the source went
      through without an exception. */
  function PlayTTS(key: string, outcome: TtsOutcome, playbackOk: bool): bool {
    if key == "" then false
    else
      match outcome
      case TtsThrew => false
      case TtsResponse(audio) => if Truthy(audio) then playbackOk else false
  }

  /** `playTTS` reports true exactly when there was a key, audio came back and playback
      started. */
  lemma PlayTTSReportsPlayback(key: string, outcome: TtsOutcome, playbackOk: bool)
    ensures PlayTTS(key, outcome, playbackOk) <==>
      key != "" && outcome.TtsResponse? && Truthy(outcome.audio) && playbackOk
  {
  }
}
