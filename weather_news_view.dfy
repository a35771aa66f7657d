/** components/WeatherNewsView.tsx: load the weather or news text, from the cache when
    there is one, stopping early when the quota is used up, otherwise after locating the
    device; and the progress line. The cache, the quota check, geolocation and the fetch
    are inputs; the effect's `isMounted` flag is a field. */
module WeatherNewsView {
  import opened Wrappers
  import opened Types

  datatype Step = Locating | Fetching | Done

  /** What `fetchWeatherOrNews` did: returned a text and an optional status message, or
      threw. */
  datatype FetchOutcome = Fetched(text: string, statusMsg: Option<string>) | FetchThrew

  function QuotaMessage(lang: Language): string {
    if lang == En then "Xiao Ling is taking a break. Try later." else "小玲正在休息，请等会儿再问我。"
  }

  function ConnectionError(lang: Language): string {
    if lang == En then "Connection error." else "网络有点不给力。"
  }

  /** `getStepText`. */
  function GetStepText(step: Step, statusMsg: string, lang: Language): (r: string)
    ensures step == Locating ==> r == (if lang == En then "Locating you..." else "正在看您在哪里...")
    ensures step == Fetching && statusMsg != "" ==> r == statusMsg
    ensures step == Fetching && statusMsg == "" ==> r == (if lang == En then "Searching in English..." else "正在查询最新信息...")
    ensures step == Done ==> r == ""
  {
    match step
    case Locating => if lang == En then "Locating you..." else "正在看您在哪里..."
    case Fetching => if statusMsg != "" then statusMsg else if lang == En then "Searching in English..." else "正在查询最新信息..."
    case Done => ""
  }

  /** The progress line is empty exactly when loading is done. */
  lemma StepTextEmptyIffDone(step: Step, statusMsg: string, lang: Language)
    ensures GetStepText(step, statusMsg, lang) == "" <==> step == Done
  {
  }

  /** `loadData`'s first decision. */
  datatype Decision = UseCache(text: string) | QuotaStop | Locate

  function Decide(cached: Option<string>, quotaExhausted: bool): (d: Decision)
    ensures cached.Some? ==> d == UseCache(cached.value)
    ensures cached.None? && quotaExhausted ==> d == QuotaStop
    ensures cached.None? && !quotaExhausted ==> d == Locate
  {
    if cached.Some? then UseCache(cached.value) else if quotaExhausted then QuotaStop else Locate
  }

  /** The cache is consulted first: with a cached answer the quota does not matter, and a
      fetch is started only when there is neither a cached answer nor an exhausted quota. */
  lemma CacheBeforeQuota(cached: Option<string>, quotaExhausted: bool)
    ensures Decide(cached, true).UseCache? <==> Decide(cached, false).UseCache?
    ensures cached.Some? ==> Decide(cached, true) == Decide(cached, false)
    ensures Decide(cached, quotaExhausted) == Locate <==> cached.None? && !quotaExhausted
  {
  }

  /** The coordinates the fetch is given: the position, or 0, 0 when locating failed. */
  function FetchCoordinates(position: Option<Location>): (r: Location)
    ensures position.Some? ==> r == position.value
    ensures position.None? ==> r == Location(0.0, 0.0)
  {
    position.GetOr(Location(0.0, 0.0))
  }

  class WeatherView {
    const lang: Language
    var loadingStep: Step
    var content: string
    var error: string
    var isFromCache: bool
    var statusMsg: string
    /** The effect's `isMounted`. */
    var mounted: bool
    var awaitingPosition: bool
    var awaitingFetch: bool
    /** The coordinates of the last fetch request. */
    var request: Option<Location>
    /** The texts handed to `playTTS`, in order. */
    var spoken: seq<string>

    /** The display state, as one value. */
    function Shown(): (Step, string, string, bool, string, seq<string>)
      reads this
    {
      (loadingStep, content, error, isFromCache, statusMsg, spoken)
    }

    constructor (lang: Language)
      ensures this.lang == lang && loadingStep == Locating && content == "" && error == ""
      ensures !isFromCache && statusMsg == "" && !mounted && !awaitingPosition && !awaitingFetch
      ensures request == None && spoken == []
    {
      this.lang := lang;
      loadingStep, content, error, isFromCache, statusMsg := Locating, "", "", false, "";
      mounted, awaitingPosition, awaitingFetch := false, false, false;
      request := None;
      spoken := [];
    }

    /** The effect's start and `loadData` up to the position request. */
    method Begin(cached: Option<string>, quotaExhausted: bool)
      requires !awaitingPosition && !awaitingFetch
      modifies this
      ensures mounted && request == old(request) && statusMsg == old(statusMsg)
      ensures match Decide(cached, quotaExhausted)
        case UseCache(text) =>
          content == text && loadingStep == Done && isFromCache && spoken == old(spoken) + [text]
          && error == old(error) && !awaitingPosition
        case QuotaStop =>
          error == QuotaMessage(lang) && loadingStep == Done && content == old(content)
          && isFromCache == old(isFromCache) && spoken == old(spoken) && !awaitingPosition
        case Locate =>
          loadingStep == Locating && error == "" && awaitingPosition && content == old(content)
          && isFromCache == old(isFromCache) && spoken == old(spoken)
      ensures !awaitingFetch
    {
      mounted := true;
      if cached.Some? {
        content := cached.value;
        loadingStep := Done;
        isFromCache := true;
        spoken := spoken + [cached.value];
        return;
      }
      if quotaExhausted {
        error := QuotaMessage(lang);
        loadingStep := Done;
        return;
      }
      loadingStep := Locating;
      error := "";
      awaitingPosition := true;
    }

    /** The position request settled (None when it failed or there is no geolocation). */
    method PositionResolved(position: Option<Location>)
      requires awaitingPosition && !awaitingFetch
      modifies this
      ensures !awaitingPosition
      ensures !old(mounted) ==> Shown() == old(Shown()) && !awaitingFetch && request == old(request)
      ensures old(mounted) ==>
        loadingStep == Fetching && awaitingFetch && request == Some(FetchCoordinates(position))
        && content == old(content) && error == old(error) && statusMsg == old(statusMsg) && spoken == old(spoken)
      ensures mounted == old(mounted)
    {
      awaitingPosition := false;
      if !mounted {
        return;
      }
      loadingStep := Fetching;
      request := Some(FetchCoordinates(position));
      awaitingFetch := true;
    }

    /** The fetch settled. */
    method FetchResolved(outcome: FetchOutcome)
      requires awaitingFetch
      modifies this
      ensures !awaitingFetch && mounted == old(mounted) && request == old(request)
      ensures !old(mounted) ==> Shown() == old(Shown())
      ensures old(mounted) && outcome.Fetched? ==>
        content == outcome.text && statusMsg == outcome.statusMsg.GetOr("") && loadingStep == Done && !isFromCache
        && error == old(error)
        && spoken == (if outcome.text != "" then old(spoken) + [outcome.text] else old(spoken))
      ensures old(mounted) && outcome.FetchThrew? ==>
        error == ConnectionError(lang) && loadingStep == Done && content == old(content)
        && statusMsg == old(statusMsg) && isFromCache == old(isFromCache) && spoken == old(spoken)
    {
      awaitingFetch := false;
      if !mounted {
        return;
      }
      match outcome
      case Fetched(text, msg) =>
        content := text;
        statusMsg := msg.GetOr("");
        loadingStep := Done;
        isFromCache := false;
        if text != "" {
          spoken := spoken + [text];
        }
      case FetchThrew =>
        error := ConnectionError(lang);
        loadingStep := Done;
    }

    /** The effect's cleanup. */
    method Unmount()
      modifies this
      ensures !mounted && Shown() == old(Shown())
      ensures awaitingPosition == old(awaitingPosition) && awaitingFetch == old(awaitingFetch)
      ensures request == old(request)
    {
      mounted := false;
    }

    function StepText(): (r: string)
      reads this
      ensures r == "" <==> loadingStep == Done
    {
      StepTextEmptyIffDone(loadingStep, statusMsg, lang);
      GetStepText(loadingStep, statusMsg, lang)
    }
  }

  /** Locating fails, the screen is left, and the fetch then answers: the request still
      went out for 0, 0, and nothing the screen shows changed after leaving. */
  method LeaveDuringFetch(lang: Language, outcome: FetchOutcome) returns (v: WeatherView)
    ensures v.request == Some(Location(0.0, 0.0))
    ensures v.loadingStep == Fetching && v.content == "" && v.spoken == []
  {
    v := new WeatherView(lang);
    v.Begin(None, false);
    v.PositionResolved(None);
    v.Unmount();
    v.FetchResolved(outcome);
  }
}
