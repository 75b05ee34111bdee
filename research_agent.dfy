/**
 * The research provider's `execute_task` (agents/crewai_agent.py): it settles
 * the enrichment selection, builds the enhanced task text step by step from
 * the enrichment sources that apply, hands it to the crew, and on a
 * content-moderation failure retries once with the bare description.
 *
 * The enrichment services and the crew run are outside the model: `Fetch`
 * gives a source's result text for an argument, `Kickoff` the outcome of
 * running a crew task.
 */
module ResearchAgent {
  import opened Common
  import opened Text
  import opened Selection

  // Message texts.
  const TaskLabel: string := "Task: "
  const Gap: string := "\n\n"
  const WebLabel: string := "Relevant web search results: "
  const NewsLabel: string := "Latest tech news: "
  const WeatherLabel: string := "Weather in "
  const GeoLabel: string := "Geolocation info: "
  const StockLabel: string := "Stock data for "
  const WikiLabel: string := "Wikipedia info: "
  const FallbackFailedNote: string := "Error executing task (fallback also failed): "
  const FallbackErrorLabel: string := " | Fallback error: "
  const ExecutionErrorNote: string := "Error executing task: "

  /** The enrichment sources, in the order `execute_task` consults them. */
  datatype Source = WebSearch | News | Weather | Geolocation | StockData | Wikipedia

  const Sources: seq<Source> := [WebSearch, News, Weather, Geolocation, StockData, Wikipedia]

  /** An enrichment service: the source and its argument give the result text. */
  type Fetch = (Source, string) -> string

  /** The task the crew is asked to run: the enhanced description, or, on the
      moderation retry, the original description on its own. */
  datatype CrewTask = Enhanced(description: string) | Plain(description: string)

  /** The crew's run: its output text, or the raised exception's text. */
  type Kickoff = CrewTask -> Attempt<string>

  /** The dictionary `execute_task` returns. */
  datatype CrewResult =
    | CrewDone(content: string, agent: string, task: string, apisUsed: seq<Key>, fallbackUsed: bool)
    | CrewFailed(error: string, agent: string, task: string, apisUsed: seq<Key>)

  /** `api_selection.get(k)` */
  function Get(sel: Selection, k: Key): Value
  {
    if k in sel then sel[k] else Null
  }

  /** Whether `execute_task` consults `src`: its flag is truthy and, for
      weather, stock and encyclopedia, so is the parameter it needs. */
  predicate Applies(sel: Selection, src: Source)
  {
    match src
    case WebSearch => Truthy(Get(sel, UseWebSearch))
    case News => Truthy(Get(sel, UseNews))
    case Weather => Truthy(Get(sel, UseWeather)) && Truthy(Get(sel, City))
    case Geolocation => Truthy(Get(sel, UseGeolocation))
    case StockData => Truthy(Get(sel, UseStockData)) && Truthy(Get(sel, StockSymbol))
    case Wikipedia => Truthy(Get(sel, UseWikipedia)) && Truthy(Get(sel, WikipediaQuery))
  }

  /** The argument a source is called with. */
  function Argument(task: string, sel: Selection, src: Source): string
  {
    match src
    case WebSearch => task
    case News => ""
    case Weather => Render(Get(sel, City))
    case Geolocation => if Truthy(Get(sel, IpAddress)) then Render(Get(sel, IpAddress)) else ""
    case StockData => Render(Get(sel, StockSymbol))
    case Wikipedia => Render(Get(sel, WikipediaQuery))
  }

  /** The paragraph that presents a source's result. */
  function Paragraph(sel: Selection, src: Source, data: string): string
  {
    match src
    case WebSearch => WebLabel + data
    case News => NewsLabel + data
    case Weather => WeatherLabel + Render(Get(sel, City)) + ": " + data
    case Geolocation => GeoLabel + data
    case StockData => StockLabel + Render(Get(sel, StockSymbol)) + ": " + data
    case Wikipedia => WikiLabel + data
  }

  /** The task text enriched with one source. */
  function EnrichedWith(task: string, sel: Selection, fetch: Fetch, src: Source): string
  {
    TaskLabel + task + Gap + Paragraph(sel, src, fetch(src, Argument(task, sel, src)))
  }

  /** The last source among the first `n` of `Sources` that applies. */
  function LastApplicable(sel: Selection, n: nat): (r: Option<Source>)
    requires n <= |Sources|
    ensures r.Some? ==> exists i :: 0 <= i < n && Sources[i] == r.value && Applies(sel, Sources[i])
                                    && forall j :: i < j < n ==> !Applies(sel, Sources[j])
    ensures r.None? ==> forall j :: 0 <= j < n ==> !Applies(sel, Sources[j])
  {
    if n == 0 then None
    else if Applies(sel, Sources[n - 1]) then Some(Sources[n - 1])
    else LastApplicable(sel, n - 1)
  }

  /** The enhanced task after the first `n` sources were considered: only the
      last applicable one survives, each overwriting the one before. */
  function EnhancedUpTo(task: string, sel: Selection, fetch: Fetch, n: nat): string
    requires n <= |Sources|
  {
    match LastApplicable(sel, n)
    case None => task
    case Some(src) => EnrichedWith(task, sel, fetch, src)
  }

  /** The text the crew is given. */
  function EnhancedTask(task: string, sel: Selection, fetch: Fetch): string
  {
    EnhancedUpTo(task, sel, fetch, |Sources|)
  }

  /** Considering one more source either keeps the text or replaces it. */
  lemma EnhancedStep(task: string, sel: Selection, fetch: Fetch, n: nat, src: Source)
    requires n < |Sources| && Sources[n] == src
    ensures EnhancedUpTo(task, sel, fetch, n + 1) ==
              if Applies(sel, src) then EnrichedWith(task, sel, fetch, src)
              else EnhancedUpTo(task, sel, fetch, n)
  {
  }

  /** The enhancement chain of `execute_task`, one source after another. */
  method EnhanceTask(task: string, sel: Selection, fetch: Fetch) returns (enhanced: string)
    ensures enhanced == EnhancedTask(task, sel, fetch)
  {
    enhanced := task;
    if Truthy(Get(sel, UseWebSearch)) {
      var results := fetch(WebSearch, task);
      enhanced := TaskLabel + task + Gap + (WebLabel + results);
      assert enhanced == EnrichedWith(task, sel, fetch, WebSearch);
    }
    EnhancedStep(task, sel, fetch, 0, WebSearch);
    assert enhanced == EnhancedUpTo(task, sel, fetch, 1);
    if Truthy(Get(sel, UseNews)) {
      var results := fetch(News, "");
      enhanced := TaskLabel + task + Gap + (NewsLabel + results);
      assert enhanced == EnrichedWith(task, sel, fetch, News);
    }
    EnhancedStep(task, sel, fetch, 1, News);
    assert enhanced == EnhancedUpTo(task, sel, fetch, 2);
    var city := Get(sel, City);
    if Truthy(Get(sel, UseWeather)) && Truthy(city) {
      var results := fetch(Weather, Render(city));
      enhanced := TaskLabel + task + Gap + (WeatherLabel + Render(city) + ": " + results);
      assert enhanced == EnrichedWith(task, sel, fetch, Weather);
    }
    EnhancedStep(task, sel, fetch, 2, Weather);
    assert enhanced == EnhancedUpTo(task, sel, fetch, 3);
    if Truthy(Get(sel, UseGeolocation)) {
      var ip := Get(sel, IpAddress);
      var results := fetch(Geolocation, if Truthy(ip) then Render(ip) else "");
      enhanced := TaskLabel + task + Gap + (GeoLabel + results);
      assert enhanced == EnrichedWith(task, sel, fetch, Geolocation);
    }
    EnhancedStep(task, sel, fetch, 3, Geolocation);
    assert enhanced == EnhancedUpTo(task, sel, fetch, 4);
    var symbol := Get(sel, StockSymbol);
    if Truthy(Get(sel, UseStockData)) && Truthy(symbol) {
      var results := fetch(StockData, Render(symbol));
      enhanced := TaskLabel + task + Gap + (StockLabel + Render(symbol) + ": " + results);
      assert enhanced == EnrichedWith(task, sel, fetch, StockData);
    }
    EnhancedStep(task, sel, fetch, 4, StockData);
    assert enhanced == EnhancedUpTo(task, sel, fetch, 5);
    var query := Get(sel, WikipediaQuery);
    if Truthy(Get(sel, UseWikipedia)) && Truthy(query) {
      var results := fetch(Wikipedia, Render(query));
      enhanced := TaskLabel + task + Gap + (WikiLabel + results);
      assert enhanced == EnrichedWith(task, sel, fetch, Wikipedia);
    }
    EnhancedStep(task, sel, fetch, 5, Wikipedia);
    assert enhanced == EnhancedUpTo(task, sel, fetch, 6);
  }

  /** Only the last applicable source counts: two services that agree on it
      give the same enhanced task, and with no source applicable the task is
      passed on unchanged. */
  lemma OnlyLastEnrichmentSurvives(task: string, sel: Selection, f: Fetch, g: Fetch)
    ensures LastApplicable(sel, |Sources|).None? ==> EnhancedTask(task, sel, f) == task
    ensures LastApplicable(sel, |Sources|).Some? ==>
      var src := LastApplicable(sel, |Sources|).value;
      f(src, Argument(task, sel, src)) == g(src, Argument(task, sel, src)) ==>
        EnhancedTask(task, sel, f) == EnhancedTask(task, sel, g)
  {
  }

  /** `apis_used` reports a weather, stock or encyclopedia flag even when the
      missing city, symbol or query meant that source was never consulted. */
  lemma ReportedWithoutFetch(sel: Selection, k: Key, src: Source)
    requires (k, src) in {(UseWeather, Weather), (UseStockData, StockData), (UseWikipedia, Wikipedia)}
    requires Truthy(Get(sel, k)) && !Applies(sel, src)
    ensures k in ApisUsed(sel)
  {
    UsedFromMembers(sel, 0, k);
  }

  // ---------------------------------------------------------------------------
  // The crew run and the moderation retry

  /** The result for a settled selection, given the first run's outcome: a
      moderation failure is retried once on the bare description. */
  function Answer(role: string, task: string, sel: Selection, first: Attempt<string>, kickoff: Kickoff): (r: CrewResult)
    ensures r.agent == role && r.task == task && r.apisUsed == ApisUsed(sel)
    ensures r.CrewDone? && !r.fallbackUsed <==> first.Ok?
    ensures first.Ok? ==> r.content == first.value
    ensures r.CrewDone? && r.fallbackUsed <==>
              first.Raised? && ModerationRejected(first.error) && kickoff(Plain(task)).Ok?
    ensures r.CrewDone? && r.fallbackUsed ==> r.content == kickoff(Plain(task)).value
    ensures r.CrewFailed? && !ModerationRejected(first.error) ==>
              r.error == ExecutionErrorNote + first.error
    ensures r.CrewFailed? && ModerationRejected(first.error) ==>
              r.error == FallbackFailedNote + first.error +
                         FallbackErrorLabel + kickoff(Plain(task)).error
  {
    match first
    case Ok(content) => CrewDone(content, role, task, ApisUsed(sel), false)
    case Raised(e) =>
      if ModerationRejected(e) then
        match kickoff(Plain(task))
        case Ok(content) => CrewDone(content, role, task, ApisUsed(sel), true)
        case Raised(e2) =>
          CrewFailed(FallbackFailedNote + e + FallbackErrorLabel + e2,
                     role, task, ApisUsed(sel))
      else
        CrewFailed(ExecutionErrorNote + e, role, task, ApisUsed(sel))
  }

  /** What `execute_task` returns, or the exception it lets escape. */
  function CrewReply(role: string, task: string, auto: bool, kwargs: map<Key, Value>,
                     fetch: Fetch, kickoff: Kickoff): (r: Attempt<CrewResult>)
    ensures r.Raised? <==> auto && AutoSelectApis(task).Raised?
    ensures r.Ok? ==>
              var sel := MergeSelection(task, auto, kwargs).value;
              && r.value.agent == role && r.value.task == task && r.value.apisUsed == ApisUsed(sel)
              // the crew is first run on the enhanced description
              && (r.value.CrewDone? && !r.value.fallbackUsed <==> kickoff(Enhanced(EnhancedTask(task, sel, fetch))).Ok?)
              && (r.value.CrewDone? && !r.value.fallbackUsed ==>
                    r.value.content == kickoff(Enhanced(EnhancedTask(task, sel, fetch))).value)
  {
    match MergeSelection(task, auto, kwargs)
    case Raised(e) => Raised(e)
    case Ok(sel) => Ok(Answer(role, task, sel, kickoff(Enhanced(EnhancedTask(task, sel, fetch))), kickoff))
  }

  /** `execute_task(task_description, auto_api_selection, **kwargs)` */
  method ExecuteTask(role: string, task: string, auto: bool, kwargs: map<Key, Value>,
                     fetch: Fetch, kickoff: Kickoff) returns (r: Attempt<CrewResult>)
    ensures r == CrewReply(role, task, auto, kwargs, fetch, kickoff)
    ensures r.Raised? <==> auto && AutoSelectApis(task).Raised?
  {
    var selection := MergeSelection(task, auto, kwargs);
    if selection.Raised? {
      return Raised(selection.error);
    }
    var sel := selection.value;
    var enhanced := EnhanceTask(task, sel, fetch);
    var used := ApisUsed(sel);
    var outcome := kickoff(Enhanced(enhanced));
    if outcome.Ok? {
      return Ok(CrewDone(outcome.value, role, task, used, false));
    }
    var e := outcome.error;
    if ModerationRejected(e) {
      var retry := kickoff(Plain(task));
      if retry.Ok? {
        r := Ok(CrewDone(retry.value, role, task, used, true));
      } else {
        r := Ok(CrewFailed(FallbackFailedNote + e + FallbackErrorLabel + retry.error,
                           role, task, used));
      }
    } else {
      r := Ok(CrewFailed(ExecutionErrorNote + e, role, task, used));
    }
  }
}
