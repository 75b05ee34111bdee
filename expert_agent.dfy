/**
 * The expert provider (agents/google_adk_agent.py): a rolling log of past
 * exchanges, and `respond_to_query`, which either asks an agent runner or
 * posts a chat-completion request, retries once with a reduced request when
 * the service reports a moderation refusal, classifies every failure, and
 * logs exactly one line per call.
 *
 * The runner and the HTTP service are outside the model: `Run` gives the
 * runner's reply to a query, `Post` the service's response to a request body
 * (or the text of the network exception).
 */
module ExpertAgent {
  import opened Common
  import opened Text

  // Message texts.
  const FallbackResponseLabel: string := " | Fallback Response: "
  const ResponseLabel: string := " | Response: "
  const ErrorLabel: string := " | Error: "
  const NoHistoryLine: string := "No previous conversation history"
  const HistoryLabel: string := "Previous conversation history: "
  const QueryLabel: string := "\n\nQuery: "
  const NetworkErrorNote: string := "Network Error: "
  const UnexpectedErrorNote: string := "Unexpected Error: "
  const MissingChoicesNote: string := UnexpectedErrorNote + "'choices'"
  const ApiErrorNote: string := "API Error: "
  const NoResponseNote: string := "No response generated"
  const AdkErrorNote: string := "ADK Error: "

  /** The `usage` dictionary of a completion. */
  type Usage = map<string, int>

  /** A request body: the full one with the expert's system prompt (built from
      the name, the expertise and the history line) and the user message, or
      the reduced one of the moderation retry, whose user message is the bare
      query. */
  datatype Payload =
    | Full(name: string, expertise: string, history: string, user: string)
    | Reduced(name: string, expertise: string, query: string)

  /** A response body, as far as the provider reads it. `Malformed` is JSON
      that the reading code itself trips over: a list, an empty `choices`, an
      `error` that is not an object or a `message` that is `null`; it carries
      the text of the `KeyError`, `IndexError`, `TypeError` or
      `AttributeError` raised. */
  datatype Body =
    | Completion(content: string, usage: Option<Usage>)   // `choices[0].message.content`, maybe `usage`
    | ErrorReport(message: Option<string>)                 // `{"error": {"message": ...}}` without `choices`
    | OtherJson                                            // an object with neither `choices` nor `error`
    | Malformed(exception: string)                         // reading it raises
    | NotJson(decodeError: string)                         // `response.json()` raises

  datatype Response = Response(status: nat, body: Body, text: string)

  /** The HTTP service: a response, or the text of a `RequestException`. */
  type Post = Payload -> Attempt<Response>

  /** The agent runner: the `content` of its result if it has one, or the
      exception text. */
  type Run = string -> Attempt<Option<string>>

  /** The dictionary `respond_to_query` returns; `tokenUsage` is absent on
      the runner path. */
  datatype ExpertResult =
    | ExpertDone(content: string, agent: string, expertise: string, tokenUsage: Option<Usage>, fallbackUsed: bool)
    | ExpertFailed(error: string, agent: string, expertise: string, tokenUsage: Option<Usage>)

  // ---------------------------------------------------------------------------
  // The log and the prompt built from it

  /** The line a call adds to the log. */
  function LogLine(query: string, r: ExpertResult): string
  {
    match r
    case ExpertDone(content, _, _, _, fallback) =>
      "Query: " + query + (if fallback then FallbackResponseLabel else ResponseLabel) + content
    case ExpertFailed(error, _, _, _) => "Query: " + query + ErrorLabel + error
  }

  /** A log line starts with the query and ends with the reply's content or
      its error text. */
  lemma LogLineRecords(query: string, r: ExpertResult)
    ensures var line := LogLine(query, r);
            && "Query: " + query <= line
            && (r.ExpertDone? ==> |r.content| <= |line| && line[|line| - |r.content|..] == r.content)
            && (r.ExpertFailed? ==> |r.error| <= |line| && line[|line| - |r.error|..] == r.error)
  {
    var line := LogLine(query, r);
    var head := "Query: " + query;
    var mark := if r.ExpertFailed? then ErrorLabel else if r.fallbackUsed then FallbackResponseLabel else ResponseLabel;
    var tail := if r.ExpertFailed? then r.error else r.content;
    assert line == head + (mark + tail);
    PrefixOfJoin(head, mark + tail);
    assert line[|line| - |tail|..] == tail;
  }

  /** `history[-5:]` */
  function Window(history: seq<string>): (r: seq<string>)
    ensures |r| == if |history| < 5 then |history| else 5
    ensures r == history[|history| - |r|..]
  {
    if |history| <= 5 then history else history[|history| - 5..]
  }

  /** The history line of the system prompt. */
  function HistoryLine(history: seq<string>): (r: string)
    ensures r == NoHistoryLine <==> history == []
    ensures history != [] ==> HistoryLabel <= r
  {
    if history == [] then NoHistoryLine
    else
      var r := HistoryLabel + Join("; ", Window(history));
      assert r[0] == 'P' != NoHistoryLine[0];
      PrefixOfJoin(HistoryLabel, Join("; ", Window(history)));
      r
  }

  /** The prompt sees only the last five log lines: older ones make no
      difference once five are there. */
  lemma PromptSeesLastFive(older: seq<string>, recent: seq<string>)
    requires |recent| >= 5
    ensures HistoryLine(older + recent) == HistoryLine(recent)
  {
    var all := older + recent;
    assert all[|all| - 5..] == recent[|recent| - 5..];
  }

  function FullPayload(name: string, expertise: string, history: seq<string>, query: string, context: string): Payload
  {
    Full(name, expertise, HistoryLine(history), context + QueryLabel + query)
  }

  // ---------------------------------------------------------------------------
  // The HTTP path

  /** Every failure on the HTTP path carries an empty `token_usage`. */
  function Failure(name: string, expertise: string, error: string): ExpertResult
  {
    ExpertFailed(error, name, expertise, Some(map[]))
  }

  /** `result.get('usage', {})` */
  function UsageOr(u: Option<Usage>): Usage
  {
    if u.Some? then u.value else map[]
  }

  /** Reading a 200 response: its content, or the exception reading it raises. */
  function FromCompletion(name: string, expertise: string, body: Body, fallback: bool): (r: ExpertResult)
    ensures r.agent == name && r.expertise == expertise && r.tokenUsage.Some?
    ensures r.ExpertDone? <==> body.Completion?
    ensures r.ExpertDone? ==> r.content == body.content && r.fallbackUsed == fallback && r.tokenUsage == Some(UsageOr(body.usage))
    ensures r.ExpertFailed? ==> r.tokenUsage == Some(map[]) && HttpErrorText(r.error)
  {
    match body
    case Completion(content, usage) => ExpertDone(content, name, expertise, Some(UsageOr(usage)), fallback)
    case NotJson(e) =>
      PrefixOfJoin(NetworkErrorNote, e);
      Failure(name, expertise, NetworkErrorNote + e)
    case ErrorReport(_) =>
      PrefixOfJoin(UnexpectedErrorNote, "'choices'");
      Failure(name, expertise, MissingChoicesNote)
    case OtherJson =>
      PrefixOfJoin(UnexpectedErrorNote, "'choices'");
      Failure(name, expertise, MissingChoicesNote)
    case Malformed(e) =>
      PrefixOfJoin(UnexpectedErrorNote, e);
      Failure(name, expertise, UnexpectedErrorNote + e)
  }

  /** `error_response.get("error", {}).get("message", "")` */
  function ErrorMessage(body: Body): string
  {
    if body.ErrorReport? && body.message.Some? then body.message.value else ""
  }

  /** Whether a 403 response is a moderation refusal. */
  predicate ModerationRefusal(body: Body)
  {
    Contains(Lower(ErrorMessage(body)), "moderation")
  }

  function ApiError(resp: Response): string
  {
    ApiErrorNote + ShowNat(resp.status) + " - " + resp.text
  }

  /** The outcome of the HTTP path, with the request bodies posted in order. */
  datatype Exchange = Exchange(result: ExpertResult, posted: seq<Payload>)

  function HttpExchange(name: string, expertise: string, history: seq<string>, query: string, context: string,
                        post: Post): (x: Exchange)
    ensures 1 <= |x.posted| <= 2 && x.posted[0] == FullPayload(name, expertise, history, query, context)
    ensures |x.posted| == 2 ==> x.posted[1] == Reduced(name, expertise, query)
    ensures x.result.agent == name && x.result.expertise == expertise
  {
    var first := FullPayload(name, expertise, history, query, context);
    match post(first)
    case Raised(e) => Exchange(Failure(name, expertise, NetworkErrorNote + e), [first])
    case Ok(resp) =>
      if resp.status == 200 then Exchange(FromCompletion(name, expertise, resp.body, false), [first])
      else if resp.status == 403 && resp.body.NotJson? then
        Exchange(Failure(name, expertise, NetworkErrorNote + resp.body.decodeError), [first])
      else if resp.status == 403 && resp.body.Malformed? then
        Exchange(Failure(name, expertise, UnexpectedErrorNote + resp.body.exception), [first])
      else if resp.status == 403 && ModerationRefusal(resp.body) then
        var second := Reduced(name, expertise, query);
        match post(second)
        case Raised(e) => Exchange(Failure(name, expertise, NetworkErrorNote + e), [first, second])
        case Ok(retry) =>
          if retry.status == 200 then Exchange(FromCompletion(name, expertise, retry.body, true), [first, second])
          else Exchange(Failure(name, expertise, ApiError(resp)), [first, second])
      else Exchange(Failure(name, expertise, ApiError(resp)), [first])
  }

  /** A failure text of the HTTP path starts with one of its three prefixes. */
  predicate HttpErrorText(e: string)
  {
    ApiErrorNote <= e || NetworkErrorNote <= e || UnexpectedErrorNote <= e
  }

  /** Exactly one reduced retry, and only for a moderation refusal; the
      retry is what `fallback_used` reports. */
  lemma HttpRetryOnRefusal(name: string, expertise: string, history: seq<string>, query: string, context: string,
                           post: Post)
    ensures var x := HttpExchange(name, expertise, history, query, context, post);
            var first := post(FullPayload(name, expertise, history, query, context));
            && (|x.posted| == 2 <==>
                  first.Ok? && first.value.status == 403 && !first.value.body.NotJson? && ModerationRefusal(first.value.body))
            && (x.result.ExpertDone? && x.result.fallbackUsed ==>
                  |x.posted| == 2 && post(x.posted[1]).Ok? && post(x.posted[1]).value.status == 200)
            && (x.result.ExpertDone? && !x.result.fallbackUsed <==>
                  first.Ok? && first.value.status == 200 && first.value.body.Completion?)
  {
  }

  /** Every failure of the HTTP path is classified by its prefix and carries
      an empty `token_usage`. */
  lemma HttpFailuresClassified(name: string, expertise: string, history: seq<string>, query: string, context: string,
                               post: Post)
    ensures var x := HttpExchange(name, expertise, history, query, context, post);
            x.result.ExpertFailed? ==> x.result.tokenUsage == Some(map[]) && HttpErrorText(x.result.error)
  {
    var first := post(FullPayload(name, expertise, history, query, context));
    PrefixOfJoin(UnexpectedErrorNote, "'choices'");
    match first
    case Raised(e) => PrefixOfJoin(NetworkErrorNote, e);
    case Ok(resp) =>
      PrefixOfJoin(ApiErrorNote, ShowNat(resp.status) + " - " + resp.text);
      assert ApiError(resp) == ApiErrorNote + (ShowNat(resp.status) + " - " + resp.text);
      if resp.body.NotJson? {
        PrefixOfJoin(NetworkErrorNote, resp.body.decodeError);
      } else if resp.body.Malformed? {
        PrefixOfJoin(UnexpectedErrorNote, resp.body.exception);
      }
      var second := post(Reduced(name, expertise, query));
      if second.Raised? {
        PrefixOfJoin(NetworkErrorNote, second.error);
      } else if second.value.body.NotJson? {
        PrefixOfJoin(NetworkErrorNote, second.value.body.decodeError);
      } else if second.value.body.Malformed? {
        PrefixOfJoin(UnexpectedErrorNote, second.value.body.exception);
      }
      if resp.status == 403 && !resp.body.NotJson? && ModerationRefusal(resp.body) {
        assert HttpExchange(name, expertise, history, query, context, post).posted == [FullPayload(name, expertise, history, query, context), Reduced(name, expertise, query)];
      }
  }

  lemma PrefixOfJoin(p: string, s: string)
    ensures p <= p + s
  {
    assert (p + s)[..|p|] == p;
  }

  // ---------------------------------------------------------------------------
  // The runner path

  function RunnerReply(name: string, expertise: string, query: string, run: Run): ExpertResult
  {
    match run(query)
    case Ok(content) =>
      ExpertDone(if content.Some? then content.value else NoResponseNote, name, expertise, None, false)
    case Raised(e) => ExpertFailed(AdkErrorNote + e, name, expertise, None)
  }

  /** What `respond_to_query` returns, for a log `history` before the call. */
  function ExpertReply(name: string, expertise: string, runner: bool, history: seq<string>,
                       query: string, context: string, run: Run, post: Post): (r: ExpertResult)
    ensures r.agent == name && r.expertise == expertise
    ensures runner ==> r.tokenUsage.None? && !(r.ExpertDone? && r.fallbackUsed)
    ensures runner && r.ExpertFailed? ==> AdkErrorNote <= r.error
    ensures !runner ==> r.tokenUsage.Some?
  {
    if runner then RunnerReply(name, expertise, query, run)
    else HttpExchange(name, expertise, history, query, context, post).result
  }

  /** On the runner path neither the caller's context nor the log reaches
      the reply. */
  lemma RunnerIgnoresContext(name: string, expertise: string, h1: seq<string>, h2: seq<string>,
                             query: string, c1: string, c2: string, run: Run, post: Post)
    ensures ExpertReply(name, expertise, true, h1, query, c1, run, post) ==
            ExpertReply(name, expertise, true, h2, query, c2, run, post)
  {
  }

  // ---------------------------------------------------------------------------
  // The provider object

  class Expert {
    const name: string
    const expertise: string
    /** Whether the agent runner could be built (`self.agent and self.runner`). */
    const runner: bool
    /** The log of past exchanges (`self.context_history`). */
    var contextHistory: seq<string>

    constructor(name: string, expertise: string, runner: bool)
      ensures this.name == name && this.expertise == expertise && this.runner == runner
      ensures contextHistory == []
    {
      this.name := name;
      this.expertise := expertise;
      this.runner := runner;
      contextHistory := [];
    }

    /** `add_to_context(entry)`: appended at the end, earlier lines untouched. */
    method AddToContext(entry: string)
      modifies this
      ensures contextHistory == old(contextHistory) + [entry]
      ensures |contextHistory| == |old(contextHistory)| + 1 && contextHistory[..|old(contextHistory)|] == old(contextHistory)
    {
      contextHistory := contextHistory + [entry];
    }

    /** `get_context()`: a copy of the log. */
    method GetContext() returns (copy: seq<string>)
      ensures copy == contextHistory
    {
      copy := contextHistory;
    }

    /** `respond_to_query(query, context)`: the reply, and exactly one new
        log line describing it, on every path. */
    method RespondToQuery(query: string, context: string, run: Run, post: Post) returns (r: ExpertResult)
      modifies this
      ensures r == ExpertReply(name, expertise, runner, old(contextHistory), query, context, run, post)
      ensures contextHistory == old(contextHistory) + [LogLine(query, r)]
    {
      if runner {
        var outcome := run(query);
        if outcome.Ok? {
          var content := if outcome.value.Some? then outcome.value.value else NoResponseNote;
          AddToContext("Query: " + query + ResponseLabel + content);
          return ExpertDone(content, name, expertise, None, false);
        }
        var message := AdkErrorNote + outcome.error;
        AddToContext("Query: " + query + ErrorLabel + message);
        return ExpertFailed(message, name, expertise, None);
      }
      var payload := Full(name, expertise, HistoryLine(contextHistory), context + QueryLabel + query);
      var sent := post(payload);
      var message: string;
      if sent.Raised? {
        message := NetworkErrorNote + sent.error;
      } else {
        var response := sent.value;
        if response.status == 200 {
          r := FromCompletion(name, expertise, response.body, false);
          AddToContext(LogLine(query, r));
          return;
        } else if response.status == 403 {
          if response.body.NotJson? {
            message := NetworkErrorNote + response.body.decodeError;
          } else if response.body.Malformed? {
            message := UnexpectedErrorNote + response.body.exception;
          } else {
            if ModerationRefusal(response.body) {
              var retry := post(Reduced(name, expertise, query));
              if retry.Raised? {
                message := NetworkErrorNote + retry.error;
                r := Failure(name, expertise, message);
                AddToContext("Query: " + query + ErrorLabel + message);
                return;
              } else if retry.value.status == 200 {
                r := FromCompletion(name, expertise, retry.value.body, true);
                AddToContext(LogLine(query, r));
                return;
              }
            }
            message := ApiError(response);
          }
        } else {
          message := ApiError(response);
        }
      }
      r := Failure(name, expertise, message);
      AddToContext("Query: " + query + ErrorLabel + message);
    }
  }
}
