/**
 * The analysis provider (agents/langgraph_agent.py): a two-node graph,
 * "analyze" then "generate_response", that turns the input dictionary into a
 * report of analysis, patterns, insights and recommendations; a simpler
 * two-call path used without the graph or after a moderation failure; and the
 * provider's own key/value state.
 *
 * The language model is outside the model: `Invoke` gives its answer to one
 * human message, or the text of the exception it raised. Whether the graph
 * framework itself raises is given per call as `graphFault`.
 */
module AnalysisAgent {
  import opened Common
  import opened Text

  // Message texts.
  const AnalyzeDataPrompt: string := "Analyze the following data and identify key patterns and insights: "
  const AnalysisFailedNote: string := "Analysis failed: "
  const AnalysisOfNote: string := "Analysis of "
  const RecommendPrompt: string := "Based on this analysis: "
  const RecommendPromptEnd: string := ", generate actionable recommendations."
  const RecommendFailedNote: string := "Recommendation generation failed: "
  const SimpleRecommendPrompt: string := "Recommendations based on: "
  const ProcessingErrorNote: string := "Error processing input: "
  const SimplifiedFailedNote: string := "Analysis with simplified prompt failed: "
  const ReportOpen: string := "{'analysis': "
  const PatternsField: string := ", 'patterns': "
  const InsightsField: string := ", 'insights': "
  const RecommendationsField: string := ", 'recommendations': "

  /** The `data` entry of an input: a list of strings or a string-keyed dictionary. */
  datatype Data = Items(items: seq<string>) | Entries(entries: seq<(string, string)>)

  /** The `input_data` dictionary handed to `process_input`. */
  datatype Input = Input(task: Option<string>, data: Option<Data>)

  /** Which optional components the provider was built with: a compiled
      graph (`self.app`), a chat model (`self.model`) and the message class
      (`HumanMessage`, imported together with the graph package). */
  datatype Setup = Setup(graph: bool, model: bool, messages: bool)

  /** The chat model: its answer to one human message, or the exception text. */
  type Invoke = string -> Attempt<string>

  /** The content dictionary of a result. */
  datatype Report = Report(analysis: string, patterns: seq<string>, insights: seq<string>,
                           recommendations: seq<string>)

  /** The dictionary `process_input` returns. */
  datatype AnalyzerResult =
    | AnalyzerDone(content: Report, agent: string, capabilities: seq<string>, fallbackUsed: bool)
    | AnalyzerFailed(error: string, agent: string, capabilities: seq<string>)

  const DefaultPatterns: seq<string> := ["Pattern 1", "Pattern 2"]
  const DefaultInsights: seq<string> := ["Insight 1", "Insight 2"]
  const DefaultRecommendations: seq<string> := ["Recommendation 1", "Recommendation 2"]

  // ---------------------------------------------------------------------------
  // Rendering

  /** The `'key': 'value'` items of a dictionary, in insertion order. */
  function ShowEntries(es: seq<(string, string)>): (r: seq<string>)
    ensures |r| == |es|
    ensures forall i :: 0 <= i < |es| ==> r[i] == Quote(es[i].0) + ": " + Quote(es[i].1)
  {
    if es == [] then [] else [Quote(es[0].0) + ": " + Quote(es[0].1)] + ShowEntries(es[1..])
  }

  function ShowData(d: Data): string
  {
    match d
    case Items(xs) => ShowList(xs)
    case Entries(es) => "{" + Join(", ", ShowEntries(es)) + "}"
  }

  /** `str(input_data)` */
  function ShowInput(inp: Input): (r: string)
    ensures inp.task.None? && inp.data.None? ==> r == "{}"
    // the task, when there is one, is rendered first
    ensures inp.task.Some? ==> "{" + TaskItem(inp.task.value) <= r
  {
    var task := if inp.task.Some? then [TaskItem(inp.task.value)] else [];
    var data := if inp.data.Some? then ["'data': " + ShowData(inp.data.value)] else [];
    var body := Join(", ", task + data);
    if inp.task.Some? then
      var t := TaskItem(inp.task.value);
      assert body == t || body == t + ", " + Join(", ", data);
      assert body[..|t|] == t;
      assert ("{" + body + "}")[..|t| + 1] == "{" + t;
      "{" + body + "}"
    else "{" + body + "}"
  }

  function TaskItem(task: string): string
  {
    "'task': " + Quote(task)
  }

  /** `str(report)`: the content dictionary as Python prints it. */
  function ShowReport(r: Report): string
  {
    ReportOpen + Quote(r.analysis) + PatternsField + ShowList(r.patterns) +
    InsightsField + ShowList(r.insights) + RecommendationsField + ShowList(r.recommendations) + "}"
  }

  /** `input_data.get('task', 'data')` */
  function TaskOr(inp: Input): string
  {
    if inp.task.Some? then inp.task.value else "data"
  }

  // ---------------------------------------------------------------------------
  // The graph: analyze, then generate_response, then the end

  /** What the analyze node writes into the graph state. */
  datatype Findings = Findings(analysis: string, patterns: seq<string>, insights: seq<string>)

  /** The analyze node: the model's analysis of the whole input, or a
      failure note; the patterns and insights are fixed. */
  function AnalyzeNode(setup: Setup, inp: Input, invoke: Invoke): (f: Findings)
    ensures f.patterns == DefaultPatterns && f.insights == DefaultInsights
    ensures !setup.model || !setup.messages ==> f.analysis == AnalysisOfNote + TaskOr(inp)
  {
    var analysis :=
      if setup.model && setup.messages then
        match invoke(AnalyzeDataPrompt + ShowInput(inp))
        case Ok(answer) => answer
        case Raised(e) => AnalysisFailedNote + e
      else AnalysisOfNote + TaskOr(inp);
    Findings(analysis, DefaultPatterns, DefaultInsights)
  }

  /** The generate_response node: it carries the analysis, patterns and
      insights over untouched and adds the recommendations. */
  function GenerateResponseNode(setup: Setup, f: Findings, invoke: Invoke): (r: Report)
    ensures r.analysis == f.analysis && r.patterns == f.patterns && r.insights == f.insights
    ensures |r.recommendations| == if setup.model && setup.messages then 1 else 2
  {
    var recommendations :=
      if setup.model && setup.messages then
        match invoke(RecommendPrompt + f.analysis + RecommendPromptEnd)
        case Ok(answer) => [answer]
        case Raised(e) => [RecommendFailedNote + e]
      else DefaultRecommendations;
    Report(f.analysis, f.patterns, f.insights, recommendations)
  }

  /** One run of the graph from its entry point to its end. */
  function RunGraph(setup: Setup, inp: Input, invoke: Invoke): (r: Report)
    ensures r.patterns == DefaultPatterns && r.insights == DefaultInsights
    ensures !setup.model || !setup.messages ==>
              r == Report(AnalysisOfNote + TaskOr(inp), DefaultPatterns, DefaultInsights, DefaultRecommendations)
    // the recommendation is asked about the very analysis that is reported
    ensures setup.model && setup.messages ==>
              r.recommendations == match invoke(RecommendPrompt + r.analysis + RecommendPromptEnd)
                                   case Ok(answer) => [answer]
                                   case Raised(e) => [RecommendFailedNote + e]
    ensures setup.model && setup.messages && invoke(AnalyzeDataPrompt + ShowInput(inp)).Ok? ==>
              r.analysis == invoke(AnalyzeDataPrompt + ShowInput(inp)).value
  {
    GenerateResponseNode(setup, AnalyzeNode(setup, inp, invoke), invoke)
  }

  /** A failing recommendation call inside the graph keeps the analysis the
      model gave. */
  lemma GraphKeepsAnalysis(setup: Setup, inp: Input, invoke: Invoke, answer: string, e: string)
    requires setup.model && setup.messages
    requires invoke(AnalyzeDataPrompt + ShowInput(inp)) == Ok(answer)
    requires invoke(RecommendPrompt + answer + RecommendPromptEnd) == Raised(e)
    ensures RunGraph(setup, inp, invoke) ==
              Report(answer, DefaultPatterns, DefaultInsights, [RecommendFailedNote + e])
  {
  }

  // ---------------------------------------------------------------------------
  // The two-call path (no graph, or the moderation fallback)

  /** The report of the simpler path: "Analyze: <task>" and then
      "Recommendations based on: <analysis>"; whichever call fails, both
      entries are replaced by that failure, under `failPrefix`. */
  function SimpleReport(setup: Setup, inp: Input, invoke: Invoke, failPrefix: string): (r: Report)
    ensures r.patterns == DefaultPatterns && r.insights == DefaultInsights
    ensures !setup.model || !setup.messages ==>
              r == Report(AnalysisOfNote + TaskOr(inp), DefaultPatterns, DefaultInsights, DefaultRecommendations)
    ensures setup.model && setup.messages ==> |r.recommendations| == 1
  {
    if !setup.model || !setup.messages then
      Report(AnalysisOfNote + TaskOr(inp), DefaultPatterns, DefaultInsights, DefaultRecommendations)
    else
      match invoke("Analyze: " + TaskOr(inp))
      case Raised(e) =>
        Report(failPrefix + e, DefaultPatterns, DefaultInsights, [RecommendFailedNote + e])
      case Ok(analysis) =>
        match invoke(SimpleRecommendPrompt + analysis)
        case Raised(e) =>
          Report(failPrefix + e, DefaultPatterns, DefaultInsights, [RecommendFailedNote + e])
        case Ok(answer) => Report(analysis, DefaultPatterns, DefaultInsights, [answer])
  }

  /** Unlike the graph, the simpler path drops a successful analysis when the
      recommendation call fails. */
  lemma SimplePathDropsAnalysis(setup: Setup, inp: Input, invoke: Invoke, failPrefix: string,
                                answer: string, e: string)
    requires setup.model && setup.messages
    requires invoke("Analyze: " + TaskOr(inp)) == Ok(answer)
    requires invoke(SimpleRecommendPrompt + answer) == Raised(e)
    ensures SimpleReport(setup, inp, invoke, failPrefix).analysis == failPrefix + e
    ensures SimpleReport(setup, inp, invoke, failPrefix).recommendations == [RecommendFailedNote + e]
  {
  }

  // ---------------------------------------------------------------------------
  // process_input

  /** What `process_input` returns. */
  function AnalyzerReply(name: string, capabilities: seq<string>, setup: Setup, inp: Input,
                         invoke: Invoke, graphFault: Option<string>): (r: AnalyzerResult)
    ensures r.agent == name && r.capabilities == capabilities
    // errors of the model are caught inside the nodes: only a fault of the
    // graph framework itself leaves the graph
    ensures setup.graph && graphFault.None? ==>
              r == AnalyzerDone(RunGraph(setup, inp, invoke), name, capabilities, false)
    ensures r.AnalyzerFailed? <==> setup.graph && graphFault.Some? && !ModerationRejected(graphFault.value)
    ensures r.AnalyzerFailed? ==> r.error == ProcessingErrorNote + graphFault.value
    ensures r.AnalyzerDone? && r.fallbackUsed <==> setup.graph && graphFault.Some? && ModerationRejected(graphFault.value)
    ensures r.AnalyzerDone? && r.fallbackUsed ==>
              r.content == SimpleReport(setup, inp, invoke, SimplifiedFailedNote)
    ensures !setup.graph ==> r == AnalyzerDone(SimpleReport(setup, inp, invoke, AnalysisFailedNote), name, capabilities, false)
  {
    if setup.graph then
      match graphFault
      case None => AnalyzerDone(RunGraph(setup, inp, invoke), name, capabilities, false)
      case Some(e) =>
        if ModerationRejected(e) then
          AnalyzerDone(SimpleReport(setup, inp, invoke, SimplifiedFailedNote), name, capabilities, true)
        else
          AnalyzerFailed(ProcessingErrorNote + e, name, capabilities)
    else
      AnalyzerDone(SimpleReport(setup, inp, invoke, AnalysisFailedNote), name, capabilities, false)
  }

  /** Without a model, the content is fixed whatever path is taken: the
      analysis names the task and every list is the built-in pair. */
  lemma NoModelFixedContent(name: string, capabilities: seq<string>, setup: Setup, inp: Input,
                            invoke: Invoke, graphFault: Option<string>)
    requires !setup.model
    ensures var r := AnalyzerReply(name, capabilities, setup, inp, invoke, graphFault);
            r.AnalyzerDone? ==>
              r.content == Report(AnalysisOfNote + TaskOr(inp), DefaultPatterns, DefaultInsights, DefaultRecommendations)
  {
  }

  // ---------------------------------------------------------------------------
  // The provider object

  class Analyzer {
    const name: string
    const capabilities: seq<string>
    const setup: Setup
    /** The provider's key/value state (`self.state`). */
    var state: map<string, string>

    constructor(name: string, capabilities: seq<string>, setup: Setup)
      ensures this.name == name && this.capabilities == capabilities && this.setup == setup
      ensures state == map[]
    {
      this.name := name;
      this.capabilities := capabilities;
      this.setup := setup;
      state := map[];
    }

    /** `update_state(key, value)`: one entry set, every other one kept. */
    method UpdateState(key: string, value: string)
      modifies this
      ensures state == old(state)[key := value]
      ensures key in state && state[key] == value
      ensures forall k :: k != key ==> (k in state <==> k in old(state))
      ensures forall k :: k != key && k in old(state) ==> state[k] == old(state)[k]
    {
      state := state[key := value];
    }

    /** `get_state()`: a copy of the state; the caller's changes to it do not
        reach the provider. */
    method GetState() returns (copy: map<string, string>)
      ensures copy == state
    {
      copy := state;
    }

    /** `process_input(input_data)` */
    method ProcessInput(inp: Input, invoke: Invoke, graphFault: Option<string>) returns (r: AnalyzerResult)
      ensures r == AnalyzerReply(name, capabilities, setup, inp, invoke, graphFault)
    {
      if setup.graph {
        if graphFault.None? {
          var findings := AnalyzeNode(setup, inp, invoke);
          var report := GenerateResponseNode(setup, findings, invoke);
          return AnalyzerDone(report, name, capabilities, false);
        }
        var e := graphFault.value;
        if ModerationRejected(e) {
          var report := SimplePath(inp, invoke, SimplifiedFailedNote);
          return AnalyzerDone(report, name, capabilities, true);
        }
        return AnalyzerFailed(ProcessingErrorNote + e, name, capabilities);
      }
      var report := SimplePath(inp, invoke, AnalysisFailedNote);
      r := AnalyzerDone(report, name, capabilities, false);
    }

    /** The two-call path, step by step. */
    method SimplePath(inp: Input, invoke: Invoke, failPrefix: string) returns (report: Report)
      ensures report == SimpleReport(setup, inp, invoke, failPrefix)
    {
      var analysis := AnalysisOfNote + TaskOr(inp);
      var recommendations := DefaultRecommendations;
      if setup.model && setup.messages {
        var first := invoke("Analyze: " + TaskOr(inp));
        if first.Raised? {
          analysis := failPrefix + first.error;
          recommendations := [RecommendFailedNote + first.error];
        } else {
          analysis := first.value;
          var second := invoke(SimpleRecommendPrompt + analysis);
          if second.Raised? {
            analysis := failPrefix + second.error;
            recommendations := [RecommendFailedNote + second.error];
          } else {
            recommendations := [second.value];
          }
        }
      }
      report := Report(analysis, DefaultPatterns, DefaultInsights, recommendations);
    }
  }
}
