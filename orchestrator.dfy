/**
 * The orchestrator (orchestration/a2a_orchestrator.py): the task registry,
 * the router that hands a request to the research, analysis or expert
 * provider, the three-stage collaborative pipeline, and the loop that runs a
 * list of requests while passing context from one provider to another.
 *
 * The providers' outside services are bundled in `Services`; identifiers and
 * timestamps are parameters.
 */
module Orchestration {
  import opened Common
  import opened Text
  import opened Selection
  import opened ResearchAgent
  import opened AnalysisAgent
  import opened ExpertAgent
  import opened Tasks

  // The three providers as the orchestrator builds them.
  const ResearcherRole: string := "Research Analyst"
  const AnalyzerName: string := "Data Analyzer"
  const AnalyzerCapabilities: seq<string> :=
    ["data analysis", "pattern recognition", "insight generation", "statistical modeling"]
  const ExpertName: string := "Domain Expert"
  const ExpertExpertise: string := "technology trends, business strategy, and implementation best practices"

  /** How the analyzer and the expert were built. */
  datatype Config = Config(setup: Setup, runner: bool)

  /** Everything outside the model that the providers call. */
  datatype Services = Services(fetch: Fetch, kickoff: Kickoff, invoke: Invoke,
                               graphFault: Input -> Option<string>, run: Run, post: Post)

  // ---------------------------------------------------------------------------
  // Routing

  /** The `type` of a request, as `route_task` tells the cases apart. */
  datatype Kind = ResearchKind | AnalysisKind | ExpertQueryKind | GeneralKind

  /** The case a `type` value (or its absence) falls in: anything but the
      three known names is a general query. */
  function KindOf(t: Option<string>): (k: Kind)
    ensures k == ResearchKind <==> t == Some("research")
    ensures k == AnalysisKind <==> t == Some("analysis")
    ensures k == ExpertQueryKind <==> t == Some("expert_query")
    ensures k == GeneralKind <==> t.None? || t.value !in {"research", "analysis", "expert_query"}
  {
    if t == Some("research") then ResearchKind
    else if t == Some("analysis") then AnalysisKind
    else if t == Some("expert_query") then ExpertQueryKind
    else GeneralKind
  }

  /** The request dictionary of `route_task`: `type` (as its `Kind`),
      `content`, `auto_api_selection`, the `use_*` flags and enrichment
      parameters that are present, `data` and `context`. */
  datatype Request = Request(kind: Kind, content: Option<string>, autoSelection: Option<Value>,
                             options: map<Key, Value>, data: Option<Data>, context: Option<string>)

  datatype Agent = ResearchProvider | AnalysisProvider | ExpertProvider

  /** The provider a request goes to; any other or missing type goes to the expert. */
  function Target(req: Request): Agent
  {
    match req.kind
    case ResearchKind => ResearchProvider
    case AnalysisKind => AnalysisProvider
    case _ => ExpertProvider
  }

  function AgentName(a: Agent): string
  {
    match a
    case ResearchProvider => "researcher"
    case AnalysisProvider => "analyzer"
    case ExpertProvider => "expert"
  }

  /** `task.get("content", "")` */
  function ContentOf(req: Request): string
  {
    if req.content.Some? then req.content.value else ""
  }

  /** `task.get("auto_api_selection", True)`, as a condition. */
  predicate AutoOf(req: Request)
  {
    req.autoSelection.None? || Truthy(req.autoSelection.value)
  }

  /** The keyword arguments of a manual research call: every flag and
      parameter, read from the request or given its default. */
  function ManualOptions(req: Request): (kwargs: map<Key, Value>)
    ensures kwargs.Keys == ManualKeys
    ensures forall k :: k in ManualKeys ==> kwargs[k] == if k in req.options then req.options[k] else Default(k)
  {
    map k | k in ManualKeys :: if k in req.options then req.options[k] else Default(k)
  }

  /** The analyzer's `input_data`: the content as the task and `data`, or an
      empty list. */
  function AnalysisInput(req: Request): (inp: Input)
    ensures inp.task == Some(ContentOf(req))
    ensures inp.data == Some(if req.data.Some? then req.data.value else Items([]))
  {
    Input(Some(ContentOf(req)), Some(if req.data.Some? then req.data.value else Items([])))
  }

  /** The context of an expert query (`task.get("context", "")`); a general
      request passes none. */
  function ExpertContext(req: Request): string
  {
    if req.kind == ExpertQueryKind && req.context.Some? then req.context.value else ""
  }

  /** The dictionary `route_task` returns: the provider's name and its result. */
  datatype Routed = Researched(crew: CrewResult) | Analyzed(analysis: AnalyzerResult) | Advised(advice: ExpertResult)

  /** The provider that produced a result. */
  function ProviderOf(r: Routed): Agent
  {
    match r
    case Researched(_) => ResearchProvider
    case Analyzed(_) => AnalysisProvider
    case Advised(_) => ExpertProvider
  }

  /** The `"agent"` field of a result: its provider's name. */
  function AgentOf(r: Routed): string
  {
    AgentName(ProviderOf(r))
  }

  /** What `route_task` returns for an expert log `log`, or the exception
      that escapes it. */
  function RouteReply(req: Request, cfg: Config, sv: Services, log: seq<string>): (r: Attempt<Routed>)
    ensures r.Ok? ==> ProviderOf(r.value) == Target(req)
    ensures r.Raised? ==> Target(req) == ResearchProvider && AutoOf(req) && AutoSelectApis(ContentOf(req)).Raised?
  {
    match Target(req)
    case ResearchProvider =>
      var reply :=
        if AutoOf(req) then CrewReply(ResearcherRole, ContentOf(req), true, map[], sv.fetch, sv.kickoff)
        else CrewReply(ResearcherRole, ContentOf(req), false, ManualOptions(req), sv.fetch, sv.kickoff);
      (match reply
       case Raised(e) => Raised(e)
       case Ok(crew) => Ok(Researched(crew)))
    case AnalysisProvider =>
      var inp := AnalysisInput(req);
      Ok(Analyzed(AnalyzerReply(AnalyzerName, AnalyzerCapabilities, cfg.setup, inp, sv.invoke, sv.graphFault(inp))))
    case ExpertProvider =>
      Ok(Advised(ExpertReply(ExpertName, ExpertExpertise, cfg.runner, log, ContentOf(req), ExpertContext(req), sv.run, sv.post)))
  }

  /** The expert's log after routing `req`: one line more when it went to the
      expert. */
  function RouteLog(req: Request, r: Attempt<Routed>, log: seq<string>): seq<string>
  {
    if r.Ok? && r.value.Advised? then log + [LogLine(ContentOf(req), r.value.advice)] else log
  }

  /** A router: the reply to a request for a given expert log. */
  type Router = (Request, seq<string>) -> Attempt<Routed>

  /** `route_task` as a router, for providers built as `cfg` says. */
  function RouterOf(cfg: Config, sv: Services): Router
  {
    (req: Request, log: seq<string>) => RouteReply(req, cfg, sv, log)
  }

  /** A router whose replies come from the provider each request names. */
  ghost predicate Faithful(route: Router)
  {
    forall req: Request, log: seq<string> {:trigger route(req, log)} ::
      route(req, log).Ok? ==> ProviderOf(route(req, log).value) == Target(req)
  }

  /** `route` answers every request as `route_task` does for providers built
      as `cfg` says. The equations are only brought in where `RouteReply`
      itself is mentioned, so that proofs about a stage can treat the router
      as given. */
  ghost predicate Routes(route: Router, cfg: Config, sv: Services)
  {
    forall req: Request, log: seq<string> {:trigger RouteReply(req, cfg, sv, log)} ::
      route(req, log) == RouteReply(req, cfg, sv, log)
  }

  /** `route_task` itself is such a router. */
  lemma RouterOfRoutes(cfg: Config, sv: Services)
    ensures Routes(RouterOf(cfg, sv), cfg, sv)
  {
    forall req: Request, log: seq<string>
      ensures RouterOf(cfg, sv)(req, log) == RouteReply(req, cfg, sv, log)
    {
    }
  }

  /** The replies of `route_task` come from the provider each request names. */
  lemma RoutesFaithful(route: Router, cfg: Config, sv: Services)
    requires Routes(route, cfg, sv)
    ensures Faithful(route)
  {
    forall req: Request, log: seq<string>
      ensures route(req, log).Ok? ==> ProviderOf(route(req, log).value) == Target(req)
    {
      assert route(req, log) == RouteReply(req, cfg, sv, log);
    }
  }

  /** A request of any type other than the three known ones is a general
      query: it goes to the expert without a context, even if it carries one. */
  lemma GeneralRequestsGoToExpert(req: Request, cfg: Config, sv: Services, log: seq<string>)
    requires req.kind == GeneralKind
    ensures RouteReply(req, cfg, sv, log) ==
              Ok(Advised(ExpertReply(ExpertName, ExpertExpertise, cfg.runner, log, ContentOf(req), "", sv.run, sv.post)))
  {
  }

  // ---------------------------------------------------------------------------
  // Stage contents

  /** The `KeyError` of a lookup of the missing key "content". */
  const MissingContent: string := "'content'"

  /** `result["result"]["content"]`: the content of a provider's result, or
      the `KeyError` raised when it has none. */
  function ContentOfReply(r: Routed): (c: Attempt<Content>)
    ensures c.Raised? ==> c.error == MissingContent
    ensures c.Ok? <==> ((r.Researched? && r.crew.CrewDone?) || (r.Analyzed? && r.analysis.AnalyzerDone?) ||
                        (r.Advised? && r.advice.ExpertDone?))
  {
    match r
    case Researched(crew) => if crew.CrewDone? then Ok(TextContent(crew.content)) else Raised(MissingContent)
    case Analyzed(a) => if a.AnalyzerDone? then Ok(ReportContent(a.content)) else Raised(MissingContent)
    case Advised(e) => if e.ExpertDone? then Ok(TextContent(e.content)) else Raised(MissingContent)
  }

  /** A content as an f-string shows it. */
  function Show(c: Content): string
  {
    match c
    case TextContent(s) => s
    case ReportContent(r) => ShowReport(r)
  }

  // ---------------------------------------------------------------------------
  // The collaborative pipeline, as a function of values

  // The texts of the pipeline.
  const ResearchPrompt: string := "Research this topic comprehensively: "
  const AnalysisPrompt: string := "Analyze the research findings and identify key patterns and insights"
  const ExpertPrompt: string :=
    "Based on the research and analysis, provide expert recommendations and strategic insights for: "
  const FindingsKey: string := "research_findings"
  const FindingsLabel: string := "Research findings: "
  const AnalysisLabel: string := "\n\nAnalysis results: "
  const StartMessage: string := "Starting collaborative task execution"
  const DoneMessage: string := "Collaborative task execution completed"
  const ResearchStatus: string := "Research agent gathering information"
  const AnalysisStatus: string := "Analysis agent processing research findings"
  const ExpertStatus: string := "Expert agent providing recommendations"
  const ResearchEntry: string := "Research completed by "
  const AnalysisEntry: string := "Analysis completed by "
  const ExpertEntry: string := "Expert recommendations provided by "
  const ResearchArtifact: string := "Research Findings"
  const AnalysisArtifact: string := "Analysis Results"
  const ExpertArtifact: string := "Expert Recommendations"
  const ResearchArtifactDescription: string := "Comprehensive research findings from the research agent"
  const AnalysisArtifactDescription: string := "Data analysis and pattern recognition results"
  const ExpertArtifactDescription: string := "Strategic recommendations and expert insights"
  const PlainText: string := "text/plain"

  function ResearchRequest(description: string): Request
  {
    Request(ResearchKind, Some(ResearchPrompt + description), Some(Flag(true)), map[], None, None)
  }

  function AnalysisRequest(researchContent: string): Request
  {
    Request(AnalysisKind, Some(AnalysisPrompt), None, map[], Some(Entries([(FindingsKey, researchContent)])), None)
  }

  function ExpertRequest(description: string, researchContent: string, analysisContent: string): Request
  {
    Request(ExpertQueryKind, Some(ExpertPrompt + description), None, map[], None,
            Some(FindingsLabel + researchContent + AnalysisLabel + analysisContent))
  }

  // Stage i of the pipeline: 0 research, 1 analysis, 2 expert advice.

  function StageAgent(i: nat): Agent
  {
    if i == 0 then ResearchProvider else if i == 1 then AnalysisProvider else ExpertProvider
  }

  function StatusMessage(i: nat): string
  {
    if i == 0 then ResearchStatus else if i == 1 then AnalysisStatus else ExpertStatus
  }

  function EntryPrefix(i: nat): string
  {
    if i == 0 then ResearchEntry else if i == 1 then AnalysisEntry else ExpertEntry
  }

  function ArtifactName(i: nat): string
  {
    if i == 0 then ResearchArtifact else if i == 1 then AnalysisArtifact else ExpertArtifact
  }

  function ArtifactDescription(i: nat): string
  {
    if i == 0 then ResearchArtifactDescription
    else if i == 1 then AnalysisArtifactDescription
    else ExpertArtifactDescription
  }

  /** The request of stage `i`, built from the contents of the stages before
      it; it names the provider of that stage. */
  function StageRequest(i: nat, description: string, done: seq<(Routed, Content)>): (req: Request)
    requires i < 3 && |done| == i
    ensures Target(req) == StageAgent(i)
  {
    if i == 0 then ResearchRequest(description)
    else if i == 1 then AnalysisRequest(Show(done[0].1))
    else ExpertRequest(description, Show(done[0].1), Show(done[1].1))
  }

  /** An entry of the caller's conversation list: the request and its reply. */
  datatype Turn = Turn(request: Request, reply: Routed)

  /** One stage: its reply and content (or the exception that ends the
      pipeline), the task afterwards, the conversation entries it added and
      the expert's log afterwards. */
  datatype StageRun = StageRun(outcome: Attempt<(Routed, Content)>, task: TaskView, turns: seq<Turn>,
                               expertLog: seq<string>)

  /** Stage `i` after the stages before it produced `done`: the working
      status, the routed request, a conversation entry, a history entry, then
      the content as an artifact. */
  function Stage(i: nat, description: string, done: seq<(Routed, Content)>, t: TaskView, route: Router,
                 now: string, log: seq<string>): (s: StageRun)
    requires i < 3 && |done| == i
    ensures s.task.id == t.id && s.task.message == t.message && s.task.sessionId == t.sessionId
    ensures s.task.status == TaskStatus(Working, StatusMessage(i), now)
    ensures Indexed(t.artifacts) ==> Indexed(s.task.artifacts)
    ensures |s.turns| <= 1 && |s.task.history| == |t.history| + |s.turns|
    ensures |s.task.artifacts| == |t.artifacts| + (if s.outcome.Ok? then 1 else 0)
  {
    var req := StageRequest(i, description, done);
    var t1 := WithStatus(t, Working, StatusMessage(i), now);
    match route(req, log)
    case Raised(e) => StageRun(Raised(e), t1, [], log)
    case Ok(reply) =>
      var log1 := RouteLog(req, Ok(reply), log);
      var t2 := WithHistory(t1, HistoryEntry("agent", EntryPrefix(i) + AgentOf(reply), now));
      match ContentOfReply(reply)
      case Raised(e) => StageRun(Raised(e), t2, [Turn(req, reply)], log1)
      case Ok(c) =>
        StageRun(Ok((reply, c)), WithArtifact(t2, ArtifactName(i), ArtifactDescription(i), c, PlainText),
                 [Turn(req, reply)], log1)
  }

  /** A stage that produced content added exactly one turn, one history
      entry naming the provider and one artifact at the next position, and
      under a router whose replies come from the provider each request names,
      that provider is the stage's own and the expert's content is its
      answer; a stage that raised added no artifact. */
  lemma StageEffects(i: nat, description: string, done: seq<(Routed, Content)>, t: TaskView, route: Router,
                     now: string, log: seq<string>)
    requires i < 3 && |done| == i
    ensures var s := Stage(i, description, done, t, route, now, log);
            var req := StageRequest(i, description, done);
            (s.outcome.Ok? ==>
              var reply := s.outcome.value.0;
              && s.turns == [Turn(req, reply)]
              && s.task.history == t.history + [HistoryEntry("agent", EntryPrefix(i) + AgentOf(reply), now)]
              && s.task.artifacts ==
                   t.artifacts + [Artifact(ArtifactName(i), ArtifactDescription(i), s.outcome.value.1, PlainText, |t.artifacts|)]
              && ContentOfReply(reply) == Ok(s.outcome.value.1)
              && (Faithful(route) ==> ProviderOf(reply) == StageAgent(i))
              && (Faithful(route) && i == 2 ==>
                    reply.Advised? && reply.advice.ExpertDone? && Show(s.outcome.value.1) == reply.advice.content)) &&
            (s.outcome.Raised? ==> s.task.artifacts == t.artifacts)
  {
  }

  /** Stage `i` step by step: the working status, then either the router's
      exception, or the turn and history entry followed by either the missing
      content or the artifact. */
  lemma StageSteps(i: nat, description: string, done: seq<(Routed, Content)>, t: TaskView, route: Router,
                   now: string, log: seq<string>)
    requires i < 3 && |done| == i
    ensures var s := Stage(i, description, done, t, route, now, log);
            var req := StageRequest(i, description, done);
            var t1 := WithStatus(t, Working, StatusMessage(i), now);
            && (route(req, log).Raised? ==> s == StageRun(Raised(route(req, log).error), t1, [], log))
            && (route(req, log).Ok? ==>
                  var reply := route(req, log).value;
                  var t2 := WithHistory(t1, HistoryEntry("agent", EntryPrefix(i) + AgentOf(reply), now));
                  var log1 := RouteLog(req, Ok(reply), log);
                  && (ContentOfReply(reply).Raised? ==>
                        s == StageRun(Raised(ContentOfReply(reply).error), t2, [Turn(req, reply)], log1))
                  && (ContentOfReply(reply).Ok? ==>
                        s == StageRun(Ok((reply, ContentOfReply(reply).value)),
                                      WithArtifact(t2, ArtifactName(i), ArtifactDescription(i),
                                                   ContentOfReply(reply).value, PlainText),
                                      [Turn(req, reply)], log1)))
  {
  }

  /** The three replies and the final output of a completed pipeline. */
  datatype Stages = Stages(research: Routed, analysis: Routed, expert: Routed, finalOutput: string)

  datatype PipelineRun = PipelineRun(outcome: Attempt<Stages>, task: TaskView, turns: seq<Turn>,
                                     expertLog: seq<string>)

  /** The task the pipeline creates, once it is working. */
  function StartedTask(description: string, freshId: string, freshSession: string, now: string): TaskView
  {
    WithStatus(NewTask(freshId, None, freshSession, description, now), Working, StartMessage, now)
  }

  /** The pipeline from stage `i` on, after the stages before it produced
      `done`, left the task `t`, the conversation entries `turns` and the
      expert log `log`. */
  function Continue(i: nat, description: string, route: Router, now: string, done: seq<(Routed, Content)>,
                    t: TaskView, turns: seq<Turn>, log: seq<string>): PipelineRun
    requires i <= 3 && |done| == i
    decreases 3 - i
  {
    if i == 3 then
      PipelineRun(Ok(Stages(done[0].0, done[1].0, done[2].0, Show(done[2].1))),
                  WithStatus(t, Completed, DoneMessage, now), turns, log)
    else
      var s := Stage(i, description, done, t, route, now, log);
      if s.outcome.Raised? then PipelineRun(Raised(s.outcome.error), s.task, turns + s.turns, s.expertLog)
      else Continue(i + 1, description, route, now, done + [s.outcome.value], s.task, turns + s.turns, s.expertLog)
  }

  /** What `collaborative_task_execution(description)` does, for an expert
      log `log` before it: the outcome, the created task at the end, the
      conversation entries added and the expert's log afterwards. */
  function Collaborate(description: string, route: Router, freshId: string, freshSession: string,
                       now: string, log: seq<string>): PipelineRun
  {
    Continue(0, description, route, now, [], StartedTask(description, freshId, freshSession, now), [], log)
  }

  /** A run from stage `i` < 3 that completes passed stage `i` with content. */
  lemma ContinueOk(i: nat, description: string, route: Router, now: string, done: seq<(Routed, Content)>,
                   t: TaskView, turns: seq<Turn>, log: seq<string>)
    requires i < 3 && |done| == i
    requires Continue(i, description, route, now, done, t, turns, log).outcome.Ok?
    ensures var s := Stage(i, description, done, t, route, now, log);
            && s.outcome.Ok?
            && Continue(i, description, route, now, done, t, turns, log) ==
               Continue(i + 1, description, route, now, done + [s.outcome.value], s.task, turns + s.turns, s.expertLog)
  {
  }

  /** A run from stage `i` leaves the task `working`, with one
      history entry per turn added and no more artifacts than stages
      completed, each at its own position. */
  lemma {:induction false} ContinueRaised(i: nat, description: string, route: Router, now: string,
                                          done: seq<(Routed, Content)>, t: TaskView, turns: seq<Turn>, log: seq<string>)
    requires i <= 3 && |done| == i && Indexed(t.artifacts)
    requires Continue(i, description, route, now, done, t, turns, log).outcome.Raised?
    decreases 3 - i
    ensures var run := Continue(i, description, route, now, done, t, turns, log);
            && run.task.status.state == Working
            && |run.turns| >= |turns| && |run.task.history| == |t.history| + (|run.turns| - |turns|)
            && |run.turns| - |turns| <= 3 - i
            && |run.task.artifacts| < |t.artifacts| + 3 - i && Indexed(run.task.artifacts)
  {
    var s := Stage(i, description, done, t, route, now, log);
    if s.outcome.Ok? {
      ContinueRaised(i + 1, description, route, now, done + [s.outcome.value], s.task, turns + s.turns, s.expertLog);
    }
  }

  /** A pipeline that raises leaves its task `working`, never `failed`, with
      one history entry per conversation turn and its artifacts still at
      their own positions. */
  lemma PipelineFailureStaysWorking(description: string, route: Router, freshId: string,
                                    freshSession: string, now: string, log: seq<string>)
    requires Collaborate(description, route, freshId, freshSession, now, log).outcome.Raised?
    ensures var run := Collaborate(description, route, freshId, freshSession, now, log);
            && run.task.status.state == Working
            && |run.task.history| == |run.turns| <= 3
            && |run.task.artifacts| < 3 && Indexed(run.task.artifacts)
  {
    var t0 := StartedTask(description, freshId, freshSession, now);
    assert t0.history == [] && t0.artifacts == [];
    ContinueRaised(0, description, route, now, [], t0, [], log);
  }

  /** The state after the first `i` stages all produced content, starting
      from the task `t0`: one history entry, one artifact and one turn per
      stage, in stage order, each naming that stage's provider, holding its
      content and carrying the request built from the contents before it. */
  ghost predicate Reached(i: nat, description: string, now: string, t0: TaskView, done: seq<(Routed, Content)>,
                          t: TaskView, turns: seq<Turn>)
  {
    && i <= 3 && |done| == i
    && t.id == t0.id && t.message == t0.message && t.sessionId == t0.sessionId
    && |t.history| == i && |t.artifacts| == i && |turns| == i
    && forall k :: 0 <= k < i ==>
         && ProviderOf(done[k].0) == StageAgent(k)
         && t.history[k] == HistoryEntry("agent", EntryPrefix(k) + AgentOf(done[k].0), now)
         && t.artifacts[k] == Artifact(ArtifactName(k), ArtifactDescription(k), done[k].1, PlainText, k)
         && turns[k] == Turn(StageRequest(k, description, done[..k]), done[k].0)
  }

  /** One more stage with content extends what was reached by one. */
  lemma ReachedStep(i: nat, description: string, route: Router, now: string, t0: TaskView,
                    done: seq<(Routed, Content)>, t: TaskView, turns: seq<Turn>, log: seq<string>)
    requires Faithful(route) && i < 3 && Reached(i, description, now, t0, done, t, turns)
    requires Stage(i, description, done, t, route, now, log).outcome.Ok?
    ensures var s := Stage(i, description, done, t, route, now, log);
            Reached(i + 1, description, now, t0, done + [s.outcome.value], s.task, turns + s.turns)
  {
    var s := Stage(i, description, done, t, route, now, log);
    StageEffects(i, description, done, t, route, now, log);
    var done' := done + [s.outcome.value];
    forall k | 0 <= k < i + 1
      ensures done'[..k] == if k < i then done[..k] else done
    {
    }
  }

  /** A run from stage `i` that completes, started from a reached state,
      goes on to reach the end: it equals the run from stage 3 in a state
      where all three stages produced content. */
  lemma {:induction false} ContinueReaches(i: nat, description: string, route: Router, now: string, t0: TaskView,
                                          done: seq<(Routed, Content)>, t: TaskView, turns: seq<Turn>, log: seq<string>)
    requires Faithful(route) && Reached(i, description, now, t0, done, t, turns)
    requires Continue(i, description, route, now, done, t, turns, log).outcome.Ok?
    ensures exists done': seq<(Routed, Content)>, t': TaskView, turns': seq<Turn>, log': seq<string> ::
              && Reached(3, description, now, t0, done', t', turns')
              && Continue(i, description, route, now, done, t, turns, log) ==
                 Continue(3, description, route, now, done', t', turns', log')
    decreases 3 - i
  {
    if i < 3 {
      ContinueOk(i, description, route, now, done, t, turns, log);
      var s := Stage(i, description, done, t, route, now, log);
      ReachedStep(i, description, route, now, t0, done, t, turns, log);
      ContinueReaches(i + 1, description, route, now, t0, done + [s.outcome.value], s.task, turns + s.turns, s.expertLog);
    } else {
      assert Reached(3, description, now, t0, done, t, turns);
    }
  }

  /** The three stages' requests, built from the contents before each. */
  lemma StageRequests(description: string, done: seq<(Routed, Content)>)
    requires |done| == 3
    ensures StageRequest(0, description, done[..0]) == ResearchRequest(description)
    ensures StageRequest(1, description, done[..1]) == AnalysisRequest(Show(done[0].1))
    ensures StageRequest(2, description, done[..2]) == ExpertRequest(description, Show(done[0].1), Show(done[1].1))
  {
    assert done[..1][0] == done[0];
    assert done[..2][0] == done[0] && done[..2][1] == done[1];
  }

  /** The state all three stages reached, spelled out stage by stage. */
  lemma ReachedAll(description: string, now: string, t0: TaskView, done: seq<(Routed, Content)>,
                   t: TaskView, turns: seq<Turn>)
    requires Reached(3, description, now, t0, done, t, turns)
    ensures t.id == t0.id && t.message == t0.message
    ensures done[0].0.Researched? && done[1].0.Analyzed? && done[2].0.Advised?
    ensures |t.history| == 3
    ensures t.history[0].content == ResearchEntry + AgentOf(done[0].0)
    ensures t.history[1].content == AnalysisEntry + AgentOf(done[1].0)
    ensures t.history[2].content == ExpertEntry + AgentOf(done[2].0)
    ensures |t.artifacts| == 3 && Indexed(t.artifacts)
    ensures t.artifacts[0].name == ResearchArtifact && t.artifacts[0].content == done[0].1
    ensures t.artifacts[1].name == AnalysisArtifact && t.artifacts[1].content == done[1].1
    ensures t.artifacts[2].name == ExpertArtifact && t.artifacts[2].content == done[2].1
    ensures |turns| == 3
    ensures turns[0] == Turn(ResearchRequest(description), done[0].0)
    ensures turns[1] == Turn(AnalysisRequest(Show(done[0].1)), done[1].0)
    ensures turns[2] == Turn(ExpertRequest(description, Show(done[0].1), Show(done[1].1)), done[2].0)
  {
    StageRequests(description, done);
    assert ProviderOf(done[0].0) == StageAgent(0);
    assert ProviderOf(done[1].0) == StageAgent(1);
    assert ProviderOf(done[2].0) == StageAgent(2);
  }

  /** A completed pipeline leaves its task completed with three history
      entries and three artifacts at positions 0, 1, 2; the conversation grew
      by the research, analysis and expert turns in that order; each stage's
      content is threaded into the next request; the final output is the
      expert's content. */
  lemma PipelineCompletes(description: string, route: Router, freshId: string, freshSession: string,
                          now: string, log: seq<string>)
    requires Faithful(route)
    requires Collaborate(description, route, freshId, freshSession, now, log).outcome.Ok?
    ensures var run := Collaborate(description, route, freshId, freshSession, now, log);
            var out := run.outcome.value;
            && run.task.id == freshId && run.task.message == description
            && run.task.status == TaskStatus(Completed, DoneMessage, now)
            && out.research.Researched? && out.analysis.Analyzed? && out.expert.Advised?
            && |run.task.history| == 3
            && run.task.history[0].content == ResearchEntry + AgentOf(out.research)
            && run.task.history[1].content == AnalysisEntry + AgentOf(out.analysis)
            && run.task.history[2].content == ExpertEntry + AgentOf(out.expert)
            && |run.task.artifacts| == 3 && Indexed(run.task.artifacts)
            && run.task.artifacts[0].name == ResearchArtifact
            && run.task.artifacts[1].name == AnalysisArtifact
            && run.task.artifacts[2].name == ExpertArtifact
            && |run.turns| == 3
            && run.turns[0] == Turn(ResearchRequest(description), out.research)
            && run.turns[1] == Turn(AnalysisRequest(Show(run.task.artifacts[0].content)), out.analysis)
            && run.turns[2] == Turn(ExpertRequest(description, Show(run.task.artifacts[0].content),
                                                  Show(run.task.artifacts[1].content)), out.expert)
            && out.finalOutput == Show(run.task.artifacts[2].content)
  {
    var t0 := StartedTask(description, freshId, freshSession, now);
    ContinueReaches(0, description, route, now, t0, [], t0, [], log);
    var done: seq<(Routed, Content)>, t: TaskView, turns: seq<Turn>, log': seq<string> :|
      && Reached(3, description, now, t0, done, t, turns)
      && Collaborate(description, route, freshId, freshSession, now, log) ==
         Continue(3, description, route, now, done, t, turns, log');
    ReachedAll(description, now, t0, done, t, turns);
  }

  // ---------------------------------------------------------------------------
  // Passing context between providers (coordinate_agents)

  const ErrorNote: string := "Error occurred: "
  const SharedLabel: string := "Analysis result: "
  const RecentResearch: string := "recent_research"

  /** The analysis text shared with the expert: the content, or the error. */
  function AnalysisText(a: AnalyzerResult): string
  {
    match a
    case AnalyzerDone(report, _, _, _) => ShowReport(report)
    case AnalyzerFailed(e, _, _) => ErrorNote + e
  }

  /** The summary as written: the content is the report dictionary, whose
      length is its number of keys, so only an error text is ever shortened. */
  function SummaryAsWritten(a: AnalyzerResult): (s: string)
    ensures a.AnalyzerDone? ==> s == AnalysisText(a)
    ensures a.AnalyzerFailed? ==> s == Summary(a)
  {
    match a
    case AnalyzerDone(report, _, _, _) => ShowReport(report)
    case AnalyzerFailed(e, _, _) => Truncate(ErrorNote + e, 200)
  }

  /** A long analysis reaches the expert's log whole. */
  lemma SummaryAsWrittenUnbounded()
    ensures var a := AnalyzerDone(Report(seq(200, _ => 'x'), [], [], []), AnalyzerName, AnalyzerCapabilities, false);
            |SummaryAsWritten(a)| > 203
  {
    var long := seq(200, _ => 'x');
    var r := Report(long, [], [], []);
    assert |Quote(long)| == 202;
  }

  /** The summary as evidently intended: the analysis text cut to 200
      characters, with "..." marking a cut. The loop below shares this one;
      for a successful analysis the code as written shares the whole text
      (`SummaryAsWritten`). */
  function Summary(a: AnalyzerResult): (s: string)
    ensures |s| <= 203
    ensures s == AnalysisText(a) || (|AnalysisText(a)| > 200 && s == AnalysisText(a)[..200] + "...")
  {
    Truncate(AnalysisText(a), 200)
  }

  /** The state the loop passes on: the analyzer's state and the expert's log. */
  datatype Shared = Shared(analyzerState: map<string, string>, expertLog: seq<string>)

  datatype StepRun = StepRun(reply: Attempt<Routed>, shared: Shared)

  /** One request of the loop: route it, then share what it produced. */
  function CoordinateStep(req: Request, route: Router, sh: Shared): (r: StepRun)
    // a routing exception escapes before anything is shared
    ensures route(req, sh.expertLog).Raised? ==> r == StepRun(route(req, sh.expertLog), sh)
    ensures r.reply.Ok? ==> r.reply == route(req, sh.expertLog)
    // the expert log only grows: by the expert's own line, or by the shared summary
    ensures sh.expertLog <= r.shared.expertLog
    ensures r.reply.Ok? && r.reply.value.Analyzed? ==>
              r.shared.expertLog == sh.expertLog + [SharedLabel + Summary(r.reply.value.analysis)]
    // only research content reaches the analyzer's state, under `recent_research`
    ensures r.shared.analyzerState ==
              if r.reply.Ok? && r.reply.value.Researched? && r.reply.value.crew.CrewDone? then sh.analyzerState[RecentResearch := r.reply.value.crew.content]
              else sh.analyzerState
    // a failed research reply has no `content` key
    ensures (route(req, sh.expertLog).Ok? && route(req, sh.expertLog).value.Researched? &&
             route(req, sh.expertLog).value.crew.CrewFailed?) ==> r.reply == Raised(MissingContent)
  {
    match route(req, sh.expertLog)
    case Raised(e) => StepRun(Raised(e), sh)
    case Ok(reply) =>
      var sh1 := sh.(expertLog := RouteLog(req, Ok(reply), sh.expertLog));
      match reply
      case Researched(crew) =>
        if crew.CrewDone? then StepRun(Ok(reply), sh1.(analyzerState := sh1.analyzerState[RecentResearch := crew.content]))
        else StepRun(Raised(MissingContent), sh1)
      case Analyzed(a) => StepRun(Ok(reply), sh1.(expertLog := sh1.expertLog + [SharedLabel + Summary(a)]))
      case Advised(_) => StepRun(Ok(reply), sh1)
  }

  datatype CoordinateRun = CoordinateRun(outcome: Attempt<seq<Routed>>, shared: Shared)

  /** What `coordinate_agents(tasks)` returns, or the exception that ends it,
      with the shared state afterwards. */
  function Coordinate(reqs: seq<Request>, route: Router, sh: Shared): (run: CoordinateRun)
    decreases |reqs|
    ensures run.outcome.Ok? ==> |run.outcome.value| == |reqs|
    ensures sh.expertLog <= run.shared.expertLog
  {
    if reqs == [] then CoordinateRun(Ok([]), sh)
    else
      var step := CoordinateStep(reqs[0], route, sh);
      if step.reply.Raised? then CoordinateRun(Raised(step.reply.error), step.shared)
      else Prepend([step.reply.value], Coordinate(reqs[1..], route, step.shared))
  }

  /** Results already collected, in front of the rest of a run. */
  function Prepend(done: seq<Routed>, run: CoordinateRun): CoordinateRun
  {
    if run.outcome.Ok? then CoordinateRun(Ok(done + run.outcome.value), run.shared) else run
  }

  /** Nothing collected leaves a run as it is. */
  lemma PrependNil(run: CoordinateRun)
    ensures Prepend([], run) == run
  {
    if run.outcome.Ok? {
      assert [] + run.outcome.value == run.outcome.value;
    }
  }

  /** Collecting in two steps is collecting once. */
  lemma PrependAppend(a: seq<Routed>, b: seq<Routed>, run: CoordinateRun)
    ensures Prepend(a, Prepend(b, run)) == Prepend(a + b, run)
  {
    if run.outcome.Ok? {
      assert a + (b + run.outcome.value) == (a + b) + run.outcome.value;
    }
  }

  /** The run from request `i` on is its first step, then the rest. */
  lemma CoordinateFrom(reqs: seq<Request>, i: nat, route: Router, sh: Shared)
    requires i < |reqs|
    ensures var step := CoordinateStep(reqs[i], route, sh);
            Coordinate(reqs[i..], route, sh) ==
              if step.reply.Raised? then CoordinateRun(Raised(step.reply.error), step.shared)
              else Prepend([step.reply.value], Coordinate(reqs[i + 1..], route, step.shared))
  {
    assert reqs[i..][0] == reqs[i] && reqs[i..][1..] == reqs[i + 1..];
  }

  /** The results come back one per request, in order, each from the
      provider the request names. */
  lemma {:induction false} CoordinateKeepsOrder(reqs: seq<Request>, route: Router, sh: Shared)
    requires Faithful(route)
    ensures var run := Coordinate(reqs, route, sh);
            run.outcome.Ok? ==>
              |run.outcome.value| == |reqs| &&
              forall i :: 0 <= i < |reqs| ==> ProviderOf(run.outcome.value[i]) == Target(reqs[i])
  {
    if reqs != [] {
      var step := CoordinateStep(reqs[0], route, sh);
      if step.reply.Ok? {
        CoordinateKeepsOrder(reqs[1..], route, step.shared);
        var run := Coordinate(reqs, route, sh);
        if run.outcome.Ok? {
          var rest := Coordinate(reqs[1..], route, step.shared);
          assert run.outcome.value == [step.reply.value] + rest.outcome.value;
          forall i | 0 <= i < |reqs|
            ensures ProviderOf(run.outcome.value[i]) == Target(reqs[i])
          {
            if i > 0 {
              assert run.outcome.value[i] == rest.outcome.value[i - 1];
              assert reqs[i] == reqs[1..][i - 1];
            }
          }
        }
      }
    }
  }

  /** Only research results reach the analyzer's state: a run without
      research requests leaves it as it was. */
  lemma {:induction false} OnlyResearchSharesWithAnalyzer(reqs: seq<Request>, route: Router, sh: Shared)
    requires Faithful(route)
    requires forall i :: 0 <= i < |reqs| ==> Target(reqs[i]) != ResearchProvider
    ensures Coordinate(reqs, route, sh).shared.analyzerState == sh.analyzerState
  {
    if reqs != [] {
      var step := CoordinateStep(reqs[0], route, sh);
      assert Target(reqs[0]) != ResearchProvider;
      assert step.shared.analyzerState == sh.analyzerState;
      if step.reply.Ok? {
        assert forall i :: 0 <= i < |reqs[1..]| ==> reqs[1..][i] == reqs[i + 1];
        OnlyResearchSharesWithAnalyzer(reqs[1..], route, step.shared);
      }
    }
  }

  // ---------------------------------------------------------------------------
  // The orchestrator object

  /** A second update of the same key replaces the first. */
  lemma UpdateTwice<K, V>(m: map<K, V>, k: K, a: V, b: V)
    ensures m[k := a][k := b] == m[k := b]
  {
  }

  lemma AppendAssoc<T>(a: seq<T>, b: seq<T>, c: seq<T>)
    ensures (a + b) + c == a + (b + c)
  {
  }

  /** The caller's conversation list. */
  class TurnLog {
    var turns: seq<Turn>

    constructor()
      ensures turns == []
    {
      turns := [];
    }
  }

  /** The dictionary `collaborative_task_execution` returns. */
  datatype PipelineOutput = PipelineOutput(stages: Stages, conversation: TurnLog, taskId: string)

  class Orchestrator {
    const analyzer: Analyzer
    const expert: Expert
    /** The registry (`self.tasks`). */
    var tasks: map<string, Task>

    /** The providers are the ones built here, and every task is filed under
        its own id with its artifacts at their own positions. */
    ghost predicate Valid()
      reads this, tasks.Values
    {
      && analyzer.name == AnalyzerName && analyzer.capabilities == AnalyzerCapabilities
      && expert.name == ExpertName && expert.expertise == ExpertExpertise
      && forall id :: id in tasks ==> tasks[id].id == id && Indexed(tasks[id].artifacts)
    }

    /** The registry as values. */
    function Registry(): map<string, TaskView>
      reads this, tasks.Values
    {
      map id | id in tasks :: tasks[id].View()
    }

    function Cfg(): Config
    {
      Config(analyzer.setup, expert.runner)
    }

    constructor(setup: Setup, runner: bool)
      ensures Valid() && tasks == map[] && fresh(analyzer) && fresh(expert)
      ensures analyzer.setup == setup && analyzer.state == map[]
      ensures expert.runner == runner && expert.contextHistory == []
    {
      analyzer := new Analyzer(AnalyzerName, AnalyzerCapabilities, setup);
      expert := new Expert(ExpertName, ExpertExpertise, runner);
      tasks := map[];
    }

    /** `create_task(message, session_id)`, with the id and the fallback
        session id supplied by the caller; the id is a fresh one, as a
        random UUID is taken to be, so a new task joins the registry and no
        earlier task is replaced. */
    method CreateTask(message: string, sessionId: Option<string>, freshId: string, freshSession: string, now: string)
      returns (task: Task)
      requires Valid() && freshId !in tasks
      modifies this
      ensures Valid() && fresh(task) && tasks == old(tasks)[freshId := task]
      ensures tasks.Keys == old(tasks).Keys + {freshId}
      ensures Registry() == old(Registry())[freshId := NewTask(freshId, sessionId, freshSession, message, now)]
    {
      task := new Task(freshId, sessionId, freshSession, message, now);
      tasks := tasks[freshId := task];
    }

    /** `update_task_status(id, state, message)`: any state is accepted; an
        unknown id changes nothing. */
    method UpdateTaskStatus(id: string, state: string, message: string, now: string)
      requires Valid()
      modifies tasks.Values
      ensures Valid()
      ensures Registry() == if id in old(tasks) then old(Registry())[id := WithStatus(old(Registry())[id], state, message, now)]
                            else old(Registry())
    {
      if id in tasks {
        tasks[id].status := TaskStatus(state, message, now);
      }
    }

    /** `add_task_history(id, entry)` */
    method AddTaskHistory(id: string, entry: HistoryEntry)
      requires Valid()
      modifies tasks.Values
      ensures Valid()
      ensures Registry() == if id in old(tasks) then old(Registry())[id := WithHistory(old(Registry())[id], entry)]
                            else old(Registry())
    {
      if id in tasks {
        tasks[id].history := tasks[id].history + [entry];
      }
    }

    /** `add_task_artifact(id, artifact)`: the artifact gets the next index. */
    method AddTaskArtifact(id: string, name: string, description: string, content: Content, kind: string)
      requires Valid()
      modifies tasks.Values
      ensures Valid()
      ensures Registry() == if id in old(tasks)
                            then old(Registry())[id := WithArtifact(old(Registry())[id], name, description, content, kind)]
                            else old(Registry())
    {
      if id in tasks {
        var task := tasks[id];
        task.artifacts := task.artifacts + [Artifact(name, description, content, kind, |task.artifacts|)];
      }
    }

    /** `get_task(id)` */
    method GetTask(id: string) returns (task: Task?)
      requires Valid()
      ensures task == null <==> id !in Registry()
      ensures task != null ==> task.View() == Registry()[id] && task.id == id
    {
      task := if id in tasks then tasks[id] else null;
    }

    /** `route_task(request)`: the reply is the one `RouteReply` describes,
        which `route` gives by `Routes`. */
    method RouteTask(req: Request, sv: Services, ghost route: Router) returns (r: Attempt<Routed>)
      requires Valid() && Routes(route, Cfg(), sv)
      modifies expert
      ensures Valid()
      ensures r == route(req, old(expert.contextHistory))
      ensures expert.contextHistory == RouteLog(req, r, old(expert.contextHistory))
    {
      ghost var expected := RouteReply(req, Cfg(), sv, expert.contextHistory);
      var content := ContentOf(req);
      if req.kind == ResearchKind {
        var outcome: Attempt<CrewResult>;
        if AutoOf(req) {
          outcome := ExecuteTask(ResearcherRole, content, true, map[], sv.fetch, sv.kickoff);
        } else {
          outcome := ExecuteTask(ResearcherRole, content, false, ManualOptions(req), sv.fetch, sv.kickoff);
        }
        if outcome.Raised? {
          return Raised(outcome.error);
        }
        r := Ok(Researched(outcome.value));
      } else if req.kind == AnalysisKind {
        var inp := AnalysisInput(req);
        var result := analyzer.ProcessInput(inp, sv.invoke, sv.graphFault(inp));
        r := Ok(Analyzed(result));
      } else if req.kind == ExpertQueryKind {
        var result := expert.RespondToQuery(content, ExpertContext(req), sv.run, sv.post);
        r := Ok(Advised(result));
      } else {
        var result := expert.RespondToQuery(content, "", sv.run, sv.post);
        r := Ok(Advised(result));
      }
    }

    /** The bookkeeping after stage `i` got `reply` to `req`: the turn, the
        history entry naming the provider, then the content as an artifact,
        or the `KeyError` when the reply has none. */
    method RecordStage(id: string, i: nat, req: Request, reply: Routed, now: string, log: TurnLog)
      returns (o: Attempt<(Routed, Content)>)
      requires Valid() && id in tasks
      modifies tasks.Values, log
      ensures Valid() && log.turns == old(log.turns) + [Turn(req, reply)]
      ensures var t2 := WithHistory(old(Registry())[id], HistoryEntry("agent", EntryPrefix(i) + AgentOf(reply), now));
              match ContentOfReply(reply)
              case Raised(e) => o == Raised(e) && Registry() == old(Registry())[id := t2]
              case Ok(c) =>
                o == Ok((reply, c)) &&
                Registry() == old(Registry())[id := WithArtifact(t2, ArtifactName(i), ArtifactDescription(i), c, PlainText)]
    {
      ghost var r0, t0 := Registry(), Registry()[id];
      log.turns := log.turns + [Turn(req, reply)];
      assert Registry() == r0;
      AddTaskHistory(id, HistoryEntry("agent", EntryPrefix(i) + AgentOf(reply), now));
      ghost var t2 := WithHistory(t0, HistoryEntry("agent", EntryPrefix(i) + AgentOf(reply), now));
      assert Registry() == r0[id := t2];
      var content := ContentOfReply(reply);
      if content.Raised? {
        return Raised(content.error);
      }
      AddTaskArtifact(id, ArtifactName(i), ArtifactDescription(i), content.value, PlainText);
      assert Registry() == r0[id := t2][id := WithArtifact(t2, ArtifactName(i), ArtifactDescription(i), content.value, PlainText)];
      UpdateTwice(r0, id, t2, WithArtifact(t2, ArtifactName(i), ArtifactDescription(i), content.value, PlainText));
      o := Ok((reply, content.value));
    }

    /** Stage `i` of the pipeline, on the task filed under `id`. */
    method RunStage(id: string, i: nat, description: string, done: seq<(Routed, Content)>, sv: Services,
                    ghost route: Router, now: string, log: TurnLog)
      returns (o: Attempt<(Routed, Content)>)
      requires Valid() && Routes(route, Cfg(), sv) && id in tasks && i < 3 && |done| == i
      modifies tasks.Values, expert, log
      ensures Valid()
      ensures var s := Stage(i, description, done, old(Registry())[id], route, now,
                             old(expert.contextHistory));
              && o == s.outcome && Registry() == old(Registry())[id := s.task]
              && log.turns == old(log.turns) + s.turns && expert.contextHistory == s.expertLog
    {
      ghost var r0, t0, log0 := Registry(), Registry()[id], expert.contextHistory;
      StageSteps(i, description, done, t0, route, now, log0);
      var req := StageRequest(i, description, done);
      UpdateTaskStatus(id, Working, StatusMessage(i), now);
      ghost var t1 := WithStatus(t0, Working, StatusMessage(i), now);
      assert Registry() == r0[id := t1];
      var routed := RouteTask(req, sv, route);
      if routed.Raised? {
        return Raised(routed.error);
      }
      assert Registry() == r0[id := t1];
      o := RecordStage(id, i, req, routed.value, now, log);
      ghost var r1 := r0[id := t1];
      assert r1[id] == t1;
      if o.Raised? {
        UpdateTwice(r0, id, t1, WithHistory(t1, HistoryEntry("agent", EntryPrefix(i) + AgentOf(routed.value), now)));
      } else {
        UpdateTwice(r0, id, t1, Stage(i, description, done, t0, route, now, log0).task);
      }
    }

    /** The stage blocks of `collaborative_task_execution` from stage `i`
        on, then the completed status; the caller's list, which held `prefix`
        before the run and `turns` since, receives the turns. */
    method RunStagesFrom(id: string, i: nat, description: string, done: seq<(Routed, Content)>, sv: Services,
                         ghost route: Router, now: string, log: TurnLog, ghost prefix: seq<Turn>, ghost turns: seq<Turn>)
      returns (o: Attempt<Stages>)
      requires Valid() && Routes(route, Cfg(), sv) && id in tasks && i <= 3 && |done| == i
      requires log.turns == prefix + turns
      modifies tasks.Values, expert, log
      ensures Valid()
      ensures var run := Continue(i, description, route, now, done, old(Registry())[id], turns,
                                  old(expert.contextHistory));
              && o == run.outcome && Registry() == old(Registry())[id := run.task]
              && log.turns == prefix + run.turns && expert.contextHistory == run.expertLog
      decreases 3 - i
    {
      if i == 3 {
        o := FinishPipeline(id, done, now);
        return;
      }
      ghost var r0 := Registry();
      ghost var s := Stage(i, description, done, r0[id], route, now, expert.contextHistory);
      var stage := RunStage(id, i, description, done, sv, route, now, log);
      AppendAssoc(prefix, turns, s.turns);
      if stage.Raised? {
        return Raised(stage.error);
      }
      assert Registry()[id] == s.task;
      o := RunStagesFrom(id, i + 1, description, done + [stage.value], sv, route, now, log, prefix, turns + s.turns);
      UpdateTwice(r0, id, s.task, Registry()[id]);
    }

    /** The end of `collaborative_task_execution`: the task is marked
        completed and the three replies are returned. */
    method FinishPipeline(id: string, done: seq<(Routed, Content)>, now: string) returns (o: Attempt<Stages>)
      requires Valid() && id in tasks && |done| == 3
      modifies tasks.Values
      ensures Valid()
      ensures o == Ok(Stages(done[0].0, done[1].0, done[2].0, Show(done[2].1)))
      ensures Registry() == old(Registry())[id := WithStatus(old(Registry())[id], Completed, DoneMessage, now)]
    {
      UpdateTaskStatus(id, Completed, DoneMessage, now);
      o := Ok(Stages(done[0].0, done[1].0, done[2].0, Show(done[2].1)));
    }

    /** The opening of `collaborative_task_execution`: the task is created
        under a fresh id and set to working. */
    method StartPipelineTask(description: string, freshId: string, freshSession: string, now: string)
      returns (id: string)
      requires Valid() && freshId !in tasks
      modifies this, tasks.Values
      ensures Valid() && id == freshId && id in tasks && fresh(tasks[id]) && tasks == old(tasks)[id := tasks[id]]
      ensures Registry() == old(Registry())[freshId := StartedTask(description, freshId, freshSession, now)]
    {
      ghost var r0 := Registry();
      var task := CreateTask(description, None, freshId, freshSession, now);
      id := task.id;
      assert Registry()[freshId].id == freshId;
      UpdateTaskStatus(id, Working, StartMessage, now);
      UpdateTwice(r0, freshId, NewTask(freshId, None, freshSession, description, now),
                  StartedTask(description, freshId, freshSession, now));
    }

    /** `collaborative_task_execution(description, conversation_history)`:
        research, analysis and expert advice in turn, each stage's content
        passed on to the next; the caller's list (or a new one) receives the
        turns. A stage without content raises and ends the run. */
    method CollaborativeTaskExecution(description: string, conversation: TurnLog?, sv: Services,
                                      ghost route: Router, freshId: string, freshSession: string, now: string)
      returns (r: Attempt<PipelineOutput>)
      requires Valid() && Routes(route, Cfg(), sv) && freshId !in tasks
      modifies this, tasks.Values, expert, conversation
      ensures Valid()
      ensures var run := Collaborate(description, route, freshId, freshSession, now, old(expert.contextHistory));
              && Registry() == old(Registry())[freshId := run.task]
              && expert.contextHistory == run.expertLog
              && (conversation != null ==> conversation.turns == old(conversation.turns) + run.turns)
              && (r.Raised? <==> run.outcome.Raised?)
              && (r.Raised? ==> r.error == run.outcome.error)
              && (r.Ok? ==> && r.value.stages == run.outcome.value && r.value.taskId == freshId
                            && (conversation != null ==> r.value.conversation == conversation)
                            && (conversation == null ==> r.value.conversation.turns == run.turns))
    {
      ghost var r0, log0 := Registry(), expert.contextHistory;
      ghost var t0 := StartedTask(description, freshId, freshSession, now);
      var log := conversation;
      if log == null {
        log := new TurnLog();
      }
      ghost var turns0 := log.turns;
      var id := StartPipelineTask(description, freshId, freshSession, now);
      assert log.turns == turns0 + [];
      var outcome := RunStagesFrom(id, 0, description, [], sv, route, now, log, turns0, []);
      UpdateTwice(r0, freshId, t0, Registry()[freshId]);
      r := if outcome.Raised? then Raised(outcome.error) else Ok(PipelineOutput(outcome.value, log, id));
    }

    /** One pass of the `coordinate_agents` loop: route the request, then
        share a research result with the analyzer or an analysis summary with
        the expert; a research reply without content raises `KeyError`. */
    method RouteAndShare(req: Request, sv: Services, ghost route: Router) returns (r: Attempt<Routed>)
      requires Valid() && Routes(route, Cfg(), sv)
      modifies analyzer, expert
      ensures Valid()
      ensures var step := CoordinateStep(req, route, Shared(old(analyzer.state), old(expert.contextHistory)));
              r == step.reply && analyzer.state == step.shared.analyzerState && expert.contextHistory == step.shared.expertLog
    {
      r := RouteTask(req, sv, route);
      if r.Raised? {
        return;
      }
      var reply := r.value;
      if reply.Researched? {
        if reply.crew.CrewFailed? {
          return Raised(MissingContent);
        }
        analyzer.UpdateState(RecentResearch, reply.crew.content);
      } else if reply.Analyzed? {
        var analysisContent := AnalysisText(reply.analysis);
        var summary := if |analysisContent| > 200 then analysisContent[..200] + "..." else analysisContent;
        expert.AddToContext(SharedLabel + summary);
      }
    }

    /** `coordinate_agents(requests)`: every request routed in order; a
        research result is shared with the analyzer, an analysis summary with
        the expert. */
    method CoordinateAgents(reqs: seq<Request>, sv: Services, ghost route: Router) returns (r: Attempt<seq<Routed>>)
      requires Valid() && Routes(route, Cfg(), sv)
      modifies analyzer, expert
      ensures var run := Coordinate(reqs, route, Shared(old(analyzer.state), old(expert.contextHistory)));
              r == run.outcome && analyzer.state == run.shared.analyzerState && expert.contextHistory == run.shared.expertLog
    {
      var results: seq<Routed> := [];
      var i := 0;
      assert reqs[0..] == reqs;
      PrependNil(Coordinate(reqs, route, Shared(analyzer.state, expert.contextHistory)));
      while i < |reqs|
        invariant 0 <= i <= |reqs| && Valid()
        invariant Prepend(results, Coordinate(reqs[i..], route, Shared(analyzer.state, expert.contextHistory))) ==
                  Coordinate(reqs, route, Shared(old(analyzer.state), old(expert.contextHistory)))
      {
        CoordinateFrom(reqs, i, route, Shared(analyzer.state, expert.contextHistory));
        var routed := RouteAndShare(reqs[i], sv, route);
        if routed.Raised? {
          return Raised(routed.error);
        }
        PrependAppend(results, [routed.value], Coordinate(reqs[i + 1..], route, Shared(analyzer.state, expert.contextHistory)));
        results := results + [routed.value];
        i := i + 1;
      }
      assert reqs[i..] == [] && results + [] == results;
      r := Ok(results);
    }
  }
}
