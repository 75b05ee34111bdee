/**
 * The task records of the orchestrator (orchestration/a2a_orchestrator.py):
 * the state names, a status, history entries, artifacts, and the task object
 * whose status, history and artifacts the orchestrator updates in place.
 */
module Tasks {
  import opened Common
  import AnalysisAgent

  // Message texts.
  const CreatedMessage: string := "Task created"

  // The state names of `TaskState`. Any string is accepted as a state.
  const Submitted: string := "submitted"
  const Working: string := "working"
  const InputRequired: string := "input-required"
  const Completed: string := "completed"
  const Canceled: string := "canceled"
  const Failed: string := "failed"
  const UnknownState: string := "unknown"

  /** `TaskStatus(state, message)`, stamped with the time it was made. */
  datatype TaskStatus = TaskStatus(state: string, message: string, timestamp: string)

  /** A history entry: `{"role", "content", "timestamp"}`. */
  datatype HistoryEntry = HistoryEntry(role: string, content: string, timestamp: string)

  /** What an artifact holds: a text, or the analyzer's content dictionary. */
  datatype Content = TextContent(text: string) | ReportContent(report: AnalysisAgent.Report)

  /** An artifact: `{"name", "description", "content", "type", "index"}`. */
  datatype Artifact = Artifact(name: string, description: string, content: Content, kind: string, index: nat)

  /** A task as a value: everything the task object holds. */
  datatype TaskView = TaskView(id: string, sessionId: string, message: string, status: TaskStatus,
                               history: seq<HistoryEntry>, artifacts: seq<Artifact>,
                               metadata: map<string, string>)

  /** Every artifact records its own position. */
  predicate Indexed(artifacts: seq<Artifact>)
  {
    forall i :: 0 <= i < |artifacts| ==> artifacts[i].index == i
  }

  /** `session_id or <fresh id>`: an absent or empty session id is replaced. */
  function SessionOr(sessionId: Option<string>, freshSession: string): string
  {
    if sessionId.Some? && sessionId.value != "" then sessionId.value else freshSession
  }

  /** A task as `Task(task_id, session_id, message)` makes it. */
  function NewTask(id: string, sessionId: Option<string>, freshSession: string, message: string, now: string): (t: TaskView)
    ensures t.id == id && t.message == message
    ensures t.status.state == Submitted && t.status.message == CreatedMessage
    ensures t.history == [] && t.artifacts == [] && t.metadata == map[]
    ensures sessionId.Some? && sessionId.value != "" ==> t.sessionId == sessionId.value
    ensures sessionId.None? ==> t.sessionId == freshSession
  {
    TaskView(id, SessionOr(sessionId, freshSession), message, TaskStatus(Submitted, CreatedMessage, now), [], [], map[])
  }

  /** The task after `update_task_status`: a new status, nothing else changed. */
  function WithStatus(t: TaskView, state: string, message: string, now: string): (u: TaskView)
    ensures u.status == TaskStatus(state, message, now)
    ensures u.(status := t.status) == t
  {
    t.(status := TaskStatus(state, message, now))
  }

  /** The task after `add_task_history`: one entry appended at the end. */
  function WithHistory(t: TaskView, entry: HistoryEntry): (u: TaskView)
    ensures |u.history| == |t.history| + 1 && u.history[..|t.history|] == t.history
    ensures u.history[|t.history|] == entry
    ensures u.(history := t.history) == t
  {
    t.(history := t.history + [entry])
  }

  /** The task after `add_task_artifact`: the artifact appended with its
      index set to the number of artifacts before it, so every artifact keeps
      recording its own position. */
  function WithArtifact(t: TaskView, name: string, description: string, content: Content, kind: string): (u: TaskView)
    ensures |u.artifacts| == |t.artifacts| + 1 && u.artifacts[..|t.artifacts|] == t.artifacts
    ensures u.artifacts[|t.artifacts|] == Artifact(name, description, content, kind, |t.artifacts|)
    ensures Indexed(t.artifacts) ==> Indexed(u.artifacts)
    ensures u.(artifacts := t.artifacts) == t
  {
    t.(artifacts := t.artifacts + [Artifact(name, description, content, kind, |t.artifacts|)])
  }

  /** The task object. */
  class Task {
    const id: string
    const sessionId: string
    const message: string
    var status: TaskStatus
    var history: seq<HistoryEntry>
    var artifacts: seq<Artifact>
    var metadata: map<string, string>

    constructor(id: string, sessionId: Option<string>, freshSession: string, message: string, now: string)
      ensures View() == NewTask(id, sessionId, freshSession, message, now)
    {
      this.id := id;
      this.sessionId := SessionOr(sessionId, freshSession);
      this.message := message;
      status := TaskStatus(Submitted, CreatedMessage, now);
      history := [];
      artifacts := [];
      metadata := map[];
    }

    function View(): TaskView
      reads this
    {
      TaskView(id, sessionId, message, status, history, artifacts, metadata)
    }
  }
}
