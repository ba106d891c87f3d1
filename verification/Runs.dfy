// One run: the state behind its lock, as a value, and what each lock section does to it.
module Runs {
  import opened Text
  import opened Events
  import opened Policy

  // Configuration shared by every run of one governor.
  datatype Template = Template(
    allowedTools: seq<Tool>,
    maxCalls: map<Tool, u32>,
    toolLabels: map<Tool, seq<string>>,
    configHash: string,
    runtimeVersion: string,
    startCommand: Option<string>)

  // `drained` is the part of the log the drain thread has already taken away. The
  // governor does not keep it; it is here so that the whole log can be spoken of.
  datatype Run = Run(
    runId: RunId,
    stopped: Option<string>,
    nextSeq: nat,
    scopes: seq<string>,
    tokens: u64,
    counts: map<Tool, u32>,
    history: seq<Tool>,
    buffer: Log,
    drained: Log,
    marks: Attribution)

  // The attribution last recorded, one slot a kind, so that a repeat adds no event.
  datatype Attribution = Attribution(
    harness: Option<(string, Option<string>)>,
    rules: Option<seq<RuleDecl>>,
    app: Option<(string, string)>,
    governor: Option<(string, string, string)>)

  function FullLog(r: Run): Log {
    r.drained + r.buffer
  }

  // ── Requests and replies ────────────────────────────────────────────────────

  datatype ToolCall = ToolCall(tool: Tool, args: map<string, string>, clearedBy: seq<string>)

  datatype Request =
    | CallTool(call: ToolCall)
    | EvaluateRule(tool: Option<Tool>, counts: map<Tool, u32>)
    | EnterAgent(scope: string)
    | ExitAgent
    | ReportUsage(usage: Usage, sentHarness: Option<(string, Option<string>)>)
    | DeclareHarness(harness: string, version: Option<string>)
    | DeclareRules(rules: seq<RuleDecl>)
    | DeclareApp(appId: string, name: string)
    | ReportStop(reason: string, stopTool: string, ruleName: string, clearedBy: seq<string>)
    | GetStatus
    | GetHealth
    | GetEvents
    | Malformed   // an action request whose body does not parse

  datatype Reply =
    | Gone(reason: string)
    | BadRequest
    | Ok
    | Allowed(result: string)
    | Denied(why: StopReason)
    | ToolError(tool: Tool)
    | Verdict(decision: Decision)
    | Status(stopped: Option<string>, tokens: u64, counts: map<Tool, u32>, history: seq<Tool>,
             labels: map<Tool, seq<string>>)
    | Health(running: bool)
    | Lines(lines: Log)

  // Action endpoints answer 410 once the run has stopped.
  predicate Gated(q: Request) {
    !q.ReportStop? && !q.ExitAgent? && !q.GetStatus? && !q.GetHealth? && !q.GetEvents?
  }

  // What the tool registry answers; execution itself is outside the governor.
  datatype Outcome = NotRegistered | Output(content: string) | Failed(error: string)

  // ── Fresh runs ──────────────────────────────────────────────────────────────

  function Started(t: Template): Event {
    var command := if t.startCommand.Some? then t.startCommand.value else "";
    ExecutionStarted(command, t.allowedTools, t.toolLabels, t.configHash, t.runtimeVersion)
  }

  function Fresh(t: Template, id: RunId): Run {
    Run(id, None, 1, [], 0, map[], [], [LoggedEvent(id, 0, Started(t))], [], Attribution(None, None, None, None))
  }

  function Placeholder(t: Template, id: RunId): Run {
    Fresh(t, id).(buffer := [], nextSeq := 0)
  }

  // ── Lock sections ───────────────────────────────────────────────────────────

  function Append(r: Run, e: Event): Run {
    r.(buffer := r.buffer + [LoggedEvent(r.runId, r.nextSeq, e)], nextSeq := r.nextSeq + 1)
  }

  function MarkStopped(r: Run, reason: string): Run {
    if r.stopped.Some? then r else r.(stopped := Some(reason))
  }

  // Draining is destructive: what it takes is gone from the buffer.
  function Take(r: Run): Run {
    r.(drained := r.drained + r.buffer, buffer := [])
  }

  function Close(r: Run, reason: string): Run {
    Append(r, ExecutionStopped(CloseReason(r, reason), r.tokens))
  }

  // A run that reported its own reason keeps it.
  function CloseReason(r: Run, reason: string): string {
    if r.stopped.Some? then r.stopped.value else reason
  }

  function RecordHarness(r: Run, name: string, version: Option<string>): Run {
    var who := (Trim(name), version);
    if who.0 == "" || r.marks.harness == Some(who) then r
    else Append(r.(marks := r.marks.(harness := Some(who))), HarnessIdentified(who.0, who.1))
  }

  function RecordApp(r: Run, appId: string, name: string): Run {
    var who := (Trim(appId), Trim(name));
    if who.0 == "" || r.marks.app == Some(who) then r
    else Append(r.(marks := r.marks.(app := Some(who))), AppIdentified(who.0, who.1))
  }

  function RecordGovernor(r: Run, name: string, address: string, version: string): Run {
    var who := (name, address, version);
    if r.marks.governor == Some(who) then r
    else Append(r.(marks := r.marks.(governor := Some(who))), GovernorIdentified(name, address, version))
  }

  function TrimName(d: RuleDecl): RuleDecl {
    d.(name := Trim(d.name))
  }

  function Named(rules: seq<RuleDecl>): seq<RuleDecl> {
    if rules == [] then []
    else (if Trim(rules[0].name) == "" then [] else [TrimName(rules[0])]) + Named(rules[1..])
  }

  function Canonical(rules: seq<RuleDecl>): seq<RuleDecl> {
    Dedup(Sort(DeclLe, Named(rules)))
  }

  function RecordRules(r: Run, rules: seq<RuleDecl>): Run {
    var c := Canonical(rules);
    if c == [] || r.marks.rules == Some(c) then r
    else Append(r.(marks := r.marks.(rules := Some(c))), RulesDeclared(c))
  }

  function RecordUsage(r: Run, usage: Usage): Run {
    var total := (usage.input + usage.output) % U64_SIZE;
    if total == 0 then r
    else Append(r.(tokens := (r.tokens + total) % U64_SIZE), LlmUsageRecorded(usage))
  }

  const KNOWN_REASONS := {"RuleDenied", "ToolDenied", "AgentCompleted", "ManualStop", "ToolFailed"}

  function StopName(raw: string): string {
    if raw in KNOWN_REASONS then raw else "ProcessCrashed"
  }

  function HandleStop(r: Run, q: Request): Run
    requires q.ReportStop?
  {
    var reason := StopName(q.reason);
    var told := if reason == "RuleDenied" && q.stopTool != "" && q.ruleName != ""
                then Append(r, RuleDenied(q.stopTool, q.ruleName, q.clearedBy)) else r;
    MarkStopped(told, reason)
  }

  function HandleExit(r: Run): Run {
    if r.scopes == [] then Append(r, AgentScopeExited(""))
    else Append(r.(scopes := r.scopes[..|r.scopes| - 1]), AgentScopeExited(r.scopes[|r.scopes| - 1]))
  }

  // Every request but a tool call is one lock section after its gate.
  function Handle(t: Template, r: Run, q: Request): (Run, Reply)
    requires !q.CallTool?
  {
    match q
    case EvaluateRule(tool, counts) =>
      var ctx := Context(0, 0, tool, r.tokens, if counts == map[] then r.counts else counts, r.history,
                         t.toolLabels, map[]);
      (r, Verdict(EnforceCaps(t.maxCalls, ctx)))
    case EnterAgent(scope) => (Append(r.(scopes := r.scopes + [scope]), AgentScopeEntered(scope)), Ok)
    case ExitAgent => (HandleExit(r), Ok)
    case ReportUsage(usage, harness) =>
      var told := if harness.Some? then RecordHarness(r, harness.value.0, harness.value.1) else r;
      (RecordUsage(told, usage), Ok)
    case DeclareHarness(name, version) =>
      if Trim(name) == "" then (r, BadRequest) else (RecordHarness(r, name, version), Ok)
    case DeclareRules(rules) => (RecordRules(r, rules), Ok)
    case DeclareApp(appId, name) =>
      if Trim(appId) == "" then (r, BadRequest) else (RecordApp(r, appId, name), Ok)
    case ReportStop(_, _, _, _) => (HandleStop(r, q), Ok)
    case GetStatus => (r, Status(r.stopped, r.tokens, r.counts, r.history, t.toolLabels))
    case GetHealth => (r, Health(r.stopped.None?))
    case GetEvents => (r, Lines(r.buffer))
    case Malformed => (r, BadRequest)
  }

  // ── A tool call is several lock sections ────────────────────────────────────

  function Decide(t: Template, r: Run, tool: Tool): Decision {
    var ctx := Context(0, 0, Some(tool), r.tokens, r.counts, r.history, t.toolLabels, map[]);
    Chain(PermitTool(t.allowedTools, ctx), EnforceCaps(t.maxCalls, ctx))
  }

  function Refuse(r: Run, call: ToolCall, why: StopReason): Run {
    var e := match why
      case RuleFired(name) => RuleDenied(call.tool, name, call.clearedBy)
      case ToolNotAllowed(_) => ToolDenied(call.tool);
    MarkStopped(Append(r, e), ReasonName(why))
  }

  function Count(counts: map<Tool, u32>, tool: Tool): u32 {
    if tool in counts then counts[tool] else 0
  }

  function Bump(counts: map<Tool, u32>, tool: Tool): map<Tool, u32> {
    counts[tool := (Count(counts, tool) + 1) % U32_SIZE]
  }

  function Commit(t: Template, r: Run, call: ToolCall, outcome: Outcome): (Run, Reply) {
    match outcome
    case Failed(error) => (Append(r, ToolFailed(call.tool, error)), ToolError(call.tool))
    case _ =>
      var r' := r.(counts := Bump(r.counts, call.tool), history := r.history + [call.tool]);
      (Append(r', ToolAllowed(call.tool, call.clearedBy + CapRules(t.maxCalls, call.tool))),
       Allowed(if outcome.Output? then outcome.content else ""))
  }

  // A tool call served without interruption.
  function ServeCall(t: Template, r: Run, call: ToolCall, outcome: Outcome): (Run, Reply) {
    match Decide(t, r, call.tool)
    case Deny(why) => (Refuse(r, call, why), Denied(why))
    case Allow => Commit(t, r, call, outcome)
  }

  // A whole request served without interruption, gate included.
  function Serve(t: Template, r: Run, q: Request, outcome: Outcome): (Run, Reply) {
    if Gated(q) && r.stopped.Some? then (r, Gone(r.stopped.value))
    else if q.CallTool? then ServeCall(t, r, q.call, outcome)
    else Handle(t, r, q)
  }
}
