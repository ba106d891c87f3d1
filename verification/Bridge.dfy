// The governor's state in place: one object per run, updated under its lock, and the
// map of runs behind another. Each method is tied to the section it performs.
module Bridge {
  import opened Text
  import opened Events
  import opened Policy
  import opened Runs
  import opened Replay
  import opened Governor
  import opened Effects

  class BridgeState {
    const template: Template
    const runId: RunId
    var execution: Option<string>   // the stop reason, once stopped
    var nextSeq: nat
    var agentNameStack: seq<string>
    var tokensSpent: u64
    var toolCallCounts: map<Tool, u32>
    var toolCallHistory: seq<Tool>
    var events: Log
    ghost var drained: Log
    var lastHarness: Option<(string, Option<string>)>
    var lastRules: Option<seq<RuleDecl>>
    var lastApp: Option<(string, string)>
    var lastGovernor: Option<(string, string, string)>

    ghost function View(): Run
      reads this
    {
      Run(runId, execution, nextSeq, agentNameStack, tokensSpent, toolCallCounts, toolCallHistory, events, drained,
          Attribution(lastHarness, lastRules, lastApp, lastGovernor))
    }

    constructor (t: Template, id: RunId)
      ensures template == t && runId == id && View() == Fresh(t, id) && Consistent(View())
      ensures execution.None? && toolCallCounts == map[] && toolCallHistory == [] && nextSeq == |events| == 1
      ensures events[0].event == ExecutionStarted(if t.startCommand.Some? then t.startCommand.value else "",
                                                  t.allowedTools, t.toolLabels, t.configHash, t.runtimeVersion)
      ensures tokensSpent == 0 && agentNameStack == [] && drained == []
    {
      template, runId, execution, nextSeq := t, id, None, 1;
      agentNameStack, tokensSpent, toolCallCounts, toolCallHistory := [], 0, map[], [];
      events, drained := [LoggedEvent(id, 0, Started(t))], [];
      lastHarness, lastRules, lastApp, lastGovernor := None, None, None, None;
      new;
      FreshIsConsistent(t, id);
    }

    // ── State helpers ─────────────────────────────────────────────────────────

    method AppendEvent(e: Event)
      modifies this`nextSeq, this`events
      ensures View() == Append(old(View()), e)
    {
      var stamped := LoggedEvent(runId, nextSeq, e);
      nextSeq := nextSeq + 1;
      events := events + [stamped];
    }

    method StopWith(reason: string)
      modifies this`execution
      ensures View() == MarkStopped(old(View()), reason)
    {
      if execution.Some? { return; }
      execution := Some(reason);
    }

    method TakeRunEvents() returns (lines: Log)
      modifies this`events, this`drained
      ensures lines == old(events) && View() == Take(old(View()))
    {
      lines := events;
      drained := drained + events;
      events := [];
    }

    method CloseOut(reason: string)
      modifies this`nextSeq, this`events
      ensures View() == Close(old(View()), reason)
    {
      AppendEvent(ExecutionStopped(if execution.Some? then execution.value else reason, tokensSpent));
    }

    method NoteHarness(name: string, version: Option<string>)
      modifies this
      ensures View() == RecordHarness(old(View()), name, version)
    {
      var trimmed := Trim(name);
      if trimmed == "" { return; }
      var candidate := (trimmed, version);
      if lastHarness == Some(candidate) { return; }
      lastHarness := Some(candidate);
      AppendEvent(HarnessIdentified(candidate.0, candidate.1));
    }

    method NoteApp(appId: string, name: string)
      modifies this
      ensures View() == RecordApp(old(View()), appId, name)
    {
      var trimmed := Trim(appId);
      if trimmed == "" { return; }
      var candidate := (trimmed, Trim(name));
      if lastApp == Some(candidate) { return; }
      lastApp := Some(candidate);
      AppendEvent(AppIdentified(candidate.0, candidate.1));
    }

    method NoteGovernor(name: string, address: string, version: string)
      modifies this
      ensures View() == RecordGovernor(old(View()), name, address, version)
    {
      var candidate := (name, address, version);
      if lastGovernor == Some(candidate) { return; }
      lastGovernor := Some(candidate);
      AppendEvent(GovernorIdentified(name, address, version));
    }

    method NoteRules(rules: seq<RuleDecl>)
      modifies this
      ensures View() == RecordRules(old(View()), rules)
    {
      var sorted := Canonical(rules);
      if sorted == [] || lastRules == Some(sorted) { return; }
      lastRules := Some(sorted);
      AppendEvent(RulesDeclared(sorted));
    }

    // ── Handlers ──────────────────────────────────────────────────────────────

    method EnterScope(name: string)
      modifies this
      ensures View() == Handle(template, old(View()), EnterAgent(name)).0
      ensures agentNameStack == old(agentNameStack) + [name]
      ensures events == old(events) + [LoggedEvent(runId, old(nextSeq), AgentScopeEntered(name))]
    {
      agentNameStack := agentNameStack + [name];
      AppendEvent(AgentScopeEntered(name));
    }

    method ExitScope()
      modifies this
      ensures View() == Handle(template, old(View()), ExitAgent).0
      ensures agentNameStack == if old(agentNameStack) == [] then [] else Front(old(agentNameStack))
      ensures events == old(events) + [LoggedEvent(runId, old(nextSeq), AgentScopeExited(ClosedBy(old(agentNameStack))))]
    {
      var name := "";
      if agentNameStack != [] {
        name := agentNameStack[|agentNameStack| - 1];
        agentNameStack := agentNameStack[..|agentNameStack| - 1];
      }
      AppendEvent(AgentScopeExited(name));
    }

    method AddUsage(usage: Usage, harness: Option<(string, Option<string>)>)
      modifies this
      ensures View() == Handle(template, old(View()), ReportUsage(usage, harness)).0
      ensures UsageAdded(Noted(template, old(View()), harness), View(), usage)
      ensures tokensSpent == (old(tokensSpent) + usage.input + usage.output) % U64_SIZE
    {
      UsageRecorded(template, View(), usage, harness);
      if harness.Some? { NoteHarness(harness.value.0, harness.value.1); }
      var total := (usage.input + usage.output) % U64_SIZE;
      if total == 0 { return; }
      tokensSpent := (tokensSpent + total) % U64_SIZE;
      AppendEvent(LlmUsageRecorded(usage));
    }

    method AcceptStop(raw: string, tool: string, ruleName: string, clearedBy: seq<string>)
      modifies this
      ensures View() == HandleStop(old(View()), ReportStop(raw, tool, ruleName, clearedBy))
      ensures execution == if old(execution).Some? then old(execution)
                           else if raw in {"RuleDenied", "ToolDenied", "AgentCompleted", "ManualStop", "ToolFailed"}
                           then Some(raw) else Some("ProcessCrashed")
    {
      var reason := if raw in KNOWN_REASONS then raw else "ProcessCrashed";
      if reason == "RuleDenied" && tool != "" && ruleName != "" {
        AppendEvent(RuleDenied(tool, ruleName, clearedBy));
      }
      StopWith(reason);
    }

    method DecideCall(tool: Tool) returns (d: Decision)
      ensures d == Decide(template, View(), tool)
      ensures d.Allow? <==> tool in template.allowedTools
                            && (tool in template.maxCalls ==> Count(toolCallCounts, tool) < template.maxCalls[tool])
      ensures d.Deny? ==> d.reason == if tool !in template.allowedTools then ToolNotAllowed(tool)
                                      else RuleFired(tool + ".max_calls")
    {
      var ctx := Context(0, 0, Some(tool), tokensSpent, toolCallCounts, toolCallHistory, template.toolLabels, map[]);
      d := PermitTool(template.allowedTools, ctx);
      if d.Allow? { d := EnforceCaps(template.maxCalls, ctx); }
    }

    method RefuseCall(call: ToolCall, why: StopReason)
      modifies this
      ensures View() == Refuse(old(View()), call, why)
    {
      match why {
        case RuleFired(name) => AppendEvent(RuleDenied(call.tool, name, call.clearedBy));
        case ToolNotAllowed(_) => AppendEvent(ToolDenied(call.tool));
      }
      StopWith(ReasonName(why));
    }

    method CommitCall(call: ToolCall, outcome: Outcome) returns (reply: Reply)
      modifies this
      ensures (View(), reply) == Commit(template, old(View()), call, outcome)
      ensures Settled(template, old(View()), View(), call, outcome, reply)
    {
      CommittingSettles(template, View(), call, outcome);
      if outcome.Failed? {
        AppendEvent(ToolFailed(call.tool, outcome.error));
        return ToolError(call.tool);
      }
      toolCallCounts := Bump(toolCallCounts, call.tool);
      toolCallHistory := toolCallHistory + [call.tool];
      AppendEvent(ToolAllowed(call.tool, call.clearedBy + CapRules(template.maxCalls, call.tool)));
      reply := Allowed(if outcome.Output? then outcome.content else "");
    }

    method CallRegistered(call: ToolCall, outcome: Outcome) returns (reply: Reply)
      modifies this
      ensures (View(), reply) == ServeCall(template, old(View()), call, outcome)
    {
      var d := DecideCall(call.tool);
      match d {
        case Deny(why) =>
          RefuseCall(call, why);
          reply := Denied(why);
        case Allow => reply := CommitCall(call, outcome);
      }
    }

    // A request from the gate to its reply, uninterrupted.
    method Route(q: Request, outcome: Outcome) returns (reply: Reply)
      modifies this
      ensures (View(), reply) == Serve(template, old(View()), q, outcome)
      ensures old(Consistent(View())) ==> Consistent(View())
      ensures old(execution).Some? ==> execution == old(execution)
      ensures old(execution).Some? && Gated(q) ==> View() == old(View()) && reply == Gone(execution.value)
    {
      ghost var before := View();
      if Gated(q) && execution.Some? { return Gone(execution.value); }
      match q {
        case CallTool(call) => reply := CallRegistered(call, outcome);
        case EnterAgent(name) => EnterScope(name); reply := Ok;
        case ExitAgent => ExitScope(); reply := Ok;
        case ReportUsage(usage, harness) => AddUsage(usage, harness); reply := Ok;
        case DeclareHarness(name, version) =>
          if Trim(name) == "" { return BadRequest; }
          NoteHarness(name, version); reply := Ok;
        case DeclareRules(rules) => NoteRules(rules); reply := Ok;
        case DeclareApp(appId, name) =>
          if Trim(appId) == "" { return BadRequest; }
          NoteApp(appId, name); reply := Ok;
        case ReportStop(raw, tool, ruleName, clearedBy) => AcceptStop(raw, tool, ruleName, clearedBy); reply := Ok;
        case EvaluateRule(tool, counts) =>
          var ctx := Context(0, 0, tool, tokensSpent, if counts == map[] then toolCallCounts else counts,
                             toolCallHistory, template.toolLabels, map[]);
          reply := Verdict(EnforceCaps(template.maxCalls, ctx));
        case GetStatus =>
          reply := Status(execution, tokensSpent, toolCallCounts, toolCallHistory, template.toolLabels);
        case GetHealth => reply := Health(execution.None?);
        case GetEvents => reply := Lines(events);
        case Malformed => reply := BadRequest;
      }
      if Consistent(before) { ServeKeeps(template, before, q, outcome); }
    }
  }

  // ── The map of runs ─────────────────────────────────────────────────────────

  class AppState {
    const template: Template
    var runs: map<RunId, BridgeState>

    ghost predicate Valid()
      reads this
    {
      forall id :: id in runs ==> runs[id].runId == id && runs[id].template == template
    }

    constructor (t: Template)
      ensures Valid() && runs == map[] && template == t
    {
      template, runs := t, map[];
    }

    // The run a request names, created from the template on first reference.
    method RunState(header: Option<string>) returns (state: BridgeState)
      requires Valid()
      modifies this`runs
      ensures Valid() && runs.Keys == old(runs.Keys) + {RunIdOf(header)} && state == runs[RunIdOf(header)]
      ensures state.runId == if header.None? || Trim(header.value) == "" then "default" else Trim(header.value)
      ensures if RunIdOf(header) in old(runs) then runs == old(runs)
              else fresh(state) && runs == old(runs)[RunIdOf(header) := state]
                   && state.View() == Fresh(template, RunIdOf(header))
    {
      var id := RunIdOf(header);
      if id !in runs {
        state := new BridgeState(template, id);
        runs := runs[id := state];
      }
      state := runs[id];
    }

    // A whole request. Only the named run changes, by its own section.
    method Dispatch(header: Option<string>, q: Request, outcome: Outcome) returns (reply: Reply)
      requires Valid()
      modifies this`runs, runs.Values
      ensures Valid()
      ensures runs.Keys == old(runs.Keys) + {RunIdOf(header)}
      ensures var id := RunIdOf(header);
              (runs[id].View(), reply)
              == Serve(template, if id in old(runs) then old(runs[id].View()) else Fresh(template, id), q, outcome)
      ensures forall other :: other in old(runs) && other != RunIdOf(header) ==>
                runs[other] == old(runs)[other] && runs[other].View() == old(runs[other].View())
    {
      var state := RunState(header);
      reply := state.Route(q, outcome);
    }

    // Closing every run, in whatever order the map lists them.
    method CloseAll(reason: string)
      requires Valid()
      modifies runs.Values
      ensures runs == old(runs)
      ensures forall id :: id in runs ==> runs[id].View() == Close(old(runs[id].View()), reason)
    {
      var rest := runs.Keys;
      while rest != {}
        invariant rest <= runs.Keys
        invariant forall id :: id in rest ==> unchanged(runs[id])
        invariant forall id :: id in runs && id !in rest ==> runs[id].View() == Close(old(runs[id].View()), reason)
        decreases |rest|
      {
        var id :| id in rest;
        runs[id].CloseOut(reason);
        rest := rest - {id};
      }
    }

    // One pass of the drain: what it takes is every buffer that holds something, and
    // nothing is taken twice. (`Shutdown` interleaves the same pass with requests.)
    method Sweep() returns (batches: map<RunId, Log>)
      requires Valid()
      modifies runs.Values
      ensures runs == old(runs)
      ensures forall id :: id in runs ==> runs[id].View() == Take(old(runs[id].View()))
      ensures forall id :: id in batches <==> id in runs && old(runs[id].events) != []
      ensures forall id :: id in batches ==> batches[id] == old(runs[id].events)
    {
      batches := map[];
      var rest := runs.Keys;
      while rest != {}
        invariant rest <= runs.Keys
        invariant forall id :: id in rest ==> unchanged(runs[id])
        invariant forall id :: id in runs && id !in rest ==> runs[id].View() == Take(old(runs[id].View()))
        invariant forall id :: id in batches <==> id in runs && id !in rest && old(runs[id].events) != []
        invariant forall id :: id in batches ==> batches[id] == old(runs[id].events)
        decreases |rest|
      {
        var id :| id in rest;
        var lines := runs[id].TakeRunEvents();
        if lines != [] { batches := batches[id := lines]; }
        rest := rest - {id};
      }
    }
  }
}
