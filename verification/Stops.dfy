// A stop is final. What can still happen to a stopped run: requests already past the
// gate finish, refusals and scope exits are recorded, and the run is closed.
module Stops {
  import opened Text
  import opened Events
  import opened Policy
  import opened Runs
  import opened Replay
  import opened Calls

  // Past the gate, with a section still to come.
  predicate Admitted(p: Phase) {
    (p.Passed? && Gated(p.q)) || p.Cleared? || p.Ran? || p.Refused?
  }

  function Live(cell: Cell): set<CallId> {
    set c | c in cell.calls && Admitted(cell.calls[c])
  }

  // The events a stopped run can still gain with nothing past the gate.
  predicate Late(e: Event) {
    e.RuleDenied? || e.AgentScopeExited? || e.ExecutionStopped?
  }

  function Others(log: Log): nat {
    if log == [] then 0 else Others(Front(log)) + if Late(Last(log).event) then 0 else 1
  }

  lemma OneMoreOther(r: Run, e: Event)
    ensures Others(FullLog(Append(r, e))) == Others(FullLog(r)) + if Late(e) then 0 else 1
  {
    AppendExtends(r, e);
    assert Front(FullLog(Append(r, e))) == FullLog(r);
  }

  lemma LivePut(cell: Cell, r: Run, c: CallId, p: Phase)
    ensures Live(Put(cell, r, c, p)) == if Admitted(p) then Live(cell) + {c} else Live(cell) - {c}
  {
  }

  // Work left: what the calls past the gate can still add to a stopped run.
  ghost predicate Spends(cell: Cell, next: Cell) {
    && next.run.stopped == cell.run.stopped
    && Others(FullLog(next.run)) + 2 * |Live(next)| <= Others(FullLog(cell.run)) + 2 * |Live(cell)|
    && |next.run.history| + |Live(next)| <= |cell.run.history| + |Live(cell)|
  }

  lemma UsageOthers(r: Run, usage: Usage)
    ensures Others(FullLog(RecordUsage(r, usage))) <= Others(FullLog(r)) + 1
  {
    OneMoreOther(r.(tokens := RecordUsage(r, usage).tokens), LlmUsageRecorded(usage));
  }

  lemma HarnessOthers(r: Run, name: string, version: Option<string>)
    ensures Others(FullLog(RecordHarness(r, name, version))) <= Others(FullLog(r)) + 1
  {
    var p := r.(marks := r.marks.(harness := Some((Trim(name), version))));
    OneMoreOther(p, HarnessIdentified(Trim(name), version));
  }

  lemma AppOthers(r: Run, appId: string, name: string)
    ensures Others(FullLog(RecordApp(r, appId, name))) <= Others(FullLog(r)) + 1
  {
    var id, who := Trim(appId), Trim(name);
    OneMoreOther(r.(marks := r.marks.(app := Some((id, who)))), AppIdentified(id, who));
  }

  lemma RulesOthers(r: Run, rules: seq<RuleDecl>)
    ensures Others(FullLog(RecordRules(r, rules))) <= Others(FullLog(r)) + 1
  {
    var c := Canonical(rules);
    OneMoreOther(r.(marks := r.marks.(rules := Some(c))), RulesDeclared(c));
  }

  lemma ExitOthers(r: Run)
    ensures Others(FullLog(HandleExit(r))) == Others(FullLog(r))
  {
    OneMoreOther(r, AgentScopeExited(""));
    if r.scopes != [] { OneMoreOther(r.(scopes := Front(r.scopes)), AgentScopeExited(Last(r.scopes))); }
  }

  lemma HandleOthers(t: Template, r: Run, q: Request)
    requires !q.CallTool?
    ensures Others(FullLog(Handle(t, r, q).0)) <= Others(FullLog(r)) + if Gated(q) then 2 else 0
  {
    match q
    case EnterAgent(scope) => OneMoreOther(r.(scopes := r.scopes + [scope]), AgentScopeEntered(scope));
    case ExitAgent => ExitOthers(r);
    case ReportUsage(usage, harness) =>
      if harness.Some? { HarnessOthers(r, harness.value.0, harness.value.1); }
      UsageOthers(if harness.Some? then RecordHarness(r, harness.value.0, harness.value.1) else r, usage);
    case DeclareHarness(name, version) => HarnessOthers(r, name, version);
    case DeclareRules(rules) => RulesOthers(r, rules);
    case DeclareApp(appId, name) => AppOthers(r, appId, name);
    case ReportStop(_, _, _, _) => OneMoreOther(r, RuleDenied(q.stopTool, q.ruleName, q.clearedBy));
    case _ =>
  }

  lemma HandleKeepsStop(t: Template, r: Run, q: Request)
    requires !q.CallTool? && r.stopped.Some?
    ensures Handle(t, r, q).0.history == r.history && Handle(t, r, q).0.stopped == r.stopped
  {
  }

  lemma FinishSpends(t: Template, cell: Cell, c: CallId)
    requires cell.run.stopped.Some? && c in cell.calls
    ensures Spends(cell, Finish(t, cell, c, cell.calls[c]))
  {
    var r, next := cell.run, Finish(t, cell, c, cell.calls[c]);
    match cell.calls[c]
    case Ran(call, outcome) =>
      assert c in Live(cell);
      LivePut(cell, next.run, c, next.calls[c]);
      if outcome.Failed? {
        OneMoreOther(r, ToolFailed(call.tool, outcome.error));
      } else {
        OneMoreOther(r.(counts := Bump(r.counts, call.tool), history := r.history + [call.tool]),
                     ToolAllowed(call.tool, call.clearedBy + CapRules(t.maxCalls, call.tool)));
      }
    case Refused(call, why) =>
      assert c in Live(cell);
      LivePut(cell, next.run, c, next.calls[c]);
      OneMoreOther(r, match why
        case RuleFired(name) => RuleDenied(call.tool, name, call.clearedBy)
        case ToolNotAllowed(_) => ToolDenied(call.tool));
    case _ =>
  }

  lemma SectionSpends(t: Template, cell: Cell, c: CallId)
    requires cell.run.stopped.Some? && c in cell.calls && cell.calls[c].Passed?
    ensures Spends(cell, EnterSection(t, cell, c, cell.calls[c].q))
  {
    var q, next := cell.calls[c].q, EnterSection(t, cell, c, cell.calls[c].q);
    LivePut(cell, next.run, c, next.calls[c]);
    if q.CallTool? {
      assert c in Live(cell);
      assert Live(cell) + {c} == Live(cell);
    } else {
      HandleOthers(t, cell.run, q);
      HandleKeepsStop(t, cell.run, q);
      if Gated(q) { assert c in Live(cell); } else { assert Live(cell) - {c} == Live(cell); }
    }
  }

  lemma ActSpends(t: Template, cell: Cell, a: Action)
    requires cell.run.stopped.Some?
    ensures Spends(cell, Act(t, cell, a))
  {
    var next := Act(t, cell, a);
    match a
    case Section(c) => if c in cell.calls && cell.calls[c].Passed? { SectionSpends(t, cell, c); }
    case Commit(c) => if c in cell.calls { FinishSpends(t, cell, c); }
    case Drain =>
      assert FullLog(next.run) == FullLog(cell.run) && Live(next) == Live(cell);
    case CloseOut(reason) =>
      OneMoreOther(cell.run, ExecutionStopped(CloseReason(cell.run, reason), cell.run.tokens));
      assert Live(next) == Live(cell);
    case Execute(c, outcome) =>
      if next != cell {
        LivePut(cell, next.run, c, next.calls[c]);
        assert Live(cell) + {c} == Live(cell);
      }
    case _ =>
      if next != cell {
        LivePut(cell, next.run, a.c, next.calls[a.c]);
        assert Live(cell) - {a.c} == Live(cell);
      }
  }

  // A call the governor refuses stops the run on the spot: an unknown tool before any
  // cap is looked at, a spent cap with the rules the client had cleared on record.
  lemma RefusalStopsTheRun(t: Template, r: Run, call: ToolCall, outcome: Outcome)
    requires r.stopped.None?
    requires call.tool !in t.allowedTools
             || (call.tool in t.maxCalls && Count(r.counts, call.tool) >= t.maxCalls[call.tool])
    ensures var (next, reply) := Serve(t, r, CallTool(call), outcome);
            var known := call.tool in t.allowedTools;
            && next.stopped == Some(if known then "RuleDenied" else "ToolDenied")
            && FullLog(next) == FullLog(r) + [LoggedEvent(r.runId, r.nextSeq,
                 if known then RuleDenied(call.tool, call.tool + ".max_calls", call.clearedBy) else ToolDenied(call.tool))]
            && reply == Denied(if known then RuleFired(call.tool + ".max_calls") else ToolNotAllowed(call.tool))
            && next.history == r.history && next.counts == r.counts
  {
    AppendExtends(r, if call.tool in t.allowedTools then RuleDenied(call.tool, call.tool + ".max_calls", call.clearedBy)
                     else ToolDenied(call.tool));
  }

  // Whatever happens to a stopped run, its reason stays, and only the calls already
  // past the gate add calls or events of any kind but the late ones.
  lemma {:induction false} StopIsFinal(t: Template, cell: Cell, actions: seq<Action>)
    requires cell.run.stopped.Some?
    ensures Spends(cell, Play(t, cell, actions))
  {
    if actions != [] {
      StopIsFinal(t, cell, Front(actions));
      ActSpends(t, Play(t, cell, Front(actions)), Last(actions));
    }
  }

  lemma {:induction false} OthersGrow(log: Log, more: Log)
    ensures Others(log) <= Others(log + more)
  {
    if more == [] {
      assert log + more == log;
    } else {
      assert Front(log + more) == log + Front(more);
      OthersGrow(log, Front(more));
    }
  }

  lemma {:induction false} LateEventsChangeNothing(log: Log, more: Log)
    requires Others(log + more) == Others(log)
    ensures forall k :: 0 <= k < |more| ==> Late(more[k].event)
    ensures AllowedTools(log + more) == AllowedTools(log)
    ensures TokensReported(log + more) == TokensReported(log)
    ensures forall kind :: Claims(log + more, kind) == Claims(log, kind)
    ensures OpenScopes(log + more) <= OpenScopes(log)
  {
    if more == [] {
      assert log + more == log;
    } else {
      var x := Last(more);
      assert Front(log + more) == log + Front(more);
      assert log + more == (log + Front(more)) + [x];
      OthersGrow(log, Front(more));
      LateEventsChangeNothing(log, Front(more));
      ReadOneMore(log + Front(more), x);
    }
  }

  lemma CountsFollowHistory(a: map<Tool, u32>, b: map<Tool, u32>, history: seq<Tool>)
    requires CountsAgree(a, history) && CountsAgree(b, history)
    ensures a == b
  {
    forall tool ensures (tool in a <==> tool in b) && (tool in a ==> a[tool] == b[tool]) {
      assert CountAgrees(a, history, tool) && CountAgrees(b, history, tool);
    }
  }

  // With nothing past the gate, a stopped run is frozen: every later event is a
  // refusal, a scope exit or the closing one.
  lemma StoppedRunIsFrozen(t: Template, cell: Cell, actions: seq<Action>)
    requires Consistent(cell.run) && cell.run.stopped.Some? && Live(cell) == {}
    ensures var r, next := cell.run, Play(t, cell, actions).run;
            && next.stopped == r.stopped
            && next.history == r.history && next.counts == r.counts && next.tokens == r.tokens
            && next.scopes <= r.scopes
            && (forall kind :: Claims(FullLog(next), kind) == Claims(FullLog(r), kind))
            && FullLog(r) <= FullLog(next)
            && (forall k :: |FullLog(r)| <= k < |FullLog(next)| ==> Late(FullLog(next)[k].event))
  {
    var r, next := cell.run, Play(t, cell, actions).run;
    PlayKeeps(t, cell, actions);
    PlayExtends(t, cell, actions);
    StopIsFinal(t, cell, actions);
    var more := FullLog(next)[|FullLog(r)|..];
    assert FullLog(next) == FullLog(r) + more;
    OthersGrow(FullLog(r), more);
    LateEventsChangeNothing(FullLog(r), more);
    CountsFollowHistory(next.counts, r.counts, r.history);
    forall k | |FullLog(r)| <= k < |FullLog(next)| ensures Late(FullLog(next)[k].event) {
      assert FullLog(next)[k] == more[k - |FullLog(r)|];
    }
  }

  // ── Stop reasons come from a closed set ─────────────────────────────────────

  ghost predicate ReasonKnown(stopped: Option<string>) {
    stopped.Some? ==> stopped.value in KNOWN_REASONS + {"ProcessCrashed"}
  }

  lemma {:induction false} StopReasonsAreKnown(t: Template, id: RunId, actions: seq<Action>)
    ensures ReasonKnown(Play(t, Opening(t, id), actions).run.stopped)
  {
    if actions != [] {
      StopReasonsAreKnown(t, id, Front(actions));
      var cell, a := Play(t, Opening(t, id), Front(actions)), Last(actions);
      if a.Section? && a.c in cell.calls && cell.calls[a.c].Passed? && !cell.calls[a.c].q.CallTool? {
        HandleReasons(t, cell.run, cell.calls[a.c].q);
      }
    }
  }

  lemma HandleReasons(t: Template, r: Run, q: Request)
    requires !q.CallTool? && ReasonKnown(r.stopped)
    ensures ReasonKnown(Handle(t, r, q).0.stopped)
  {
  }
}
