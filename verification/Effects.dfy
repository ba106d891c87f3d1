// What reported usage and the outcome of a call do to a run, whole requests and the
// sections of interleaved ones alike.
module Effects {
  import opened Text
  import opened Events
  import opened Policy
  import opened Runs
  import opened Replay
  import opened Calls

  // ── Usage ───────────────────────────────────────────────────────────────────

  // What a harness sent along with the usage does first: what declaring it to a running
  // run would.
  function Noted(t: Template, r: Run, harness: Option<(string, Option<string>)>): Run {
    if harness.None? then r
    else Serve(t, r.(stopped := None), DeclareHarness(harness.value.0, harness.value.1), NotRegistered).0.(stopped := r.stopped)
  }

  // `noted` became `next` by the tokens of `usage`, with an event for a sum that is not
  // zero and none for one that is.
  ghost predicate UsageAdded(noted: Run, next: Run, usage: Usage) {
    var nothing := (usage.input + usage.output) % U64_SIZE == 0;
    && next.tokens == (noted.tokens + usage.input + usage.output) % U64_SIZE
    && FullLog(next) == FullLog(noted) + (if nothing then []
                                          else [LoggedEvent(noted.runId, noted.nextSeq, LlmUsageRecorded(usage))])
    && next == noted.(tokens := next.tokens, buffer := next.buffer, nextSeq := next.nextSeq)
  }

  lemma RecordingAdds(r: Run, usage: Usage)
    ensures UsageAdded(r, RecordUsage(r, usage), usage)
  {
    AppendExtends(r.(tokens := RecordUsage(r, usage).tokens), LlmUsageRecorded(usage));
    assert FullLog(r) + [] == FullLog(r);
  }

  lemma NotingIsRecording(t: Template, r: Run, name: string, version: Option<string>)
    ensures Noted(t, r, Some((name, version))) == RecordHarness(r, name, version)
  {
  }

  lemma UsageRecorded(t: Template, r: Run, usage: Usage, harness: Option<(string, Option<string>)>)
    ensures var next := Handle(t, r, ReportUsage(usage, harness)).0;
            UsageAdded(Noted(t, r, harness), next, usage) && next.tokens == (r.tokens + usage.input + usage.output) % U64_SIZE
  {
    if harness.Some? {
      NotingIsRecording(t, r, harness.value.0, harness.value.1);
      RecordingAdds(RecordHarness(r, harness.value.0, harness.value.1), usage);
    } else {
      RecordingAdds(r, usage);
    }
  }

  // A report on a running run.
  lemma UsageIsAdded(t: Template, r: Run, usage: Usage, harness: Option<(string, Option<string>)>, outcome: Outcome)
    requires r.stopped.None?
    ensures var (next, reply) := Serve(t, r, ReportUsage(usage, harness), outcome);
            UsageAdded(Noted(t, r, harness), next, usage) && reply == Ok
            && next.tokens == (r.tokens + usage.input + usage.output) % U64_SIZE
  {
    UsageRecorded(t, r, usage, harness);
  }

  // The section of a report that is past its gate, on a run that may have stopped since.
  lemma UsageSection(t: Template, cell: Cell, c: CallId, usage: Usage, harness: Option<(string, Option<string>)>)
    requires c in cell.calls && cell.calls[c] == Passed(ReportUsage(usage, harness))
    ensures var next := Act(t, cell, Section(c));
            && UsageAdded(Noted(t, cell.run, harness), next.run, usage)
            && next.calls == cell.calls[c := Answered(Ok)]
            && next.run.tokens == (cell.run.tokens + usage.input + usage.output) % U64_SIZE
  {
    UsageRecorded(t, cell.run, usage, harness);
  }

  // The tokens reported in these sections, by anyone.
  function UsedIn(t: Template, cell: Cell, actions: seq<Action>): nat {
    if actions == [] then 0
    else UsedIn(t, cell, Front(actions)) + UsedBy(Play(t, cell, Front(actions)), Last(actions))
  }

  function UsedBy(cell: Cell, a: Action): nat {
    if a.Section? && a.c in cell.calls && cell.calls[a.c].Passed? && cell.calls[a.c].q.ReportUsage?
    then cell.calls[a.c].q.usage.input + cell.calls[a.c].q.usage.output else 0
  }

  lemma ActUses(t: Template, cell: Cell, a: Action)
    ensures Totals(cell.run.tokens, UsedBy(cell, a), Act(t, cell, a).run.tokens)
  {
    if a.Section? && a.c in cell.calls && cell.calls[a.c].Passed? {
      match cell.calls[a.c].q
      case ReportUsage(usage, harness) => UsageSection(t, cell, a.c, usage, harness);
      case _ =>
    }
  }

  // Over every interleaving the token total moves by exactly what was reported.
  lemma {:induction false} TokensAreReported(t: Template, cell: Cell, actions: seq<Action>)
    ensures Totals(cell.run.tokens, UsedIn(t, cell, actions), Play(t, cell, actions).run.tokens)
  {
    if actions != [] {
      var front, last := Front(actions), Last(actions);
      TokensAreReported(t, cell, front);
      OneMoreUse(t, cell, Play(t, cell, front), last, UsedIn(t, cell, front));
    }
  }

  predicate Totals(tokens: nat, used: nat, total: nat) {
    total == (tokens + used) % U64_SIZE
  }

  lemma OneMoreUse(t: Template, cell: Cell, before: Cell, a: Action, used: nat)
    requires Totals(cell.run.tokens, used, before.run.tokens)
    ensures Totals(cell.run.tokens, used + UsedBy(before, a), Act(t, before, a).run.tokens)
  {
    ActUses(t, before, a);
    AddedAgain(cell.run.tokens, used, UsedBy(before, a), before.run.tokens, Act(t, before, a).run.tokens);
  }

  lemma AddedAgain(tokens: nat, before: nat, now: nat, mid: nat, end: nat)
    requires Totals(tokens, before, mid) && Totals(mid, now, end)
    ensures Totals(tokens, before + now, end)
  {
    WrapAdd(tokens + before, now);
  }

  // ── The outcome of a call ───────────────────────────────────────────────────

  ghost predicate Counted(t: Template, r: Run, next: Run, call: ToolCall) {
    && next.history == r.history + [call.tool]
    && Count(next.counts, call.tool) == (Count(r.counts, call.tool) + 1) % U32_SIZE
    && (forall tool :: tool != call.tool ==> (tool in next.counts <==> tool in r.counts)
                                             && Count(next.counts, tool) == Count(r.counts, tool))
    && FullLog(next) == FullLog(r) + [LoggedEvent(r.runId, r.nextSeq,
         ToolAllowed(call.tool, call.clearedBy + if call.tool in t.maxCalls then [call.tool + ".max_calls"] else []))]
  }

  // A call that was let through: counted and answered with what it gave, or on record as
  // failed and not counted.
  ghost predicate Settled(t: Template, r: Run, next: Run, call: ToolCall, outcome: Outcome, reply: Reply) {
    && (match outcome
        case Failed(error) =>
          && FullLog(next) == FullLog(r) + [LoggedEvent(r.runId, r.nextSeq, ToolFailed(call.tool, error))]
          && next.counts == r.counts && next.history == r.history && reply == ToolError(call.tool)
        case Output(content) => Counted(t, r, next, call) && reply == Allowed(content)
        case NotRegistered => Counted(t, r, next, call) && reply == Allowed(""))
    && next == r.(history := next.history, counts := next.counts, buffer := next.buffer, nextSeq := r.nextSeq + 1)
  }

  lemma CommittingSettles(t: Template, r: Run, call: ToolCall, outcome: Outcome)
    ensures var (next, reply) := Runs.Commit(t, r, call, outcome); Settled(t, r, next, call, outcome, reply)
  {
    if outcome.Failed? {
      AppendExtends(r, ToolFailed(call.tool, outcome.error));
    } else {
      AppendExtends(r.(counts := Bump(r.counts, call.tool), history := r.history + [call.tool]),
                    ToolAllowed(call.tool, call.clearedBy + CapRules(t.maxCalls, call.tool)));
    }
  }

  // A call with room on a running run.
  lemma OutcomeIsSettled(t: Template, r: Run, call: ToolCall, outcome: Outcome)
    requires r.stopped.None? && call.tool in t.allowedTools
    requires call.tool in t.maxCalls ==> Count(r.counts, call.tool) < t.maxCalls[call.tool]
    ensures var (next, reply) := Serve(t, r, CallTool(call), outcome); Settled(t, r, next, call, outcome, reply)
  {
    CommittingSettles(t, r, call, outcome);
  }

  // The committing section of a call that has run, whatever landed since it was allowed.
  lemma CommitSection(t: Template, cell: Cell, c: CallId, call: ToolCall, outcome: Outcome)
    requires c in cell.calls && cell.calls[c] == Ran(call, outcome)
    ensures var next := Act(t, cell, Action.Commit(c));
            && next.calls[c].Answered? && next.calls == cell.calls[c := next.calls[c]]
            && Settled(t, cell.run, next.run, call, outcome, next.calls[c].reply)
  {
    CommittingSettles(t, cell.run, call, outcome);
  }
}
