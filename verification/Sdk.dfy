// The SDK's side of a governed call: read the status, run every registered rule in
// order up to the first that says no, then ask the governor. Composed here with the
// lock sections of a run, so that anything may land between any two of its steps.
module Sdk {
  import opened Text
  import opened Events
  import opened Policy
  import opened Runs
  import opened Replay
  import opened Calls
  import opened Caps

  datatype Rule = Rule(name: string, allows: Context -> bool)

  function Names(rules: seq<Rule>): (names: seq<string>)
    ensures |names| == |rules| && forall k :: 0 <= k < |rules| ==> names[k] == rules[k].name
  {
    if rules == [] then [] else Names(Front(rules)) + [Last(rules).name]
  }

  // How many rules are evaluated and allow the call before one denies it.
  function Allowing(rules: seq<Rule>, ctx: Context): (k: nat)
    ensures k <= |rules| && (forall j :: 0 <= j < k ==> rules[j].allows(ctx))
    ensures k < |rules| ==> !rules[k].allows(ctx)
  {
    if rules == [] || !rules[0].allows(ctx) then 0
    else
      var k := Allowing(rules[1..], ctx);
      assert forall j :: 0 < j < k + 1 ==> rules[j] == rules[1..][j - 1];
      k + 1
  }

  // The loop of the @tool wrapper.
  method CheckRules(rules: seq<Rule>, ctx: Context) returns (cleared: seq<string>, denied: Option<string>)
    ensures cleared == Names(rules[..Allowing(rules, ctx)])
    ensures denied == if Allowing(rules, ctx) == |rules| then None else Some(rules[Allowing(rules, ctx)].name)
  {
    cleared, denied := [], None;
    var i := 0;
    while i < |rules|
      invariant 0 <= i <= |rules| && cleared == Names(rules[..i])
      invariant forall j :: 0 <= j < i ==> rules[j].allows(ctx)
    {
      if !rules[i].allows(ctx) { return cleared, Some(rules[i].name); }
      assert Front(rules[..i + 1]) == rules[..i] && Last(rules[..i + 1]) == rules[i];
      cleared := cleared + [rules[i].name];
      i := i + 1;
    }
    assert rules[..|rules|] == rules;
  }

  // ── The client, step by step ────────────────────────────────────────────────

  // A call to be made: the rules registered by then, the tool and its arguments, and
  // the clocks the context shows.
  datatype Guarded = Guarded(
    rules: seq<Rule>,
    tool: Tool,
    args: map<string, string>,
    elapsedMs: u64,
    nowMs: u64)

  // The status reply, with the pending call put in.
  function FromStatus(status: Reply, g: Guarded): Context
    requires status.Status?
  {
    Context(g.elapsedMs, g.nowMs, Some(g.tool), status.tokens, status.counts, status.history, status.labels, g.args)
  }

  function ContextOf(t: Template, r: Run, g: Guarded): Context {
    FromStatus(Serve(t, r, GetStatus, NotRegistered).1, g)
  }

  function CallOf(g: Guarded): ToolCall {
    ToolCall(g.tool, g.args, Names(g.rules))
  }

  function Denial(g: Guarded, k: nat): Request
    requires k < |g.rules|
  {
    ReportStop("RuleDenied", g.tool, g.rules[k].name, Names(g.rules[..k]))
  }

  // Where the client stands. `ctx` is what its rules saw.
  datatype Turn =
    | Idle
    | Checked(g: Guarded, ctx: Context)             // every rule allowed the call
    | Barred(g: Guarded, k: nat)                    // rule k said no
    | Asked(c: CallId, g: Guarded, ctx: Context)    // the call is with the governor
    | Reported(c: CallId)                           // the denial is

  // A call that was counted and what its rules saw when they let it through.
  datatype Sighting = Sighting(g: Guarded, ctx: Context)

  datatype Client = Client(cell: Cell, turn: Turn, seen: seq<Sighting>)

  // A step of the client, or any section of any request on the run, its own included.
  // Reporting a denial is best effort, so the client may give up on it at any time.
  datatype Op =
    | Look(g: Guarded)
    | Ask(c: CallId)
    | Report(c: CallId)
    | GiveUp
    | Return
    | AtGovernor(a: Action)

  function Looked(t: Template, cl: Client, g: Guarded): Turn {
    var ctx := ContextOf(t, cl.cell.run, g);
    if Allowing(g.rules, ctx) == |g.rules| then Checked(g, ctx) else Barred(g, Allowing(g.rules, ctx))
  }

  function Begun(t: Template, cell: Cell, c: CallId, q: Request): Cell {
    Act(t, cell, Begin(c, q))
  }

  function Do(t: Template, cl: Client, op: Op): Client {
    var calls, turn := cl.cell.calls, cl.turn;
    match op
    case Look(g) => if turn.Idle? then cl.(turn := Looked(t, cl, g)) else cl
    case Ask(c) =>
      if turn.Checked? && c !in calls
      then cl.(cell := Begun(t, cl.cell, c, CallTool(CallOf(turn.g))), turn := Asked(c, turn.g, turn.ctx)) else cl
    case Report(c) =>
      if turn.Barred? && turn.k < |turn.g.rules| && c !in calls
      then cl.(cell := Begun(t, cl.cell, c, Denial(turn.g, turn.k)), turn := Reported(c)) else cl
    case GiveUp => if turn.Checked? || turn.Barred? || turn.Reported? then cl.(turn := Idle) else cl
    case Return =>
      if (turn.Asked? || turn.Reported?) && turn.c in calls && calls[turn.c].Answered? then cl.(turn := Idle) else cl
    case AtGovernor(a) =>
      cl.(cell := Act(t, cl.cell, a),
          seen := if Counts(cl, a) then cl.seen + [Sighting(turn.g, turn.ctx)] else cl.seen)
  }

  // The section in which the client's own call is counted.
  predicate Counts(cl: Client, a: Action) {
    && cl.turn.Asked? && a == Action.Commit(cl.turn.c) && a.c in cl.cell.calls
    && cl.cell.calls[a.c].Ran? && !cl.cell.calls[a.c].outcome.Failed?
  }

  function DoAll(t: Template, cl: Client, ops: seq<Op>): Client {
    if ops == [] then cl else Do(t, DoAll(t, cl, Front(ops)), Last(ops))
  }

  lemma {:induction false} DoAllInTwo(t: Template, cl: Client, first: seq<Op>, second: seq<Op>)
    ensures DoAll(t, cl, first + second) == DoAll(t, DoAll(t, cl, first), second)
  {
    if second == [] {
      assert first + second == first;
    } else {
      assert Front(first + second) == first + Front(second);
      DoAllInTwo(t, cl, first, Front(second));
    }
  }

  // One client: nobody else begins a tool call on the run.
  predicate OneClient(op: Op) {
    op.AtGovernor? && op.a.Begin? ==> !op.a.q.CallTool?
  }

  predicate AllOneClient(ops: seq<Op>) {
    forall i :: 0 <= i < |ops| ==> OneClient(ops[i])
  }

  function Newcomer(t: Template, id: RunId): Client {
    Client(Opening(t, id), Idle, [])
  }

  // ── What holds of every execution ───────────────────────────────────────────

  function Allowals(log: Log): seq<Event> {
    if log == [] then [] else Allowals(Front(log)) + if Last(log).event.ToolAllowed? then [Last(log).event] else []
  }

  // Call number j was allowlisted, under its cap, let through by every rule registered
  // at the time on a context built from exactly the j calls before it.
  ghost predicate Enforced(t: Template, history: seq<Tool>, seen: seq<Sighting>, j: nat)
    requires j < |history| && j < |seen|
  {
    var tool, before, s := history[j], history[..j], seen[j];
    && tool in t.allowedTools
    && (tool in t.maxCalls ==> Multiplicity(before, tool) < t.maxCalls[tool])
    && s.ctx.requestedTool == Some(tool) && s.ctx.labels == t.toolLabels
    && SawExactly(s.ctx, before) && AllAllow(s.g.rules, s.ctx)
  }

  ghost predicate SawExactly(ctx: Context, history: seq<Tool>) {
    ctx.history == history && CountsAgree(ctx.callCounts, history)
  }

  ghost predicate AllAllow(rules: seq<Rule>, ctx: Context) {
    forall k :: 0 <= k < |rules| ==> rules[k].allows(ctx)
  }

  ghost predicate RecordedAs(t: Template, allowals: seq<Event>, history: seq<Tool>, seen: seq<Sighting>) {
    && |allowals| == |history| == |seen|
    && forall j :: 0 <= j < |allowals| ==>
         allowals[j] == ToolAllowed(history[j],
                                    Names(seen[j].g.rules) + if history[j] in t.maxCalls then [history[j] + ".max_calls"] else [])
  }

  ghost predicate UnderCaps(t: Template, history: seq<Tool>) {
    forall tool :: tool in t.maxCalls ==> Multiplicity(history, tool) <= t.maxCalls[tool]
  }

  // The calls made so far are on record and enforced.
  ghost predicate Accounted(t: Template, r: Run, seen: seq<Sighting>) {
    && Consistent(r) && UnderCaps(t, r.history) && RecordedAs(t, Allowals(FullLog(r)), r.history, seen)
    && forall j :: 0 <= j < |seen| ==> Enforced(t, r.history, seen, j)
  }

  predicate HasRoom(t: Template, counts: map<Tool, u32>, tool: Tool) {
    tool in t.allowedTools && (tool in t.maxCalls ==> Count(counts, tool) < t.maxCalls[tool])
  }

  // What the rules let through is still what would be called.
  ghost predicate StillTrue(t: Template, history: seq<Tool>, g: Guarded, ctx: Context) {
    ctx.requestedTool == Some(g.tool) && ctx.labels == t.toolLabels && SawExactly(ctx, history) && AllAllow(g.rules, ctx)
  }

  // The client's own call, on its way.
  predicate OnItsWay(t: Template, counts: map<Tool, u32>, p: Phase, g: Guarded) {
    match p
    case Waiting(q) => q == CallTool(CallOf(g))
    case Passed(q) => q == CallTool(CallOf(g))
    case Cleared(call) => call == CallOf(g) && HasRoom(t, counts, g.tool)
    case Ran(call, _) => call == CallOf(g) && HasRoom(t, counts, g.tool)
    case Refused(call, _) => call == CallOf(g)
    case Answered(_) => true
  }

  // Everyone else's requests.
  predicate NoCall(p: Phase) {
    ((p.Waiting? || p.Passed?) && !p.q.CallTool?) || p.Answered?
  }

  ghost predicate TurnSound(t: Template, r: Run, calls: map<CallId, Phase>, turn: Turn) {
    match turn
    case Checked(g, ctx) => StillTrue(t, r.history, g, ctx)
    case Asked(c, g, ctx) =>
      && c in calls && OnItsWay(t, r.counts, calls[c], g)
      && (calls[c].Answered? || StillTrue(t, r.history, g, ctx))
    case _ => true
  }

  predicate Own(turn: Turn, c: CallId) {
    turn.Asked? && turn.c == c
  }

  ghost predicate OthersCallNothing(calls: map<CallId, Phase>, turn: Turn) {
    forall c :: c in calls && !Own(turn, c) ==> NoCall(calls[c])
  }

  ghost predicate Governed(t: Template, cl: Client) {
    && Accounted(t, cl.cell.run, cl.seen)
    && TurnSound(t, cl.cell.run, cl.cell.calls, cl.turn)
    && OthersCallNothing(cl.cell.calls, cl.turn)
  }

  // ── Sections that call nothing ──────────────────────────────────────────────

  predicate SameCalls(r: Run, next: Run) {
    && next.history == r.history && next.counts == r.counts
    && Allowals(FullLog(next)) == Allowals(FullLog(r))
  }

  lemma AppendAllows(r: Run, p: Run, e: Event)
    requires FullLog(p) == FullLog(r)
    ensures Allowals(FullLog(Append(p, e))) == Allowals(FullLog(r)) + if e.ToolAllowed? then [e] else []
  {
    AppendExtends(p, e);
    assert Front(FullLog(Append(p, e))) == FullLog(r) && Last(FullLog(Append(p, e))).event == e;
  }

  lemma HarnessSameCalls(r: Run, name: string, version: Option<string>)
    ensures SameCalls(r, RecordHarness(r, name, version))
  {
    var who := Trim(name);
    AppendAllows(r, r.(marks := r.marks.(harness := Some((who, version)))), HarnessIdentified(who, version));
  }

  lemma HandleSameCalls(t: Template, r: Run, q: Request)
    requires !q.CallTool?
    ensures SameCalls(r, Handle(t, r, q).0)
  {
    HandleKeepsHistory(t, r, q);
    match q
    case EnterAgent(scope) => AppendAllows(r, r.(scopes := r.scopes + [scope]), AgentScopeEntered(scope));
    case ExitAgent =>
      AppendAllows(r, r, AgentScopeExited(""));
      if r.scopes != [] { AppendAllows(r, r.(scopes := Front(r.scopes)), AgentScopeExited(Last(r.scopes))); }
    case ReportUsage(usage, harness) =>
      var told := if harness.Some? then RecordHarness(r, harness.value.0, harness.value.1) else r;
      if harness.Some? { HarnessSameCalls(r, harness.value.0, harness.value.1); }
      AppendAllows(told, told.(tokens := RecordUsage(told, usage).tokens), LlmUsageRecorded(usage));
    case DeclareHarness(name, version) => HarnessSameCalls(r, name, version);
    case DeclareRules(rules) =>
      var c := Canonical(rules);
      AppendAllows(r, r.(marks := r.marks.(rules := Some(c))), RulesDeclared(c));
    case DeclareApp(appId, name) =>
      var id, who := Trim(appId), Trim(name);
      AppendAllows(r, r.(marks := r.marks.(app := Some((id, who)))), AppIdentified(id, who));
    case ReportStop(_, _, _, _) => AppendAllows(r, r, RuleDenied(q.stopTool, q.ruleName, q.clearedBy));
    case _ =>
  }

  lemma RefuseSameCalls(r: Run, call: ToolCall, why: StopReason)
    ensures SameCalls(r, Refuse(r, call, why))
  {
    match why
    case RuleFired(name) => AppendAllows(r, r, RuleDenied(call.tool, name, call.clearedBy));
    case ToolNotAllowed(_) => AppendAllows(r, r, ToolDenied(call.tool));
  }

  lemma SameCallsKeep(t: Template, r: Run, next: Run, seen: seq<Sighting>)
    requires Accounted(t, r, seen) && SameCalls(r, next) && Consistent(next)
    ensures Accounted(t, next, seen)
  {
  }

  // ── The one section that counts ─────────────────────────────────────────────

  lemma UnderCapsAfter(t: Template, counts: map<Tool, u32>, history: seq<Tool>, tool: Tool)
    requires CountsAgree(counts, history) && UnderCaps(t, history) && HasRoom(t, counts, tool)
    ensures UnderCaps(t, history + [tool])
    ensures tool in t.maxCalls ==> Multiplicity(history, tool) < t.maxCalls[tool]
  {
    assert CountAgrees(counts, history, tool);
    forall other | other in t.maxCalls ensures Multiplicity(history + [tool], other) <= t.maxCalls[other] {
      OneMoreCall(history, tool, other);
    }
  }

  lemma RecordedOneMore(t: Template, allowals: seq<Event>, history: seq<Tool>, seen: seq<Sighting>, tool: Tool, s: Sighting)
    requires RecordedAs(t, allowals, history, seen)
    ensures RecordedAs(t, allowals + [ToolAllowed(tool, Names(s.g.rules) + CapRules(t.maxCalls, tool))], history + [tool], seen + [s])
  {
  }

  lemma EnforcedOneMore(t: Template, history: seq<Tool>, seen: seq<Sighting>, g: Guarded, ctx: Context)
    requires |history| == |seen| && forall j :: 0 <= j < |seen| ==> Enforced(t, history, seen, j)
    requires StillTrue(t, history, g, ctx) && g.tool in t.allowedTools
    requires g.tool in t.maxCalls ==> Multiplicity(history, g.tool) < t.maxCalls[g.tool]
    ensures var more, also := history + [g.tool], seen + [Sighting(g, ctx)];
            forall j :: 0 <= j < |also| ==> Enforced(t, more, also, j)
  {
    var more, also := history + [g.tool], seen + [Sighting(g, ctx)];
    forall j | 0 <= j < |also| ensures Enforced(t, more, also, j) {
      if j < |seen| {
        assert Enforced(t, history, seen, j);
        assert more[..j] == history[..j] && more[j] == history[j] && also[j] == seen[j];
      } else {
        assert more[..j] == history;
      }
    }
  }

  lemma CommitAllows(t: Template, r: Run, call: ToolCall, outcome: Outcome)
    ensures var next := Runs.Commit(t, r, call, outcome).0;
            if outcome.Failed? then SameCalls(r, next)
            else next.history == r.history + [call.tool]
                 && Allowals(FullLog(next))
                    == Allowals(FullLog(r)) + [ToolAllowed(call.tool, call.clearedBy + CapRules(t.maxCalls, call.tool))]
  {
    if outcome.Failed? {
      AppendAllows(r, r, ToolFailed(call.tool, outcome.error));
    } else {
      AppendAllows(r, r.(counts := Bump(r.counts, call.tool), history := r.history + [call.tool]),
                   ToolAllowed(call.tool, call.clearedBy + CapRules(t.maxCalls, call.tool)));
    }
  }

  lemma CountedKeeps(t: Template, r: Run, seen: seq<Sighting>, g: Guarded, ctx: Context, outcome: Outcome)
    requires Accounted(t, r, seen) && StillTrue(t, r.history, g, ctx) && HasRoom(t, r.counts, g.tool) && !outcome.Failed?
    ensures Accounted(t, Runs.Commit(t, r, CallOf(g), outcome).0, seen + [Sighting(g, ctx)])
  {
    CommitKeeps(t, r, CallOf(g), outcome);
    CommitAllows(t, r, CallOf(g), outcome);
    UnderCapsAfter(t, r.counts, r.history, g.tool);
    RecordedOneMore(t, Allowals(FullLog(r)), r.history, seen, g.tool, Sighting(g, ctx));
    EnforcedOneMore(t, r.history, seen, g, ctx);
  }

  // ── Every step keeps it ─────────────────────────────────────────────────────

  lemma DecideFindsRoom(t: Template, r: Run, tool: Tool)
    ensures Decide(t, r, tool).Allow? <==> HasRoom(t, r.counts, tool)
  {
  }

  // A section that calls nothing, seen by one phase of one request.
  lemma OthersSection(t: Template, cell: Cell, a: Action, turn: Turn)
    requires OthersCallNothing(cell.calls, turn) && Consistent(cell.run)
    requires a.Drain? || a.CloseOut? || !Own(turn, a.c)
    requires a.Begin? ==> !a.q.CallTool?
    ensures var next := Act(t, cell, a);
            && SameCalls(cell.run, next.run) && Consistent(next.run)
            && OthersCallNothing(next.calls, turn)
            && (forall c :: Own(turn, c) ==> (c in next.calls <==> c in cell.calls)
                                             && (c in cell.calls ==> next.calls[c] == cell.calls[c]))
  {
    ActKeeps(t, cell, a);
    match a
    case Section(c) =>
      if c in cell.calls && cell.calls[c].Passed? { HandleSameCalls(t, cell.run, cell.calls[c].q); }
    case Drain => assert FullLog(Take(cell.run)) == FullLog(cell.run);
    case CloseOut(reason) =>
      AppendAllows(cell.run, cell.run, ExecutionStopped(CloseReason(cell.run, reason), cell.run.tokens));
    case _ =>
  }

  // Gate, decision and execution of the client's own call leave the run alone.
  lemma OwnMoveKeeps(t: Template, cell: Cell, turn: Turn, a: Action)
    requires TurnSound(t, cell.run, cell.calls, turn) && OthersCallNothing(cell.calls, turn)
    requires turn.Asked? && !a.Drain? && !a.CloseOut? && !a.Commit? && a.c == turn.c
    ensures var next := Act(t, cell, a);
            && next.run == cell.run
            && TurnSound(t, next.run, next.calls, turn) && OthersCallNothing(next.calls, turn)
  {
    DecideFindsRoom(t, cell.run, turn.g.tool);
  }

  lemma OwnCommitKeeps(t: Template, cell: Cell, seen: seq<Sighting>, turn: Turn)
    requires Accounted(t, cell.run, seen) && turn.Asked? && TurnSound(t, cell.run, cell.calls, turn)
    ensures var next, p := Act(t, cell, Action.Commit(turn.c)), cell.calls[turn.c];
            && Accounted(t, next.run, if p.Ran? && !p.outcome.Failed? then seen + [Sighting(turn.g, turn.ctx)] else seen)
            && turn.c in next.calls
            && (next == cell || (next.calls[turn.c].Answered? && next.calls == cell.calls[turn.c := next.calls[turn.c]]))
  {
    ActKeeps(t, cell, Action.Commit(turn.c));
    match cell.calls[turn.c]
    case Ran(call, outcome) =>
      if outcome.Failed? {
        CommitAllows(t, cell.run, call, outcome);
        SameCallsKeep(t, cell.run, Runs.Commit(t, cell.run, call, outcome).0, seen);
      } else {
        CountedKeeps(t, cell.run, seen, turn.g, turn.ctx, outcome);
      }
    case Refused(call, why) =>
      RefuseSameCalls(cell.run, call, why);
      SameCallsKeep(t, cell.run, Refuse(cell.run, call, why), seen);
    case _ =>
  }

  lemma OwnSectionKeeps(t: Template, cl: Client, a: Action)
    requires Governed(t, cl) && cl.turn.Asked? && !a.Drain? && !a.CloseOut? && a.c == cl.turn.c
    ensures Governed(t, Do(t, cl, AtGovernor(a)))
  {
    if a.Commit? {
      OwnCommitKeeps(t, cl.cell, cl.seen, cl.turn);
    } else {
      OwnMoveKeeps(t, cl.cell, cl.turn, a);
    }
  }

  lemma SectionKeeps(t: Template, cl: Client, a: Action)
    requires Governed(t, cl) && OneClient(AtGovernor(a))
    ensures Governed(t, Do(t, cl, AtGovernor(a)))
  {
    if a.Drain? || a.CloseOut? || !Own(cl.turn, a.c) {
      OthersSection(t, cl.cell, a, cl.turn);
      SameCallsKeep(t, cl.cell.run, Act(t, cl.cell, a).run, cl.seen);
    } else {
      OwnSectionKeeps(t, cl, a);
    }
  }

  lemma LookKeeps(t: Template, cl: Client, g: Guarded)
    requires Governed(t, cl) && cl.turn.Idle?
    ensures TurnSound(t, cl.cell.run, cl.cell.calls, Looked(t, cl, g))
  {
  }

  lemma DoKeeps(t: Template, cl: Client, op: Op)
    requires Governed(t, cl) && OneClient(op)
    ensures Governed(t, Do(t, cl, op))
  {
    match op
    case Look(g) => if cl.turn.Idle? { LookKeeps(t, cl, g); }
    case AtGovernor(a) => SectionKeeps(t, cl, a);
    case _ =>
  }

  lemma {:induction false} GovernedThroughout(t: Template, cl: Client, ops: seq<Op>)
    requires Governed(t, cl) && AllOneClient(ops)
    ensures Governed(t, DoAll(t, cl, ops))
  {
    if ops != [] {
      GovernedThroughout(t, cl, Front(ops));
      DoKeeps(t, DoAll(t, cl, Front(ops)), Last(ops));
    }
  }

  lemma NewcomerIsGoverned(t: Template, id: RunId)
    ensures Governed(t, Newcomer(t, id))
  {
    FreshIsConsistent(t, id);
    var r := Fresh(t, id);
    assert FullLog(r) == [LoggedEvent(id, 0, Started(t))] && Front(FullLog(r)) == [];
  }

  // Over every interleaving of one client's steps with the sections of any requests that
  // are not tool calls, drains and closings, every call ever counted was enforced in
  // full, and the log says so.
  lemma EveryCallIsEnforced(t: Template, id: RunId, ops: seq<Op>)
    requires AllOneClient(ops)
    ensures var cl := DoAll(t, Newcomer(t, id), ops);
            var history := cl.cell.run.history;
            && RecordedAs(t, Allowals(FullLog(cl.cell.run)), history, cl.seen) && UnderCaps(t, history)
            && forall j :: 0 <= j < |history| ==> Enforced(t, history, cl.seen, j)
  {
    NewcomerIsGoverned(t, id);
    GovernedThroughout(t, Newcomer(t, id), ops);
  }

  // One client never has two calls between decision and commit: the overlap of the cap
  // bound is one.
  lemma OneClientOverlapsOne(t: Template, id: RunId, ops: seq<Op>, tool: Tool)
    requires AllOneClient(ops)
    ensures |Pending(DoAll(t, Newcomer(t, id), ops).cell, tool)| <= 1
  {
    NewcomerIsGoverned(t, id);
    GovernedThroughout(t, Newcomer(t, id), ops);
    var cl := DoAll(t, Newcomer(t, id), ops);
    var pending := Pending(cl.cell, tool);
    if c :| c in pending {
      assert pending <= {c};
      FewerThan(pending, {c});
    }
  }
}
