// One call from the status to the count, with anything landing in between: when it is
// counted, what a denial does, and when the rules that let it through still bind it.
module Turns {
  import opened Text
  import opened Events
  import opened Policy
  import opened Runs
  import opened Replay
  import opened Calls
  import opened Caps
  import opened Sdk
  import Stops

  // ── Stretches of others' sections ───────────────────────────────────────────

  // A section of some other request, or a drain or closing: no tool call begins.
  predicate Foreign(op: Op, c: CallId) {
    op.AtGovernor? && OneClient(op) && (op.a.Drain? || op.a.CloseOut? || op.a.c != c)
  }

  predicate AllForeign(ops: seq<Op>, c: CallId) {
    forall i :: 0 <= i < |ops| ==> Foreign(ops[i], c)
  }

  // Where the client and its request stand, and the calls counted so far.
  datatype Standing = Standing(
    c: CallId,
    turn: Turn,
    phase: Option<Phase>,
    history: seq<Tool>,
    counts: map<Tool, u32>)

  function PhaseOf(calls: map<CallId, Phase>, c: CallId): Option<Phase> {
    if c in calls then Some(calls[c]) else None
  }

  ghost predicate Stands(t: Template, cl: Client, s: Standing) {
    && Governed(t, cl) && cl.turn == s.turn && PhaseOf(cl.cell.calls, s.c) == s.phase
    && cl.cell.run.history == s.history && cl.cell.run.counts == s.counts
    && (s.turn.Asked? ==> s.turn.c == s.c)
  }

  lemma ForeignSection(t: Template, cl: Client, op: Op, s: Standing)
    requires Stands(t, cl, s) && Foreign(op, s.c)
    ensures Stands(t, Do(t, cl, op), s)
  {
    DoKeeps(t, cl, op);
    OthersSection(t, cl.cell, op.a, s.turn);
  }

  lemma {:induction false} ForeignStretch(t: Template, cl: Client, ops: seq<Op>, s: Standing)
    requires Stands(t, cl, s) && AllForeign(ops, s.c)
    ensures Stands(t, DoAll(t, cl, ops), s)
  {
    if ops != [] {
      ForeignStretch(t, cl, Front(ops), s);
      ForeignSection(t, DoAll(t, cl, Front(ops)), Last(ops), s);
    }
  }

  // ── A whole call ────────────────────────────────────────────────────────────

  // What lands before the call is sent, and before each of its sections.
  datatype Waits = Waits(ask: seq<Op>, gate: seq<Op>, decide: seq<Op>, execute: seq<Op>, commit: seq<Op>)

  predicate Quiet(w: Waits, c: CallId) {
    AllForeign(w.ask, c) && AllForeign(w.gate, c) && AllForeign(w.decide, c) && AllForeign(w.execute, c) && AllForeign(w.commit, c)
  }

  function Stage(t: Template, cl: Client, op: Op, wait: seq<Op>): Client {
    DoAll(t, Do(t, cl, op), wait)
  }

  // Everything up to the moment its gate is reached.
  function BeforeGate(t: Template, cl: Client, g: Guarded, c: CallId, w: Waits): Client {
    Stage(t, Stage(t, cl, Look(g), w.ask), Ask(c), w.gate)
  }

  function FromGate(t: Template, cl: Client, c: CallId, outcome: Outcome, w: Waits): Client {
    FromSection(t, Stage(t, cl, AtGovernor(Gate(c)), w.decide), c, outcome, w)
  }

  function FromSection(t: Template, passed: Client, c: CallId, outcome: Outcome, w: Waits): Client {
    FromExecute(t, Stage(t, passed, AtGovernor(Action.Section(c)), w.execute), c, outcome, w)
  }

  function FromExecute(t: Template, decided: Client, c: CallId, outcome: Outcome, w: Waits): Client {
    Do(t, Stage(t, decided, AtGovernor(Execute(c, outcome)), w.commit), AtGovernor(Action.Commit(c)))
  }

  function Served(t: Template, cl: Client, g: Guarded, c: CallId, outcome: Outcome, w: Waits): Client {
    FromGate(t, BeforeGate(t, cl, g, c, w), c, outcome, w)
  }

  predicate RulesAllow(t: Template, cl: Client, g: Guarded) {
    Allowing(g.rules, ContextOf(t, cl.cell.run, g)) == |g.rules|
  }

  lemma StandsAfter(t: Template, cl: Client, op: Op, wait: seq<Op>, s: Standing)
    requires Stands(t, Do(t, cl, op), s) && AllForeign(wait, s.c)
    ensures Stands(t, Stage(t, cl, op, wait), s)
  {
    ForeignStretch(t, Do(t, cl, op), wait, s);
  }

  lemma UpToTheGate(t: Template, cl: Client, g: Guarded, w: Waits, s: Standing)
    requires Stands(t, cl, s) && s.turn.Idle? && s.phase.None? && Quiet(w, s.c)
    ensures var turn := Looked(t, cl, g);
            Stands(t, BeforeGate(t, cl, g, s.c, w),
                   if RulesAllow(t, cl, g)
                   then s.(turn := Asked(s.c, g, turn.ctx), phase := Some(Waiting(CallTool(CallOf(g)))))
                   else s.(turn := turn))
  {
    var turn := Looked(t, cl, g);
    DoKeeps(t, cl, Look(g));
    StandsAfter(t, cl, Look(g), w.ask, s.(turn := turn));
    var mid := Stage(t, cl, Look(g), w.ask);
    DoKeeps(t, mid, Ask(s.c));
    StandsAfter(t, mid, Ask(s.c), w.gate,
                if turn.Checked? then s.(turn := Asked(s.c, g, turn.ctx), phase := Some(Waiting(CallTool(CallOf(g)))))
                else s.(turn := turn));
  }

  // Nothing of the request is left to do, or there is no such request.
  predicate Over(s: Standing) {
    s.phase.None? || s.phase.value.Answered?
  }

  lemma Idles(t: Template, cl: Client, a: Action, s: Standing)
    requires Stands(t, cl, s) && (a.Gate? || a.Section? || a.Execute? || a.Commit?) && a.c == s.c
    requires Over(s) || (s.phase.value.Refused? && a.Execute?)
    ensures Do(t, cl, AtGovernor(a)) == cl
  {
    assert Act(t, cl.cell, a) == cl.cell;
  }

  lemma NothingLeft(t: Template, cl: Client, outcome: Outcome, w: Waits, s: Standing)
    requires Stands(t, cl, s) && Over(s) && Quiet(w, s.c)
    ensures Stands(t, FromSection(t, cl, s.c, outcome, w), s)
  {
    Idles(t, cl, Action.Section(s.c), s);
    StandsAfter(t, cl, AtGovernor(Action.Section(s.c)), w.execute, s);
    var decided := Stage(t, cl, AtGovernor(Action.Section(s.c)), w.execute);
    Idles(t, decided, Execute(s.c, outcome), s);
    StandsAfter(t, decided, AtGovernor(Execute(s.c, outcome)), w.commit, s);
    Idles(t, Stage(t, decided, AtGovernor(Execute(s.c, outcome)), w.commit), Action.Commit(s.c), s);
  }

  lemma GateOpens(t: Template, cl: Client, g: Guarded, wait: seq<Op>, s: Standing)
    requires Stands(t, cl, s) && s.turn.Asked? && s.phase == Some(Waiting(CallTool(CallOf(g)))) && AllForeign(wait, s.c)
    ensures var stopped := cl.cell.run.stopped;
            Stands(t, Stage(t, cl, AtGovernor(Gate(s.c)), wait),
                   s.(phase := Some(if stopped.Some? then Answered(Gone(stopped.value)) else Passed(CallTool(CallOf(g))))))
  {
    DoKeeps(t, cl, AtGovernor(Gate(s.c)));
    var phase := PhaseOf(Do(t, cl, AtGovernor(Gate(s.c))).cell.calls, s.c);
    StandsAfter(t, cl, AtGovernor(Gate(s.c)), wait, s.(phase := phase));
  }

  lemma Decides(t: Template, cl: Client, g: Guarded, wait: seq<Op>, s: Standing) returns (p: Phase)
    requires Stands(t, cl, s) && s.turn.Asked? && s.phase == Some(Passed(CallTool(CallOf(g)))) && AllForeign(wait, s.c)
    ensures if HasRoom(t, s.counts, g.tool) then p == Cleared(CallOf(g)) else p.Refused? && p.call == CallOf(g)
    ensures Stands(t, Stage(t, cl, AtGovernor(Action.Section(s.c)), wait), s.(phase := Some(p)))
  {
    DecideFindsRoom(t, cl.cell.run, g.tool);
    DoKeeps(t, cl, AtGovernor(Action.Section(s.c)));
    p := Do(t, cl, AtGovernor(Action.Section(s.c))).cell.calls[s.c];
    StandsAfter(t, cl, AtGovernor(Action.Section(s.c)), wait, s.(phase := Some(p)));
  }

  lemma Executes(t: Template, cl: Client, g: Guarded, outcome: Outcome, wait: seq<Op>, s: Standing)
    requires Stands(t, cl, s) && s.turn.Asked? && s.phase == Some(Cleared(CallOf(g))) && AllForeign(wait, s.c)
    ensures Stands(t, Stage(t, cl, AtGovernor(Execute(s.c, outcome)), wait), s.(phase := Some(Ran(CallOf(g), outcome))))
  {
    DoKeeps(t, cl, AtGovernor(Execute(s.c, outcome)));
    StandsAfter(t, cl, AtGovernor(Execute(s.c, outcome)), wait, s.(phase := Some(Ran(CallOf(g), outcome))));
  }

  lemma RunsAndCounts(t: Template, cl: Client, g: Guarded, outcome: Outcome, w: Waits, s: Standing)
    requires Stands(t, cl, s) && s.turn.Asked? && s.phase == Some(Cleared(CallOf(g))) && Quiet(w, s.c)
    ensures FromExecute(t, cl, s.c, outcome, w).cell.run.history == s.history + if outcome.Failed? then [] else [g.tool]
  {
    Executes(t, cl, g, outcome, w.commit, s);
    CommitAllows(t, Stage(t, cl, AtGovernor(Execute(s.c, outcome)), w.commit).cell.run, CallOf(g), outcome);
    assert s.history + [] == s.history;
  }

  lemma RefusedIsNotCounted(t: Template, cl: Client, outcome: Outcome, w: Waits, s: Standing)
    requires Stands(t, cl, s) && s.turn.Asked? && s.phase.Some? && s.phase.value.Refused? && Quiet(w, s.c)
    ensures FromExecute(t, cl, s.c, outcome, w).cell.run.history == s.history
  {
    Idles(t, cl, Execute(s.c, outcome), s);
    StandsAfter(t, cl, AtGovernor(Execute(s.c, outcome)), w.commit, s);
    RefuseSameCalls(Stage(t, cl, AtGovernor(Execute(s.c, outcome)), w.commit).cell.run, s.phase.value.call, s.phase.value.why);
  }

  lemma PassedCounts(t: Template, cl: Client, g: Guarded, outcome: Outcome, w: Waits, s: Standing)
    requires Stands(t, cl, s) && s.turn.Asked? && s.phase == Some(Passed(CallTool(CallOf(g)))) && Quiet(w, s.c)
    ensures FromSection(t, cl, s.c, outcome, w).cell.run.history
            == s.history + if HasRoom(t, s.counts, g.tool) && !outcome.Failed? then [g.tool] else []
  {
    var p := Decides(t, cl, g, w.execute, s);
    var decided := Stage(t, cl, AtGovernor(Action.Section(s.c)), w.execute);
    assert s.history + [] == s.history;
    if HasRoom(t, s.counts, g.tool) {
      RunsAndCounts(t, decided, g, outcome, w, s.(phase := Some(p)));
    } else {
      RefusedIsNotCounted(t, decided, outcome, w, s.(phase := Some(p)));
    }
  }

  // Whatever lands at any point of it, a call is counted exactly when every rule allows
  // it on the status it saw, the run is running when its gate is reached, its tool is
  // allowlisted and below its cap, and it does not fail.
  lemma GuardedCallCounts(t: Template, cl: Client, g: Guarded, c: CallId, outcome: Outcome, w: Waits)
    requires Governed(t, cl) && cl.turn.Idle? && c !in cl.cell.calls && Quiet(w, c)
    ensures Served(t, cl, g, c, outcome, w).cell.run.history
            == cl.cell.run.history
               + if RulesAllow(t, cl, g) && BeforeGate(t, cl, g, c, w).cell.run.stopped.None?
                    && HasRoom(t, cl.cell.run.counts, g.tool) && !outcome.Failed?
                 then [g.tool] else []
  {
    var gate, turn := BeforeGate(t, cl, g, c, w), Looked(t, cl, g);
    var s := Standing(c, Idle, None, cl.cell.run.history, cl.cell.run.counts);
    UpToTheGate(t, cl, g, w, s);
    var passed := Stage(t, gate, AtGovernor(Gate(c)), w.decide);
    assert s.history + [] == s.history;
    if turn.Barred? {
      Idles(t, gate, Gate(c), s.(turn := turn));
      StandsAfter(t, gate, AtGovernor(Gate(c)), w.decide, s.(turn := turn));
      NothingLeft(t, passed, outcome, w, s.(turn := turn));
    } else {
      var asked := s.(turn := Asked(c, g, turn.ctx), phase := Some(Waiting(CallTool(CallOf(g)))));
      GateOpens(t, gate, g, w.decide, asked);
      if gate.cell.run.stopped.Some? {
        NothingLeft(t, passed, outcome, w, asked.(phase := PhaseOf(passed.cell.calls, c)));
      } else {
        PassedCounts(t, passed, g, outcome, w, asked.(phase := Some(Passed(CallTool(CallOf(g))))));
      }
    }
  }

  // ── A call with nothing in between ──────────────────────────────────────────

  function TurnOps(g: Guarded, c: CallId): seq<Op> {
    [Look(g), Ask(c), AtGovernor(Gate(c)), AtGovernor(Action.Section(c)), AtGovernor(Execute(c, NotRegistered)),
     AtGovernor(Action.Commit(c)), Return]
  }

  lemma DoAllStep(t: Template, cl: Client, ops: seq<Op>, k: nat)
    requires k < |ops|
    ensures DoAll(t, cl, ops[..k + 1]) == Do(t, DoAll(t, cl, ops[..k]), ops[k])
  {
    assert Front(ops[..k + 1]) == ops[..k];
  }

  lemma TurnPlays(t: Template, cl: Client, g: Guarded, c: CallId)
    requires cl.turn.Idle? && c !in cl.cell.calls && RulesAllow(t, cl, g)
    ensures var last := DoAll(t, cl, TurnOps(g, c)[..6]);
            && last.turn.Asked? && last.turn.c == c
            && last.cell == Play(t, cl.cell, Whole(c, CallTool(CallOf(g)), NotRegistered))
  {
    var ops := TurnOps(g, c);
    PlayFive(t, cl.cell, Whole(c, CallTool(CallOf(g)), NotRegistered));
    var asked := AskedClient(t, cl, g, c, ops);
    AtGovernorFour(t, asked, ops, c, cl);
  }

  lemma TurnServes(t: Template, cl: Client, g: Guarded, c: CallId)
    requires cl.turn.Idle? && c !in cl.cell.calls && RulesAllow(t, cl, g) && cl.cell.run.stopped.None?
    ensures var next, (r, reply) := DoAll(t, cl, TurnOps(g, c)), ServeCall(t, cl.cell.run, CallOf(g), NotRegistered);
            next.turn == Idle && next.cell == Put(cl.cell, r, c, Answered(reply))
  {
    TurnPlays(t, cl, g, c);
    UninterruptedIsServe(t, cl.cell, c, CallTool(CallOf(g)), NotRegistered);
    DoAllStep(t, cl, TurnOps(g, c), 6);
    assert TurnOps(g, c)[..7] == TurnOps(g, c);
  }

  lemma AskedClient(t: Template, cl: Client, g: Guarded, c: CallId, ops: seq<Op>) returns (asked: Client)
    requires cl.turn.Idle? && c !in cl.cell.calls && RulesAllow(t, cl, g) && ops == TurnOps(g, c)
    ensures asked == DoAll(t, cl, ops[..2]) && asked.turn.Asked? && asked.turn.c == c
    ensures asked.cell == Act(t, cl.cell, Begin(c, CallTool(CallOf(g))))
  {
    assert DoAll(t, cl, ops[..0]) == cl;
    DoAllStep(t, cl, ops, 0);
    DoAllStep(t, cl, ops, 1);
    asked := DoAll(t, cl, ops[..2]);
  }

  lemma AtGovernorFour(t: Template, asked: Client, ops: seq<Op>, c: CallId, cl: Client)
    requires |ops| == 7 && asked == DoAll(t, cl, ops[..2])
    requires forall k :: 2 <= k < 6 ==> ops[k].AtGovernor?
    ensures var last := DoAll(t, cl, ops[..6]);
            && last.turn == asked.turn
            && last.cell == Act(t, Act(t, Act(t, Act(t, asked.cell, ops[2].a), ops[3].a), ops[4].a), ops[5].a)
  {
    DoAllStep(t, cl, ops, 2);
    AtGovernorActs(t, DoAll(t, cl, ops[..2]), ops[2]);
    DoAllStep(t, cl, ops, 3);
    AtGovernorActs(t, DoAll(t, cl, ops[..3]), ops[3]);
    DoAllStep(t, cl, ops, 4);
    AtGovernorActs(t, DoAll(t, cl, ops[..4]), ops[4]);
    DoAllStep(t, cl, ops, 5);
    AtGovernorActs(t, DoAll(t, cl, ops[..5]), ops[5]);
  }

  lemma AtGovernorActs(t: Template, cl: Client, op: Op)
    requires op.AtGovernor?
    ensures Do(t, cl, op).turn == cl.turn && Do(t, cl, op).cell == Act(t, cl.cell, op.a)
  {
  }

  // A call that finds room, left alone, is counted, and the client is ready again.
  lemma TurnAlone(t: Template, cl: Client, g: Guarded, c: CallId)
    requires Governed(t, cl) && cl.turn.Idle? && c !in cl.cell.calls && RulesAllow(t, cl, g)
    requires cl.cell.run.stopped.None? && HasRoom(t, cl.cell.run.counts, g.tool)
    ensures var next := DoAll(t, cl, TurnOps(g, c));
            && AllOneClient(TurnOps(g, c)) && Governed(t, next) && next.turn.Idle?
            && next.cell.run.history == cl.cell.run.history + [g.tool] && next.cell.run.stopped.None?
            && next.cell.run.counts == Bump(cl.cell.run.counts, g.tool)
            && next.cell.calls.Keys == cl.cell.calls.Keys + {c}
  {
    GovernedThroughout(t, cl, TurnOps(g, c));
    TurnServes(t, cl, g, c);
    DecideFindsRoom(t, cl.cell.run, g.tool);
  }

  // ── Denials ─────────────────────────────────────────────────────────────────

  // A denial that arrives stops the run and names the first rule that said no and
  // exactly the rules before it; nothing is called, whatever lands meanwhile.
  lemma DenialNamesTheFirstFalseRule(t: Template, cl: Client, g: Guarded, c: CallId, ask: seq<Op>, wait: seq<Op>)
    requires Governed(t, cl) && cl.turn.Idle? && c !in cl.cell.calls && !RulesAllow(t, cl, g)
    requires AllForeign(ask, c) && AllForeign(wait, c)
    ensures var k, ctx := Allowing(g.rules, ContextOf(t, cl.cell.run, g)), ContextOf(t, cl.cell.run, g);
            var told := Stage(t, Stage(t, cl, Look(g), ask), Report(c), wait);
            var r, next := told.cell.run, Do(t, told, AtGovernor(Action.Section(c))).cell.run;
            && k < |g.rules| && !g.rules[k].allows(ctx) && (forall j :: 0 <= j < k ==> g.rules[j].allows(ctx))
            && next.stopped == (if r.stopped.Some? then r.stopped else Some("RuleDenied"))
            && next.history == cl.cell.run.history
            && FullLog(next) == FullLog(r) + if g.tool == "" || g.rules[k].name == "" then []
                 else [LoggedEvent(r.runId, r.nextSeq, RuleDenied(g.tool, g.rules[k].name, Names(g.rules[..k])))]
  {
    var turn := Looked(t, cl, g);
    var s := Standing(c, turn, None, cl.cell.run.history, cl.cell.run.counts);
    DoKeeps(t, cl, Look(g));
    StandsAfter(t, cl, Look(g), ask, s);
    var mid := Stage(t, cl, Look(g), ask);
    ReportLands(t, mid, wait, s);
    StopTells(Stage(t, mid, Report(c), wait).cell.run, g, turn.k);
  }

  lemma StopTells(r: Run, g: Guarded, k: nat)
    requires k < |g.rules|
    ensures var next := HandleStop(r, Denial(g, k));
            && next.stopped == (if r.stopped.Some? then r.stopped else Some("RuleDenied"))
            && next.history == r.history && next.counts == r.counts
            && FullLog(next) == FullLog(r) + if g.tool == "" || g.rules[k].name == "" then []
                 else [LoggedEvent(r.runId, r.nextSeq, RuleDenied(g.tool, g.rules[k].name, Names(g.rules[..k])))]
  {
    AppendExtends(r, RuleDenied(g.tool, g.rules[k].name, Names(g.rules[..k])));
    assert FullLog(r) + [] == FullLog(r);
  }

  lemma StopSection(t: Template, cl: Client, s: Standing, g: Guarded, k: nat)
    requires Stands(t, cl, s) && s.turn.Reported? && k < |g.rules| && s.phase == Some(Passed(Denial(g, k)))
    ensures var next := Do(t, cl, AtGovernor(Action.Section(s.c)));
            && Governed(t, next) && next.turn == s.turn && next.cell.run == HandleStop(cl.cell.run, Denial(g, k))
  {
    DoKeeps(t, cl, AtGovernor(Action.Section(s.c)));
  }

  lemma ReportLands(t: Template, cl: Client, wait: seq<Op>, s: Standing)
    requires Stands(t, cl, s) && s.turn.Barred? && s.turn.k < |s.turn.g.rules| && s.phase.None? && AllForeign(wait, s.c)
    ensures var told := Stage(t, cl, Report(s.c), wait);
            var next := Do(t, told, AtGovernor(Action.Section(s.c)));
            && Governed(t, next) && next.turn == Reported(s.c)
            && told.cell.run.history == s.history && told.cell.run.counts == s.counts
            && next.cell.run == HandleStop(told.cell.run, Denial(s.turn.g, s.turn.k))
  {
    var reported := s.(turn := Reported(s.c), phase := Some(Passed(Denial(s.turn.g, s.turn.k))));
    DoKeeps(t, cl, Report(s.c));
    StandsAfter(t, cl, Report(s.c), wait, reported);
    StopSection(t, Stage(t, cl, Report(s.c), wait), reported, s.turn.g, s.turn.k);
  }

  // A stopped run none of whose calls is past the gate.
  ghost predicate Shut(cl: Client) {
    && cl.cell.run.stopped.Some?
    && (cl.turn.Asked? && cl.turn.c in cl.cell.calls ==>
          cl.cell.calls[cl.turn.c].Waiting? || cl.cell.calls[cl.turn.c].Answered?)
  }

  lemma ShutStays(t: Template, cl: Client, op: Op)
    requires Governed(t, cl) && Shut(cl) && OneClient(op)
    ensures Shut(Do(t, cl, op)) && Do(t, cl, op).cell.run.history == cl.cell.run.history
  {
    if op.AtGovernor? {
      Stops.ActSpends(t, cl.cell, op.a);
      if op.a.Drain? || op.a.CloseOut? || !Own(cl.turn, op.a.c) {
        OthersSection(t, cl.cell, op.a, cl.turn);
      } else {
        assert Act(t, cl.cell, op.a).run == cl.cell.run;
      }
    }
  }

  lemma {:induction false} ShutForGood(t: Template, cl: Client, ops: seq<Op>)
    requires Governed(t, cl) && Shut(cl) && AllOneClient(ops)
    ensures DoAll(t, cl, ops).cell.run.history == cl.cell.run.history && Shut(DoAll(t, cl, ops))
  {
    if ops != [] {
      ShutForGood(t, cl, Front(ops));
      GovernedThroughout(t, cl, Front(ops));
      ShutStays(t, DoAll(t, cl, Front(ops)), Last(ops));
    }
  }

  // The client goes on: its denial reached the governor, or was lost.
  function AfterDenial(t: Template, cl: Client, c: CallId, arrives: bool): Client {
    if arrives then Do(t, Stage(t, cl, Report(c), []), AtGovernor(Action.Section(c))) else Do(t, cl, GiveUp)
  }

  // The rules a process registers stay registered: every call it looks at afterwards is
  // checked against the same ones.
  ghost predicate Keeps(ops: seq<Op>, rules: seq<Rule>) {
    forall i :: 0 <= i < |ops| && ops[i].Look? ==> ops[i].g.rules == rules
  }

  lemma LostDenialFreesTheClient(t: Template, cl: Client, c: CallId, g: Guarded)
    requires Governed(t, cl) && cl.turn.Barred? && c !in cl.cell.calls && RulesAllow(t, cl, g)
    requires cl.cell.run.stopped.None? && HasRoom(t, cl.cell.run.counts, g.tool)
    ensures AllOneClient(TurnOps(g, c)) && Keeps(TurnOps(g, c), g.rules)
    ensures DoAll(t, AfterDenial(t, cl, c, false), TurnOps(g, c)).cell.run.history == cl.cell.run.history + [g.tool]
  {
    DoKeeps(t, cl, GiveUp);
    TurnAlone(t, Do(t, cl, GiveUp), g, c);
  }

  // A client that goes on under the same rules never has a call counted after a denial
  // exactly when the denial's report arrived. (There has to be a call those rules and
  // the governor would let through, or nothing is counted either way.)
  lemma NothingFollowsAReportedDenial(t: Template, cl: Client, c: CallId, arrives: bool, g: Guarded)
    requires Governed(t, cl) && cl.turn.Barred? && cl.turn.k < |cl.turn.g.rules| && c !in cl.cell.calls
    requires cl.cell.run.stopped.None? && HasRoom(t, cl.cell.run.counts, g.tool)
    requires g.rules == cl.turn.g.rules && RulesAllow(t, cl, g)
    ensures (forall ops | AllOneClient(ops) && Keeps(ops, cl.turn.g.rules) ::
               DoAll(t, AfterDenial(t, cl, c, arrives), ops).cell.run.history == cl.cell.run.history)
            <==> arrives
  {
    if arrives {
      var s := Standing(c, cl.turn, None, cl.cell.run.history, cl.cell.run.counts);
      ReportLands(t, cl, [], s);
      StopTells(Stage(t, cl, Report(c), []).cell.run, cl.turn.g, cl.turn.k);
      var after := AfterDenial(t, cl, c, true);
      forall ops | AllOneClient(ops) ensures DoAll(t, after, ops).cell.run.history == cl.cell.run.history {
        ShutForGood(t, after, ops);
      }
    } else {
      LostDenialFreesTheClient(t, cl, c, g);
      assert cl.cell.run.history + [g.tool] != cl.cell.run.history;
    }
  }

  // ── When the rules that let a call through still bind it ────────────────────

  // The tools counted by these sections, of any clients.
  function CountedIn(t: Template, cell: Cell, actions: seq<Action>): seq<Tool> {
    if actions == [] then []
    else CountedIn(t, cell, Front(actions)) + CountedBy(Play(t, cell, Front(actions)), Last(actions))
  }

  function CountedBy(cell: Cell, a: Action): seq<Tool> {
    if a.Commit? && a.c in cell.calls && cell.calls[a.c].Ran? && !cell.calls[a.c].outcome.Failed?
    then [cell.calls[a.c].call.tool] else []
  }

  lemma ActCounts(t: Template, cell: Cell, a: Action)
    ensures Act(t, cell, a).run.history == cell.run.history + CountedBy(cell, a)
  {
    match a
    case Section(c) =>
      if c in cell.calls && cell.calls[c].Passed? && !cell.calls[c].q.CallTool? {
        HandleKeepsHistory(t, cell.run, cell.calls[c].q);
      }
    case _ =>
  }

  lemma {:induction false} HistoryIsCounted(t: Template, cell: Cell, actions: seq<Action>)
    ensures Play(t, cell, actions).run.history == cell.run.history + CountedIn(t, cell, actions)
  {
    if actions == [] {
      assert cell.run.history + [] == cell.run.history;
    } else {
      HistoryIsCounted(t, cell, Front(actions));
      ActCounts(t, Play(t, cell, Front(actions)), Last(actions));
    }
  }

  // Every rule that allowed a call on one context allows it on the other.
  ghost predicate RulesBind(ctx: Context, later: Context) {
    forall rule: Rule | rule.allows(ctx) :: rule.allows(later)
  }

  // Blind to what time it is.
  ghost predicate ReadsNoClock(rule: Rule) {
    forall ctx: Context, e: u64, n: u64 :: rule.allows(ctx) == rule.allows(AtTime(ctx, e, n))
  }

  function AtTime(ctx: Context, elapsedMs: u64, nowMs: u64): Context {
    ctx.(elapsedMs := elapsedMs, nowMs := nowMs)
  }

  ghost predicate ClocklessRulesBind(ctx: Context, later: Context) {
    forall rule: Rule | ReadsNoClock(rule) && rule.allows(ctx) :: rule.allows(later)
  }

  lemma RulesSeeEverything(ctx: Context, later: Context)
    ensures RulesBind(ctx, later) <==> later == ctx
  {
    var rule := Rule("nothing since", (x: Context) => x == ctx);
    assert rule.allows(ctx) && (rule.allows(later) ==> later == ctx);
  }

  lemma ClocklessRulesSeeTheRest(ctx: Context, later: Context)
    ensures ClocklessRulesBind(ctx, later) <==> later == AtTime(ctx, later.elapsedMs, later.nowMs)
  {
    var rule := Rule("nothing since", (x: Context) => AtTime(x, 0, 0) == AtTime(ctx, 0, 0));
    assert ReadsNoClock(rule);
    assert rule.allows(ctx) && (rule.allows(later) ==> AtTime(later, 0, 0) == AtTime(ctx, 0, 0));
    if later == AtTime(ctx, later.elapsedMs, later.nowMs) {
      forall r: Rule | ReadsNoClock(r) && r.allows(ctx) ensures r.allows(later) {}
    }
  }

  // What the status and the moment of the count can differ in.
  predicate SameReading(r: Run, later: Run) {
    later.history == r.history && later.counts == r.counts && later.tokens == r.tokens
  }

  lemma ContextsAgree(t: Template, r: Run, later: Run, g: Guarded, g': Guarded)
    requires g' == g.(elapsedMs := g'.elapsedMs, nowMs := g'.nowMs)
    ensures var ctx, after := ContextOf(t, r, g), ContextOf(t, later, g');
            && after.elapsedMs == g'.elapsedMs && after.nowMs == g'.nowMs
            && (after == AtTime(ctx, after.elapsedMs, after.nowMs) <==> SameReading(r, later))
            && (after == ctx <==> SameReading(r, later) && g' == g)
  {
  }

  lemma NothingCounted(t: Template, cell: Cell, actions: seq<Action>)
    requires Consistent(cell.run)
    ensures var later := Play(t, cell, actions).run;
            SameReading(cell.run, later) <==> CountedIn(t, cell, actions) == [] && later.tokens == cell.run.tokens
  {
    var later, counted := Play(t, cell, actions).run, CountedIn(t, cell, actions);
    HistoryIsCounted(t, cell, actions);
    assert |cell.run.history + counted| == |cell.run.history| + |counted|;
    if counted == [] {
      assert cell.run.history + [] == cell.run.history;
      PlayKeeps(t, cell, actions);
      Stops.CountsFollowHistory(later.counts, cell.run.counts, cell.run.history);
    }
  }

  // Between a client's status and the count of its call any sections of any clients may
  // be played, and the clocks move on to those of g'. Every rule that allowed the call on
  // the status would allow it on what the status would show by then exactly when none of
  // those sections counted a call, the token total is what it was, and no clock a rule
  // may read has moved.
  lemma RulesBindIffNothingChanged(t: Template, cell: Cell, g: Guarded, g': Guarded, actions: seq<Action>)
    requires Consistent(cell.run) && g' == g.(elapsedMs := g'.elapsedMs, nowMs := g'.nowMs)
    ensures var ctx, after := ContextOf(t, cell.run, g), ContextOf(t, Play(t, cell, actions).run, g');
            var unchanged' := CountedIn(t, cell, actions) == [] && Play(t, cell, actions).run.tokens == cell.run.tokens;
            && (ClocklessRulesBind(ctx, after) <==> unchanged')
            && (RulesBind(ctx, after) <==> unchanged' && g' == g)
  {
    var later := Play(t, cell, actions).run;
    NothingCounted(t, cell, actions);
    ContextsAgree(t, cell.run, later, g, g');
    RulesSeeEverything(ContextOf(t, cell.run, g), ContextOf(t, later, g'));
    ClocklessRulesSeeTheRest(ContextOf(t, cell.run, g), ContextOf(t, later, g'));
  }

  lemma StatusShowsHistory(t: Template, r: Run, g: Guarded)
    ensures ContextOf(t, r, g).history == r.history
  {
  }
}
