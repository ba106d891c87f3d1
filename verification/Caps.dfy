// `max_calls` under overlap. A call is decided under one lock and counted under a later
// one, so calls that overlap between the two can pass the same check.
module Caps {
  import opened Text
  import opened Events
  import opened Policy
  import opened Runs
  import opened Replay
  import opened Calls

  predicate Holds(p: Phase, tool: Tool) {
    (p.Cleared? || p.Ran?) && p.call.tool == tool
  }

  // Calls of `tool` that were allowed and are not yet counted.
  function Pending(cell: Cell, tool: Tool): set<CallId> {
    set c | c in cell.calls && Holds(cell.calls[c], tool)
  }

  // At every moment of the execution at most `overlap` calls of the tool are pending.
  ghost predicate Overlaps(t: Template, cell: Cell, actions: seq<Action>, tool: Tool, overlap: nat) {
    forall n :: 0 <= n <= |actions| ==> |Pending(Play(t, cell, actions[..n]), tool)| <= overlap
  }

  function Called(cell: Cell, tool: Tool): nat {
    Multiplicity(cell.run.history, tool)
  }

  lemma PendingPut(cell: Cell, r: Run, c: CallId, p: Phase, tool: Tool)
    ensures Pending(Put(cell, r, c, p), tool)
            == if Holds(p, tool) then Pending(cell, tool) + {c} else Pending(cell, tool) - {c}
  {
  }

  // A step moves the two numbers together: a decision adds a pending call only below
  // the cap, and a commit trades a pending call for a counted one.
  ghost predicate InStep(cell: Cell, next: Cell, tool: Tool, max: u32) {
    var before, after := Called(cell, tool) + |Pending(cell, tool)|, Called(next, tool) + |Pending(next, tool)|;
    && Called(cell, tool) <= Called(next, tool)
    && (after <= before || (Called(next, tool) == Called(cell, tool) < max && after == before + 1))
  }

  lemma MoveStep(cell: Cell, r: Run, c: CallId, p: Phase, tool: Tool, max: u32)
    requires r.history == cell.run.history
    requires Holds(p, tool) ==> Called(cell, tool) < max || (c in cell.calls && Holds(cell.calls[c], tool))
    ensures InStep(cell, Put(cell, r, c, p), tool, max)
  {
    PendingPut(cell, r, c, p, tool);
    if c in cell.calls && Holds(cell.calls[c], tool) { assert Pending(cell, tool) + {c} == Pending(cell, tool); }
  }

  lemma HandleKeepsHistory(t: Template, r: Run, q: Request)
    requires !q.CallTool?
    ensures Handle(t, r, q).0.history == r.history && Handle(t, r, q).0.counts == r.counts
  {
  }

  lemma SectionStep(t: Template, cell: Cell, c: CallId, q: Request, tool: Tool)
    requires CountsAgree(cell.run.counts, cell.run.history) && tool in t.maxCalls
    requires Called(cell, tool) < U32_SIZE
    ensures InStep(cell, EnterSection(t, cell, c, q), tool, t.maxCalls[tool])
  {
    assert CountAgrees(cell.run.counts, cell.run.history, tool);
    var next := EnterSection(t, cell, c, q);
    if !q.CallTool? { HandleKeepsHistory(t, cell.run, q); }
    MoveStep(cell, next.run, c, next.calls[c], tool, t.maxCalls[tool]);
  }

  lemma FinishStep(t: Template, cell: Cell, c: CallId, tool: Tool)
    requires tool in t.maxCalls && c in cell.calls
    ensures InStep(cell, Finish(t, cell, c, cell.calls[c]), tool, t.maxCalls[tool])
  {
    var p, next := cell.calls[c], Finish(t, cell, c, cell.calls[c]);
    match p
    case Ran(call, outcome) =>
      PendingPut(cell, next.run, c, next.calls[c], tool);
      OneMoreCall(cell.run.history, call.tool, tool);
      if call.tool == tool { assert c in Pending(cell, tool); }
      else { assert c !in Pending(cell, tool); assert Pending(cell, tool) - {c} == Pending(cell, tool); }
    case Refused(call, why) => MoveStep(cell, next.run, c, next.calls[c], tool, t.maxCalls[tool]);
    case _ =>
  }

  lemma CapStep(t: Template, cell: Cell, a: Action, tool: Tool)
    requires CountsAgree(cell.run.counts, cell.run.history) && tool in t.maxCalls
    requires Called(cell, tool) < U32_SIZE
    ensures InStep(cell, Act(t, cell, a), tool, t.maxCalls[tool])
  {
    var next, max := Act(t, cell, a), t.maxCalls[tool];
    match a
    case Section(c) =>
      if c in cell.calls && cell.calls[c].Passed? { SectionStep(t, cell, c, cell.calls[c].q, tool); }
    case Commit(c) => if c in cell.calls { FinishStep(t, cell, c, tool); }
    case Drain => assert Pending(next, tool) == Pending(cell, tool);
    case CloseOut(_) => assert Pending(next, tool) == Pending(cell, tool);
    case _ => if next != cell { MoveStep(cell, cell.run, a.c, next.calls[a.c], tool, max); }
  }

  lemma {:induction false} CapInvariant(t: Template, cell: Cell, actions: seq<Action>, tool: Tool, overlap: nat)
    requires Consistent(cell.run) && cell.calls == map[] && tool !in cell.run.history
    requires tool in t.maxCalls && t.maxCalls[tool] + overlap <= U32_SIZE
    requires Overlaps(t, cell, actions, tool, overlap)
    ensures var next, max := Play(t, cell, actions), t.maxCalls[tool];
            if max == 0 then Called(next, tool) == |Pending(next, tool)| == 0
            else Called(next, tool) + |Pending(next, tool)| <= max + overlap - 1
  {
    if actions == [] {
      assert Pending(cell, tool) == {};
    } else {
      var before := Play(t, cell, Front(actions));
      assert Overlaps(t, cell, Front(actions), tool, overlap) by {
        forall n | 0 <= n < |actions| ensures Front(actions)[..n] == actions[..n] {}
      }
      CapInvariant(t, cell, Front(actions), tool, overlap);
      PlayKeeps(t, cell, Front(actions));
      CapStep(t, before, Last(actions), tool);
      assert actions[..|actions|] == actions;
    }
  }

  // A tool's calls never pass max_calls + overlap - 1, and a cap of zero admits none.
  // The stored 32-bit count is exact meanwhile.
  lemma CapBound(t: Template, id: RunId, actions: seq<Action>, tool: Tool, overlap: nat)
    requires tool in t.maxCalls && t.maxCalls[tool] + overlap <= U32_SIZE
    requires Overlaps(t, Opening(t, id), actions, tool, overlap)
    ensures var run, max := Play(t, Opening(t, id), actions).run, t.maxCalls[tool];
            && Multiplicity(run.history, tool) <= (if max == 0 then 0 else max + overlap - 1)
            && Count(run.counts, tool) == Multiplicity(run.history, tool)
  {
    var start := Opening(t, id);
    FreshIsConsistent(t, id);
    CapInvariant(t, start, actions, tool, overlap);
    PlayKeeps(t, start, actions);
    CountIsExact(Play(t, start, actions).run, tool);
  }

  lemma CountIsExact(r: Run, tool: Tool)
    requires Consistent(r) && Multiplicity(r.history, tool) < U32_SIZE
    ensures Count(r.counts, tool) == Multiplicity(r.history, tool)
  {
    assert CountAgrees(r.counts, r.history, tool);
  }

  // Calls that do not overlap never pass the cap, whatever the cap.
  lemma CapHoldsWithoutOverlap(t: Template, id: RunId, actions: seq<Action>, tool: Tool)
    requires tool in t.maxCalls && Overlaps(t, Opening(t, id), actions, tool, 1)
    ensures Multiplicity(Play(t, Opening(t, id), actions).run.history, tool) <= t.maxCalls[tool]
  {
    CapBound(t, id, actions, tool, 1);
  }

  // ── The bound is reached ────────────────────────────────────────────────────

  lemma Extend(t: Template, start: Cell, actions: seq<Action>, a: Action, tool: Tool, overlap: nat)
    requires Overlaps(t, start, actions, tool, overlap)
    requires |Pending(Act(t, Play(t, start, actions), a), tool)| <= overlap
    ensures Play(t, start, actions + [a]) == Act(t, Play(t, start, actions), a)
    ensures Overlaps(t, start, actions + [a], tool, overlap)
  {
    var longer := actions + [a];
    assert Front(longer) == actions && Last(longer) == a;
    forall n | 0 <= n <= |longer| ensures |Pending(Play(t, start, longer[..n]), tool)| <= overlap {
      if n <= |actions| { assert longer[..n] == actions[..n]; } else { assert longer[..n] == longer; }
    }
  }

  // A move that leaves no more calls pending than before.
  lemma ExtendBy(t: Template, start: Cell, actions: seq<Action>, a: Action, r: Run, c: CallId, p: Phase, tool: Tool, overlap: nat)
    requires Overlaps(t, start, actions, tool, overlap)
    requires var cell := Play(t, start, actions);
             && Act(t, cell, a) == Put(cell, r, c, p)
             && (Holds(p, tool) ==> c in cell.calls && Holds(cell.calls[c], tool))
    ensures Play(t, start, actions + [a]) == Put(Play(t, start, actions), r, c, p)
    ensures Overlaps(t, start, actions + [a], tool, overlap)
  {
    var cell := Play(t, start, actions);
    assert |Pending(Play(t, start, actions[..|actions|]), tool)| <= overlap && actions[..|actions|] == actions;
    PendingPut(cell, r, c, p, tool);
    assert Pending(Put(cell, r, c, p), tool) <= Pending(cell, tool);
    FewerThan(Pending(Put(cell, r, c, p), tool), Pending(cell, tool));
    Extend(t, start, actions, a, tool, overlap);
  }

  lemma FewerThan(some: set<CallId>, all: set<CallId>)
    requires some <= all
    ensures |some| <= |all|
  {
    assert all == some + (all - some);
  }

  // A request brought through its gate.
  lemma PassGate(t: Template, start: Cell, actions: seq<Action>, c: CallId, q: Request, tool: Tool, overlap: nat)
    returns (longer: seq<Action>)
    requires Overlaps(t, start, actions, tool, overlap) && Gated(q)
    requires c !in Play(t, start, actions).calls && Play(t, start, actions).run.stopped.None?
    ensures Overlaps(t, start, longer, tool, overlap)
    ensures Play(t, start, longer) == Put(Play(t, start, actions), Play(t, start, actions).run, c, Passed(q))
  {
    var cell := Play(t, start, actions);
    ExtendBy(t, start, actions, Begin(c, q), cell.run, c, Waiting(q), tool, overlap);
    ExtendBy(t, start, actions + [Begin(c, q)], Gate(c), cell.run, c, Passed(q), tool, overlap);
    Overwrite(cell, cell.run, c, Waiting(q), cell.run, Passed(q));
    longer := actions + [Begin(c, q)] + [Gate(c)];
  }

  // A call admitted below the cap: it is pending from here on.
  lemma AdmitOne(t: Template, start: Cell, actions: seq<Action>, c: CallId, call: ToolCall, overlap: nat)
    returns (longer: seq<Action>)
    requires Overlaps(t, start, actions, call.tool, overlap)
    requires var cell := Play(t, start, actions);
             c !in cell.calls && cell.run.stopped.None? && Decide(t, cell.run, call.tool).Allow?
             && |Pending(cell, call.tool)| < overlap
    ensures Overlaps(t, start, longer, call.tool, overlap)
    ensures Play(t, start, longer) == Put(Play(t, start, actions), Play(t, start, actions).run, c, Cleared(call))
  {
    var cell := Play(t, start, actions);
    var passed := PassGate(t, start, actions, c, CallTool(call), call.tool, overlap);
    Overwrite(cell, cell.run, c, Passed(CallTool(call)), cell.run, Cleared(call));
    PendingPut(cell, cell.run, c, Cleared(call), call.tool);
    Extend(t, start, passed, Section(c), call.tool, overlap);
    longer := passed + [Section(c)];
  }

  // A pending call run and counted.
  lemma SettleOne(t: Template, start: Cell, actions: seq<Action>, c: CallId, call: ToolCall, overlap: nat)
    returns (longer: seq<Action>)
    requires Overlaps(t, start, actions, call.tool, overlap)
    requires var cell := Play(t, start, actions);
             c in cell.calls && cell.calls[c] == Cleared(call)
    ensures Overlaps(t, start, longer, call.tool, overlap)
    ensures var (r, reply) := Runs.Commit(t, Play(t, start, actions).run, call, NotRegistered);
            Play(t, start, longer) == Put(Play(t, start, actions), r, c, Answered(reply))
  {
    var cell := Play(t, start, actions);
    var (r, reply) := Runs.Commit(t, cell.run, call, NotRegistered);
    ExtendBy(t, start, actions, Execute(c, NotRegistered), cell.run, c, Ran(call, NotRegistered), call.tool, overlap);
    ExtendBy(t, start, actions + [Execute(c, NotRegistered)], Commit(c), r, c, Answered(reply), call.tool, overlap);
    Overwrite(cell, cell.run, c, Ran(call, NotRegistered), r, Answered(reply));
    longer := actions + [Execute(c, NotRegistered)] + [Commit(c)];
  }

  // The cell with `counted` calls counted, `pending` pending, and ids below `numbered` used.
  ghost predicate Stage(cell: Cell, call: ToolCall, counted: nat, numbered: nat, pending: set<CallId>) {
    && Consistent(cell.run) && cell.run.stopped.None? && Called(cell, call.tool) == counted
    && (forall c :: c in cell.calls ==> c < numbered)
    && (forall c :: c in pending ==> c in cell.calls && cell.calls[c] == Cleared(call))
    && Pending(cell, call.tool) == pending
  }

  lemma AdmitStage(t: Template, start: Cell, actions: seq<Action>, call: ToolCall, counted: nat, numbered: nat,
                   pending: set<CallId>, overlap: nat)
    returns (longer: seq<Action>)
    requires Overlaps(t, start, actions, call.tool, overlap)
    requires Stage(Play(t, start, actions), call, counted, numbered, pending) && |pending| < overlap
    requires call.tool in t.allowedTools && call.tool in t.maxCalls && counted < t.maxCalls[call.tool]
    ensures Overlaps(t, start, longer, call.tool, overlap)
    ensures Stage(Play(t, start, longer), call, counted, numbered + 1, pending + {numbered})
    ensures |pending + {numbered}| == |pending| + 1
  {
    var cell := Play(t, start, actions);
    assert numbered !in pending;
    CountIsExact(cell.run, call.tool);
    longer := AdmitOne(t, start, actions, numbered, call, overlap);
    PendingPut(cell, cell.run, numbered, Cleared(call), call.tool);
  }

  lemma SettleStage(t: Template, start: Cell, actions: seq<Action>, call: ToolCall, counted: nat, numbered: nat,
                    pending: set<CallId>, c: CallId, overlap: nat)
    returns (longer: seq<Action>)
    requires Overlaps(t, start, actions, call.tool, overlap)
    requires Stage(Play(t, start, actions), call, counted, numbered, pending) && c in pending
    ensures Overlaps(t, start, longer, call.tool, overlap)
    ensures Stage(Play(t, start, longer), call, counted + 1, numbered, pending - {c})
  {
    var cell := Play(t, start, actions);
    longer := SettleOne(t, start, actions, c, call, overlap);
    var (r, reply) := Runs.Commit(t, cell.run, call, NotRegistered);
    CommitKeeps(t, cell.run, call, NotRegistered);
    OneMoreCall(cell.run.history, call.tool, call.tool);
    PendingPut(cell, r, c, Answered(reply), call.tool);
  }

  lemma {:induction false} CountOneByOne(t: Template, start: Cell, call: ToolCall, count: nat, overlap: nat)
    returns (actions: seq<Action>)
    requires Stage(start, call, 0, 0, {}) && 0 < overlap
    requires call.tool in t.allowedTools && call.tool in t.maxCalls && count <= t.maxCalls[call.tool]
    ensures Overlaps(t, start, actions, call.tool, overlap) && Stage(Play(t, start, actions), call, count, count, {})
  {
    if count == 0 {
      actions := [];
    } else {
      actions := CountOneByOne(t, start, call, count - 1, overlap);
      actions := AdmitStage(t, start, actions, call, count - 1, count - 1, {}, overlap);
      actions := SettleStage(t, start, actions, call, count - 1, count, {} + {count - 1}, count - 1, overlap);
      assert {} + {count - 1} - {count - 1} == {};
    }
  }

  lemma {:induction false} AdmitTogether(t: Template, start: Cell, from: seq<Action>, call: ToolCall, counted: nat, k: nat, overlap: nat)
    returns (actions: seq<Action>, pending: set<CallId>)
    requires Overlaps(t, start, from, call.tool, overlap) && Stage(Play(t, start, from), call, counted, counted, {})
    requires call.tool in t.allowedTools && call.tool in t.maxCalls && counted < t.maxCalls[call.tool] && k <= overlap
    ensures Overlaps(t, start, actions, call.tool, overlap) && |pending| == k
    ensures Stage(Play(t, start, actions), call, counted, counted + k, pending)
  {
    if k == 0 {
      actions, pending := from, {};
    } else {
      var fewer, held := AdmitTogether(t, start, from, call, counted, k - 1, overlap);
      var numbered := counted + (k - 1);
      actions := AdmitStage(t, start, fewer, call, counted, numbered, held, overlap);
      pending := held + {numbered};
      assert numbered + 1 == counted + k;
    }
  }

  lemma {:induction false} SettleAll(t: Template, start: Cell, from: seq<Action>, call: ToolCall, counted: nat, numbered: nat,
                                     pending: set<CallId>, overlap: nat)
    returns (actions: seq<Action>)
    requires Overlaps(t, start, from, call.tool, overlap)
    requires Stage(Play(t, start, from), call, counted, numbered, pending)
    ensures Overlaps(t, start, actions, call.tool, overlap)
    ensures Called(Play(t, start, actions), call.tool) == counted + |pending|
    decreases |pending|
  {
    if pending == {} {
      actions := from;
    } else {
      var c :| c in pending;
      actions := SettleStage(t, start, from, call, counted, numbered, pending, c, overlap);
      actions := SettleAll(t, start, actions, call, counted + 1, numbered, pending - {c}, overlap);
    }
  }

  // For every cap and every overlap some execution reaches the bound, so the cap
  // itself holds of all executions with that overlap exactly when the overlap is one.
  lemma CapBoundIsReached(t: Template, id: RunId, tool: Tool, overlap: nat)
    requires tool in t.allowedTools && tool in t.maxCalls && 0 < t.maxCalls[tool] && 0 < overlap
    requires t.maxCalls[tool] + overlap <= U32_SIZE
    ensures exists actions ::
              && Overlaps(t, Opening(t, id), actions, tool, overlap)
              && Multiplicity(Play(t, Opening(t, id), actions).run.history, tool) == t.maxCalls[tool] + overlap - 1
  {
    var start, call, room := Opening(t, id), ToolCall(tool, map[], []), t.maxCalls[tool] - 1;
    FreshIsConsistent(t, id);
    assert Pending(start, tool) == {};
    var first := CountOneByOne(t, start, call, room, overlap);
    var together, pending := AdmitTogether(t, start, first, call, room, overlap, overlap);
    var actions := SettleAll(t, start, together, call, room, room + overlap, pending, overlap);
    assert Called(Play(t, start, actions), tool) == Multiplicity(Play(t, start, actions).run.history, tool);
  }

  lemma CapIffNoOverlap(t: Template, id: RunId, tool: Tool, overlap: nat)
    requires tool in t.allowedTools && tool in t.maxCalls && 0 < t.maxCalls[tool] && 0 < overlap
    requires t.maxCalls[tool] + overlap <= U32_SIZE
    ensures (forall actions | Overlaps(t, Opening(t, id), actions, tool, overlap) ::
               Multiplicity(Play(t, Opening(t, id), actions).run.history, tool) <= t.maxCalls[tool])
            <==> overlap == 1
  {
    forall actions | Overlaps(t, Opening(t, id), actions, tool, overlap)
      ensures Multiplicity(Play(t, Opening(t, id), actions).run.history, tool) <= t.maxCalls[tool] + overlap - 1
    {
      CapBound(t, id, actions, tool, overlap);
    }
    CapBoundIsReached(t, id, tool, overlap);
  }
}
