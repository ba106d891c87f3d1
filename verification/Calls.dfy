// One run under overlapping requests. A request is a run of lock sections: the gate,
// then one section, or for a tool call decide / execute (no lock held) / commit. An
// action that is not enabled leaves the cell alone, so every sequence of actions is
// an execution.
module Calls {
  import opened Text
  import opened Events
  import opened Policy
  import opened Runs
  import opened Replay

  type CallId = nat

  datatype Phase =
    | Waiting(q: Request)                   // at the gate
    | Passed(q: Request)                    // through the gate, or never gated
    | Cleared(call: ToolCall)               // decided: allow
    | Refused(call: ToolCall, why: StopReason)
    | Ran(call: ToolCall, outcome: Outcome)
    | Answered(reply: Reply)

  datatype Cell = Cell(run: Run, calls: map<CallId, Phase>)

  datatype Action =
    | Begin(c: CallId, q: Request)
    | Gate(c: CallId)
    | Section(c: CallId)
    | Execute(c: CallId, outcome: Outcome)
    | Commit(c: CallId)
    | Drain
    | CloseOut(reason: string)

  function Put(cell: Cell, run: Run, c: CallId, phase: Phase): Cell {
    Cell(run, cell.calls[c := phase])
  }

  function Act(t: Template, cell: Cell, a: Action): Cell {
    var r := cell.run;
    match a
    case Begin(c, q) =>
      if c in cell.calls then cell else Put(cell, r, c, if Gated(q) then Waiting(q) else Passed(q))
    case Gate(c) =>
      if c in cell.calls && cell.calls[c].Waiting?
      then Put(cell, r, c, if r.stopped.Some? then Answered(Gone(r.stopped.value)) else Passed(cell.calls[c].q))
      else cell
    case Section(c) =>
      if c in cell.calls && cell.calls[c].Passed? then EnterSection(t, cell, c, cell.calls[c].q) else cell
    case Execute(c, outcome) =>
      if c in cell.calls && cell.calls[c].Cleared? then Put(cell, r, c, Ran(cell.calls[c].call, outcome)) else cell
    case Commit(c) => if c in cell.calls then Finish(t, cell, c, cell.calls[c]) else cell
    case Drain => cell.(run := Take(r))
    case CloseOut(reason) => cell.(run := Close(r, reason))
  }

  function EnterSection(t: Template, cell: Cell, c: CallId, q: Request): Cell {
    if q.CallTool? then
      match Decide(t, cell.run, q.call.tool)
      case Allow => Put(cell, cell.run, c, Cleared(q.call))
      case Deny(why) => Put(cell, cell.run, c, Refused(q.call, why))
    else
      var (r, reply) := Handle(t, cell.run, q);
      Put(cell, r, c, Answered(reply))
  }

  function Finish(t: Template, cell: Cell, c: CallId, phase: Phase): Cell {
    match phase
    case Ran(call, outcome) =>
      var (r, reply) := Runs.Commit(t, cell.run, call, outcome);
      Put(cell, r, c, Answered(reply))
    case Refused(call, why) => Put(cell, Refuse(cell.run, call, why), c, Answered(Denied(why)))
    case _ => cell
  }

  function Play(t: Template, cell: Cell, actions: seq<Action>): Cell {
    if actions == [] then cell else Act(t, Play(t, cell, Front(actions)), Last(actions))
  }

  function Opening(t: Template, id: RunId): Cell {
    Cell(Fresh(t, id), map[])
  }

  // ── Served alone, a request's sections are one request ──────────────────────

  function Whole(c: CallId, q: Request, outcome: Outcome): seq<Action> {
    [Begin(c, q), Gate(c), Section(c), Execute(c, outcome), Commit(c)]
  }

  lemma PlayFive(t: Template, cell: Cell, w: seq<Action>)
    requires |w| == 5
    ensures Play(t, cell, w) == Act(t, Act(t, Act(t, Act(t, Act(t, cell, w[0]), w[1]), w[2]), w[3]), w[4])
  {
    assert Front(w) == w[..4] && Front(w[..4]) == w[..3] && Front(w[..3]) == w[..2] && Front(w[..2]) == w[..1];
    assert Front(w[..1]) == [];
    assert Play(t, cell, w[..1]) == Act(t, cell, w[0]);
    assert Play(t, cell, w[..2]) == Act(t, Play(t, cell, w[..1]), w[1]);
    assert Play(t, cell, w[..3]) == Act(t, Play(t, cell, w[..2]), w[2]);
    assert Play(t, cell, w[..4]) == Act(t, Play(t, cell, w[..3]), w[3]);
  }

  lemma Overwrite(cell: Cell, r: Run, c: CallId, p: Phase, r': Run, p': Phase)
    ensures Put(Put(cell, r, c, p), r', c, p') == Put(cell, r', c, p')
  {
    assert cell.calls[c := p][c := p'] == cell.calls[c := p'];
  }

  // The cell once its first two sections are over.
  lemma Admitted(t: Template, cell: Cell, c: CallId, q: Request)
    requires c !in cell.calls
    ensures Act(t, Act(t, cell, Begin(c, q)), Gate(c))
            == Put(cell, cell.run, c, if Gated(q) && cell.run.stopped.Some?
                                      then Answered(Gone(cell.run.stopped.value)) else Passed(q))
  {
    var r := cell.run;
    Overwrite(cell, r, c, Waiting(q), r, Answered(Gone(if r.stopped.Some? then r.stopped.value else "")));
    Overwrite(cell, r, c, Waiting(q), r, Passed(q));
  }

  lemma AnsweredStays(t: Template, cell: Cell, c: CallId, r: Run, reply: Reply, outcome: Outcome)
    ensures var done := Put(cell, r, c, Answered(reply));
            Act(t, done, Section(c)) == done && Act(t, done, Execute(c, outcome)) == done && Act(t, done, Commit(c)) == done
  {
  }

  lemma CallSections(t: Template, cell: Cell, c: CallId, call: ToolCall, outcome: Outcome)
    ensures Act(t, Act(t, Act(t, Put(cell, cell.run, c, Passed(CallTool(call))), Section(c)), Execute(c, outcome)), Commit(c))
            == Put(cell, ServeCall(t, cell.run, call, outcome).0, c, Answered(ServeCall(t, cell.run, call, outcome).1))
  {
    var r := cell.run;
    var (r', reply) := ServeCall(t, r, call, outcome);
    var in2 := Put(cell, r, c, Passed(CallTool(call)));
    match Decide(t, r, call.tool) {
      case Allow =>
        Overwrite(cell, r, c, Passed(CallTool(call)), r, Cleared(call));
        assert Act(t, in2, Section(c)) == Put(cell, r, c, Cleared(call));
        Overwrite(cell, r, c, Cleared(call), r, Ran(call, outcome));
        Overwrite(cell, r, c, Ran(call, outcome), r', Answered(reply));
      case Deny(why) =>
        Overwrite(cell, r, c, Passed(CallTool(call)), r, Refused(call, why));
        assert Act(t, in2, Section(c)) == Put(cell, r, c, Refused(call, why));
        Overwrite(cell, r, c, Refused(call, why), r', Answered(reply));
    }
  }

  lemma UninterruptedIsServe(t: Template, cell: Cell, c: CallId, q: Request, outcome: Outcome)
    requires c !in cell.calls
    ensures Play(t, cell, Whole(c, q, outcome))
            == Put(cell, Serve(t, cell.run, q, outcome).0, c, Answered(Serve(t, cell.run, q, outcome).1))
  {
    var (r', reply) := Serve(t, cell.run, q, outcome);
    PlayFive(t, cell, Whole(c, q, outcome));
    Admitted(t, cell, c, q);
    AnsweredStays(t, cell, c, r', reply, outcome);
    if Gated(q) && cell.run.stopped.Some? {
    } else if q.CallTool? {
      CallSections(t, cell, c, q.call, outcome);
    } else {
      Overwrite(cell, cell.run, c, Passed(q), r', Answered(reply));
    }
  }

  // ── The redundant state agrees with the log after every action ──────────────

  lemma ActKeeps(t: Template, cell: Cell, a: Action)
    requires Consistent(cell.run)
    ensures Consistent(Act(t, cell, a).run)
  {
    match a
    case Section(c) =>
      if c in cell.calls && cell.calls[c].Passed? && !cell.calls[c].q.CallTool? {
        HandleKeeps(t, cell.run, cell.calls[c].q);
      }
    case Commit(c) =>
      if c in cell.calls {
        match cell.calls[c]
        case Ran(call, outcome) => CommitKeeps(t, cell.run, call, outcome);
        case Refused(call, why) => RefuseKeeps(cell.run, call, why);
        case _ =>
      }
    case Drain => TakeKeeps(cell.run);
    case CloseOut(reason) => CloseKeeps(cell.run, reason);
    case _ =>
  }

  lemma {:induction false} PlayKeeps(t: Template, cell: Cell, actions: seq<Action>)
    requires Consistent(cell.run)
    ensures Consistent(Play(t, cell, actions).run)
  {
    if actions != [] {
      PlayKeeps(t, cell, Front(actions));
      ActKeeps(t, Play(t, cell, Front(actions)), Last(actions));
    }
  }

  // ── The log only grows ──────────────────────────────────────────────────────

  lemma HandleExtends(t: Template, r: Run, q: Request)
    requires !q.CallTool?
    ensures FullLog(r) <= FullLog(Handle(t, r, q).0) && Handle(t, r, q).0.runId == r.runId
  {
  }

  lemma ActExtends(t: Template, cell: Cell, a: Action)
    ensures FullLog(cell.run) <= FullLog(Act(t, cell, a).run) && Act(t, cell, a).run.runId == cell.run.runId
  {
    match a
    case Section(c) =>
      if c in cell.calls && cell.calls[c].Passed? && !cell.calls[c].q.CallTool? {
        HandleExtends(t, cell.run, cell.calls[c].q);
      }
    case Drain => assert FullLog(Take(cell.run)) == FullLog(cell.run);
    case _ =>
  }

  lemma {:induction false} PlayExtends(t: Template, cell: Cell, actions: seq<Action>)
    ensures FullLog(cell.run) <= FullLog(Play(t, cell, actions).run)
    ensures Play(t, cell, actions).run.runId == cell.run.runId
  {
    if actions != [] {
      PlayExtends(t, cell, Front(actions));
      ActExtends(t, Play(t, cell, Front(actions)), Last(actions));
    }
  }

  lemma {:induction false} PlayInTwo(t: Template, cell: Cell, first: seq<Action>, second: seq<Action>)
    ensures Play(t, cell, first + second) == Play(t, Play(t, cell, first), second)
  {
    if second == [] {
      assert first + second == first;
    } else {
      assert Front(first + second) == first + Front(second);
      PlayInTwo(t, cell, first, Front(second));
    }
  }
}
