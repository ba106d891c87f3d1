// The end of a governed execution: the CLI names the reason, raises the flag and waits;
// the drain thread closes every run, sweeps once more and signals; requests go on
// arriving throughout. Each move is one critical section. A move that is not enabled
// leaves the world alone, so every sequence of moves is an interleaving.
module Shutdown {
  import opened Text
  import opened Events
  import opened Runs
  import opened Replay
  import opened Calls
  import opened Governor

  datatype Drainer =
    | Polling
    | Stopping                                   // saw the flag raised
    | Naming(reason: string)                     // has taken the reason out of its slot
    | Closing(reason: string, rest: set<RunId>)  // holds the run map
    | Listing(final: bool)
    | Sweeping(final: bool, rest: set<RunId>)
    | Holding(final: bool, rest: set<RunId>, id: RunId, lines: Log)
    | Finished                                   // signalled done and returned
    | Abandoned                                  // the forwarder went away; returned without signalling

  datatype Cli = Supervising | Named | Raised | Released(sawDone: bool)

  // `named`, `present` and `closed` are what happened, kept to speak of it: the reason
  // the CLI gave, the runs in the map when it was locked, and each as it was closed.
  datatype World = World(
    cells: Cells,
    drainer: Drainer,
    cli: Cli,
    slot: Option<string>,
    flag: bool,
    done: bool,
    synced: bool,
    log: Log,
    sent: seq<(RunId, Log)>,
    named: Option<string>,
    present: set<RunId>,
    closed: map<RunId, Run>)

  datatype Move =
    | Request(l: Label)
    | NameReason(success: bool) | RaiseFlag | Wait(timedOut: bool)
    | Poll | TakeReason | LockRuns | CloseRun(id: RunId) | UnlockRuns
    | ListRuns | TakeLines(id: RunId) | Deliver(accepted: bool) | EndSweep

  function Start(cells: Cells, synced: bool): World {
    World(cells, Polling, Supervising, None, false, false, synced, [], [], None, {}, map[])
  }

  // The run map is locked while runs are closed, so nothing arrives then.
  predicate MayProceed(w: World, l: Label) {
    if l.Arrive? then !w.drainer.Closing? else !l.action.Drain? && !l.action.CloseOut?
  }

  function Next(t: Template, w: World, m: Move): World {
    match m
    case Request(l) => if MayProceed(w, l) then w.(cells := Step(t, w.cells, l)) else w
    case CloseRun(id) => CloseStep(w, id)
    case TakeLines(id) => TakeStep(w, id)
    case Deliver(accepted) => DeliverStep(w, accepted)
    case _ => SignalStep(w, m)
  }

  // Moves that touch neither a run nor an output.
  predicate Signals(m: Move) {
    CliMoves(m) || m.Poll? || m.TakeReason? || m.LockRuns? || m.UnlockRuns? || m.ListRuns? || m.EndSweep?
  }

  predicate CliMoves(m: Move) {
    m.NameReason? || m.RaiseFlag? || m.Wait?
  }

  function SignalStep(w: World, m: Move): World
    requires Signals(m)
  {
    if CliMoves(m) then CliStep(w, m)
    else if m.EndSweep? then EndStep(w)
    else w.(drainer := DrainerAfter(w, m),
            slot := if m.TakeReason? && w.drainer.Stopping? then None else w.slot,
            present := if m.LockRuns? && w.drainer.Naming? then w.cells.Keys else w.present)
  }

  function CliStep(w: World, m: Move): World
    requires CliMoves(m)
  {
    match m
    case NameReason(success) =>
      var reason := if success then "AgentCompleted" else "ProcessCrashed";
      if w.cli.Supervising? then w.(cli := Named, slot := Some(reason), named := Some(reason)) else w
    case RaiseFlag => if w.cli.Named? then w.(cli := Raised, flag := true) else w
    case Wait(timedOut) =>
      if w.cli.Raised? && (w.done || timedOut) then w.(cli := Released(w.done)) else w
  }

  // The drain thread's own next state, for the moves that only change that.
  function DrainerAfter(w: World, m: Move): Drainer
    requires Signals(m) && !CliMoves(m) && !m.EndSweep?
  {
    var d := w.drainer;
    match m
    case Poll => if d.Polling? then (if w.flag then Stopping else Listing(false)) else d
    case TakeReason =>
      if !d.Stopping? then d else if w.slot.Some? then Naming(w.slot.value) else Listing(true)
    case LockRuns => if d.Naming? then Closing(d.reason, w.cells.Keys) else d
    case UnlockRuns => if d.Closing? && d.rest == {} then Listing(true) else d
    case ListRuns => if d.Listing? then Sweeping(d.final, w.cells.Keys) else d
  }

  function EndStep(w: World): World {
    if !w.drainer.Sweeping? || w.drainer.rest != {} then w
    else if w.drainer.final then w.(drainer := Finished, done := true)
    else w.(drainer := Polling)
  }

  predicate CanClose(w: World, id: RunId) {
    w.drainer.Closing? && id in w.drainer.rest && id in w.cells
  }

  function CloseStep(w: World, id: RunId): World {
    if !CanClose(w, id) then w
    else
      var cell, reason := w.cells[id], w.drainer.reason;
      w.(cells := w.cells[id := cell.(run := Close(cell.run, reason))],
         closed := w.closed[id := cell.run],
         drainer := Closing(reason, w.drainer.rest - {id}))
  }

  predicate CanTake(w: World, id: RunId) {
    w.drainer.Sweeping? && id in w.drainer.rest && id in w.cells
  }

  function TakeStep(w: World, id: RunId): World {
    if !CanTake(w, id) then w
    else
      var cell, rest := w.cells[id], w.drainer.rest - {id};
      if cell.run.buffer == [] then w.(drainer := Sweeping(w.drainer.final, rest))
      else w.(cells := w.cells[id := cell.(run := Take(cell.run))],
              drainer := Holding(w.drainer.final, rest, id, cell.run.buffer))
  }

  function DeliverStep(w: World, accepted: bool): World {
    if !w.drainer.Holding? then w
    else
      var d := w.drainer;
      var written := w.(log := w.log + d.lines, drainer := Sweeping(d.final, d.rest));
      if !w.synced then written
      else if accepted then written.(sent := w.sent + [(d.id, d.lines)])
      else written.(drainer := Abandoned)
  }

  function Interleave(t: Template, w: World, moves: seq<Move>): World {
    if moves == [] then w else Next(t, Interleave(t, w, Front(moves)), Last(moves))
  }

  // ── Readings of the outputs ─────────────────────────────────────────────────

  function OfRun(log: Log, id: RunId): Log {
    if log == [] then [] else OfRun(Front(log), id) + if Last(log).runId == id then [Last(log)] else []
  }

  function SentFor(sent: seq<(RunId, Log)>, id: RunId): Log {
    if sent == [] then [] else SentFor(Front(sent), id) + if Last(sent).0 == id then Last(sent).1 else []
  }

  lemma {:induction false} OfRunAppends(log: Log, lines: Log, id: RunId, owner: RunId)
    requires forall k :: 0 <= k < |lines| ==> lines[k].runId == owner
    ensures OfRun(log + lines, id) == OfRun(log, id) + if id == owner then lines else []
  {
    if lines == [] {
      assert log + lines == log;
    } else {
      assert Front(log + lines) == log + Front(lines);
      OfRunAppends(log, Front(lines), id, owner);
      assert lines == Front(lines) + [Last(lines)];
    }
  }

  // ── The invariant ───────────────────────────────────────────────────────────

  predicate NoStop(log: Log) {
    forall k :: 0 <= k < |log| ==> !log[k].event.ExecutionStopped?
  }

  // The log of a run closed when it was `before`: everything up to then, one closing
  // event with the run's own reason if it had one, and no other closing event.
  ghost predicate Bracketed(log: Log, before: Run, reason: string) {
    var n := |FullLog(before)|;
    && n < |log| && log[..n] == FullLog(before)
    && log[n].event == ExecutionStopped(if before.stopped.Some? then before.stopped.value else reason, before.tokens)
    && (forall k :: 0 <= k < |log| && k != n ==> !log[k].event.ExecutionStopped?)
  }

  ghost predicate RunSound(w: World, id: RunId) {
    id in w.cells ==>
      w.cells[id].run.runId == id && Consistent(w.cells[id].run)
      && LogSound(FullLog(w.cells[id].run), id, w.closed, w.named)
  }

  ghost predicate LogSound(log: Log, id: RunId, closed: map<RunId, Run>, named: Option<string>) {
    if id in closed then named.Some? && Consistent(closed[id]) && Bracketed(log, closed[id], named.value) else NoStop(log)
  }

  function DrainedOf(w: World, id: RunId): Log {
    if id in w.cells then w.cells[id].run.drained else []
  }

  function InHand(w: World, id: RunId): Log {
    if w.drainer.Holding? && w.drainer.id == id then w.drainer.lines else []
  }

  ghost predicate DeliverySound(w: World, id: RunId) {
    && OfRun(w.log, id) + InHand(w, id) == DrainedOf(w, id)
    && (w.synced && !w.drainer.Abandoned? ==> SentFor(w.sent, id) == OfRun(w.log, id))
  }

  predicate BeforeClosing(d: Drainer) {
    d.Polling? || d.Stopping? || ((d.Listing? || d.Sweeping? || d.Holding?) && !d.final)
  }

  predicate FinalSweep(d: Drainer) {
    d.Finished? || ((d.Sweeping? || d.Holding?) && d.final)
  }

  function Rest(d: Drainer): set<RunId> {
    if d.Sweeping? || d.Holding? then d.rest else {}
  }

  ghost predicate Handshake(w: World) {
    && (w.cli.Supervising? <==> w.named.None?) && (w.named.None? ==> w.closed == map[])
    && (w.flag <==> w.cli.Raised? || w.cli.Released?)
    && (w.done <==> w.drainer.Finished?)
    && (w.cli == Released(true) ==> w.done)
    && w.closed.Keys <= w.cells.Keys && Rest(w.drainer) <= w.cells.Keys
    && (BeforeClosing(w.drainer) ==> w.slot == w.named && w.closed == map[] && w.present == {})
    && (w.drainer.Stopping? ==> w.flag)
    && (w.drainer.Naming? ==> w.named == Some(w.drainer.reason) && w.closed == map[])
    && (w.drainer.Closing? ==> w.named == Some(w.drainer.reason) && w.drainer.rest <= w.present
                               && w.closed.Keys == w.present - w.drainer.rest && w.present <= w.cells.Keys)
    && (FinalSweep(w.drainer) || w.drainer == Listing(true) ==> w.named.Some? && w.closed.Keys == w.present)
  }

  // Once the final sweep has passed a closed run, its closing event has left the buffer.
  ghost predicate Swept(w: World) {
    FinalSweep(w.drainer) ==>
      forall id :: id in w.closed && id in w.cells && id !in Rest(w.drainer) ==>
        |FullLog(w.closed[id])| < |w.cells[id].run.drained|
  }

  ghost predicate Sound(w: World) {
    && Handshake(w) && Swept(w)
    && (forall id :: RunSound(w, id))
    && (forall id :: DeliverySound(w, id))
  }

  // ── Requests keep it ────────────────────────────────────────────────────────

  predicate AddsNoStop(r: Run, next: Run) {
    && next.drained == r.drained && FullLog(r) <= FullLog(next)
    && (forall k :: |FullLog(r)| <= k < |FullLog(next)| ==> !FullLog(next)[k].event.ExecutionStopped?)
  }

  lemma AppendAddsNoStop(r: Run, p: Run, e: Event)
    requires p.drained == r.drained && p.buffer == r.buffer && !e.ExecutionStopped?
    ensures AddsNoStop(r, Append(p, e))
  {
    AppendExtends(p, e);
  }

  lemma HandleAddsNoStop(t: Template, r: Run, q: Request)
    requires !q.CallTool?
    ensures AddsNoStop(r, Handle(t, r, q).0)
  {
    match q
    case EnterAgent(scope) => AppendAddsNoStop(r, r.(scopes := r.scopes + [scope]), AgentScopeEntered(scope));
    case ExitAgent =>
      AppendAddsNoStop(r, r, AgentScopeExited(""));
      if r.scopes != [] { AppendAddsNoStop(r, r.(scopes := Front(r.scopes)), AgentScopeExited(Last(r.scopes))); }
    case ReportUsage(usage, harness) =>
      var told := if harness.Some? then RecordHarness(r, harness.value.0, harness.value.1) else r;
      if harness.Some? { HarnessAddsNoStop(r, harness.value.0, harness.value.1); }
      AppendAddsNoStop(told, told.(tokens := RecordUsage(told, usage).tokens), LlmUsageRecorded(usage));
    case DeclareHarness(name, version) => HarnessAddsNoStop(r, name, version);
    case DeclareRules(rules) =>
      var c := Canonical(rules);
      AppendAddsNoStop(r, r.(marks := r.marks.(rules := Some(c))), RulesDeclared(c));
    case DeclareApp(appId, name) =>
      var id, who := Trim(appId), Trim(name);
      AppendAddsNoStop(r, r.(marks := r.marks.(app := Some((id, who)))), AppIdentified(id, who));
    case ReportStop(_, _, _, _) => AppendAddsNoStop(r, r, RuleDenied(q.stopTool, q.ruleName, q.clearedBy));
    case _ =>
  }

  lemma HarnessAddsNoStop(r: Run, name: string, version: Option<string>)
    ensures AddsNoStop(r, RecordHarness(r, name, version))
  {
    var who := Trim(name);
    AppendAddsNoStop(r, r.(marks := r.marks.(harness := Some((who, version)))), HarnessIdentified(who, version));
  }

  lemma ActAddsNoStop(t: Template, cell: Cell, a: Action)
    requires !a.Drain? && !a.CloseOut?
    ensures AddsNoStop(cell.run, Act(t, cell, a).run)
  {
    if a.Section? && a.c in cell.calls && cell.calls[a.c].Passed? && !cell.calls[a.c].q.CallTool? {
      HandleAddsNoStop(t, cell.run, cell.calls[a.c].q);
    }
  }

  lemma BracketedExtends(r: Run, next: Run, before: Run, reason: string)
    requires AddsNoStop(r, next) && Bracketed(FullLog(r), before, reason)
    ensures Bracketed(FullLog(next), before, reason)
  {
    var n := |FullLog(before)|;
    assert FullLog(next)[..n] == FullLog(r)[..n];
    assert FullLog(next)[n] == FullLog(r)[n];
    forall k | 0 <= k < |FullLog(next)| && k != n ensures !FullLog(next)[k].event.ExecutionStopped? {
      if k < |FullLog(r)| { assert FullLog(next)[k] == FullLog(r)[k]; }
    }
  }

  lemma NoStopExtends(r: Run, next: Run)
    requires AddsNoStop(r, next) && NoStop(FullLog(r))
    ensures NoStop(FullLog(next))
  {
    forall k | 0 <= k < |FullLog(next)| ensures !FullLog(next)[k].event.ExecutionStopped? {
      if k < |FullLog(r)| { assert FullLog(next)[k] == FullLog(r)[k]; }
    }
  }

  lemma ActKeepsLog(t: Template, cell: Cell, a: Action, id: RunId, closed: map<RunId, Run>, named: Option<string>)
    requires !a.Drain? && !a.CloseOut?
    requires cell.run.runId == id && Consistent(cell.run) && LogSound(FullLog(cell.run), id, closed, named)
    ensures var next := Act(t, cell, a).run;
            && next.drained == cell.run.drained
            && next.runId == id && Consistent(next) && LogSound(FullLog(next), id, closed, named)
  {
    var next := Act(t, cell, a).run;
    ActKeeps(t, cell, a);
    ActExtends(t, cell, a);
    ActAddsNoStop(t, cell, a);
    if id in closed {
      BracketedExtends(cell.run, next, closed[id], named.value);
    } else {
      NoStopExtends(cell.run, next);
    }
  }

  lemma FreshLogIsSound(t: Template, id: RunId, closed: map<RunId, Run>, named: Option<string>)
    requires id !in closed
    ensures LogSound(FullLog(Fresh(t, id)), id, closed, named)
  {
    assert FullLog(Fresh(t, id)) == [LoggedEvent(id, 0, Started(t))];
  }

  lemma RequestKeepsRun(t: Template, w: World, l: Label, id: RunId)
    requires Sound(w) && MayProceed(w, l)
    ensures RunSound(w.(cells := Step(t, w.cells, l)), id)
    ensures DrainedOf(w.(cells := Step(t, w.cells, l)), id) == DrainedOf(w, id)
  {
    var next := Step(t, w.cells, l);
    assert RunSound(w, id);
    if Touches(l, id, id in w.cells) {
      var cell := CellFor(t, w.cells, id);
      if id !in w.cells {
        FreshIsConsistent(t, id);
        FreshLogIsSound(t, id, w.closed, w.named);
      }
      ActKeepsLog(t, cell, ActionOf(l), id, w.closed, w.named);
      assert next[id] == Act(t, cell, ActionOf(l));
    } else {
      assert id in next ==> id in w.cells && next[id] == w.cells[id];
    }
  }

  lemma RequestKeeps(t: Template, w: World, l: Label)
    requires Sound(w)
    ensures Sound(Next(t, w, Request(l)))
  {
    var next := Next(t, w, Request(l));
    if MayProceed(w, l) {
      forall id ensures RunSound(next, id) && DeliverySound(next, id) && DrainedOf(next, id) == DrainedOf(w, id) {
        RequestKeepsRun(t, w, l, id);
        assert DeliverySound(w, id);
      }
      forall id | id in w.closed && id in next.cells ensures next.cells[id].run.drained == w.cells[id].run.drained {
        assert DrainedOf(next, id) == DrainedOf(w, id);
      }
    }
  }

  // ── The drain thread and the CLI keep it ────────────────────────────────────

  lemma CliKeepsHandshake(w: World, m: Move)
    requires Handshake(w) && Swept(w) && CliMoves(m)
    ensures Handshake(CliStep(w, m)) && Swept(CliStep(w, m))
  {
    match m
    case NameReason(_) =>
    case RaiseFlag =>
    case Wait(_) =>
  }

  lemma DrainerKeepsHandshake(w: World, m: Move)
    requires Handshake(w) && Swept(w) && Signals(m) && !CliMoves(m) && !m.EndSweep?
    ensures Handshake(SignalStep(w, m)) && Swept(SignalStep(w, m))
  {
    match m
    case Poll =>
    case TakeReason =>
    case LockRuns =>
    case UnlockRuns =>
    case ListRuns =>
  }

  lemma EndKeepsHandshake(w: World)
    requires Handshake(w) && Swept(w)
    ensures Handshake(EndStep(w)) && Swept(EndStep(w))
  {
  }

  lemma SignalTouchesNothing(w: World, m: Move)
    requires Signals(m)
    ensures var next := SignalStep(w, m);
            && next.cells == w.cells && next.log == w.log && next.sent == w.sent && next.closed == w.closed
            && next.synced == w.synced && (next.drainer == w.drainer || (!w.drainer.Holding? && !next.drainer.Holding?
                                                                         && !w.drainer.Abandoned?))
  {
  }

  // The reason is named once.
  lemma NamedStays(w: World, m: Move)
    requires Handshake(w) && Signals(m)
    ensures w.named.Some? ==> SignalStep(w, m).named == w.named
  {
  }

  lemma SignalKeeps(w: World, m: Move)
    requires Sound(w) && Signals(m)
    ensures Sound(SignalStep(w, m))
  {
    var next := SignalStep(w, m);
    if CliMoves(m) { CliKeepsHandshake(w, m); }
    else if m.EndSweep? { EndKeepsHandshake(w); }
    else { DrainerKeepsHandshake(w, m); }
    SignalTouchesNothing(w, m);
    NamedStays(w, m);
    forall id ensures RunSound(next, id) && DeliverySound(next, id) {
      assert RunSound(w, id) && DeliverySound(w, id);
    }
  }

  lemma CloseBrackets(r: Run, reason: string)
    requires NoStop(FullLog(r))
    ensures Bracketed(FullLog(Close(r, reason)), r, reason)
  {
    AppendExtends(r, ExecutionStopped(CloseReason(r, reason), r.tokens));
  }

  lemma CloseRunKeeps(w: World, id: RunId)
    requires Sound(w)
    ensures Sound(CloseStep(w, id))
  {
    var next := CloseStep(w, id);
    if next != w {
      assert RunSound(w, id);
      CloseBrackets(w.cells[id].run, w.drainer.reason);
      CloseKeeps(w.cells[id].run, w.drainer.reason);
      forall other ensures RunSound(next, other) && DeliverySound(next, other) {
        assert RunSound(w, other) && DeliverySound(w, other);
      }
    }
  }

  lemma TakeLinesKeepsRun(w: World, id: RunId, other: RunId)
    requires RunSound(w, other)
    ensures RunSound(TakeStep(w, id), other)
  {
    var next := TakeStep(w, id);
    if other in next.cells && next.cells[other] != w.cells[other] {
      TakeKeeps(w.cells[id].run);
      assert next.cells[other].run == Take(w.cells[id].run);
    }
  }

  lemma TakeLinesKeepsDelivery(w: World, id: RunId, other: RunId)
    requires DeliverySound(w, other)
    ensures DeliverySound(TakeStep(w, id), other)
  {
    if CanTake(w, id) {
      var next := TakeStep(w, id);
      var written := OfRun(w.log, other);
      assert written + InHand(w, other) == written;
      assert DrainedOf(next, other) == DrainedOf(w, other) + InHand(next, other);
    }
  }

  // A closed run the final sweep passes has its closing event taken with the rest.
  lemma TakeLinesKeepsSwept(w: World, id: RunId)
    requires Swept(w) && Handshake(w) && RunSound(w, id) && CanTake(w, id)
    ensures Swept(TakeStep(w, id))
  {
    var next, run := TakeStep(w, id), w.cells[id].run;
    assert run.buffer == [] ==> FullLog(run) == run.drained;
    forall other | FinalSweep(next.drainer) && other in w.closed && other in next.cells && other !in Rest(next.drainer)
      ensures |FullLog(w.closed[other])| < |next.cells[other].run.drained|
    {
      if other == id { assert Bracketed(FullLog(run), w.closed[id], w.named.value); }
    }
  }

  lemma TakeLinesKeeps(w: World, id: RunId)
    requires Sound(w)
    ensures Sound(TakeStep(w, id))
  {
    var next := TakeStep(w, id);
    if CanTake(w, id) {
      assert RunSound(w, id);
      TakeLinesKeepsSwept(w, id);
      forall other ensures RunSound(next, other) && DeliverySound(next, other) {
        assert RunSound(w, other) && DeliverySound(w, other);
        TakeLinesKeepsRun(w, id, other);
        TakeLinesKeepsDelivery(w, id, other);
      }
    }
  }

  // The lines in hand are the next ones of one run's own log.
  lemma LinesInHand(w: World)
    requires Sound(w) && w.drainer.Holding?
    ensures forall k :: 0 <= k < |w.drainer.lines| ==> w.drainer.lines[k].runId == w.drainer.id
  {
    var owner, lines := w.drainer.id, w.drainer.lines;
    assert RunSound(w, owner) && DeliverySound(w, owner);
    var written := OfRun(w.log, owner);
    forall k | 0 <= k < |lines| ensures lines[k].runId == owner {
      assert (written + lines)[|written| + k] == lines[k];
      assert owner in w.cells && lines[k] == FullLog(w.cells[owner].run)[|written| + k];
    }
  }

  lemma DeliverKeepsDelivery(w: World, accepted: bool, id: RunId)
    requires DeliverySound(w, id) && w.drainer.Holding?
    requires forall k :: 0 <= k < |w.drainer.lines| ==> w.drainer.lines[k].runId == w.drainer.id
    ensures DeliverySound(DeliverStep(w, accepted), id)
  {
    var next, lines := DeliverStep(w, accepted), w.drainer.lines;
    OfRunAppends(w.log, lines, id, w.drainer.id);
    assert OfRun(next.log, id) == OfRun(w.log, id) + InHand(w, id);
    assert OfRun(next.log, id) + [] == OfRun(next.log, id);
    var more := w.sent + [(w.drainer.id, lines)];
    assert Front(more) == w.sent && Last(more) == (w.drainer.id, lines);
    assert SentFor(more, id) == SentFor(w.sent, id) + InHand(w, id);
  }

  lemma DeliverKeeps(w: World, accepted: bool)
    requires Sound(w)
    ensures Sound(DeliverStep(w, accepted))
  {
    var next := DeliverStep(w, accepted);
    if next != w {
      LinesInHand(w);
      forall id ensures RunSound(next, id) && DeliverySound(next, id) {
        assert RunSound(w, id) && DeliverySound(w, id);
        DeliverKeepsDelivery(w, accepted, id);
      }
    }
  }

  lemma NextKeeps(t: Template, w: World, m: Move)
    requires Sound(w)
    ensures Sound(Next(t, w, m))
  {
    match m
    case Request(l) => RequestKeeps(t, w, l);
    case CloseRun(id) => CloseRunKeeps(w, id);
    case TakeLines(id) => TakeLinesKeeps(w, id);
    case Deliver(accepted) => DeliverKeeps(w, accepted);
    case _ => SignalKeeps(w, m);
  }

  // A governor before its first drain: nothing closed, nothing taken.
  ghost predicate Unopened(cells: Cells) {
    && AllConsistent(cells)
    && forall id :: id in cells ==> cells[id].run.drained == [] && NoStop(FullLog(cells[id].run))
  }

  lemma BootIsUnopened(t: Template, primary: Option<RunId>, name: string, address: string, version: string)
    ensures Unopened(Boot(t, primary, name, address, version))
  {
    EveryRunAgreesWithItsLog(t, primary, name, address, version, []);
    var start := if primary.Some? then Fresh(t, primary.value) else Placeholder(t, DEFAULT_RUN_ID);
    var who := (name, address, version);
    AppendAddsNoStop(start, start.(marks := start.marks.(governor := Some(who))), GovernorIdentified(name, address, version));
    NoStopExtends(start, FirstRun(t, primary, name, address, version));
  }

  lemma {:induction false} InterleaveKeeps(t: Template, cells: Cells, synced: bool, moves: seq<Move>)
    requires Unopened(cells)
    ensures Sound(Interleave(t, Start(cells, synced), moves))
  {
    if moves != [] {
      InterleaveKeeps(t, cells, synced, Front(moves));
      NextKeeps(t, Interleave(t, Start(cells, synced), Front(moves)), Last(moves));
    }
  }

  // ── What a signalled shutdown means ─────────────────────────────────────────

  // In every interleaving: once the sweep has signalled, each run present when the map
  // was locked is closed exactly once, with its own stop reason if it had one and the
  // CLI's otherwise and with its token total, and everything appended to it up to and
  // including that event has reached the log, in order, and the sink when there is one.
  lemma DoneMeansEveryRunIsClosed(t: Template, cells: Cells, synced: bool, moves: seq<Move>, id: RunId)
    requires Unopened(cells)
    requires var w := Interleave(t, Start(cells, synced), moves); w.done && id in w.present
    ensures var w := Interleave(t, Start(cells, synced), moves);
            && id in w.closed && id in w.cells && w.named.Some?
            && Bracketed(OfRun(w.log, id), w.closed[id], w.named.value)
            && w.closed[id].tokens == TokensReported(FullLog(w.closed[id])) % U64_SIZE
            && OfRun(w.log, id) <= FullLog(w.cells[id].run)
            && (synced ==> SentFor(w.sent, id) == OfRun(w.log, id))
  {
    InterleaveKeeps(t, cells, synced, moves);
    SyncedStays(t, cells, synced, moves);
    var w := Interleave(t, Start(cells, synced), moves);
    assert RunSound(w, id) && DeliverySound(w, id);
    var run, n := w.cells[id].run, |FullLog(w.closed[id])|;
    assert OfRun(w.log, id) == run.drained;
    assert run.drained[..n] == FullLog(run)[..n];
    forall k | 0 <= k < |run.drained| ensures run.drained[k] == FullLog(run)[k] {}
  }

  lemma {:induction false} SyncedStays(t: Template, cells: Cells, synced: bool, moves: seq<Move>)
    ensures Interleave(t, Start(cells, synced), moves).synced == synced
  {
    if moves != [] {
      SyncedStays(t, cells, synced, Front(moves));
      NextKeepsSynced(t, Interleave(t, Start(cells, synced), Front(moves)), Last(moves));
    }
  }

  lemma NextKeepsSynced(t: Template, w: World, m: Move)
    ensures Next(t, w, m).synced == w.synced
  {
    if Signals(m) { SignalTouchesNothing(w, m); }
  }

  // What the log holds of a run is numbered 0, 1, 2, … in every interleaving, at any time.
  lemma LogIsContinuous(t: Template, cells: Cells, synced: bool, moves: seq<Move>, id: RunId)
    requires Unopened(cells)
    ensures Numbered(id, OfRun(Interleave(t, Start(cells, synced), moves).log, id))
  {
    InterleaveKeeps(t, cells, synced, moves);
    var w := Interleave(t, Start(cells, synced), moves);
    assert RunSound(w, id) && DeliverySound(w, id);
    var written := OfRun(w.log, id);
    if id in w.cells {
      var run := w.cells[id].run;
      forall k | 0 <= k < |written| ensures written[k].runId == id && written[k].seqNo == k {
        assert written[k] == (written + InHand(w, id))[k] == run.drained[k] == FullLog(run)[k];
      }
    }
  }

  // ── The closing event is the last one when nothing else comes ───────────────

  lemma StepLeavesClosedRun(t: Template, w: World, m: Move, id: RunId)
    requires Sound(w) && id in w.closed && id in w.cells && (m.Request? ==> Target(m.l) != id)
    ensures var next := Next(t, w, m);
            && id in next.closed && id in next.cells && next.closed[id] == w.closed[id]
            && FullLog(next.cells[id].run) == FullLog(w.cells[id].run)
  {
    match m
    case CloseRun(other) =>
    case TakeLines(other) => if other == id { TakeKeepsLog(w.cells[id].run); }
    case Deliver(accepted) =>
    case Request(l) =>
    case _ => SignalTouchesNothing(w, m);
  }

  lemma TakeKeepsLog(r: Run)
    ensures FullLog(Take(r)) == FullLog(r)
  {
    assert FullLog(Take(r)) == FullLog(r);
  }

  lemma {:induction false} MovesLeaveClosedRun(t: Template, w: World, moves: seq<Move>, id: RunId)
    requires Sound(w) && id in w.closed && id in w.cells
    requires forall k :: 0 <= k < |moves| && moves[k].Request? ==> Target(moves[k].l) != id
    ensures var next := Interleave(t, w, moves);
            && Sound(next) && id in next.closed && id in next.cells && next.closed[id] == w.closed[id]
            && FullLog(next.cells[id].run) == FullLog(w.cells[id].run)
  {
    if moves != [] {
      MovesLeaveClosedRun(t, w, Front(moves), id);
      NextKeeps(t, Interleave(t, w, Front(moves)), Last(moves));
      StepLeavesClosedRun(t, Interleave(t, w, Front(moves)), Last(moves), id);
    }
  }

  // A run that no request reaches after it is closed ends, in the log of a signalled
  // shutdown, with its closing event.
  lemma ClosingEventIsLast(t: Template, cells: Cells, synced: bool, before: seq<Move>, after: seq<Move>, id: RunId)
    requires Unopened(cells)
    requires var w := Interleave(t, Start(cells, synced), before);
             CanClose(w, id) && Interleave(t, CloseStep(w, id), after).done
    requires forall k :: 0 <= k < |after| && after[k].Request? ==> Target(after[k].l) != id
    ensures var w := Interleave(t, Start(cells, synced), before);
            && w.named.Some?
            && OfRun(Interleave(t, CloseStep(w, id), after).log, id) == FullLog(Close(w.cells[id].run, w.named.value))
  {
    InterleaveKeeps(t, cells, synced, before);
    var w := Interleave(t, Start(cells, synced), before);
    RunClosed(w, id);
    MovesLeaveClosedRun(t, CloseStep(w, id), after, id);
    WholeRunIsOut(Interleave(t, CloseStep(w, id), after), id);
  }

  lemma RunClosed(w: World, id: RunId)
    requires Sound(w) && CanClose(w, id)
    ensures var next := CloseStep(w, id);
            && Sound(next) && id in next.closed && id in next.cells && next.closed[id] == w.cells[id].run
            && w.named.Some? && FullLog(next.cells[id].run) == FullLog(Close(w.cells[id].run, w.named.value))
            && |FullLog(next.cells[id].run)| == |FullLog(next.closed[id])| + 1
  {
    var run, reason := w.cells[id].run, w.drainer.reason;
    AppendExtends(run, ExecutionStopped(CloseReason(run, reason), run.tokens));
    CloseRunKeeps(w, id);
  }

  lemma WholeRunIsOut(w: World, id: RunId)
    requires Sound(w) && w.done && id in w.closed && id in w.cells
    requires |FullLog(w.cells[id].run)| == |FullLog(w.closed[id])| + 1
    ensures OfRun(w.log, id) == FullLog(w.cells[id].run)
  {
    assert DeliverySound(w, id);
    var run := w.cells[id].run;
    assert OfRun(w.log, id) + [] == OfRun(w.log, id);
    assert run.buffer == [];
    assert FullLog(run) == run.drained;
  }

  // ── A shutdown that is never signalled ──────────────────────────────────────

  lemma NextAbandons(t: Template, w: World, m: Move)
    ensures Next(t, w, m).drainer.Abandoned?
            <==> w.drainer.Abandoned? || (w.synced && w.drainer.Holding? && m == Deliver(false))
    ensures w.drainer.Abandoned? ==> Next(t, w, m).done == w.done
  {
    match m
    case Request(_) =>
    case CloseRun(_) =>
    case TakeLines(_) =>
    case Deliver(_) =>
    case _ => SignalAbandons(w, m);
  }

  lemma SignalAbandons(w: World, m: Move)
    requires Signals(m)
    ensures SignalStep(w, m).drainer.Abandoned? <==> w.drainer.Abandoned?
    ensures w.drainer.Abandoned? ==> SignalStep(w, m).done == w.done
  {
  }

  // Move n offers the lines in hand to a forwarder that has gone away.
  ghost predicate Refused(t: Template, start: World, moves: seq<Move>, n: nat)
    requires n < |moves|
  {
    moves[n] == Deliver(false) && Interleave(t, start, moves[..n]).drainer.Holding?
  }

  // In every interleaving the drain thread is lost exactly when it has a sink and some
  // lines it took were refused by it.
  lemma {:induction false} DrainIsLost(t: Template, cells: Cells, synced: bool, moves: seq<Move>)
    ensures Interleave(t, Start(cells, synced), moves).drainer.Abandoned?
            <==> synced && exists n: nat :: n < |moves| && Refused(t, Start(cells, synced), moves, n)
  {
    if moves != [] {
      var start, front := Start(cells, synced), Front(moves);
      DrainIsLost(t, cells, synced, front);
      SyncedStays(t, cells, synced, front);
      NextAbandons(t, Interleave(t, start, front), Last(moves));
      forall n: nat | n < |front| ensures Refused(t, start, front, n) == Refused(t, start, moves, n) {
        assert front[..n] == moves[..n];
      }
      assert Refused(t, start, moves, |front|)
             <==> Last(moves) == Deliver(false) && Interleave(t, start, front).drainer.Holding?;
    }
  }

  // Once lost it is lost: nothing that happens later signals.
  lemma {:induction false} LostForGood(t: Template, w: World, moves: seq<Move>)
    requires w.drainer.Abandoned? && !w.done
    ensures Interleave(t, w, moves).drainer.Abandoned? && !Interleave(t, w, moves).done
  {
    if moves != [] {
      LostForGood(t, w, Front(moves));
      NextAbandons(t, Interleave(t, w, Front(moves)), Last(moves));
    }
  }

  // A CLI that waits for a lost drain is never told, and leaves by its timeout.
  lemma LostDrainIsNeverSignalled(t: Template, cells: Cells, synced: bool, moves: seq<Move>, later: seq<Move>)
    requires Unopened(cells) && Interleave(t, Start(cells, synced), moves).drainer.Abandoned?
    ensures var w := Interleave(t, Interleave(t, Start(cells, synced), moves), later);
            !w.done && (w.cli.Released? ==> !w.cli.sawDone)
  {
    var start := Start(cells, synced);
    InterleaveKeeps(t, cells, synced, moves);
    LostForGood(t, Interleave(t, start, moves), later);
    InterleaveInTwo(t, start, moves, later);
    InterleaveKeeps(t, cells, synced, moves + later);
  }

  lemma {:induction false} InterleaveInTwo(t: Template, w: World, first: seq<Move>, second: seq<Move>)
    ensures Interleave(t, w, first + second) == Interleave(t, Interleave(t, w, first), second)
  {
    if second == [] {
      assert first + second == first;
    } else {
      assert Front(first + second) == first + Front(second);
      InterleaveInTwo(t, w, first, Front(second));
    }
  }

  // It takes one buffered line: any governor with one can lose its drain this way.
  lemma DrainCanBeLost(t: Template, cells: Cells, id: RunId)
    requires id in cells && cells[id].run.buffer != []
    ensures exists moves :: Interleave(t, Start(cells, true), moves).drainer.Abandoned?
  {
    var start := Start(cells, true);
    var swept := start.(drainer := Sweeping(false, cells.Keys));
    var moves := [Poll, ListRuns, TakeLines(id), Deliver(false)];
    assert Front(moves) == moves[..3] && Front(moves[..3]) == moves[..2] && Front(moves[..2]) == moves[..1];
    assert Front(moves[..1]) == [];
    assert Interleave(t, start, moves[..1]) == start.(drainer := Listing(false));
    assert Interleave(t, start, moves[..2]) == swept;
    assert Interleave(t, start, moves[..3]) == TakeStep(swept, id);
    assert Interleave(t, start, moves) == DeliverStep(TakeStep(swept, id), false);
  }

  // ── Until then it can always still be signalled ─────────────────────────────

  ghost predicate CanSignal(t: Template, w: World) {
    exists moves :: Interleave(t, w, moves).done
  }

  lemma CanSignalAfter(t: Template, w: World, m: Move)
    requires CanSignal(t, Next(t, w, m))
    ensures CanSignal(t, w)
  {
    var moves :| Interleave(t, Next(t, w, m), moves).done;
    assert Front([m]) == [] && Interleave(t, w, []) == w;
    assert Interleave(t, w, [m]) == Next(t, w, m);
    InterleaveInTwo(t, w, [m], moves);
    assert Interleave(t, w, [m] + moves).done;
  }

  // The move that takes the drain thread on towards its signal.
  ghost function Onward(d: Drainer): Move {
    match d
    case Polling => Poll
    case Stopping => TakeReason
    case Naming(_) => LockRuns
    case Closing(_, rest) => if rest == {} then UnlockRuns else var id :| id in rest; CloseRun(id)
    case Listing(_) => ListRuns
    case Sweeping(_, rest) => if rest == {} then EndSweep else var id :| id in rest; TakeLines(id)
    case _ => Deliver(true)
  }

  function StepsLeft(d: Drainer): nat {
    match d
    case Listing(final) => if final then 2 else 8
    case Sweeping(final, _) => if final then 1 else 7
    case Holding(final, _, _, _) => if final then 1 else 7
    case Polling => 6
    case Stopping => 5
    case Naming(_) => 4
    case Closing(_, _) => 3
    case _ => 0
  }

  function RunsLeft(d: Drainer): nat {
    if d.Closing? || d.Sweeping? || d.Holding? then |d.rest| else 0
  }

  // The drain thread's distance from its signal gets smaller.
  predicate Nearer(d: Drainer, next: Drainer) {
    || StepsLeft(next) < StepsLeft(d)
    || (StepsLeft(next) == StepsLeft(d)
        && (RunsLeft(next) < RunsLeft(d) || (RunsLeft(next) == RunsLeft(d) && d.Holding? && !next.Holding?)))
  }

  lemma EndIsNearer(w: World)
    requires w.drainer.Sweeping? && w.drainer.rest == {}
    ensures var next := EndStep(w); next.flag == w.flag && Nearer(w.drainer, next.drainer) && !next.drainer.Abandoned?
  {
  }

  lemma PhaseIsNearer(w: World, m: Move)
    requires w.flag && m == Onward(w.drainer) && (m.Poll? || m.TakeReason? || m.LockRuns? || m.UnlockRuns? || m.ListRuns?)
    ensures var next := DrainerAfter(w, m); Nearer(w.drainer, next) && !next.Abandoned?
  {
    match w.drainer
    case Polling =>
    case Stopping =>
    case Naming(_) =>
    case Closing(_, _) =>
    case Listing(_) =>
    case Sweeping(_, _) =>
  }

  lemma SignalIsNearer(w: World)
    requires w.flag && Signals(Onward(w.drainer))
    ensures var next := SignalStep(w, Onward(w.drainer));
            next.flag && Nearer(w.drainer, next.drainer) && !next.drainer.Abandoned?
  {
    if Onward(w.drainer).EndSweep? { EndIsNearer(w); } else { PhaseIsNearer(w, Onward(w.drainer)); }
  }

  lemma DeliveryIsNearer(w: World)
    requires w.drainer.Holding?
    ensures var next := DeliverStep(w, true);
            next.flag == w.flag && Nearer(w.drainer, next.drainer) && !next.drainer.Abandoned?
  {
  }

  lemma OnwardIsNearer(t: Template, w: World)
    requires Handshake(w) && w.flag && !w.drainer.Finished? && !w.drainer.Abandoned?
    ensures var next := Next(t, w, Onward(w.drainer));
            next.flag && !next.drainer.Abandoned? && Nearer(w.drainer, next.drainer)
  {
    match Onward(w.drainer)
    case CloseRun(id) => CloseIsNearer(w, id);
    case TakeLines(id) => TakeIsNearer(w, id);
    case Deliver(_) => DeliveryIsNearer(w);
    case _ => SignalIsNearer(w);
  }

  lemma CloseIsNearer(w: World, id: RunId)
    requires CanClose(w, id)
    ensures var next := CloseStep(w, id); next.flag == w.flag && Nearer(w.drainer, next.drainer) && !next.drainer.Abandoned?
  {
  }

  lemma TakeIsNearer(w: World, id: RunId)
    requires CanTake(w, id)
    ensures var next := TakeStep(w, id); next.flag == w.flag && Nearer(w.drainer, next.drainer) && !next.drainer.Abandoned?
  {
  }

  lemma {:induction false} RaisedCanSignal(t: Template, w: World)
    requires Sound(w) && w.flag && !w.drainer.Abandoned?
    ensures CanSignal(t, w)
    decreases StepsLeft(w.drainer), RunsLeft(w.drainer), w.drainer.Holding?
  {
    if w.drainer.Finished? {
      assert Interleave(t, w, []).done;
    } else {
      var m := Onward(w.drainer);
      OnwardIsNearer(t, w);
      NextKeeps(t, w, m);
      RaisedCanSignal(t, Next(t, w, m));
      CanSignalAfter(t, w, m);
    }
  }

  // Whatever has happened, the shutdown can still be signalled exactly when the drain
  // is not lost.
  lemma SignalledUnlessLost(t: Template, cells: Cells, synced: bool, moves: seq<Move>)
    requires Unopened(cells)
    ensures var w := Interleave(t, Start(cells, synced), moves); CanSignal(t, w) <==> !w.drainer.Abandoned?
  {
    var w := Interleave(t, Start(cells, synced), moves);
    InterleaveKeeps(t, cells, synced, moves);
    if w.drainer.Abandoned? {
      forall later ensures !Interleave(t, w, later).done { LostForGood(t, w, later); }
    } else if w.flag {
      RaisedCanSignal(t, w);
    } else {
      NamedAndRaised(t, w);
    }
  }

  lemma NamedAndRaised(t: Template, w: World)
    requires Sound(w) && !w.flag && !w.drainer.Abandoned?
    ensures CanSignal(t, w)
  {
    var named := Next(t, w, NameReason(true));
    NextKeeps(t, w, NameReason(true));
    NextKeeps(t, named, RaiseFlag);
    RaisedCanSignal(t, Next(t, named, RaiseFlag));
    CanSignalAfter(t, named, RaiseFlag);
    CanSignalAfter(t, w, NameReason(true));
  }
}
