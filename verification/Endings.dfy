// How a governed execution ends, told by its moves alone: which reason is given, which
// runs are closed with it, when the CLI returns, and that all the while the runs are
// those of the governor serving the same requests.
module Endings {
  import opened Text
  import opened Events
  import opened Runs
  import opened Replay
  import opened Calls
  import opened Governor
  import opened Shutdown

  // The world before move k.
  function Before(t: Template, start: World, moves: seq<Move>, k: nat): World
    requires k <= |moves|
  {
    Interleave(t, start, moves[..k])
  }

  lemma BeforeInFront(t: Template, start: World, moves: seq<Move>, k: nat)
    requires moves != [] && k < |moves|
    ensures Before(t, start, Front(moves), k) == Before(t, start, moves, k)
    ensures Before(t, start, moves, |moves| - 1) == Interleave(t, start, Front(moves))
  {
    assert Front(moves)[..k] == moves[..k];
  }

  // ── What the CLI does ───────────────────────────────────────────────────────

  // The first reason named, and only the first.
  function ReasonGiven(moves: seq<Move>): Option<string> {
    if moves == [] then None
    else if ReasonGiven(Front(moves)).Some? then ReasonGiven(Front(moves))
    else match Last(moves)
      case NameReason(success) => Some(if success then "AgentCompleted" else "ProcessCrashed")
      case _ => None
  }

  // The flag goes up once a reason is there.
  predicate FlagIsUp(moves: seq<Move>) {
    moves != [] && (FlagIsUp(Front(moves)) || (Last(moves).RaiseFlag? && ReasonGiven(Front(moves)).Some?))
  }

  // A wait that ends: after the flag, on the signal or by its own timeout.
  ghost predicate Returns(t: Template, start: World, moves: seq<Move>, n: nat)
    requires n < |moves|
  {
    moves[n].Wait? && FlagIsUp(moves[..n]) && (Before(t, start, moves, n).done || moves[n].timedOut)
  }

  lemma CliMoved(t: Template, w: World, m: Move)
    ensures !CliMoves(m) ==> Next(t, w, m).cli == w.cli && Next(t, w, m).named == w.named && Next(t, w, m).flag == w.flag
    ensures CliMoves(m) ==> Next(t, w, m) == CliStep(w, m)
  {
    match m
    case Request(_) =>
    case CloseRun(_) =>
    case TakeLines(_) =>
    case Deliver(_) =>
    case _ => if Signals(m) && !CliMoves(m) { OthersLeaveTheCli(w, m); }
  }

  lemma OthersLeaveTheCli(w: World, m: Move)
    requires Signals(m) && !CliMoves(m)
    ensures SignalStep(w, m).cli == w.cli && SignalStep(w, m).named == w.named && SignalStep(w, m).flag == w.flag
  {
  }

  // Over every interleaving: the reason the sweep uses is the first one named, and the
  // flag is up once the CLI has raised it after naming one.
  lemma {:induction false} CliNamesThenRaises(t: Template, cells: Cells, synced: bool, moves: seq<Move>)
    ensures var w := Interleave(t, Start(cells, synced), moves);
            && w.named == ReasonGiven(moves) && w.flag == FlagIsUp(moves)
            && (w.cli.Supervising? <==> w.named.None?) && (w.cli.Raised? || w.cli.Released? <==> w.flag)
  {
    if moves != [] {
      CliNamesThenRaises(t, cells, synced, Front(moves));
      CliMoved(t, Interleave(t, Start(cells, synced), Front(moves)), Last(moves));
    }
  }

  // The first wait that ends releases the CLI, with what it saw.
  ghost predicate ReturnedAt(t: Template, start: World, moves: seq<Move>, n: nat) {
    && n < |moves| && Returns(t, start, moves, n)
    && forall m: nat :: m < n ==> !Returns(t, start, moves, m)
  }

  lemma ReturnsInFront(t: Template, start: World, moves: seq<Move>, n: nat)
    requires moves != [] && n < |moves| - 1
    ensures Returns(t, start, Front(moves), n) == Returns(t, start, moves, n)
  {
    BeforeInFront(t, start, moves, n);
    assert Front(moves)[..n] == moves[..n];
  }

  ghost predicate HasReturned(t: Template, start: World, moves: seq<Move>) {
    exists n: nat :: n < |moves| && Returns(t, start, moves, n)
  }

  lemma OneMoreReturn(t: Template, start: World, moves: seq<Move>)
    requires moves != []
    ensures HasReturned(t, start, moves)
            <==> HasReturned(t, start, Front(moves)) || Returns(t, start, moves, |moves| - 1)
  {
    var front := Front(moves);
    forall n: nat | n < |front| ensures Returns(t, start, front, n) == Returns(t, start, moves, n) {
      ReturnsInFront(t, start, moves, n);
    }
    if HasReturned(t, start, moves) {
      var n: nat :| n < |moves| && Returns(t, start, moves, n);
      assert n < |front| ==> Returns(t, start, front, n);
    }
    if HasReturned(t, start, front) {
      var n: nat :| n < |front| && Returns(t, start, front, n);
      assert Returns(t, start, moves, n);
    }
  }

  // Over every interleaving: the CLI has returned exactly when some wait of its has
  // ended, and it knows of the signal exactly when the first one that did had seen it.
  lemma {:induction false} CliReturns(t: Template, cells: Cells, synced: bool, moves: seq<Move>)
    ensures var start := Start(cells, synced);
            var w := Interleave(t, start, moves);
            && (w.cli.Released? <==> HasReturned(t, start, moves))
            && (forall n: nat :: ReturnedAt(t, start, moves, n) ==> w.cli == Released(Before(t, start, moves, n).done))
  {
    if moves != [] {
      var start, front, last := Start(cells, synced), Front(moves), |moves| - 1;
      CliReturns(t, cells, synced, front);
      CliNamesThenRaises(t, cells, synced, front);
      CliMoved(t, Interleave(t, start, front), Last(moves));
      BeforeInFront(t, start, moves, last);
      OneMoreReturn(t, start, moves);
      forall n: nat | ReturnedAt(t, start, moves, n)
        ensures Interleave(t, start, moves).cli == Released(Before(t, start, moves, n).done)
      {
        ReturnedInFront(t, start, moves, n);
      }
    }
  }

  lemma ReturnedInFront(t: Template, start: World, moves: seq<Move>, n: nat)
    requires ReturnedAt(t, start, moves, n)
    ensures if n < |moves| - 1
            then ReturnedAt(t, start, Front(moves), n) && Before(t, start, Front(moves), n) == Before(t, start, moves, n)
            else n == |moves| - 1 && Returns(t, start, moves, n) && !HasReturned(t, start, Front(moves))
  {
    forall m: nat | m < |moves| - 1 ensures Returns(t, start, Front(moves), m) == Returns(t, start, moves, m) {
      ReturnsInFront(t, start, moves, m);
    }
    if n < |moves| - 1 { BeforeInFront(t, start, moves, n); }
  }

  // ── The runs are the governor's ─────────────────────────────────────────────

  // What the governor does in a move: a request that may proceed, a run closed, a run's
  // buffer taken.
  function Does(w: World, m: Move): seq<Label> {
    match m
    case Request(Arrive(header, c, q)) => if w.drainer.Closing? then [] else [Arrive(header, c, q)]
    case Request(On(id, action)) => if action.Drain? || action.CloseOut? then [] else [On(id, action)]
    case CloseRun(id) =>
      if w.drainer.Closing? && id in w.drainer.rest && id in w.cells then [On(id, CloseOut(w.drainer.reason))] else []
    case TakeLines(id) =>
      if w.drainer.Sweeping? && id in w.drainer.rest && id in w.cells then [On(id, Drain)] else []
    case _ => []
  }

  function DoesAll(t: Template, start: World, moves: seq<Move>): seq<Label> {
    if moves == [] then [] else DoesAll(t, start, Front(moves)) + Does(Interleave(t, start, Front(moves)), Last(moves))
  }

  lemma OneLabel(t: Template, cells: Cells, l: Label)
    ensures Exec(t, cells, [l]) == Step(t, cells, l) && Exec(t, cells, []) == cells
  {
    assert Front([l]) == [];
  }

  lemma {:induction false} ExecInTwo(t: Template, cells: Cells, first: seq<Label>, second: seq<Label>)
    ensures Exec(t, cells, first + second) == Exec(t, Exec(t, cells, first), second)
  {
    if second == [] {
      assert first + second == first;
    } else {
      assert Front(first + second) == first + Front(second);
      ExecInTwo(t, cells, first, Front(second));
    }
  }

  lemma TakingIsDraining(t: Template, w: World, id: RunId)
    requires CanTake(w, id)
    ensures TakeStep(w, id).cells == Step(t, w.cells, On(id, Drain))
  {
    var cell := w.cells[id];
    if cell.run.buffer == [] {
      assert cell.run.drained + [] == cell.run.drained;
      assert Take(cell.run) == cell.run;
      assert w.cells[id := cell] == w.cells;
    }
  }

  lemma MoveIsDone(t: Template, w: World, m: Move)
    ensures Next(t, w, m).cells == Exec(t, w.cells, Does(w, m))
  {
    var none: seq<Label> := [];
    assert Exec(t, w.cells, none) == w.cells;
    match m
    case Request(l) => OneLabel(t, w.cells, l);
    case CloseRun(id) => if CanClose(w, id) { OneLabel(t, w.cells, On(id, CloseOut(w.drainer.reason))); }
    case TakeLines(id) =>
      if CanTake(w, id) {
        TakingIsDraining(t, w, id);
        OneLabel(t, w.cells, On(id, Drain));
      }
    case Deliver(_) =>
    case _ => SignalTouchesNothing(w, m);
  }

  // Whatever the drain thread and the CLI do, the runs are those of the governor serving
  // the same requests, with every closing and every drain where it happened.
  lemma {:induction false} RunsAreTheGovernors(t: Template, cells: Cells, synced: bool, moves: seq<Move>)
    ensures Interleave(t, Start(cells, synced), moves).cells == Exec(t, cells, DoesAll(t, Start(cells, synced), moves))
  {
    if moves != [] {
      var start := Start(cells, synced);
      var w := Interleave(t, start, Front(moves));
      RunsAreTheGovernors(t, cells, synced, Front(moves));
      MoveIsDone(t, w, Last(moves));
      ExecInTwo(t, cells, DoesAll(t, start, Front(moves)), Does(w, Last(moves)));
    }
  }

  // ── Every run in the map is closed ──────────────────────────────────────────

  // The log of a run that some move closed: all of it up to that move, one closing event
  // with the run's own reason if it had one by then and the tokens it had reported, and
  // no other.
  ghost predicate ClosedOnce(t: Template, start: World, moves: seq<Move>, id: RunId, log: Log, reason: string) {
    exists k: nat :: k < |moves| && ClosesAt(t, start, moves, id, k)
                     && EndsWith(log, Before(t, start, moves, k).cells[id].run, reason)
  }

  ghost predicate EndsWith(log: Log, before: Run, reason: string) {
    Bracketed(log, before, reason) && before.tokens == TokensReported(FullLog(before)) % U64_SIZE
  }

  ghost predicate ClosesAt(t: Template, start: World, moves: seq<Move>, id: RunId, k: nat)
    requires k < |moves|
  {
    moves[k] == CloseRun(id) && id in Before(t, start, moves, k).cells
  }

  lemma {:induction false} ClosedIsRecorded(t: Template, cells: Cells, synced: bool, moves: seq<Move>, id: RunId) returns (k: nat)
    requires id in Interleave(t, Start(cells, synced), moves).closed
    ensures k < |moves| && ClosesAt(t, Start(cells, synced), moves, id, k)
    ensures Interleave(t, Start(cells, synced), moves).closed[id] == Before(t, Start(cells, synced), moves, k).cells[id].run
  {
    var start, front, last := Start(cells, synced), Front(moves), |moves| - 1;
    var w := Interleave(t, start, front);
    BeforeInFront(t, start, moves, last);
    if Last(moves) == CloseRun(id) && CanClose(w, id) {
      k := last;
    } else {
      ClosedStays(t, w, Last(moves), id);
      k := ClosedIsRecorded(t, cells, synced, front, id);
      BeforeInFront(t, start, moves, k);
    }
  }

  lemma ClosedStays(t: Template, w: World, m: Move, id: RunId)
    requires !(m == CloseRun(id) && CanClose(w, id))
    ensures id in Next(t, w, m).closed <==> id in w.closed
    ensures id in w.closed ==> Next(t, w, m).closed[id] == w.closed[id]
  {
    if Signals(m) { SignalTouchesNothing(w, m); }
  }

  // The drain thread has locked the map.
  predicate PastLock(d: Drainer) {
    d.Closing? || d.Finished? || ((d.Listing? || d.Sweeping? || d.Holding?) && d.final)
  }

  lemma LockStays(t: Template, w: World, m: Move)
    requires PastLock(w.drainer) || w.drainer.Abandoned?
    ensures var next := Next(t, w, m); next.present == w.present && (PastLock(next.drainer) || next.drainer.Abandoned?)
  {
    match m
    case Request(_) =>
    case CloseRun(_) =>
    case TakeLines(_) =>
    case Deliver(_) =>
    case _ => if CliMoves(m) { CliMoved(t, w, m); } else { SignalStays(w, m); }
  }

  lemma SignalStays(w: World, m: Move)
    requires Signals(m) && !CliMoves(m) && (PastLock(w.drainer) || w.drainer.Abandoned?)
    ensures var next := SignalStep(w, m); next.present == w.present && (PastLock(next.drainer) || next.drainer.Abandoned?)
  {
  }

  lemma {:induction false} LockStaysThroughout(t: Template, w: World, moves: seq<Move>)
    requires PastLock(w.drainer)
    ensures var next := Interleave(t, w, moves); next.present == w.present && (PastLock(next.drainer) || next.drainer.Abandoned?)
  {
    if moves != [] {
      LockStaysThroughout(t, w, Front(moves));
      LockStays(t, Interleave(t, w, Front(moves)), Last(moves));
    }
  }

  // From the lock on: exactly the runs then in the map have been closed when the sweep
  // signals, with the reason the CLI named first.
  lemma LockedRunsAreClosed(t: Template, cells: Cells, synced: bool, before: seq<Move>, after: seq<Move>, id: RunId)
    requires Unopened(cells) && Interleave(t, Start(cells, synced), before).drainer.Naming?
    requires Interleave(t, Start(cells, synced), before + [LockRuns] + after).done
    ensures var start, moves := Start(cells, synced), before + [LockRuns] + after;
            var log := OfRun(Interleave(t, start, moves).log, id);
            && ReasonGiven(moves).Some?
            && (if id in Interleave(t, start, before).cells
                then ClosedOnce(t, start, moves, id, log, ReasonGiven(moves).value)
                else NoStop(log))
            && (synced ==> SentFor(Interleave(t, start, moves).sent, id) == log)
  {
    var start, moves := Start(cells, synced), before + [LockRuns] + after;
    var locked := Interleave(t, start, before + [LockRuns]);
    assert Front(before + [LockRuns]) == before;
    InterleaveInTwo(t, start, before + [LockRuns], after);
    LockStaysThroughout(t, locked, after);
    InterleaveKeeps(t, cells, synced, moves);
    CliNamesThenRaises(t, cells, synced, moves);
    SyncedStays(t, cells, synced, moves);
    assert DeliverySound(Interleave(t, start, moves), id);
    if id in Interleave(t, start, before).cells {
      DoneMeansEveryRunIsClosed(t, cells, synced, moves, id);
      var k := ClosedIsRecorded(t, cells, synced, moves, id);
    } else {
      OpenRunsHaveNoStop(Interleave(t, start, moves), id);
    }
  }

  lemma OpenRunsHaveNoStop(w: World, id: RunId)
    requires Sound(w) && id !in w.closed
    ensures NoStop(OfRun(w.log, id))
  {
    assert RunSound(w, id) && DeliverySound(w, id);
    var log := OfRun(w.log, id);
    forall k | 0 <= k < |log| ensures !log[k].event.ExecutionStopped? {
      assert log[k] == DrainedOf(w, id)[k];
      assert log[k] == FullLog(w.cells[id].run)[k];
    }
  }

  // ── No signal without it ────────────────────────────────────────────────────

  // Move m locks the map, with a reason in hand and the flag up.
  ghost predicate Locks(t: Template, start: World, moves: seq<Move>, m: nat)
    requires m < |moves|
  {
    moves[m] == LockRuns && Before(t, start, moves, m).drainer.Naming? && FlagIsUp(moves[..m])
  }

  lemma PastLockComesFrom(t: Template, w: World, m: Move)
    requires Sound(w) && PastLock(Next(t, w, m).drainer) && !PastLock(w.drainer)
    ensures m == LockRuns && w.drainer.Naming?
  {
    match m
    case Request(_) =>
    case CloseRun(_) =>
    case TakeLines(_) =>
    case Deliver(_) =>
    case _ => if CliMoves(m) { CliMoved(t, w, m); }
  }

  ghost predicate FlagWhenPast(w: World) {
    w.drainer.Naming? || PastLock(w.drainer) ==> w.flag
  }

  lemma {:induction false} FlagBeforeNaming(t: Template, cells: Cells, synced: bool, moves: seq<Move>)
    requires Unopened(cells)
    ensures FlagWhenPast(Interleave(t, Start(cells, synced), moves))
  {
    if moves != [] {
      FlagBeforeNaming(t, cells, synced, Front(moves));
      InterleaveKeeps(t, cells, synced, Front(moves));
      FlagComesFirst(t, Interleave(t, Start(cells, synced), Front(moves)), Last(moves));
    }
  }

  lemma FlagComesFirst(t: Template, w: World, m: Move)
    requires Sound(w) && FlagWhenPast(w)
    ensures FlagWhenPast(Next(t, w, m))
  {
    CliMoved(t, w, m);
    match m
    case Request(_) =>
    case CloseRun(_) =>
    case TakeLines(_) =>
    case Deliver(_) =>
    case _ =>
  }

  lemma {:induction false} SomeMoveLocked(t: Template, cells: Cells, synced: bool, moves: seq<Move>) returns (m: nat)
    requires Unopened(cells) && PastLock(Interleave(t, Start(cells, synced), moves).drainer)
    ensures m < |moves| && Locks(t, Start(cells, synced), moves, m)
  {
    var start, front := Start(cells, synced), Front(moves);
    BeforeInFront(t, start, moves, |moves| - 1);
    if PastLock(Interleave(t, start, front).drainer) {
      m := SomeMoveLocked(t, cells, synced, front);
      BeforeInFront(t, start, moves, m);
      assert front[..m] == moves[..m];
    } else {
      m := |moves| - 1;
      InterleaveKeeps(t, cells, synced, front);
      PastLockComesFrom(t, Interleave(t, start, front), Last(moves));
      FlagBeforeNaming(t, cells, synced, front);
      CliNamesThenRaises(t, cells, synced, front);
    }
  }

  // Exactly the runs in the map at move m have been closed, once each.
  ghost predicate ClosedSince(t: Template, start: World, moves: seq<Move>, m: nat)
    requires m < |moves| && ReasonGiven(moves).Some?
  {
    forall id :: var log := OfRun(Interleave(t, start, moves).log, id);
      if id in Before(t, start, moves, m).cells then ClosedOnce(t, start, moves, id, log, ReasonGiven(moves).value)
      else NoStop(log)
  }

  // In every interleaving: the sweep signals only after some move locked the map, and
  // then exactly the runs in the map at that move are closed in the log, once each, with
  // their own reason or else the first one the CLI named.
  lemma ShutdownClosesEveryRun(t: Template, cells: Cells, synced: bool, moves: seq<Move>)
    requires Unopened(cells) && Interleave(t, Start(cells, synced), moves).done
    ensures ReasonGiven(moves).Some?
            && exists m: nat :: m < |moves| && Locks(t, Start(cells, synced), moves, m)
                                && ClosedSince(t, Start(cells, synced), moves, m)
  {
    var start := Start(cells, synced);
    InterleaveKeeps(t, cells, synced, moves);
    var m := SomeMoveLocked(t, cells, synced, moves);
    var before, after := moves[..m], moves[m + 1..];
    assert moves == before + [LockRuns] + after;
    LockedRunsAreClosed(t, cells, synced, before, after, "");
    forall id ensures var log := OfRun(Interleave(t, start, moves).log, id);
      if id in Before(t, start, moves, m).cells then ClosedOnce(t, start, moves, id, log, ReasonGiven(moves).value)
      else NoStop(log)
    {
      LockedRunsAreClosed(t, cells, synced, before, after, id);
    }
  }

  // A CLI that returns because it saw the signal returns after all of that.
  lemma ReleaseBySignal(t: Template, cells: Cells, synced: bool, moves: seq<Move>)
    requires Unopened(cells) && Interleave(t, Start(cells, synced), moves).cli == Released(true)
    ensures ReasonGiven(moves).Some?
            && exists m: nat :: m < |moves| && Locks(t, Start(cells, synced), moves, m)
                                && ClosedSince(t, Start(cells, synced), moves, m)
  {
    InterleaveKeeps(t, cells, synced, moves);
    ShutdownClosesEveryRun(t, cells, synced, moves);
  }
}
