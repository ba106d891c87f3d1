// Run scopes on one thread: entering one saves the scope it replaces, and leaving it puts
// that one back.
module Scopes {
  import opened Text
  import opened Events

  // A live guard: the run it activated and the one it will restore.
  datatype Guard = Guard(id: RunId, previous: Option<RunId>)

  // `open` lists the live guards, the oldest first. Any of them may be dropped next.
  datatype Thread = Thread(current: Option<RunId>, open: seq<Guard>)

  datatype Op = Enter(id: RunId) | Leave(k: nat)

  function Without(open: seq<Guard>, k: nat): seq<Guard>
    requires k < |open|
  {
    open[..k] + open[k + 1..]
  }

  function Do(th: Thread, op: Op): Thread {
    match op
    case Enter(id) => Thread(Some(id), th.open + [Guard(id, th.current)])
    case Leave(k) => if k < |th.open| then Thread(th.open[k].previous, Without(th.open, k)) else th
  }

  function DoAll(th: Thread, ops: seq<Op>): Thread {
    if ops == [] then th else Do(DoAll(th, ops[..|ops| - 1]), ops[|ops| - 1])
  }

  class ScopedRunId {
    var current: Option<RunId>
    ghost var open: seq<Guard>

    ghost function View(): Thread
      reads this
    {
      Thread(current, open)
    }

    constructor ()
      ensures View() == Thread(None, [])
    {
      current, open := None, [];
    }

    method RunScope(id: RunId) returns (guard: Guard)
      modifies this
      ensures View() == Do(old(View()), Enter(id)) && guard == open[|open| - 1]
    {
      guard := Guard(id, current);
      current, open := Some(id), open + [guard];
    }

    method Drop(guard: Guard, ghost k: nat)
      requires k < |open| && open[k] == guard
      modifies this
      ensures View() == Do(old(View()), Leave(k))
    {
      current, open := guard.previous, Without(open, k);
    }
  }

  // The run a call belongs to should be the innermost scope still open.
  function Innermost(open: seq<Guard>, base: Option<RunId>): Option<RunId> {
    if open == [] then base else Some(open[|open| - 1].id)
  }

  predicate Nested(th: Thread, base: Option<RunId>) {
    && th.current == Innermost(th.open, base)
    && forall k :: 0 <= k < |th.open| ==> th.open[k].previous == Innermost(th.open[..k], base)
  }

  // Every drop is of the youngest guard alive.
  ghost predicate LastFirst(th: Thread, ops: seq<Op>) {
    forall n :: 0 <= n < |ops| && ops[n].Leave? ==> ops[n].k + 1 == |DoAll(th, ops[..n]).open|
  }

  lemma EnterNests(th: Thread, base: Option<RunId>, id: RunId)
    requires Nested(th, base)
    ensures Nested(Do(th, Enter(id)), base)
  {
    var next := Do(th, Enter(id));
    forall k | 0 <= k < |next.open| ensures next.open[k].previous == Innermost(next.open[..k], base) {
      assert next.open[..k] == th.open[..k];
      assert th.open[..|th.open|] == th.open;
    }
  }

  lemma LeaveNests(th: Thread, base: Option<RunId>)
    requires Nested(th, base) && th.open != []
    ensures Nested(Do(th, Leave(|th.open| - 1)), base)
  {
    var k := |th.open| - 1;
    var next := Do(th, Leave(k));
    assert next.open == th.open[..k];
    forall j | 0 <= j < |next.open| ensures next.open[j].previous == Innermost(next.open[..j], base) {
      assert next.open[..j] == th.open[..j];
    }
  }

  // While scopes are left youngest first, each call belongs to the innermost open one,
  // and to whatever was there before once all are closed.
  lemma {:induction false} NestingIsSafe(base: Option<RunId>, ops: seq<Op>)
    requires LastFirst(Thread(base, []), ops)
    ensures Nested(DoAll(Thread(base, []), ops), base)
  {
    if ops != [] {
      var front := ops[..|ops| - 1];
      var th := DoAll(Thread(base, []), front);
      assert forall n :: 0 <= n < |front| ==> front[..n] == ops[..n];
      NestingIsSafe(base, front);
      match ops[|ops| - 1]
      case Enter(id) => EnterNests(th, base, id);
      case Leave(k) => LeaveNests(th, base);
    }
  }

  // Dropping an older guard leaves the thread in the right run only when the scope it
  // restores happens to be the innermost one's run.
  lemma LeavingOutOfOrder(th: Thread, base: Option<RunId>, k: nat)
    requires Nested(th, base) && k < |th.open|
    ensures var next := Do(th, Leave(k));
            next.current == Innermost(next.open, base)
            <==> k + 1 == |th.open| || Innermost(th.open[..k], base) == Some(th.open[|th.open| - 1].id)
  {
    if k + 1 == |th.open| {
      LeaveNests(th, base);
    } else {
      var next := Do(th, Leave(k));
      assert next.open[|next.open| - 1] == th.open[|th.open| - 1];
    }
  }
}
