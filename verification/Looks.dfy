// Every counted call goes back to a look: the moment its rules were evaluated, what they
// saw of the run at that moment, and the arguments the call was to carry.
module Looks {
  import opened Text
  import opened Events
  import opened Policy
  import opened Runs
  import opened Replay
  import opened Calls
  import opened Sdk

  function RunAt(t: Template, start: Client, ops: seq<Op>, i: nat): Run
    requires i <= |ops|
  {
    DoAll(t, start, ops[..i]).cell.run
  }

  // What rules are shown of a run when a call is about to be made.
  function Shown(t: Template, r: Run, g: Guarded): Context {
    Context(g.elapsedMs, g.nowMs, Some(g.tool), r.tokens, r.counts, r.history, t.toolLabels, g.args)
  }

  // Step i looked at this call, and this is what its rules were shown.
  ghost predicate LookedAt(t: Template, start: Client, ops: seq<Op>, i: nat, g: Guarded, ctx: Context) {
    i < |ops| && ops[i] == Look(g) && ctx == Shown(t, RunAt(t, start, ops, i), g)
  }

  ghost predicate WasLookedAt(t: Template, start: Client, ops: seq<Op>, g: Guarded, ctx: Context) {
    exists i: nat :: LookedAt(t, start, ops, i, g, ctx)
  }

  ghost predicate AllLookedAt(t: Template, start: Client, ops: seq<Op>, cl: Client) {
    && (cl.turn.Checked? || cl.turn.Asked? ==> WasLookedAt(t, start, ops, cl.turn.g, cl.turn.ctx))
    && forall j :: 0 <= j < |cl.seen| ==> WasLookedAt(t, start, ops, cl.seen[j].g, cl.seen[j].ctx)
  }

  lemma StillLookedAt(t: Template, start: Client, ops: seq<Op>, g: Guarded, ctx: Context)
    requires ops != [] && WasLookedAt(t, start, Front(ops), g, ctx)
    ensures WasLookedAt(t, start, ops, g, ctx)
  {
    var i: nat :| LookedAt(t, start, Front(ops), i, g, ctx);
    assert Front(ops)[..i] == ops[..i];
    assert LookedAt(t, start, ops, i, g, ctx);
  }

  lemma LooksNow(t: Template, start: Client, ops: seq<Op>, g: Guarded)
    requires ops != [] && Last(ops) == Look(g)
    ensures var run := DoAll(t, start, Front(ops)).cell.run;
            WasLookedAt(t, start, ops, g, Shown(t, run, g)) && ContextOf(t, run, g) == Shown(t, run, g)
  {
    var i := |ops| - 1;
    assert ops[..i] == Front(ops);
    assert LookedAt(t, start, ops, i, g, Shown(t, RunAt(t, start, ops, i), g));
  }

  lemma {:induction false} LookedAtThroughout(t: Template, start: Client, ops: seq<Op>)
    requires AllLookedAt(t, start, [], start)
    ensures AllLookedAt(t, start, ops, DoAll(t, start, ops))
  {
    if ops != [] {
      LookedAtThroughout(t, start, Front(ops));
      var cl, next := DoAll(t, start, Front(ops)), DoAll(t, start, ops);
      if cl.turn.Checked? || cl.turn.Asked? { StillLookedAt(t, start, ops, cl.turn.g, cl.turn.ctx); }
      forall j | 0 <= j < |cl.seen| ensures WasLookedAt(t, start, ops, cl.seen[j].g, cl.seen[j].ctx) {
        StillLookedAt(t, start, ops, cl.seen[j].g, cl.seen[j].ctx);
      }
      if Last(ops).Look? { LooksNow(t, start, ops, Last(ops).g); }
      assert forall j :: 0 <= j < |next.seen| ==> next.seen[j] == if j < |cl.seen| then cl.seen[j] else Sighting(cl.turn.g, cl.turn.ctx);
    }
  }

  // Call j of the history goes back to the look of step i: the same tool, exactly the
  // calls before it, and every rule registered then allowing it on that, its arguments
  // included.
  ghost predicate CameFrom(t: Template, start: Client, ops: seq<Op>, j: nat, i: nat) {
    var history := DoAll(t, start, ops).cell.run.history;
    && j < |history| && i < |ops| && ops[i].Look? && ops[i].g.tool == history[j]
    && RunAt(t, start, ops, i).history == history[..j]
    && forall k :: 0 <= k < |ops[i].g.rules| ==> ops[i].g.rules[k].allows(Shown(t, RunAt(t, start, ops, i), ops[i].g))
  }

  // Over every interleaving with one client.
  lemma EveryCallWasLookedAt(t: Template, id: RunId, ops: seq<Op>, j: nat) returns (i: nat)
    requires AllOneClient(ops) && j < |DoAll(t, Newcomer(t, id), ops).cell.run.history|
    ensures CameFrom(t, Newcomer(t, id), ops, j, i)
  {
    var start := Newcomer(t, id);
    var cl := DoAll(t, start, ops);
    EveryCallIsEnforced(t, id, ops);
    LookedAtThroughout(t, start, ops);
    assert Enforced(t, cl.cell.run.history, cl.seen, j);
    var s := cl.seen[j];
    assert WasLookedAt(t, start, ops, s.g, s.ctx);
    i :| LookedAt(t, start, ops, i, s.g, s.ctx);
  }

  // The call a phase is about, until it is answered.
  function CallIn(p: Phase): Option<ToolCall> {
    match p
    case Waiting(CallTool(call)) => Some(call)
    case Passed(CallTool(call)) => Some(call)
    case Cleared(call) => Some(call)
    case Refused(call, _) => Some(call)
    case Ran(call, _) => Some(call)
    case _ => None
  }

  // What the governor has before it is what the rules were shown: the tool, the
  // arguments, and all the rules as cleared, in order.
  lemma RulesSawWhatIsSent(t: Template, id: RunId, ops: seq<Op>)
    requires AllOneClient(ops)
    ensures var cl := DoAll(t, Newcomer(t, id), ops);
            cl.turn.Asked? && cl.turn.c in cl.cell.calls && !cl.cell.calls[cl.turn.c].Answered? ==>
              var g, ctx := cl.turn.g, cl.turn.ctx;
              && WasLookedAt(t, Newcomer(t, id), ops, g, ctx)
              && ctx.requestedTool.Some?
              && CallIn(cl.cell.calls[cl.turn.c]) == Some(ToolCall(ctx.requestedTool.value, ctx.lastToolArgs, Names(g.rules)))
  {
    NewcomerIsGoverned(t, id);
    GovernedThroughout(t, Newcomer(t, id), ops);
    LookedAtThroughout(t, Newcomer(t, id), ops);
  }
}
