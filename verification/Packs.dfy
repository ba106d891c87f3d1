// The recommended rule packs, and what each guarantees of every history a governed run
// can reach.
module Packs {
  import opened Text
  import opened Events
  import opened Policy
  import opened Runs
  import opened Replay
  import opened Calls
  import opened Sdk
  import opened Turns
  import opened Looks

  const CONFIRM_TOOL := "confirm_destructive"
  const APPROVAL_TOOL := "request_approval"

  predicate AnyHas(ctx: Context, tag: string) {
    exists k :: 0 <= k < |ctx.history| && ctx.ToolHas(ctx.history[k], tag)
  }

  predicate PendingHas(ctx: Context, tag: string) {
    ctx.requestedTool.Some? && ctx.ToolHas(ctx.requestedTool.value, tag)
  }

  predicate NoExternalEffectAfterUntrustedRead(ctx: Context) {
    !PendingHas(ctx, "external_effect") || !AnyHas(ctx, "reads_untrusted")
  }

  predicate NoUntrustedReadAfterSecrets(ctx: Context) {
    !PendingHas(ctx, "reads_untrusted") || !AnyHas(ctx, "reads_sensitive")
  }

  predicate PrerequisiteToolOrdering(ctx: Context) {
    !PendingHas(ctx, "destructive")
    || exists k :: 0 <= k < |ctx.history| && !ctx.ToolHas(ctx.history[k], "destructive")
  }

  predicate NoDestructiveWithoutConfirmation(ctx: Context) {
    !PendingHas(ctx, "destructive") || CONFIRM_TOOL in ctx.history
  }

  predicate NoPaymentWithoutPriorApproval(ctx: Context) {
    !PendingHas(ctx, "moves_money") || APPROVAL_TOOL in ctx.history
  }

  predicate NoIdenticalRepeatCall(ctx: Context) {
    ctx.requestedTool.None? || ctx.history == [] || Last(ctx.history) != ctx.requestedTool.value
    || ctx.lastToolArgs != map[]
  }

  predicate NoToolAfterAPriorDenial(ctx: Context) {
    "__denied__" !in ctx.history
  }

  // ── From a registered rule to the whole history ─────────────────────────────

  ghost predicate Registered(ops: seq<Op>, rule: Rule) {
    forall i :: 0 <= i < |ops| && ops[i].Look? ==> rule in ops[i].g.rules
  }

  ghost predicate SeenBy(cl: Client, rule: Rule) {
    && (forall j :: 0 <= j < |cl.seen| ==> rule in cl.seen[j].g.rules)
    && (cl.turn.Checked? || cl.turn.Asked? ==> rule in cl.turn.g.rules)
  }

  lemma {:induction false} SeenThroughout(t: Template, cl: Client, ops: seq<Op>, rule: Rule)
    requires Registered(ops, rule) && SeenBy(cl, rule)
    ensures SeenBy(DoAll(t, cl, ops), rule)
  {
    if ops != [] { SeenThroughout(t, cl, Front(ops), rule); }
  }

  // A run with one client that registers `rule` for every call.
  ghost predicate OneClientRun(ops: seq<Op>, rule: Rule) {
    Registered(ops, rule) && AllOneClient(ops)
  }

  function History(t: Template, id: RunId, ops: seq<Op>): seq<Tool> {
    DoAll(t, Newcomer(t, id), ops).cell.run.history
  }

  predicate Labelled(t: Template, tool: Tool, tag: string) {
    tool in t.toolLabels && tag in t.toolLabels[tool]
  }

  // The rule held when call j was made, on the calls before it.
  lemma HeldAt(t: Template, id: RunId, ops: seq<Op>, rule: Rule, j: nat) returns (ctx: Context)
    requires OneClientRun(ops, rule) && j < |History(t, id, ops)|
    ensures rule.allows(ctx) && ctx.requestedTool == Some(History(t, id, ops)[j])
    ensures ctx.history == History(t, id, ops)[..j] && ctx.labels == t.toolLabels
    ensures j < |DoAll(t, Newcomer(t, id), ops).seen| && ctx == DoAll(t, Newcomer(t, id), ops).seen[j].ctx
  {
    EveryCallIsEnforced(t, id, ops);
    SeenThroughout(t, Newcomer(t, id), ops, rule);
    var cl := DoAll(t, Newcomer(t, id), ops);
    assert Enforced(t, cl.cell.run.history, cl.seen, j);
    ctx := cl.seen[j].ctx;
    assert rule in cl.seen[j].g.rules;
  }

  // ── Taint ───────────────────────────────────────────────────────────────────

  lemma NoExternalEffectAfterTaint(t: Template, id: RunId, ops: seq<Op>, i: nat, j: nat)
    requires OneClientRun(ops, Rule("no_external_effect_after_untrusted_read", NoExternalEffectAfterUntrustedRead))
    requires i < j < |History(t, id, ops)| && Labelled(t, History(t, id, ops)[i], "reads_untrusted")
    ensures !Labelled(t, History(t, id, ops)[j], "external_effect")
  {
    var ctx := HeldAt(t, id, ops, Rule("no_external_effect_after_untrusted_read", NoExternalEffectAfterUntrustedRead), j);
    assert ctx.history[i] == History(t, id, ops)[i];
  }

  lemma NoUntrustedReadOnceSecretsAreIn(t: Template, id: RunId, ops: seq<Op>, i: nat, j: nat)
    requires OneClientRun(ops, Rule("no_untrusted_read_after_secrets", NoUntrustedReadAfterSecrets))
    requires i < j < |History(t, id, ops)| && Labelled(t, History(t, id, ops)[i], "reads_sensitive")
    ensures !Labelled(t, History(t, id, ops)[j], "reads_untrusted")
  {
    var ctx := HeldAt(t, id, ops, Rule("no_untrusted_read_after_secrets", NoUntrustedReadAfterSecrets), j);
    assert ctx.history[i] == History(t, id, ops)[i];
  }

  // ── Ordering ────────────────────────────────────────────────────────────────

  lemma DestructiveCallsFollowAnother(t: Template, id: RunId, ops: seq<Op>, j: nat)
    requires OneClientRun(ops, PREREQUISITE)
    requires j < |History(t, id, ops)| && Labelled(t, History(t, id, ops)[j], "destructive")
    ensures exists i :: 0 <= i < j && !Labelled(t, History(t, id, ops)[i], "destructive")
  {
    var ctx := HeldAt(t, id, ops, PREREQUISITE, j);
    var i :| 0 <= i < |ctx.history| && !ctx.ToolHas(ctx.history[i], "destructive");
    assert ctx.history[i] == History(t, id, ops)[i];
  }

  lemma DestructiveCallsAreConfirmed(t: Template, id: RunId, ops: seq<Op>, j: nat)
    requires OneClientRun(ops, Rule("no_destructive_without_confirmation", NoDestructiveWithoutConfirmation))
    requires j < |History(t, id, ops)| && Labelled(t, History(t, id, ops)[j], "destructive")
    ensures exists i :: 0 <= i < j && History(t, id, ops)[i] == CONFIRM_TOOL
  {
    var ctx := HeldAt(t, id, ops, Rule("no_destructive_without_confirmation", NoDestructiveWithoutConfirmation), j);
    var i :| 0 <= i < |ctx.history| && ctx.history[i] == CONFIRM_TOOL;
    assert ctx.history[i] == History(t, id, ops)[i];
  }

  lemma PaymentsAreApproved(t: Template, id: RunId, ops: seq<Op>, j: nat)
    requires OneClientRun(ops, Rule("no_payment_without_prior_approval", NoPaymentWithoutPriorApproval))
    requires j < |History(t, id, ops)| && Labelled(t, History(t, id, ops)[j], "moves_money")
    ensures exists i :: 0 <= i < j && History(t, id, ops)[i] == APPROVAL_TOOL
  {
    var ctx := HeldAt(t, id, ops, Rule("no_payment_without_prior_approval", NoPaymentWithoutPriorApproval), j);
    var i :| 0 <= i < |ctx.history| && ctx.history[i] == APPROVAL_TOOL;
    assert ctx.history[i] == History(t, id, ops)[i];
  }

  const NO_REPEAT := Rule("no_identical_repeat_call", NoIdenticalRepeatCall)

  // A tool called twice running was to carry arguments the second time: those of the call
  // the client looked at.
  lemma RepeatsCarryArguments(t: Template, id: RunId, ops: seq<Op>, j: nat)
    requires OneClientRun(ops, NO_REPEAT)
    requires 0 < j < |History(t, id, ops)| && History(t, id, ops)[j - 1] == History(t, id, ops)[j]
    ensures exists i: nat :: CameFrom(t, Newcomer(t, id), ops, j, i) && ops[i].g.args != map[]
  {
    var i := EveryCallWasLookedAt(t, id, ops, j);
    var shown := Shown(t, RunAt(t, Newcomer(t, id), ops, i), ops[i].g);
    var k :| 0 <= k < |ops[i].g.rules| && ops[i].g.rules[k] == NO_REPEAT;
    assert NO_REPEAT.allows(shown);
    assert Last(shown.history) == History(t, id, ops)[j - 1];
  }

  // A tool only ever called without arguments is never called twice running.
  lemma NothingRepeatsWithoutArguments(t: Template, id: RunId, ops: seq<Op>, tool: Tool)
    requires OneClientRun(ops, NO_REPEAT)
    requires forall i :: 0 <= i < |ops| && ops[i].Look? && ops[i].g.tool == tool ==> ops[i].g.args == map[]
    ensures forall j :: 0 < j < |History(t, id, ops)| ==>
              History(t, id, ops)[j - 1] != tool || History(t, id, ops)[j] != tool
  {
    forall j | 0 < j < |History(t, id, ops)| && History(t, id, ops)[j - 1] == tool
      ensures History(t, id, ops)[j] != tool
    {
      if History(t, id, ops)[j] == tool {
        RepeatsCarryArguments(t, id, ops, j);
      }
    }
  }

  // ── What the ordering rule accepts ──────────────────────────────────────────

  const PREREQUISITE := Rule("prerequisite_tool_ordering", PrerequisiteToolOrdering)

  function Plain(rule: Rule, tool: Tool): Guarded {
    Guarded([rule], tool, map[], 0, 0)
  }

  lemma TurnRegisters(rule: Rule, tool: Tool, c: CallId)
    ensures OneClientRun(TurnOps(Plain(rule, tool), c), rule)
  {
  }

  lemma RegisteredInBoth(a: seq<Op>, b: seq<Op>, rule: Rule)
    requires OneClientRun(a, rule) && OneClientRun(b, rule)
    ensures OneClientRun(a + b, rule)
  {
  }

  // A client whose first call is counted and that is ready for another.
  lemma FirstTurn(t: Template, id: RunId, rule: Rule, tool: Tool) returns (next: Client)
    requires HasRoom(t, map[], tool) && RulesAllow(t, Newcomer(t, id), Plain(rule, tool))
    ensures next == DoAll(t, Newcomer(t, id), TurnOps(Plain(rule, tool), 1))
    ensures Governed(t, next) && next.turn.Idle? && next.cell.run.history == [tool] && next.cell.run.stopped.None?
    ensures next.cell.run.counts == Bump(map[], tool) && 2 !in next.cell.calls
  {
    NewcomerIsGoverned(t, id);
    TurnAlone(t, Newcomer(t, id), Plain(rule, tool), 1);
    next := DoAll(t, Newcomer(t, id), TurnOps(Plain(rule, tool), 1));
  }

  // Two calls of one client, the second as request 2.
  lemma TwoTurns(t: Template, id: RunId, rule: Rule, first: Tool, second: Tool, next: Client)
    requires HasRoom(t, map[], first) && HasRoom(t, Bump(map[], first), second)
    requires RulesAllow(t, Newcomer(t, id), Plain(rule, first))
    requires next == DoAll(t, Newcomer(t, id), TurnOps(Plain(rule, first), 1)) && RulesAllow(t, next, Plain(rule, second))
    ensures var ops := TurnOps(Plain(rule, first), 1) + TurnOps(Plain(rule, second), 2);
            OneClientRun(ops, rule) && History(t, id, ops) == [first, second]
  {
    var after := FirstTurn(t, id, rule, first);
    TurnAlone(t, next, Plain(rule, second), 2);
    DoAllInTwo(t, Newcomer(t, id), TurnOps(Plain(rule, first), 1), TurnOps(Plain(rule, second), 2));
    TurnRegisters(rule, first, 1);
    TurnRegisters(rule, second, 2);
    RegisteredInBoth(TurnOps(Plain(rule, first), 1), TurnOps(Plain(rule, second), 2), rule);
  }

  lemma AllowsOneRule(t: Template, cl: Client, rule: Rule, tool: Tool)
    requires rule.allows(ContextOf(t, cl.cell.run, Plain(rule, tool)))
    ensures RulesAllow(t, cl, Plain(rule, tool))
  {
    assert [rule][1..] == [];
  }

  // Any earlier call that is not destructive will do, whatever it was of.
  lemma UnrelatedCallIsEnough(t: Template, id: RunId, other: Tool, d: Tool)
    requires HasRoom(t, map[], other) && HasRoom(t, Bump(map[], other), d)
    requires !Labelled(t, other, "destructive") && Labelled(t, d, "destructive")
    ensures exists ops :: OneClientRun(ops, PREREQUISITE) && History(t, id, ops) == [other, d]
  {
    AllowsOneRule(t, Newcomer(t, id), PREREQUISITE, other);
    var next := FirstTurn(t, id, PREREQUISITE, other);
    StatusShowsHistory(t, next.cell.run, Plain(PREREQUISITE, d));
    AllowsAfter(ContextOf(t, next.cell.run, Plain(PREREQUISITE, d)), t, other);
    AllowsOneRule(t, next, PREREQUISITE, d);
    TwoTurns(t, id, PREREQUISITE, other, d, next);
  }

  lemma AllowsAfter(ctx: Context, t: Template, other: Tool)
    requires ctx.history == [other] && ctx.labels == t.toolLabels && !Labelled(t, other, "destructive")
    ensures PREREQUISITE.allows(ctx)
  {
    assert ctx.history[0] == other;
  }

  predicate Callable(t: Template, tool: Tool) {
    HasRoom(t, map[], tool)
  }

  lemma CalledIsCallable(t: Template, id: RunId, ops: seq<Op>, j: nat)
    requires AllOneClient(ops) && j < |History(t, id, ops)|
    ensures Callable(t, History(t, id, ops)[j])
  {
    EveryCallIsEnforced(t, id, ops);
    assert Enforced(t, History(t, id, ops), DoAll(t, Newcomer(t, id), ops).seen, j);
  }

  // Whenever a destructive call is made, a call of one of `kind` was made before it.
  ghost predicate Precedes(t: Template, id: RunId, kind: Tool -> bool) {
    forall ops, j: nat :: OneClientRun(ops, PREREQUISITE) && j < |History(t, id, ops)| && Labelled(t, History(t, id, ops)[j], "destructive") ==>
      exists i :: 0 <= i < j && kind(History(t, id, ops)[i])
  }

  predicate Destructive(t: Template, tool: Tool) {
    Callable(t, tool) && Labelled(t, tool, "destructive")
  }

  predicate Harmless(t: Template, tool: Tool) {
    Callable(t, tool) && !Labelled(t, tool, "destructive")
  }

  lemma HarmlessPrecedes(t: Template, id: RunId, kind: Tool -> bool)
    requires forall tool :: Harmless(t, tool) ==> kind(tool)
    ensures Precedes(t, id, kind)
  {
    forall ops, j: nat | OneClientRun(ops, PREREQUISITE) && j < |History(t, id, ops)| && Labelled(t, History(t, id, ops)[j], "destructive")
      ensures exists i :: 0 <= i < j && kind(History(t, id, ops)[i])
    {
      DestructiveCallsFollowAnother(t, id, ops, j);
      var i :| 0 <= i < j && !Labelled(t, History(t, id, ops)[i], "destructive");
      CalledIsCallable(t, id, ops, i);
      assert Harmless(t, History(t, id, ops)[i]);
    }
  }

  // What the rule guarantees of the calls before a destructive one, whatever one would
  // have them be: exactly what is true of every tool that can be called and is not
  // destructive itself, unless no destructive one can be called at all.
  lemma PrerequisiteMeans(t: Template, id: RunId, kind: Tool -> bool)
    ensures Precedes(t, id, kind)
            <==> (forall tool :: Harmless(t, tool) ==> kind(tool)) || (forall d :: !Destructive(t, d))
  {
    if forall tool :: Harmless(t, tool) ==> kind(tool) {
      HarmlessPrecedes(t, id, kind);
    } else if d :| Destructive(t, d) {
      var other :| Harmless(t, other) && !kind(other);
      UnrelatedCallIsEnough(t, id, other, d);
      var ops :| OneClientRun(ops, PREREQUISITE) && History(t, id, ops) == [other, d];
      assert Labelled(t, History(t, id, ops)[1], "destructive") && !kind(History(t, id, ops)[0]);
    } else {
      forall ops, j: nat | OneClientRun(ops, PREREQUISITE) && j < |History(t, id, ops)|
        ensures !Labelled(t, History(t, id, ops)[j], "destructive")
      {
        CalledIsCallable(t, id, ops, j);
        assert !Destructive(t, History(t, id, ops)[j]);
      }
    }
  }

  // ── What the prior-denial rule sees ─────────────────────────────────────────

  const PRIOR_DENIAL := Rule("no_tool_after_a_prior_denial", NoToolAfterAPriorDenial)

  // Denials leave nothing in a history: over the runs of one client that registers it,
  // the rule ever says no exactly when a tool of the name it looks for can be called.
  lemma PriorDenialRuleFires(t: Template, id: RunId, g: Guarded)
    ensures (exists ops :: OneClientRun(ops, PRIOR_DENIAL)
                           && !PRIOR_DENIAL.allows(ContextOf(t, DoAll(t, Newcomer(t, id), ops).cell.run, g)))
            <==> "__denied__" in t.allowedTools && ("__denied__" in t.maxCalls ==> t.maxCalls["__denied__"] > 0)
  {
    if ops :| OneClientRun(ops, PRIOR_DENIAL) && !PRIOR_DENIAL.allows(ContextOf(t, DoAll(t, Newcomer(t, id), ops).cell.run, g)) {
      var run := DoAll(t, Newcomer(t, id), ops).cell.run;
      StatusShowsHistory(t, run, g);
      var j :| 0 <= j < |run.history| && run.history[j] == "__denied__";
      CalledIsCallable(t, id, ops, j);
    }
    if Callable(t, "__denied__") {
      AllowsOneRule(t, Newcomer(t, id), PRIOR_DENIAL, "__denied__");
      TurnRegisters(PRIOR_DENIAL, "__denied__", 1);
      var next := FirstTurn(t, id, PRIOR_DENIAL, "__denied__");
      StatusShowsHistory(t, next.cell.run, g);
    }
  }

  // ── Why one client ──────────────────────────────────────────────────────────

  const TAINT := Rule("no_external_effect_after_untrusted_read", NoExternalEffectAfterUntrustedRead)

  function AllAtGovernor(actions: seq<Action>): (ops: seq<Op>)
    ensures |ops| == |actions| && forall i :: 0 <= i < |ops| ==> ops[i] == AtGovernor(actions[i])
  {
    seq(|actions|, i requires 0 <= i < |actions| => AtGovernor(actions[i]))
  }

  lemma {:induction false} AllAtGovernorPlay(t: Template, cl: Client, actions: seq<Action>)
    ensures var next := DoAll(t, cl, AllAtGovernor(actions));
            next.turn == cl.turn && next.cell == Play(t, cl.cell, actions)
  {
    if actions != [] {
      AllAtGovernorPlay(t, cl, Front(actions));
      assert Front(AllAtGovernor(actions)) == AllAtGovernor(Front(actions));
      AtGovernorActs(t, DoAll(t, cl, AllAtGovernor(Front(actions))), Last(AllAtGovernor(actions)));
    }
  }

  function Call(tool: Tool): Runs.Request {
    CallTool(ToolCall(tool, map[], []))
  }

  // The first client looks, the second one's call goes through, and the first one asks.
  function Crossed(g: Guarded, read: Tool): seq<Op> {
    [Look(g)] + AllAtGovernor(Whole(1, Call(read), NotRegistered)) + [Ask(2)]
    + AllAtGovernor(Whole(2, CallTool(CallOf(g)), NotRegistered)[1..])
  }

  lemma CrossedUntilAsked(t: Template, cl: Client, g: Guarded, read: Tool)
    requires cl.turn.Idle? && cl.cell.calls == map[] && RulesAllow(t, cl, g) && cl.cell.run.stopped.None?
    requires HasRoom(t, cl.cell.run.counts, read)
    ensures var asked := DoAll(t, cl, [Look(g)] + AllAtGovernor(Whole(1, Call(read), NotRegistered)) + [Ask(2)]);
            var r := ServeCall(t, cl.cell.run, Call(read).call, NotRegistered).0;
            exists reply :: asked.cell == Act(t, Put(cl.cell, r, 1, reply), Begin(2, CallTool(CallOf(g))))
  {
    var one, steps := [Look(g)], AllAtGovernor(Whole(1, Call(read), NotRegistered));
    assert Front(one) == [] && DoAll(t, cl, []) == cl;
    var looked := DoAll(t, cl, one);
    assert looked == cl.(turn := Looked(t, cl, g));
    DoAllInTwo(t, cl, one, steps);
    AllAtGovernorPlay(t, looked, Whole(1, Call(read), NotRegistered));
    UninterruptedIsServe(t, cl.cell, 1, Call(read), NotRegistered);
    assert Front(one + steps + [Ask(2)]) == one + steps;
  }

  lemma AskedIsServed(t: Template, asked: Client, cell: Cell, g: Guarded)
    requires 2 !in cell.calls && asked.cell == Act(t, cell, Begin(2, CallTool(CallOf(g))))
    ensures DoAll(t, asked, AllAtGovernor(Whole(2, CallTool(CallOf(g)), NotRegistered)[1..])).cell.run
            == Serve(t, cell.run, CallTool(CallOf(g)), NotRegistered).0
  {
    var whole := Whole(2, CallTool(CallOf(g)), NotRegistered);
    AllAtGovernorPlay(t, asked, whole[1..]);
    SendPlays(t, cell, whole);
    UninterruptedIsServe(t, cell, 2, CallTool(CallOf(g)), NotRegistered);
  }

  lemma CrossedRegisters(g: Guarded, read: Tool)
    requires TAINT in g.rules
    ensures Registered(Crossed(g, read), TAINT)
  {
  }

  // On every governor with room for an untrusted read and an external effect, a second
  // client calling between the first one's status and its call gets the effect through
  // after the read. (`RulesBindIffNothingChanged` says exactly when that happens.)
  lemma TwoClientsDefeatTheTaintRule(t: Template, id: RunId, read: Tool, send: Tool)
    requires HasRoom(t, map[], read) && HasRoom(t, Bump(map[], read), send)
    requires Labelled(t, read, "reads_untrusted") && Labelled(t, send, "external_effect")
    ensures exists ops :: Registered(ops, TAINT) && History(t, id, ops) == [read, send]
  {
    var start, g := Newcomer(t, id), Plain(TAINT, send);
    AllowsOneRule(t, start, TAINT, send);
    CrossedUntilAsked(t, start, g, read);
    var until := [Look(g)] + AllAtGovernor(Whole(1, Call(read), NotRegistered)) + [Ask(2)];
    var r := ServeCall(t, start.cell.run, Call(read).call, NotRegistered).0;
    var reply :| DoAll(t, start, until).cell == Act(t, Put(start.cell, r, 1, reply), Begin(2, CallTool(CallOf(g))));
    AskedIsServed(t, DoAll(t, start, until), Put(start.cell, r, 1, reply), g);
    ReadThenSend(t, start.cell.run, Call(read).call, CallOf(g));
    DoAllInTwo(t, start, until, AllAtGovernor(Whole(2, CallTool(CallOf(g)), NotRegistered)[1..]));
    CrossedRegisters(g, read);
    assert History(t, id, Crossed(g, read)) == [read, send];
  }

  lemma ReadThenSend(t: Template, r: Run, read: ToolCall, send: ToolCall)
    requires r.stopped.None? && r.history == [] && r.counts == map[]
    requires HasRoom(t, map[], read.tool) && HasRoom(t, Bump(map[], read.tool), send.tool)
    ensures var mid := ServeCall(t, r, read, NotRegistered).0;
            mid.stopped.None? && Serve(t, mid, CallTool(send), NotRegistered).0.history == [read.tool, send.tool]
  {
    DecideFindsRoom(t, r, read.tool);
    var mid := ServeCall(t, r, read, NotRegistered).0;
    DecideFindsRoom(t, mid, send.tool);
  }

  lemma SendPlays(t: Template, cell: Cell, whole: seq<Action>)
    requires whole != []
    ensures Play(t, Act(t, cell, whole[0]), whole[1..]) == Play(t, cell, whole)
  {
    PlayInTwo(t, cell, whole[..1], whole[1..]);
    assert whole[..1] + whole[1..] == whole;
    assert Front(whole[..1]) == [];
  }
}
