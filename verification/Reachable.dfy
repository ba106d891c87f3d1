// Exactly which histories a governed client can reach under a rule, and under each of
// the recommended ones.
module Reachable {
  import opened Text
  import opened Events
  import opened Policy
  import opened Runs
  import opened Replay
  import opened Calls
  import opened Sdk
  import opened Turns
  import opened Looks
  import opened Packs
  import Stops

  // ── Under any rule ──────────────────────────────────────────────────────────

  // Every call is of an allowlisted tool below its cap.
  predicate Roomy(t: Template, h: seq<Tool>) {
    forall j :: 0 <= j < |h| ==> RoomAt(t, h, j)
  }

  predicate RoomAt(t: Template, h: seq<Tool>, j: nat)
    requires j < |h|
  {
    h[j] in t.allowedTools && (h[j] in t.maxCalls ==> Multiplicity(h[..j], h[j]) < t.maxCalls[h[j]])
  }

  function TallyOf(h: seq<Tool>): map<Tool, u32> {
    map tool | tool in h :: Multiplicity(h, tool) % U32_SIZE
  }

  // What the rules see of call j of a history, clocks and tokens aside.
  function Facing(t: Template, h: seq<Tool>, j: nat, args: map<string, string>): Context
    requires j < |h|
  {
    Context(0, 0, Some(h[j]), 0, TallyOf(h[..j]), h[..j], t.toolLabels, args)
  }

  // A rule that reads neither the clocks nor the tokens.
  ghost predicate Blind(rule: Rule) {
    forall ctx: Context :: rule.allows(ctx) == rule.allows(ctx.(elapsedMs := 0, nowMs := 0, tokensSpent := 0))
  }

  ghost predicate AllowedAll(t: Template, rule: Rule, h: seq<Tool>, args: seq<map<string, string>>)
    requires |args| == |h|
  {
    forall j :: 0 <= j < |h| ==> rule.allows(Facing(t, h, j, args[j]))
  }

  // The next call the client looks at, when n have been counted, carries args[n].
  ghost predicate Carries(t: Template, id: RunId, ops: seq<Op>, args: seq<map<string, string>>) {
    forall i :: 0 <= i < |ops| && ops[i].Look? && |RunAt(t, Newcomer(t, id), ops, i).history| < |args| ==>
      ops[i].g.args == args[|RunAt(t, Newcomer(t, id), ops, i).history|]
  }

  // Some run of one client that registers the rule and calls with these arguments has
  // this history.
  ghost predicate CanReach(t: Template, id: RunId, rule: Rule, h: seq<Tool>, args: seq<map<string, string>>) {
    exists ops :: OneClientRun(ops, rule) && Carries(t, id, ops, args) && History(t, id, ops) == h
  }

  // ── What is reached is allowed ──────────────────────────────────────────────

  lemma CountsAreTally(counts: map<Tool, u32>, h: seq<Tool>)
    requires CountsAgree(counts, h)
    ensures counts == TallyOf(h)
  {
    forall tool ensures CountAgrees(TallyOf(h), h, tool) {}
    Stops.CountsFollowHistory(counts, TallyOf(h), h);
  }

  lemma RunAtIsConsistent(t: Template, id: RunId, ops: seq<Op>, i: nat)
    requires AllOneClient(ops) && i <= |ops|
    ensures Consistent(RunAt(t, Newcomer(t, id), ops, i))
  {
    NewcomerIsGoverned(t, id);
    GovernedThroughout(t, Newcomer(t, id), ops[..i]);
  }

  lemma ReachedIsAllowed(t: Template, id: RunId, rule: Rule, ops: seq<Op>, args: seq<map<string, string>>)
    requires Blind(rule) && OneClientRun(ops, rule) && Carries(t, id, ops, args) && |args| == |History(t, id, ops)|
    ensures Roomy(t, History(t, id, ops)) && AllowedAll(t, rule, History(t, id, ops), args)
  {
    var h := History(t, id, ops);
    forall j | 0 <= j < |h| ensures RoomAt(t, h, j) && rule.allows(Facing(t, h, j, args[j])) {
      EveryCallIsEnforced(t, id, ops);
      assert Enforced(t, h, DoAll(t, Newcomer(t, id), ops).seen, j);
      var i := EveryCallWasLookedAt(t, id, ops, j);
      LookFaces(t, id, rule, ops, args, j, i);
    }
  }

  lemma LookFaces(t: Template, id: RunId, rule: Rule, ops: seq<Op>, args: seq<map<string, string>>, j: nat, i: nat)
    requires Blind(rule) && OneClientRun(ops, rule) && Carries(t, id, ops, args) && |args| == |History(t, id, ops)|
    requires CameFrom(t, Newcomer(t, id), ops, j, i)
    ensures rule.allows(Facing(t, History(t, id, ops), j, args[j]))
  {
    var r, g := RunAt(t, Newcomer(t, id), ops, i), ops[i].g;
    RunAtIsConsistent(t, id, ops, i);
    CountsAreTally(r.counts, r.history);
    var k :| 0 <= k < |g.rules| && g.rules[k] == rule;
    assert rule.allows(Shown(t, r, g));
    assert Facing(t, History(t, id, ops), j, args[j]) == Shown(t, r, g).(elapsedMs := 0, nowMs := 0, tokensSpent := 0);
  }

  // ── What is allowed can be reached ──────────────────────────────────────────

  // One call after another, nothing in between.
  function Calling(rule: Rule, h: seq<Tool>, args: seq<map<string, string>>): seq<Op>
    requires |args| == |h|
  {
    if h == [] then [] else Calling(rule, Front(h), Front(args)) + TurnOps(Guarded([rule], Last(h), Last(args), 0, 0), |h|)
  }

  // The client after these calls: ready for the next, with requests 1 to |h| behind it.
  ghost predicate Through(t: Template, cl: Client, h: seq<Tool>) {
    && Governed(t, cl) && cl.turn.Idle? && cl.cell.run.stopped.None? && cl.cell.run.history == h
    && forall c :: c in cl.cell.calls ==> c <= |h|
  }

  lemma RoomIsCounted(t: Template, counts: map<Tool, u32>, h: seq<Tool>)
    requires h != [] && CountsAgree(counts, Front(h)) && RoomAt(t, h, |h| - 1)
    ensures HasRoom(t, counts, Last(h))
  {
    assert h[..|h| - 1] == Front(h);
    assert CountAgrees(counts, Front(h), Last(h));
  }

  lemma RuleAllowsNext(t: Template, cl: Client, rule: Rule, h: seq<Tool>, args: map<string, string>)
    requires Blind(rule) && h != [] && Through(t, cl, Front(h)) && rule.allows(Facing(t, h, |h| - 1, args))
    ensures RulesAllow(t, cl, Guarded([rule], Last(h), args, 0, 0))
  {
    var g := Guarded([rule], Last(h), args, 0, 0);
    var ctx := ContextOf(t, cl.cell.run, g);
    CountsAreTally(cl.cell.run.counts, Front(h));
    assert h[..|h| - 1] == Front(h);
    assert Facing(t, h, |h| - 1, args) == ctx.(elapsedMs := 0, nowMs := 0, tokensSpent := 0);
    assert [rule][1..] == [];
  }

  lemma OneCallFurther(t: Template, cl: Client, rule: Rule, h: seq<Tool>, args: map<string, string>)
    requires Blind(rule) && h != [] && Through(t, cl, Front(h)) && RoomAt(t, h, |h| - 1)
    requires rule.allows(Facing(t, h, |h| - 1, args))
    ensures Through(t, DoAll(t, cl, TurnOps(Guarded([rule], Last(h), args, 0, 0), |h|)), h)
  {
    RoomIsCounted(t, cl.cell.run.counts, h);
    RuleAllowsNext(t, cl, rule, h, args);
    TurnAlone(t, cl, Guarded([rule], Last(h), args, 0, 0), |h|);
    assert Front(h) + [Last(h)] == h;
  }

  lemma InFront(t: Template, rule: Rule, h: seq<Tool>, args: seq<map<string, string>>)
    requires h != [] && |args| == |h| && Roomy(t, h) && AllowedAll(t, rule, h, args)
    ensures Roomy(t, Front(h)) && AllowedAll(t, rule, Front(h), Front(args))
    ensures RoomAt(t, h, |h| - 1) && rule.allows(Facing(t, h, |h| - 1, Last(args)))
  {
    forall j | 0 <= j < |Front(h)| ensures RoomAt(t, Front(h), j) && rule.allows(Facing(t, Front(h), j, Front(args)[j])) {
      assert Front(h)[..j] == h[..j] && Front(h)[j] == h[j];
      assert RoomAt(t, h, j) && rule.allows(Facing(t, h, j, args[j]));
    }
  }

  lemma {:induction false} CallingReaches(t: Template, id: RunId, rule: Rule, h: seq<Tool>, args: seq<map<string, string>>)
    requires Blind(rule) && |args| == |h| && Roomy(t, h) && AllowedAll(t, rule, h, args)
    ensures Through(t, DoAll(t, Newcomer(t, id), Calling(rule, h, args)), h)
  {
    if h == [] {
      NewcomerIsGoverned(t, id);
    } else {
      var before, g := Calling(rule, Front(h), Front(args)), Guarded([rule], Last(h), Last(args), 0, 0);
      InFront(t, rule, h, args);
      CallingReaches(t, id, rule, Front(h), Front(args));
      OneCallFurther(t, DoAll(t, Newcomer(t, id), before), rule, h, Last(args));
      DoAllInTwo(t, Newcomer(t, id), before, TurnOps(g, |h|));
    }
  }

  lemma {:induction false} CallingIsOneClient(rule: Rule, h: seq<Tool>, args: seq<map<string, string>>)
    requires |args| == |h|
    ensures OneClientRun(Calling(rule, h, args), rule)
  {
    if h != [] { CallingIsOneClient(rule, Front(h), Front(args)); }
  }

  // Every look carries the arguments of the call that is next then.
  ghost predicate InStep(t: Template, id: RunId, ops: seq<Op>, args: seq<map<string, string>>) {
    forall i :: 0 <= i < |ops| && ops[i].Look? ==>
      LooksNext(RunAt(t, Newcomer(t, id), ops, i).history, ops[i].g, args)
  }

  predicate LooksNext(history: seq<Tool>, g: Guarded, args: seq<map<string, string>>) {
    |history| < |args| && g.args == args[|history|]
  }

  lemma OneMoreInStep(t: Template, id: RunId, before: seq<Op>, g: Guarded, c: CallId, args: seq<map<string, string>>)
    requires args != [] && InStep(t, id, before, Front(args)) && LooksNext(History(t, id, before), g, args)
    ensures InStep(t, id, before + TurnOps(g, c), args)
  {
    var ops := before + TurnOps(g, c);
    forall i | 0 <= i < |ops| && ops[i].Look? ensures LooksNext(RunAt(t, Newcomer(t, id), ops, i).history, ops[i].g, args) {
      if i < |before| {
        assert ops[..i] == before[..i] && ops[i] == before[i];
        assert LooksNext(RunAt(t, Newcomer(t, id), before, i).history, before[i].g, Front(args));
      } else {
        assert i == |before| && ops[..i] == before;
      }
    }
  }

  lemma {:induction false} CallingIsInStep(t: Template, id: RunId, rule: Rule, h: seq<Tool>, args: seq<map<string, string>>)
    requires Blind(rule) && |args| == |h| && Roomy(t, h) && AllowedAll(t, rule, h, args)
    ensures InStep(t, id, Calling(rule, h, args), args)
  {
    if h != [] {
      var before, g := Calling(rule, Front(h), Front(args)), Guarded([rule], Last(h), Last(args), 0, 0);
      InFront(t, rule, h, args);
      CallingReaches(t, id, rule, Front(h), Front(args));
      CallingIsInStep(t, id, rule, Front(h), Front(args));
      OneMoreInStep(t, id, before, g, |h|, args);
    }
  }

  // ── Exactly ─────────────────────────────────────────────────────────────────

  // A client that registers the rule and calls with these arguments can reach a history
  // exactly when every call of it finds room and is one the rule allows on the calls
  // before it.
  lemma ReachableExactly(t: Template, id: RunId, rule: Rule, h: seq<Tool>, args: seq<map<string, string>>)
    requires Blind(rule) && |args| == |h|
    ensures CanReach(t, id, rule, h, args) <==> Roomy(t, h) && AllowedAll(t, rule, h, args)
  {
    if CanReach(t, id, rule, h, args) {
      var ops :| OneClientRun(ops, rule) && Carries(t, id, ops, args) && History(t, id, ops) == h;
      ReachedIsAllowed(t, id, rule, ops, args);
    }
    if Roomy(t, h) && AllowedAll(t, rule, h, args) {
      CallingReaches(t, id, rule, h, args);
      CallingIsOneClient(rule, h, args);
      CallingIsInStep(t, id, rule, h, args);
      assert Carries(t, id, Calling(rule, h, args), args);
    }
  }

  // ── Under each recommended rule ─────────────────────────────────────────────

  const NO_READ_AFTER_SECRETS := Rule("no_untrusted_read_after_secrets", NoUntrustedReadAfterSecrets)
  const CONFIRMED := Rule("no_destructive_without_confirmation", NoDestructiveWithoutConfirmation)
  const APPROVED := Rule("no_payment_without_prior_approval", NoPaymentWithoutPriorApproval)

  // No call with the second label comes after one with the first.
  ghost predicate NeverAfter(t: Template, h: seq<Tool>, first: string, second: string) {
    forall i, j :: 0 <= i < j < |h| && Labelled(t, h[i], first) ==> !Labelled(t, h[j], second)
  }

  // Every call with the label comes after a call of the tool.
  ghost predicate OnlyAfter(t: Template, h: seq<Tool>, tool: Tool, tag: string) {
    forall j :: 0 <= j < |h| && Labelled(t, h[j], tag) ==> exists i :: 0 <= i < j && h[i] == tool
  }

  lemma Facts(t: Template, h: seq<Tool>, j: nat, args: map<string, string>, tag: string)
    requires j < |h|
    ensures var ctx := Facing(t, h, j, args);
            && (PendingHas(ctx, tag) <==> Labelled(t, h[j], tag))
            && (AnyHas(ctx, tag) <==> exists i :: 0 <= i < j && Labelled(t, h[i], tag))
  {
    var ctx := Facing(t, h, j, args);
    assert forall i :: 0 <= i < j ==> ctx.history[i] == h[i];
  }

  lemma Happened(h: seq<Tool>, j: nat, tool: Tool)
    requires j <= |h|
    ensures tool in h[..j] <==> exists i :: 0 <= i < j && h[i] == tool
  {
    assert forall i :: 0 <= i < j ==> h[..j][i] == h[i];
  }

  lemma TaintedHistories(t: Template, id: RunId, h: seq<Tool>, args: seq<map<string, string>>)
    requires |args| == |h|
    ensures CanReach(t, id, TAINT, h, args) <==> Roomy(t, h) && NeverAfter(t, h, "reads_untrusted", "external_effect")
  {
    ReachableExactly(t, id, TAINT, h, args);
    forall j | 0 <= j < |h|
      ensures TAINT.allows(Facing(t, h, j, args[j]))
              <==> forall i :: 0 <= i < j && Labelled(t, h[i], "reads_untrusted") ==> !Labelled(t, h[j], "external_effect")
    {
      Facts(t, h, j, args[j], "external_effect");
      Facts(t, h, j, args[j], "reads_untrusted");
    }
  }

  lemma SecretHistories(t: Template, id: RunId, h: seq<Tool>, args: seq<map<string, string>>)
    requires |args| == |h|
    ensures CanReach(t, id, NO_READ_AFTER_SECRETS, h, args)
            <==> Roomy(t, h) && NeverAfter(t, h, "reads_sensitive", "reads_untrusted")
  {
    ReachableExactly(t, id, NO_READ_AFTER_SECRETS, h, args);
    forall j | 0 <= j < |h|
      ensures NO_READ_AFTER_SECRETS.allows(Facing(t, h, j, args[j]))
              <==> forall i :: 0 <= i < j && Labelled(t, h[i], "reads_sensitive") ==> !Labelled(t, h[j], "reads_untrusted")
    {
      Facts(t, h, j, args[j], "reads_untrusted");
      Facts(t, h, j, args[j], "reads_sensitive");
    }
  }

  lemma ConfirmedHistories(t: Template, id: RunId, h: seq<Tool>, args: seq<map<string, string>>)
    requires |args| == |h|
    ensures CanReach(t, id, CONFIRMED, h, args) <==> Roomy(t, h) && OnlyAfter(t, h, "confirm_destructive", "destructive")
  {
    ReachableExactly(t, id, CONFIRMED, h, args);
    forall j | 0 <= j < |h|
      ensures CONFIRMED.allows(Facing(t, h, j, args[j]))
              <==> (Labelled(t, h[j], "destructive") ==> exists i :: 0 <= i < j && h[i] == "confirm_destructive")
    {
      Facts(t, h, j, args[j], "destructive");
      Happened(h, j, "confirm_destructive");
    }
  }

  lemma ApprovedHistories(t: Template, id: RunId, h: seq<Tool>, args: seq<map<string, string>>)
    requires |args| == |h|
    ensures CanReach(t, id, APPROVED, h, args) <==> Roomy(t, h) && OnlyAfter(t, h, "request_approval", "moves_money")
  {
    ReachableExactly(t, id, APPROVED, h, args);
    forall j | 0 <= j < |h|
      ensures APPROVED.allows(Facing(t, h, j, args[j]))
              <==> (Labelled(t, h[j], "moves_money") ==> exists i :: 0 <= i < j && h[i] == "request_approval")
    {
      Facts(t, h, j, args[j], "moves_money");
      Happened(h, j, "request_approval");
    }
  }

  lemma OrderedHistories(t: Template, id: RunId, h: seq<Tool>, args: seq<map<string, string>>)
    requires |args| == |h|
    ensures CanReach(t, id, PREREQUISITE, h, args)
            <==> Roomy(t, h) && (forall j :: 0 <= j < |h| && Labelled(t, h[j], "destructive") ==>
                                   exists i :: 0 <= i < j && !Labelled(t, h[i], "destructive"))
  {
    ReachableExactly(t, id, PREREQUISITE, h, args);
    forall j | 0 <= j < |h|
      ensures PREREQUISITE.allows(Facing(t, h, j, args[j]))
              <==> (Labelled(t, h[j], "destructive") ==> exists i :: 0 <= i < j && !Labelled(t, h[i], "destructive"))
    {
      Facts(t, h, j, args[j], "destructive");
      assert forall i :: 0 <= i < j ==> Facing(t, h, j, args[j]).history[i] == h[i];
    }
  }

  lemma RepeatingHistories(t: Template, id: RunId, h: seq<Tool>, args: seq<map<string, string>>)
    requires |args| == |h|
    ensures CanReach(t, id, NO_REPEAT, h, args)
            <==> Roomy(t, h) && (forall j :: 0 < j < |h| && h[j - 1] == h[j] ==> args[j] != map[])
  {
    ReachableExactly(t, id, NO_REPEAT, h, args);
    forall j | 0 <= j < |h|
      ensures NO_REPEAT.allows(Facing(t, h, j, args[j])) <==> (0 < j && h[j - 1] == h[j] ==> args[j] != map[])
    {
      assert j > 0 ==> Last(h[..j]) == h[j - 1];
    }
  }

  // None of the first j calls is of the tool the rule takes for a denial.
  predicate Undenied(h: seq<Tool>, j: nat) {
    forall i :: 0 <= i < j && i < |h| ==> h[i] != "__denied__"
  }

  lemma UndeniedHistories(t: Template, id: RunId, h: seq<Tool>, args: seq<map<string, string>>)
    requires |args| == |h|
    ensures CanReach(t, id, PRIOR_DENIAL, h, args)
            <==> Roomy(t, h) && (h != [] ==> Undenied(h, |h| - 1))
  {
    ReachableExactly(t, id, PRIOR_DENIAL, h, args);
    forall j | 0 <= j < |h|
      ensures PRIOR_DENIAL.allows(Facing(t, h, j, args[j])) <==> Undenied(h, j)
    {
      Happened(h, j, "__denied__");
    }
  }
}
