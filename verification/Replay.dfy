// What a log says about the run it belongs to, and the invariant that the run's
// counters, history, scope stack and attribution agree with it at every lock release.
module Replay {
  import opened Text
  import opened Events
  import opened Policy
  import opened Runs

  function Front<T>(s: seq<T>): seq<T>
    requires s != []
  {
    s[..|s| - 1]
  }

  function Last<T>(s: seq<T>): T
    requires s != []
  {
    s[|s| - 1]
  }

  // ── Readings of a log ───────────────────────────────────────────────────────

  function AllowedTools(log: Log): seq<Tool> {
    if log == [] then []
    else
      var e := Last(log).event;
      AllowedTools(Front(log)) + if e.ToolAllowed? then [e.tool] else []
  }

  function TokensReported(log: Log): nat {
    if log == [] then 0
    else
      TokensReported(Front(log)) + TokensOf(Last(log).event)
  }

  function TokensOf(e: Event): nat {
    if e.LlmUsageRecorded? then e.usage.input + e.usage.output else 0
  }

  function OpenScopes(log: Log): seq<string> {
    if log == [] then []
    else
      ScopesAfter(OpenScopes(Front(log)), Last(log).event)
  }

  function ScopesAfter(open: seq<string>, e: Event): seq<string> {
    match e
    case AgentScopeEntered(scope) => open + [scope]
    case AgentScopeExited(_) => if open == [] then [] else Front(open)
    case _ => open
  }

  function ClosedBy(open: seq<string>): string {
    if open == [] then "" else Last(open)
  }

  // Each exit names the scope it closed, or nothing when none was open.
  ghost predicate ExitsNameTheirScope(log: Log) {
    forall k :: 0 <= k < |log| && log[k].event.AgentScopeExited? ==>
      log[k].event.scope == ClosedBy(OpenScopes(log[..k]))
  }

  function Multiplicity(history: seq<Tool>, tool: Tool): nat {
    multiset(history)[tool]
  }

  // ── Attribution ─────────────────────────────────────────────────────────────

  datatype Kind = HarnessKind | RulesKind | AppKind | GovernorKind

  function KindOf(e: Event): Option<Kind> {
    match e
    case HarnessIdentified(_, _) => Some(HarnessKind)
    case RulesDeclared(_) => Some(RulesKind)
    case AppIdentified(_, _) => Some(AppKind)
    case GovernorIdentified(_, _, _) => Some(GovernorKind)
    case _ => None
  }

  // The attribution events of one kind, in order.
  function Claims(log: Log, kind: Kind): seq<Event> {
    if log == [] then []
    else Claims(Front(log), kind) + if KindOf(Last(log).event) == Some(kind) then [Last(log).event] else []
  }

  function Current(marks: Attribution, kind: Kind): seq<Event> {
    match kind
    case HarnessKind =>
      if marks.harness.Some? then [HarnessIdentified(marks.harness.value.0, marks.harness.value.1)] else []
    case RulesKind => if marks.rules.Some? then [RulesDeclared(marks.rules.value)] else []
    case AppKind => if marks.app.Some? then [AppIdentified(marks.app.value.0, marks.app.value.1)] else []
    case GovernorKind =>
      if marks.governor.Some?
      then [GovernorIdentified(marks.governor.value.0, marks.governor.value.1, marks.governor.value.2)] else []
  }

  // The sequence with immediate repeats removed.
  function Destutter<T(==)>(s: seq<T>): seq<T> {
    if s == [] then []
    else
      var front := Destutter(Front(s));
      if front != [] && Last(front) == Last(s) then front else front + [Last(s)]
  }

  predicate NoStutter<T(==)>(s: seq<T>) {
    forall k :: 0 < k < |s| ==> s[k - 1] != s[k]
  }

  // ── The invariant ───────────────────────────────────────────────────────────

  // The log carries the run's id and the sequence numbers 0, 1, …, |log| - 1.
  ghost predicate Numbered(id: RunId, log: Log) {
    forall k :: 0 <= k < |log| ==> log[k].runId == id && log[k].seqNo == k
  }

  ghost predicate CountAgrees(counts: map<Tool, u32>, history: seq<Tool>, tool: Tool) {
    && (tool in counts <==> tool in history)
    && Count(counts, tool) == Multiplicity(history, tool) % U32_SIZE
  }

  ghost predicate CountsAgree(counts: map<Tool, u32>, history: seq<Tool>) {
    forall tool :: CountAgrees(counts, history, tool)
  }

  ghost predicate ClaimAgrees(claims: seq<Event>, current: seq<Event>) {
    NoStutter(claims) && current == if claims == [] then [] else [Last(claims)]
  }

  ghost predicate ClaimsAgree(log: Log, marks: Attribution) {
    forall kind :: ClaimAgrees(Claims(log, kind), Current(marks, kind))
  }

  ghost predicate Consistent(r: Run) {
    var log := FullLog(r);
    && r.nextSeq == |log|
    && Numbered(r.runId, log)
    && r.history == AllowedTools(log)
    && CountsAgree(r.counts, r.history)
    && r.tokens == TokensReported(log) % U64_SIZE
    && r.scopes == OpenScopes(log)
    && ExitsNameTheirScope(log)
    && ClaimsAgree(log, r.marks)
  }

  // ── Every lock section keeps it ─────────────────────────────────────────────

  lemma AppendExtends(r: Run, e: Event)
    ensures FullLog(Append(r, e)) == FullLog(r) + [LoggedEvent(r.runId, r.nextSeq, e)]
  {
    assert FullLog(Append(r, e)) == FullLog(r) + [LoggedEvent(r.runId, r.nextSeq, e)];
  }

  lemma ReadOneMore(log: Log, x: LoggedEvent)
    ensures AllowedTools(log + [x]) == AllowedTools(log) + if x.event.ToolAllowed? then [x.event.tool] else []
    ensures TokensReported(log + [x]) == TokensReported(log) + TokensOf(x.event)
    ensures OpenScopes(log + [x]) == ScopesAfter(OpenScopes(log), x.event)
    ensures forall kind :: Claims(log + [x], kind)
                           == Claims(log, kind) + if KindOf(x.event) == Some(kind) then [x.event] else []
  {
    assert Front(log + [x]) == log && Last(log + [x]) == x;
  }

  lemma ExitsOneMore(log: Log, x: LoggedEvent)
    requires ExitsNameTheirScope(log)
    requires x.event.AgentScopeExited? ==> x.event.scope == ClosedBy(OpenScopes(log))
    ensures ExitsNameTheirScope(log + [x])
  {
    forall k | 0 <= k <= |log| && (log + [x])[k].event.AgentScopeExited?
      ensures (log + [x])[k].event.scope == ClosedBy(OpenScopes((log + [x])[..k]))
    {
      assert (log + [x])[..k] == log[..k];
      assert log[..|log|] == log;
    }
  }

  lemma OneMoreCall(history: seq<Tool>, called: Tool, tool: Tool)
    ensures Multiplicity(history + [called], tool) == Multiplicity(history, tool) + if tool == called then 1 else 0
  {
    assert multiset(history + [called]) == multiset(history) + multiset{called};
  }

  lemma CountsKeep(counts: map<Tool, u32>, history: seq<Tool>, called: Tool)
    requires CountsAgree(counts, history)
    ensures CountsAgree(Bump(counts, called), history + [called])
  {
    forall tool ensures CountAgrees(Bump(counts, called), history + [called], tool) {
      assert CountAgrees(counts, history, tool);
      OneMoreCall(history, called, tool);
    }
  }

  ghost predicate ClaimsMatch(before: Attribution, after: Attribution, e: Event) {
    forall kind :: if KindOf(e) == Some(kind)
                   then Current(after, kind) == [e] && Current(before, kind) != [e]
                   else Current(after, kind) == Current(before, kind)
  }

  lemma OneMoreClaim(claims: seq<Event>, current: seq<Event>, e: Event)
    requires ClaimAgrees(claims, current) && current != [e]
    ensures ClaimAgrees(claims + [e], [e])
  {
  }

  lemma ClaimsKeep(log: Log, before: Attribution, after: Attribution, x: LoggedEvent)
    requires ClaimsAgree(log, before) && ClaimsMatch(before, after, x.event)
    ensures ClaimsAgree(log + [x], after)
  {
    ReadOneMore(log, x);
    forall kind ensures ClaimAgrees(Claims(log + [x], kind), Current(after, kind)) {
      assert ClaimAgrees(Claims(log, kind), Current(before, kind));
      if KindOf(x.event) == Some(kind) {
        OneMoreClaim(Claims(log, kind), Current(before, kind), x.event);
      } else {
        assert Claims(log + [x], kind) == Claims(log, kind);
      }
    }
  }

  lemma WrapAdd(a: nat, b: nat)
    ensures (a % U64_SIZE + b) % U64_SIZE == (a + b) % U64_SIZE
  {
  }

  // `r` becomes `p` (fields other than the log change), then `e` is appended.
  // The clauses say how the changed fields must match the event.
  lemma AppendKeeps(r: Run, p: Run, e: Event)
    requires Consistent(r)
    requires p.runId == r.runId && p.nextSeq == r.nextSeq && p.buffer == r.buffer && p.drained == r.drained
    requires p.history == r.history + if e.ToolAllowed? then [e.tool] else []
    requires p.counts == if e.ToolAllowed? then Bump(r.counts, e.tool) else r.counts
    requires p.tokens == (r.tokens + TokensOf(e)) % U64_SIZE
    requires p.scopes == ScopesAfter(r.scopes, e)
    requires e.AgentScopeExited? ==> e.scope == ClosedBy(r.scopes)
    requires ClaimsMatch(r.marks, p.marks, e)
    ensures Consistent(Append(p, e))
  {
    var log, x := FullLog(r), LoggedEvent(p.runId, p.nextSeq, e);
    AppendExtends(p, e);
    ReadOneMore(log, x);
    ExitsOneMore(log, x);
    ClaimsKeep(log, r.marks, p.marks, x);
    WrapAdd(TokensReported(log), TokensOf(e));
    if e.ToolAllowed? { CountsKeep(r.counts, r.history, e.tool); }
    assert r.history + [] == r.history;
  }

  // Fields that no reading of the log mentions.
  lemma StoppingKeeps(r: Run, reason: string)
    requires Consistent(r)
    ensures Consistent(MarkStopped(r, reason))
  {
  }

  lemma TakeKeeps(r: Run)
    requires Consistent(r)
    ensures Consistent(Take(r)) && FullLog(Take(r)) == FullLog(r)
  {
    assert FullLog(Take(r)) == FullLog(r);
  }

  lemma FreshIsConsistent(t: Template, id: RunId)
    ensures Consistent(Fresh(t, id)) && Consistent(Placeholder(t, id))
  {
    var r := Fresh(t, id);
    assert FullLog(r) == [LoggedEvent(id, 0, Started(t))];
    assert Front(FullLog(r)) == [];
    assert FullLog(Placeholder(t, id)) == [];
  }

  lemma MarkingChangesNothing(r: Run, e: Event)
    requires KindOf(e).Some?
    ensures !e.ToolAllowed? && !e.AgentScopeExited?
    ensures r.history + [] == r.history && ScopesAfter(r.scopes, e) == r.scopes && (r.tokens + TokensOf(e)) % U64_SIZE == r.tokens
  {
  }

  lemma MarkKeeps(r: Run, after: Attribution, e: Event)
    requires Consistent(r)
    requires KindOf(e).Some? && ClaimsMatch(r.marks, after, e)
    ensures Consistent(Append(r.(marks := after), e))
  {
    var p := r.(marks := after);
    MarkingChangesNothing(r, e);
    AppendKeeps(r, p, e);
  }

  lemma HarnessMark(m: Attribution, name: string, version: Option<string>)
    requires m.harness != Some((name, version))
    ensures ClaimsMatch(m, m.(harness := Some((name, version))), HarnessIdentified(name, version))
  {
  }

  lemma HarnessKeeps(r: Run, name: string, version: Option<string>)
    requires Consistent(r)
    ensures Consistent(RecordHarness(r, name, version))
  {
    var who := Trim(name);
    if r.marks.harness != Some((who, version)) {
      HarnessMark(r.marks, who, version);
      MarkKeeps(r, r.marks.(harness := Some((who, version))), HarnessIdentified(who, version));
    }
  }

  lemma AppMark(m: Attribution, appId: string, name: string)
    requires m.app != Some((appId, name))
    ensures ClaimsMatch(m, m.(app := Some((appId, name))), AppIdentified(appId, name))
  {
  }

  lemma AppKeeps(r: Run, appId: string, name: string)
    requires Consistent(r)
    ensures Consistent(RecordApp(r, appId, name))
  {
    var id, who := Trim(appId), Trim(name);
    if r.marks.app != Some((id, who)) {
      AppMark(r.marks, id, who);
      MarkKeeps(r, r.marks.(app := Some((id, who))), AppIdentified(id, who));
    }
  }

  lemma GovernorMark(m: Attribution, name: string, address: string, version: string)
    requires m.governor != Some((name, address, version))
    ensures ClaimsMatch(m, m.(governor := Some((name, address, version))), GovernorIdentified(name, address, version))
  {
  }

  lemma GovernorKeeps(r: Run, name: string, address: string, version: string)
    requires Consistent(r)
    ensures Consistent(RecordGovernor(r, name, address, version))
  {
    if r.marks.governor != Some((name, address, version)) {
      GovernorMark(r.marks, name, address, version);
      MarkKeeps(r, r.marks.(governor := Some((name, address, version))), GovernorIdentified(name, address, version));
    }
  }

  lemma RulesMark(m: Attribution, rules: seq<RuleDecl>)
    requires m.rules != Some(rules)
    ensures ClaimsMatch(m, m.(rules := Some(rules)), RulesDeclared(rules))
  {
  }

  lemma RuleSetKeeps(r: Run, rules: seq<RuleDecl>)
    requires Consistent(r) && r.marks.rules != Some(rules)
    ensures Consistent(Append(r.(marks := r.marks.(rules := Some(rules))), RulesDeclared(rules)))
  {
    RulesMark(r.marks, rules);
    MarkKeeps(r, r.marks.(rules := Some(rules)), RulesDeclared(rules));
  }

  lemma RulesKeeps(r: Run, rules: seq<RuleDecl>)
    requires Consistent(r)
    ensures Consistent(RecordRules(r, rules))
  {
    if r.marks.rules != Some(Canonical(rules)) { RuleSetKeeps(r, Canonical(rules)); }
  }

  lemma UsageKeeps(r: Run, usage: Usage)
    requires Consistent(r)
    ensures var next := RecordUsage(r, usage);
            && Consistent(next) && next.tokens == (r.tokens + usage.input + usage.output) % U64_SIZE
            && ((usage.input + usage.output) % U64_SIZE != 0 ==>
                  FullLog(next) == FullLog(r) + [LoggedEvent(r.runId, r.nextSeq, LlmUsageRecorded(usage))])
  {
    var total := (usage.input + usage.output) % U64_SIZE;
    if total != 0 {
      var p := r.(tokens := (r.tokens + total) % U64_SIZE);
      assert p.tokens == (r.tokens + usage.input + usage.output) % U64_SIZE;
      AppendExtends(p, LlmUsageRecorded(usage));
      AppendKeeps(r, p, LlmUsageRecorded(usage));
    }
  }

  lemma StopKeeps(r: Run, q: Request)
    requires Consistent(r) && q.ReportStop?
    ensures Consistent(HandleStop(r, q))
  {
    AppendKeeps(r, r, RuleDenied(q.stopTool, q.ruleName, q.clearedBy));
    StoppingKeeps(Append(r, RuleDenied(q.stopTool, q.ruleName, q.clearedBy)), StopName(q.reason));
    StoppingKeeps(r, StopName(q.reason));
  }

  lemma EnterKeeps(r: Run, scope: string)
    requires Consistent(r)
    ensures Consistent(Append(r.(scopes := r.scopes + [scope]), AgentScopeEntered(scope)))
  {
    AppendKeeps(r, r.(scopes := r.scopes + [scope]), AgentScopeEntered(scope));
  }

  lemma ExitKeeps(r: Run)
    requires Consistent(r)
    ensures Consistent(HandleExit(r))
  {
    var p := if r.scopes == [] then r else r.(scopes := Front(r.scopes));
    AppendKeeps(r, p, AgentScopeExited(ClosedBy(r.scopes)));
  }

  lemma HandleKeeps(t: Template, r: Run, q: Request)
    requires Consistent(r) && !q.CallTool?
    ensures Consistent(Handle(t, r, q).0)
  {
    match q
    case EnterAgent(scope) => EnterKeeps(r, scope);
    case ExitAgent => ExitKeeps(r);
    case ReportUsage(usage, harness) =>
      if harness.Some? {
        HarnessKeeps(r, harness.value.0, harness.value.1);
        UsageKeeps(RecordHarness(r, harness.value.0, harness.value.1), usage);
      } else {
        UsageKeeps(r, usage);
      }
    case DeclareHarness(name, version) => HarnessKeeps(r, name, version);
    case DeclareRules(rules) => RulesKeeps(r, rules);
    case DeclareApp(appId, name) => AppKeeps(r, appId, name);
    case ReportStop(_, _, _, _) => StopKeeps(r, q);
    case _ =>
  }

  lemma RefuseKeeps(r: Run, call: ToolCall, why: StopReason)
    requires Consistent(r)
    ensures Consistent(Refuse(r, call, why))
  {
    var e := match why
      case RuleFired(name) => RuleDenied(call.tool, name, call.clearedBy)
      case ToolNotAllowed(_) => ToolDenied(call.tool);
    AppendKeeps(r, r, e);
    StoppingKeeps(Append(r, e), ReasonName(why));
  }

  lemma CommitKeeps(t: Template, r: Run, call: ToolCall, outcome: Outcome)
    requires Consistent(r)
    ensures var (next, reply) := Commit(t, r, call, outcome);
            && Consistent(next)
            && if outcome.Failed?
               then reply == ToolError(call.tool) && next.history == r.history
                    && FullLog(next) == FullLog(r) + [LoggedEvent(r.runId, r.nextSeq, ToolFailed(call.tool, outcome.error))]
               else reply.Allowed? && next.history == r.history + [call.tool]
  {
    if outcome.Failed? {
      AppendExtends(r, ToolFailed(call.tool, outcome.error));
      AppendKeeps(r, r, ToolFailed(call.tool, outcome.error));
    } else {
      var p := r.(counts := Bump(r.counts, call.tool), history := r.history + [call.tool]);
      AppendKeeps(r, p, ToolAllowed(call.tool, call.clearedBy + CapRules(t.maxCalls, call.tool)));
    }
  }

  lemma CloseKeeps(r: Run, reason: string)
    requires Consistent(r)
    ensures Consistent(Close(r, reason))
  {
    AppendKeeps(r, r, ExecutionStopped(CloseReason(r, reason), r.tokens));
  }

  lemma ServeKeeps(t: Template, r: Run, q: Request, outcome: Outcome)
    requires Consistent(r)
    ensures Consistent(Serve(t, r, q, outcome).0)
  {
    if Gated(q) && r.stopped.Some? {
    } else if q.CallTool? {
      match Decide(t, r, q.call.tool)
      case Deny(why) => RefuseKeeps(r, q.call, why);
      case Allow => CommitKeeps(t, r, q.call, outcome);
    } else {
      HandleKeeps(t, r, q);
    }
  }
}
