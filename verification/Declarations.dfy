// Declared identity: over every interleaving, the rule, harness and app events of a run
// are exactly the declarations it let past its gate, in the order their sections ran,
// canonicalised, with immediate repeats removed. A governor names itself once, in the
// run it opens first.
module Declarations {
  import opened Text
  import opened Events
  import opened Policy
  import opened Runs
  import opened Replay
  import opened Calls
  import opened Governor

  // A canonical vector lists what was named once each, in order, so two declarations are
  // the same vector exactly when they name the same rules.
  lemma CanonicalRulesAreASet(a: seq<RuleDecl>, b: seq<RuleDecl>)
    ensures Increasing(DeclLe, Canonical(a)) && forall d :: d in Canonical(a) <==> d in Named(a)
    ensures Canonical(a) == Canonical(b) <==> (forall d :: d in Named(a) <==> d in Named(b))
  {
    DeclLeIsTotalOrder();
    CanonicalListing(DeclLe, Named(a), Named(b));
    SortKeepsMembers(DeclLe, Named(a));
    SortIsSorted(DeclLe, Named(a));
    DedupIncreases(DeclLe, Sort(DeclLe, Named(a)));
  }

  lemma {:induction false} NamedRules(rules: seq<RuleDecl>, d: RuleDecl)
    ensures d in Named(rules)
            <==> exists k :: 0 <= k < |rules| && Trim(rules[k].name) != "" && d == rules[k].(name := Trim(rules[k].name))
  {
    if rules != [] {
      NamedRules(rules[1..], d);
      if d in Named(rules[1..]) {
        var k :| 0 <= k < |rules[1..]| && Trim(rules[1..][k].name) != "" && d == rules[1..][k].(name := Trim(rules[1..][k].name));
        assert rules[k + 1] == rules[1..][k];
      }
      if k :| 0 < k < |rules| && Trim(rules[k].name) != "" && d == rules[k].(name := Trim(rules[k].name)) {
        assert rules[1..][k - 1] == rules[k];
      }
    }
  }

  // The attribution event a request asks for, if any.
  function Says(q: Request): Option<Event> {
    match q
    case ReportUsage(_, sent) => if sent.Some? then SaysHarness(sent.value.0, sent.value.1) else None
    case DeclareHarness(name, version) => SaysHarness(name, version)
    case DeclareRules(rules) => SaysRules(rules)
    case DeclareApp(appId, name) => SaysApp(appId, name)
    case _ => None
  }

  function SaysRules(rules: seq<RuleDecl>): Option<Event> {
    if Canonical(rules) == [] then None else Some(RulesDeclared(Canonical(rules)))
  }

  function SaysApp(appId: string, name: string): Option<Event> {
    if Trim(appId) == "" then None else Some(AppIdentified(Trim(appId), Trim(name)))
  }

  function SaysHarness(name: string, version: Option<string>): Option<Event> {
    if Trim(name) == "" then None else Some(HarnessIdentified(Trim(name), version))
  }

  function OfKind(e: Option<Event>, kind: Kind): seq<Event> {
    if e.Some? && KindOf(e.value) == Some(kind) then [e.value] else []
  }

  // What a section declares: the one a declaration is handled in does, whether or not
  // the run has stopped since its gate.
  function SaidBy(cell: Cell, a: Action, kind: Kind): seq<Event> {
    if a.Section? && a.c in cell.calls && cell.calls[a.c].Passed? then OfKind(Says(cell.calls[a.c].q), kind) else []
  }

  function AllSaid(t: Template, cell: Cell, actions: seq<Action>, kind: Kind): seq<Event> {
    if actions == [] then []
    else AllSaid(t, cell, Front(actions), kind) + SaidBy(Play(t, cell, Front(actions)), Last(actions), kind)
  }

  lemma {:induction false} NothingToDestutter<T>(s: seq<T>)
    requires NoStutter(s)
    ensures Destutter(s) == s
  {
    if s != [] {
      NothingToDestutter(Front(s));
      assert s == Front(s) + [Last(s)];
      if Front(s) != [] { assert Last(Front(s)) == s[|s| - 2]; }
    }
  }

  lemma DestutterOneMore<T>(s: seq<T>, x: T)
    ensures Destutter(s + [x]) == if Destutter(s) != [] && Last(Destutter(s)) == x then Destutter(s) else Destutter(s) + [x]
  {
    assert Front(s + [x]) == s && Last(s + [x]) == x;
  }

  // `after` is `before` with the slot of e's kind set to e.
  ghost predicate Marks(before: Attribution, after: Attribution, e: Event) {
    && KindOf(e).Some? && Current(after, KindOf(e).value) == [e]
    && forall other :: KindOf(e) != Some(other) ==> Current(after, other) == Current(before, other)
  }

  // A de-stuttered sequence ending in x takes no second x, and any other takes one.
  lemma DestutterClean(claims: seq<Event>, current: seq<Event>, e: Event)
    requires ClaimAgrees(claims, current)
    ensures Destutter(claims + [e]) == if current == [e] then claims else claims + [e]
  {
    NothingToDestutter(claims);
    DestutterOneMore(claims, e);
  }

  lemma RecordedClaims(r: Run, after: Attribution, e: Event, kind: Kind)
    ensures Claims(FullLog(Append(r.(marks := after), e)), kind) == Claims(FullLog(r), kind) + OfKind(Some(e), kind)
  {
    AppendExtends(r.(marks := after), e);
    ReadOneMore(FullLog(r), LoggedEvent(r.runId, r.nextSeq, e));
  }

  // A declaration recorded with its mark leaves the declarations de-stuttered.
  lemma MarkedClaims(r: Run, after: Attribution, e: Event, next: Run, kind: Kind)
    requires Consistent(r) && Marks(r.marks, after, e)
    requires next == if Current(r.marks, KindOf(e).value) == [e] then r else Append(r.(marks := after), e)
    ensures Claims(FullLog(next), kind) == Destutter(Claims(FullLog(r), kind) + OfKind(Some(e), kind))
  {
    var claims := Claims(FullLog(r), kind);
    RecordedClaims(r, after, e, kind);
    if KindOf(e) == Some(kind) {
      assert ClaimAgrees(claims, Current(r.marks, kind));
      DestutterClean(claims, Current(r.marks, kind), e);
    } else {
      NothingSaid(r, kind);
      assert claims + [] == claims;
    }
  }

  lemma HarnessMarks(m: Attribution, name: string, version: Option<string>)
    ensures Marks(m, m.(harness := Some((name, version))), HarnessIdentified(name, version))
    ensures Current(m, HarnessKind) == [HarnessIdentified(name, version)] <==> m.harness == Some((name, version))
  {
  }

  lemma RulesMarks(m: Attribution, rules: seq<RuleDecl>)
    ensures Marks(m, m.(rules := Some(rules)), RulesDeclared(rules))
    ensures Current(m, RulesKind) == [RulesDeclared(rules)] <==> m.rules == Some(rules)
  {
  }

  lemma AppMarks(m: Attribution, appId: string, name: string)
    ensures Marks(m, m.(app := Some((appId, name))), AppIdentified(appId, name))
    ensures Current(m, AppKind) == [AppIdentified(appId, name)] <==> m.app == Some((appId, name))
  {
  }

  lemma HarnessSaid(r: Run, name: string, version: Option<string>, kind: Kind)
    requires Consistent(r)
    ensures Claims(FullLog(RecordHarness(r, name, version)), kind)
            == Destutter(Claims(FullLog(r), kind) + OfKind(SaysHarness(name, version), kind))
  {
    var who := Trim(name);
    if who == "" {
      NothingSaid(r, kind);
    } else {
      HarnessMarks(r.marks, who, version);
      MarkedClaims(r, r.marks.(harness := Some((who, version))), HarnessIdentified(who, version), RecordHarness(r, name, version), kind);
    }
  }

  lemma NothingSaid(r: Run, kind: Kind)
    requires Consistent(r)
    ensures Claims(FullLog(r), kind) == Destutter(Claims(FullLog(r), kind) + [])
  {
    assert ClaimAgrees(Claims(FullLog(r), kind), Current(r.marks, kind));
    NothingToDestutter(Claims(FullLog(r), kind));
    assert Claims(FullLog(r), kind) + [] == Claims(FullLog(r), kind);
  }

  lemma UnmarkedClaims(r: Run, p: Run, e: Event, kind: Kind)
    requires FullLog(p) == FullLog(r) && KindOf(e).None?
    ensures Claims(FullLog(Append(p, e)), kind) == Claims(FullLog(r), kind)
  {
    AppendExtends(p, e);
    ReadOneMore(FullLog(r), LoggedEvent(p.runId, p.nextSeq, e));
  }

  lemma RulesSaid(r: Run, rules: seq<RuleDecl>, kind: Kind)
    requires Consistent(r)
    ensures Claims(FullLog(RecordRules(r, rules)), kind)
            == Destutter(Claims(FullLog(r), kind) + OfKind(SaysRules(rules), kind))
  {
    var c := Canonical(rules);
    if c == [] {
      NothingSaid(r, kind);
    } else {
      RulesMarks(r.marks, c);
      MarkedClaims(r, r.marks.(rules := Some(c)), RulesDeclared(c), RecordRules(r, rules), kind);
    }
  }

  lemma AppSaid(r: Run, appId: string, name: string, kind: Kind)
    requires Consistent(r)
    ensures Claims(FullLog(RecordApp(r, appId, name)), kind)
            == Destutter(Claims(FullLog(r), kind) + OfKind(SaysApp(appId, name), kind))
  {
    var id, who := Trim(appId), Trim(name);
    if id == "" {
      NothingSaid(r, kind);
    } else {
      AppMarks(r.marks, id, who);
      MarkedClaims(r, r.marks.(app := Some((id, who))), AppIdentified(id, who), RecordApp(r, appId, name), kind);
    }
  }

  lemma ExitSaysNothing(r: Run, kind: Kind)
    ensures Claims(FullLog(HandleExit(r)), kind) == Claims(FullLog(r), kind)
  {
    UnmarkedClaims(r, r, AgentScopeExited(""), kind);
    if r.scopes != [] { UnmarkedClaims(r, r.(scopes := Front(r.scopes)), AgentScopeExited(Last(r.scopes)), kind); }
  }

  lemma UsageSaysNothing(r: Run, usage: Usage, kind: Kind)
    ensures Claims(FullLog(RecordUsage(r, usage)), kind) == Claims(FullLog(r), kind)
  {
    UnmarkedClaims(r, r.(tokens := RecordUsage(r, usage).tokens), LlmUsageRecorded(usage), kind);
  }

  // Requests that declare nothing.
  lemma HandleSaysNothing(t: Template, r: Run, q: Request, kind: Kind)
    requires !q.CallTool? && !q.ReportUsage? && !q.DeclareHarness? && !q.DeclareRules? && !q.DeclareApp?
    ensures Claims(FullLog(Handle(t, r, q).0), kind) == Claims(FullLog(r), kind) && Says(q) == None
  {
    match q
    case EnterAgent(scope) => UnmarkedClaims(r, r.(scopes := r.scopes + [scope]), AgentScopeEntered(scope), kind);
    case ExitAgent => ExitSaysNothing(r, kind);
    case ReportStop(_, _, _, _) =>
      UnmarkedClaims(r, r, RuleDenied(q.stopTool, q.ruleName, q.clearedBy), kind);
    case _ =>
  }

  lemma UsageSaid(r: Run, usage: Usage, sent: Option<(string, Option<string>)>, kind: Kind)
    requires Consistent(r)
    ensures var told := if sent.Some? then RecordHarness(r, sent.value.0, sent.value.1) else r;
            Claims(FullLog(RecordUsage(told, usage)), kind)
            == Destutter(Claims(FullLog(r), kind) + OfKind(Says(ReportUsage(usage, sent)), kind))
  {
    if sent.Some? {
      HarnessSaid(r, sent.value.0, sent.value.1, kind);
      UsageSaysNothing(RecordHarness(r, sent.value.0, sent.value.1), usage, kind);
    } else {
      NothingSaid(r, kind);
      UsageSaysNothing(r, usage, kind);
    }
  }

  lemma HandleSaid(t: Template, r: Run, q: Request, kind: Kind)
    requires Consistent(r) && !q.CallTool?
    ensures Claims(FullLog(Handle(t, r, q).0), kind) == Destutter(Claims(FullLog(r), kind) + OfKind(Says(q), kind))
  {
    var next := Handle(t, r, q).0;
    match q
    case ReportUsage(usage, sent) => UsageSaid(r, usage, sent, kind);
    case DeclareHarness(name, version) =>
      assert next == RecordHarness(r, name, version);
      HarnessSaid(r, name, version, kind);
    case DeclareRules(rules) =>
      assert next == RecordRules(r, rules);
      RulesSaid(r, rules, kind);
    case DeclareApp(appId, name) =>
      assert next == RecordApp(r, appId, name);
      AppSaid(r, appId, name, kind);
    case _ =>
      NothingSaid(r, kind);
      HandleSaysNothing(t, r, q, kind);
  }

  lemma RefusalSaysNothing(r: Run, call: ToolCall, why: StopReason, kind: Kind)
    ensures Claims(FullLog(Refuse(r, call, why)), kind) == Claims(FullLog(r), kind)
  {
    match why
    case RuleFired(name) => UnmarkedClaims(r, r, RuleDenied(call.tool, name, call.clearedBy), kind);
    case ToolNotAllowed(_) => UnmarkedClaims(r, r, ToolDenied(call.tool), kind);
  }

  lemma CommitSaysNothing(t: Template, r: Run, call: ToolCall, outcome: Outcome, kind: Kind)
    ensures Claims(FullLog(Runs.Commit(t, r, call, outcome).0), kind) == Claims(FullLog(r), kind)
  {
    if outcome.Failed? {
      UnmarkedClaims(r, r, ToolFailed(call.tool, outcome.error), kind);
    } else {
      UnmarkedClaims(r, r.(counts := Bump(r.counts, call.tool), history := r.history + [call.tool]),
                     ToolAllowed(call.tool, call.clearedBy + CapRules(t.maxCalls, call.tool)), kind);
    }
  }

  lemma SilentSection(t: Template, cell: Cell, a: Action, kind: Kind)
    requires !a.Section?
    ensures Claims(FullLog(Act(t, cell, a).run), kind) == Claims(FullLog(cell.run), kind)
  {
    match a
    case Commit(c) =>
      if c in cell.calls {
        match cell.calls[c]
        case Ran(call, outcome) => CommitSaysNothing(t, cell.run, call, outcome, kind);
        case Refused(call, why) => RefusalSaysNothing(cell.run, call, why, kind);
        case _ =>
      }
    case Drain => assert FullLog(Take(cell.run)) == FullLog(cell.run);
    case CloseOut(reason) =>
      UnmarkedClaims(cell.run, cell.run, ExecutionStopped(CloseReason(cell.run, reason), cell.run.tokens), kind);
    case _ =>
  }

  lemma ActSaid(t: Template, cell: Cell, a: Action, kind: Kind)
    requires Consistent(cell.run)
    ensures Claims(FullLog(Act(t, cell, a).run), kind) == Destutter(Claims(FullLog(cell.run), kind) + SaidBy(cell, a, kind))
  {
    if a.Section? && a.c in cell.calls && cell.calls[a.c].Passed? && !cell.calls[a.c].q.CallTool? {
      HandleSaid(t, cell.run, cell.calls[a.c].q, kind);
    } else {
      NothingSaid(cell.run, kind);
      if !a.Section? { SilentSection(t, cell, a, kind); }
    }
  }

  lemma DestutterTwice<T>(s: seq<T>, more: seq<T>)
    requires |more| <= 1
    ensures Destutter(Destutter(s) + more) == Destutter(s + more)
  {
    DestutterIsClean(s);
    NothingToDestutter(Destutter(s));
    if more == [] {
      assert Destutter(s) + more == Destutter(s) && s + more == s;
    } else {
      assert more == [more[0]];
      DestutterOneMore(s, more[0]);
      DestutterOneMore(Destutter(s), more[0]);
    }
  }

  lemma {:induction false} DestutterIsClean<T>(s: seq<T>)
    ensures NoStutter(Destutter(s))
  {
    if s != [] { DestutterIsClean(Front(s)); }
  }

  lemma Rejoin<T>(start: seq<T>, said: seq<T>, more: seq<T>)
    requires |more| <= 1
    ensures Destutter(Destutter(start + said) + more) == Destutter(start + (said + more))
  {
    DestutterTwice(start + said, more);
    assert start + said + more == start + (said + more);
  }

  lemma OneMoreSaid(t: Template, cell: Cell, a: Action, kind: Kind, start: seq<Event>, said: seq<Event>)
    requires Consistent(cell.run) && Claims(FullLog(cell.run), kind) == Destutter(start + said)
    ensures Claims(FullLog(Act(t, cell, a).run), kind) == Destutter(start + (said + SaidBy(cell, a, kind)))
  {
    ActSaid(t, cell, a, kind);
    Rejoin(start, said, SaidBy(cell, a, kind));
  }

  // Over every interleaving of sections, those past the gate of a stopped run included.
  lemma {:induction false} LogHoldsDestutteredDeclarations(t: Template, cell: Cell, actions: seq<Action>, kind: Kind)
    requires Consistent(cell.run)
    ensures Claims(FullLog(Play(t, cell, actions).run), kind)
            == Destutter(Claims(FullLog(cell.run), kind) + AllSaid(t, cell, actions, kind))
  {
    if actions == [] {
      NothingSaid(cell.run, kind);
    } else {
      LogHoldsDestutteredDeclarations(t, cell, Front(actions), kind);
      PlayKeeps(t, cell, Front(actions));
      OneMoreSaid(t, Play(t, cell, Front(actions)), Last(actions), kind,
                  Claims(FullLog(cell.run), kind), AllSaid(t, cell, Front(actions), kind));
    }
  }

  // ── The governor's own name ─────────────────────────────────────────────────

  lemma SaysNoGovernor(q: Request)
    ensures OfKind(Says(q), GovernorKind) == []
  {
  }

  lemma {:induction false} NoRequestNamesAGovernor(t: Template, cell: Cell, actions: seq<Action>)
    ensures AllSaid(t, cell, actions, GovernorKind) == []
  {
    if actions != [] {
      NoRequestNamesAGovernor(t, cell, Front(actions));
      var before, a := Play(t, cell, Front(actions)), Last(actions);
      if a.Section? && a.c in before.calls && before.calls[a.c].Passed? { SaysNoGovernor(before.calls[a.c].q); }
    }
  }

  lemma FirstRunNamesTheGovernor(t: Template, primary: Option<RunId>, name: string, address: string, version: string)
    ensures Claims(FullLog(FirstRun(t, primary, name, address, version)), GovernorKind)
            == [GovernorIdentified(name, address, version)]
  {
    var start := if primary.Some? then Fresh(t, primary.value) else Placeholder(t, DEFAULT_RUN_ID);
    var e := GovernorIdentified(name, address, version);
    var p := start.(marks := start.marks.(governor := Some((name, address, version))));
    FreshNamesNobody(t, start.runId, GovernorKind);
    AppendExtends(p, e);
    ReadOneMore(FullLog(start), LoggedEvent(p.runId, p.nextSeq, e));
  }

  lemma FreshNamesNobody(t: Template, id: RunId, kind: Kind)
    ensures Claims(FullLog(Fresh(t, id)), kind) == [] == Claims(FullLog(Placeholder(t, id)), kind)
  {
    assert FullLog(Fresh(t, id)) == [LoggedEvent(id, 0, Started(t))] && Front(FullLog(Fresh(t, id))) == [];
    assert FullLog(Placeholder(t, id)) == [];
  }

  // Over every interleaving of every run's requests, the log of the run a governor opens
  // first names it exactly once, and no other log names one.
  lemma GovernorIsNamedOnce(t: Template, primary: Option<RunId>, name: string, address: string, version: string,
                            labels: seq<Label>, id: RunId)
    requires id in Exec(t, Boot(t, primary, name, address, version), labels)
    ensures Claims(FullLog(Exec(t, Boot(t, primary, name, address, version), labels)[id].run), GovernorKind)
            == if id in Boot(t, primary, name, address, version) then [GovernorIdentified(name, address, version)] else []
  {
    var cells := Boot(t, primary, name, address, version);
    var own, start := ActionsOf(labels, id, id in cells), CellFor(t, cells, id);
    RunProjection(t, cells, labels, id);
    EveryRunAgreesWithItsLog(t, primary, name, address, version, []);
    FreshIsConsistent(t, id);
    FreshNamesNobody(t, id, GovernorKind);
    FirstRunNamesTheGovernor(t, primary, name, address, version);
    LogHoldsDestutteredDeclarations(t, start, own, GovernorKind);
    NoRequestNamesAGovernor(t, start, own);
    NothingSaid(start.run, GovernorKind);
  }
}
