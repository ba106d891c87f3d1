// A run told as a story: its log, how much of it has been drained, and its stop reason.
// Everything else a run holds can be read off its log, and so can what every request
// adds to it and what it is answered. The lock sections, with their counters, stacks and
// marks, are a faster form of that.
module Stories {
  import opened Text
  import opened Events
  import opened Policy
  import opened Runs
  import opened Replay
  import opened Calls
  import Stops

  datatype Story = Story(id: RunId, log: Log, taken: nat, stopped: Option<string>)

  function StoryOf(r: Run): Story {
    Story(r.runId, FullLog(r), |r.drained|, r.stopped)
  }

  // ── A run is its story ──────────────────────────────────────────────────────

  lemma MarksFollowClaims(a: Attribution, b: Attribution)
    requires forall kind :: Current(a, kind) == Current(b, kind)
    ensures a == b
  {
    assert Current(a, HarnessKind) == Current(b, HarnessKind) && Current(a, RulesKind) == Current(b, RulesKind);
    assert Current(a, AppKind) == Current(b, AppKind) && Current(a, GovernorKind) == Current(b, GovernorKind);
    if a.harness.Some? { assert Current(a, HarnessKind)[0] == Current(b, HarnessKind)[0]; }
    if a.rules.Some? { assert Current(a, RulesKind)[0] == Current(b, RulesKind)[0]; }
    if a.app.Some? { assert Current(a, AppKind)[0] == Current(b, AppKind)[0]; }
    if a.governor.Some? { assert Current(a, GovernorKind)[0] == Current(b, GovernorKind)[0]; }
  }

  // Two runs that agree with their logs and have the same story are the same run.
  lemma RunIsItsStory(a: Run, b: Run)
    requires Consistent(a) && Consistent(b) && StoryOf(a) == StoryOf(b)
    ensures a == b
  {
    assert a.drained == FullLog(a)[..|a.drained|] && a.buffer == FullLog(a)[|a.drained|..];
    assert b.drained == FullLog(b)[..|b.drained|] && b.buffer == FullLog(b)[|b.drained|..];
    Stops.CountsFollowHistory(a.counts, b.counts, a.history);
    forall kind ensures Current(a.marks, kind) == Current(b.marks, kind) {
      assert ClaimAgrees(Claims(FullLog(a), kind), Current(a.marks, kind));
      assert ClaimAgrees(Claims(FullLog(b), kind), Current(b.marks, kind));
    }
    MarksFollowClaims(a.marks, b.marks);
  }

  // ── What a request says ─────────────────────────────────────────────────────

  // Events to add, a reason to stop for, and the reply.
  datatype Answer = Answer(events: seq<Event>, stop: Option<string>, reply: Reply)

  // How often each tool was called.
  function Tally(log: Log): map<Tool, u32> {
    var calls := AllowedTools(log);
    map tool | tool in calls :: Multiplicity(calls, tool) % U32_SIZE
  }

  predicate Spent(t: Template, log: Log, tool: Tool) {
    tool in t.maxCalls && Multiplicity(AllowedTools(log), tool) % U32_SIZE >= t.maxCalls[tool]
  }

  // Why the call would be refused, if it would: an unknown tool before a spent cap.
  function Ruling(t: Template, log: Log, tool: Tool): Option<StopReason> {
    if tool !in t.allowedTools then Some(ToolNotAllowed(tool))
    else if Spent(t, log, tool) then Some(RuleFired(tool + ".max_calls"))
    else None
  }

  function Refusal(call: ToolCall, why: StopReason): Answer {
    match why
    case ToolNotAllowed(_) => Answer([ToolDenied(call.tool)], Some("ToolDenied"), Denied(why))
    case RuleFired(name) => Answer([RuleDenied(call.tool, name, call.clearedBy)], Some("RuleDenied"), Denied(why))
  }

  function Outcomes(t: Template, call: ToolCall, outcome: Outcome): Answer {
    var cleared := call.clearedBy + if call.tool in t.maxCalls then [call.tool + ".max_calls"] else [];
    match outcome
    case NotRegistered => Answer([ToolAllowed(call.tool, cleared)], None, Allowed(""))
    case Output(content) => Answer([ToolAllowed(call.tool, cleared)], None, Allowed(content))
    case Failed(error) => Answer([ToolFailed(call.tool, error)], None, ToolError(call.tool))
  }

  // A declaration is told when it is not the last one of its kind again.
  function News(log: Log, kind: Kind, e: Event): seq<Event> {
    var claims := Claims(log, kind);
    if claims != [] && Last(claims) == e then [] else [e]
  }

  function HarnessNews(log: Log, name: string, version: Option<string>): seq<Event> {
    if Trim(name) == "" then [] else News(log, HarnessKind, HarnessIdentified(Trim(name), version))
  }

  function UsageNews(usage: Usage): seq<Event> {
    if (usage.input + usage.output) % U64_SIZE == 0 then [] else [LlmUsageRecorded(usage)]
  }

  function StopAnswer(raw: string, tool: string, rule: string, clearedBy: seq<string>): Answer {
    var known := raw == "RuleDenied" || raw == "ToolDenied" || raw == "AgentCompleted" || raw == "ManualStop"
                 || raw == "ToolFailed";
    Answer(if raw == "RuleDenied" && tool != "" && rule != "" then [RuleDenied(tool, rule, clearedBy)] else [],
           Some(if known then raw else "ProcessCrashed"), Ok)
  }

  // The engine's own rule asked about one tool, on counts sent along or on the log's.
  function VerdictOn(t: Template, log: Log, tool: Option<Tool>, counts: map<Tool, u32>): Decision {
    if tool.None? || tool.value !in t.maxCalls then Allow
    else
      var soFar := if counts == map[] then Multiplicity(AllowedTools(log), tool.value) % U32_SIZE
                   else if tool.value in counts then counts[tool.value] else 0;
      if soFar < t.maxCalls[tool.value] then Allow else Deny(RuleFired(tool.value + ".max_calls"))
  }

  // Everything but a tool call.
  function Said(t: Template, s: Story, q: Request): Answer
    requires !q.CallTool?
  {
    match q
    case EvaluateRule(tool, counts) => Answer([], None, Verdict(VerdictOn(t, s.log, tool, counts)))
    case EnterAgent(scope) => Answer([AgentScopeEntered(scope)], None, Ok)
    case ExitAgent => Answer([AgentScopeExited(ClosedBy(OpenScopes(s.log)))], None, Ok)
    case ReportUsage(usage, harness) =>
      Answer((if harness.Some? then HarnessNews(s.log, harness.value.0, harness.value.1) else []) + UsageNews(usage), None, Ok)
    case DeclareHarness(name, version) =>
      Answer(HarnessNews(s.log, name, version), None, if Trim(name) == "" then BadRequest else Ok)
    case DeclareRules(rules) =>
      Answer(if Canonical(rules) == [] then [] else News(s.log, RulesKind, RulesDeclared(Canonical(rules))), None, Ok)
    case DeclareApp(appId, name) =>
      if Trim(appId) == "" then Answer([], None, BadRequest)
      else Answer(News(s.log, AppKind, AppIdentified(Trim(appId), Trim(name))), None, Ok)
    case ReportStop(raw, tool, rule, clearedBy) => StopAnswer(raw, tool, rule, clearedBy)
    case GetStatus =>
      Answer([], None, Status(s.stopped, TokensReported(s.log) % U64_SIZE, Tally(s.log), AllowedTools(s.log), t.toolLabels))
    case GetHealth => Answer([], None, Health(s.stopped.None?))
    case GetEvents => Answer([], None, Lines(if s.taken <= |s.log| then s.log[s.taken..] else []))
    case Malformed => Answer([], None, BadRequest)
  }

  function Stamped(id: RunId, from: nat, events: seq<Event>): (log: Log)
    ensures |log| == |events| && forall k :: 0 <= k < |log| ==> log[k] == LoggedEvent(id, from + k, events[k])
  {
    seq(|events|, k requires 0 <= k < |events| => LoggedEvent(id, from + k, events[k]))
  }

  // The story goes on; a reason once given stays.
  function Tell(s: Story, a: Answer): Story {
    s.(log := s.log + Stamped(s.id, |s.log|, a.events), stopped := if s.stopped.Some? then s.stopped else a.stop)
  }

  // The requests a stopped run still answers.
  predicate AnswersStopped(q: Request) {
    q.ReportStop? || q.ExitAgent? || q.GetStatus? || q.GetHealth? || q.GetEvents?
  }

  function Answered(t: Template, s: Story, q: Request, outcome: Outcome): Answer {
    if s.stopped.Some? && !AnswersStopped(q) then Answer([], None, Gone(s.stopped.value))
    else if !q.CallTool? then Said(t, s, q)
    else
      var why := Ruling(t, s.log, q.call.tool);
      if why.Some? then Refusal(q.call, why.value) else Outcomes(t, q.call, outcome)
  }

  // ── Every section tells its story ───────────────────────────────────────────

  // r became next by adding these events, and stopping if there is a reason to.
  ghost predicate Tells(r: Run, next: Run, a: Answer) {
    StoryOf(next) == Tell(StoryOf(r), a)
  }

  lemma NothingTold(r: Run, reply: Reply)
    ensures Tells(r, r, Answer([], None, reply))
  {
    assert FullLog(r) + [] == FullLog(r);
  }

  lemma OneTold(r: Run, p: Run, e: Event, stop: Option<string>, reply: Reply)
    requires Consistent(r) && p.runId == r.runId && p.nextSeq == r.nextSeq && FullLog(p) == FullLog(r)
    requires p.drained == r.drained && p.stopped == r.stopped
    ensures Tells(r, if stop.Some? then MarkStopped(Append(p, e), stop.value) else Append(p, e), Answer([e], stop, reply))
  {
    AppendExtends(p, e);
    assert Stamped(r.runId, |FullLog(r)|, [e]) == [LoggedEvent(r.runId, r.nextSeq, e)];
  }

  lemma ToldInTurn(r: Run, mid: Run, next: Run, first: seq<Event>, second: seq<Event>, reply: Reply)
    requires Tells(r, mid, Answer(first, None, reply)) && Tells(mid, next, Answer(second, None, reply))
    ensures Tells(r, next, Answer(first + second, None, reply))
  {
    var n := |FullLog(r)|;
    var log := FullLog(r) + Stamped(r.runId, n, first + second);
    assert Stamped(r.runId, n, first + second) == Stamped(r.runId, n, first) + Stamped(r.runId, n + |first|, second);
    assert log == FullLog(r) + Stamped(r.runId, n, first) + Stamped(r.runId, n + |first|, second);
  }

  lemma TallyIsCounts(r: Run)
    requires Consistent(r)
    ensures Tally(FullLog(r)) == r.counts
    ensures forall tool :: Count(r.counts, tool) == Multiplicity(AllowedTools(FullLog(r)), tool) % U32_SIZE
  {
    forall tool
      ensures (tool in Tally(FullLog(r)) <==> tool in r.counts) && (tool in r.counts ==> Tally(FullLog(r))[tool] == r.counts[tool])
      ensures Count(r.counts, tool) == Multiplicity(AllowedTools(FullLog(r)), tool) % U32_SIZE
    {
      assert CountAgrees(r.counts, r.history, tool);
    }
  }

  lemma NewsOfMarks(r: Run, kind: Kind, e: Event)
    requires Consistent(r)
    ensures News(FullLog(r), kind, e) == if Current(r.marks, kind) == [e] then [] else [e]
  {
    assert ClaimAgrees(Claims(FullLog(r), kind), Current(r.marks, kind));
  }

  lemma HarnessTells(r: Run, name: string, version: Option<string>, reply: Reply)
    requires Consistent(r)
    ensures Tells(r, RecordHarness(r, name, version), Answer(HarnessNews(FullLog(r), name, version), None, reply))
  {
    var who := (Trim(name), version);
    NewsOfMarks(r, HarnessKind, HarnessIdentified(who.0, who.1));
    NothingTold(r, reply);
    OneTold(r, r.(marks := r.marks.(harness := Some(who))), HarnessIdentified(who.0, who.1), None, reply);
  }

  lemma AppTells(r: Run, appId: string, name: string)
    requires Consistent(r) && Trim(appId) != ""
    ensures Tells(r, RecordApp(r, appId, name),
                  Answer(News(FullLog(r), AppKind, AppIdentified(Trim(appId), Trim(name))), None, Ok))
  {
    var who := (Trim(appId), Trim(name));
    NewsOfMarks(r, AppKind, AppIdentified(who.0, who.1));
    NothingTold(r, Ok);
    OneTold(r, r.(marks := r.marks.(app := Some(who))), AppIdentified(who.0, who.1), None, Ok);
  }

  lemma RulesTell(r: Run, rules: seq<RuleDecl>)
    requires Consistent(r)
    ensures var c := Canonical(rules);
            Tells(r, RecordRules(r, rules), Answer(if c == [] then [] else News(FullLog(r), RulesKind, RulesDeclared(c)), None, Ok))
  {
    var c := Canonical(rules);
    NewsOfMarks(r, RulesKind, RulesDeclared(c));
    NothingTold(r, Ok);
    OneTold(r, r.(marks := r.marks.(rules := Some(c))), RulesDeclared(c), None, Ok);
  }

  lemma UsageTells(r: Run, usage: Usage)
    requires Consistent(r)
    ensures Tells(r, RecordUsage(r, usage), Answer(UsageNews(usage), None, Ok))
  {
    NothingTold(r, Ok);
    OneTold(r, r.(tokens := RecordUsage(r, usage).tokens), LlmUsageRecorded(usage), None, Ok);
  }

  lemma StopTells(r: Run, q: Request)
    requires Consistent(r) && q.ReportStop?
    ensures Tells(r, HandleStop(r, q), StopAnswer(q.reason, q.stopTool, q.ruleName, q.clearedBy))
  {
    var a := StopAnswer(q.reason, q.stopTool, q.ruleName, q.clearedBy);
    NothingTold(r, Ok);
    OneTold(r, r, RuleDenied(q.stopTool, q.ruleName, q.clearedBy), a.stop, Ok);
  }

  lemma ExitTells(r: Run)
    requires Consistent(r)
    ensures Tells(r, HandleExit(r), Answer([AgentScopeExited(ClosedBy(OpenScopes(FullLog(r))))], None, Ok))
  {
    var p := if r.scopes == [] then r else r.(scopes := Front(r.scopes));
    OneTold(r, p, AgentScopeExited(ClosedBy(r.scopes)), None, Ok);
  }

  lemma UsageReportTells(r: Run, usage: Usage, harness: Option<(string, Option<string>)>)
    requires Consistent(r)
    ensures var told := if harness.Some? then RecordHarness(r, harness.value.0, harness.value.1) else r;
            var news := if harness.Some? then HarnessNews(FullLog(r), harness.value.0, harness.value.1) else [];
            Tells(r, RecordUsage(told, usage), Answer(news + UsageNews(usage), None, Ok))
  {
    if harness.Some? {
      HarnessTells(r, harness.value.0, harness.value.1, Ok);
      HarnessKeeps(r, harness.value.0, harness.value.1);
      var told := RecordHarness(r, harness.value.0, harness.value.1);
      UsageTells(told, usage);
      ToldInTurn(r, told, RecordUsage(told, usage), HarnessNews(FullLog(r), harness.value.0, harness.value.1), UsageNews(usage), Ok);
    } else {
      UsageTells(r, usage);
      assert [] + UsageNews(usage) == UsageNews(usage);
    }
  }

  lemma HandleTells(t: Template, r: Run, q: Request)
    requires Consistent(r) && !q.CallTool?
    ensures var (next, reply) := Handle(t, r, q);
            Tells(r, next, Said(t, StoryOf(r), q)) && reply == Said(t, StoryOf(r), q).reply
  {
    NothingTold(r, Said(t, StoryOf(r), q).reply);
    match q
    case EvaluateRule(_, _) => TallyIsCounts(r);
    case EnterAgent(scope) => OneTold(r, r.(scopes := r.scopes + [scope]), AgentScopeEntered(scope), None, Ok);
    case ExitAgent => ExitTells(r);
    case ReportUsage(usage, harness) => UsageReportTells(r, usage, harness);
    case DeclareHarness(name, version) => HarnessTells(r, name, version, Ok);
    case DeclareRules(rules) => RulesTell(r, rules);
    case DeclareApp(appId, name) => if Trim(appId) != "" { AppTells(r, appId, name); }
    case ReportStop(_, _, _, _) => StopTells(r, q);
    case GetStatus => TallyIsCounts(r);
    case GetHealth =>
    case GetEvents => assert FullLog(r)[|r.drained|..] == r.buffer;
    case Malformed =>
  }

  lemma DecideRules(t: Template, r: Run, tool: Tool)
    requires Consistent(r)
    ensures Decide(t, r, tool) == match Ruling(t, FullLog(r), tool) case None => Allow case Some(why) => Deny(why)
  {
    TallyIsCounts(r);
    assert Count(r.counts, tool) == Multiplicity(AllowedTools(FullLog(r)), tool) % U32_SIZE;
  }

  lemma RefuseTells(r: Run, call: ToolCall, why: StopReason)
    requires Consistent(r)
    ensures Tells(r, Refuse(r, call, why), Refusal(call, why))
  {
    var a := Refusal(call, why);
    OneTold(r, r, a.events[0], a.stop, a.reply);
  }

  lemma CommitTells(t: Template, r: Run, call: ToolCall, outcome: Outcome)
    requires Consistent(r)
    ensures var (next, reply) := Runs.Commit(t, r, call, outcome);
            Tells(r, next, Outcomes(t, call, outcome)) && reply == Outcomes(t, call, outcome).reply
  {
    var a := Outcomes(t, call, outcome);
    if outcome.Failed? {
      OneTold(r, r, a.events[0], None, a.reply);
    } else {
      OneTold(r, r.(counts := Bump(r.counts, call.tool), history := r.history + [call.tool]), a.events[0], None, a.reply);
    }
  }

  // A whole request: what it adds to the log, whether it stops the run and what it is
  // answered are read off the log.
  lemma ServeTells(t: Template, r: Run, q: Request, outcome: Outcome)
    requires Consistent(r)
    ensures var (next, reply) := Serve(t, r, q, outcome);
            var a := Answered(t, StoryOf(r), q, outcome);
            Tells(r, next, a) && reply == a.reply && Consistent(next)
  {
    ServeKeeps(t, r, q, outcome);
    NothingTold(r, Answered(t, StoryOf(r), q, outcome).reply);
    if q.CallTool? {
      DecideRules(t, r, q.call.tool);
      CommitTells(t, r, q.call, outcome);
      var why := Ruling(t, FullLog(r), q.call.tool);
      if why.Some? { RefuseTells(r, q.call, why.value); }
    } else {
      HandleTells(t, r, q);
    }
  }

  // ── Interleaved requests ────────────────────────────────────────────────────

  datatype Tale = Tale(story: Story, calls: map<CallId, Phase>)

  function TaleOf(cell: Cell): Tale {
    Tale(StoryOf(cell.run), cell.calls)
  }

  function Now(x: Tale, a: Answer, c: CallId, phase: Phase): Tale {
    Tale(Tell(x.story, a), x.calls[c := phase])
  }

  function Silent(): Answer {
    Answer([], None, Ok)
  }

  function Reached(x: Tale, c: CallId): Option<Phase> {
    if c in x.calls then Some(x.calls[c]) else None
  }

  // A request waits at the gate if a stopped run would not answer it; a tool call is
  // ruled on, runs with no lock held, and is told of when it is over.
  function Happens(t: Template, x: Tale, a: Action): Tale {
    match a
    case Begin(c, q) =>
      if Reached(x, c).Some? then x else Now(x, Silent(), c, if AnswersStopped(q) then Passed(q) else Waiting(q))
    case Gate(c) =>
      (match Reached(x, c)
       case Some(Waiting(q)) =>
         Now(x, Silent(), c, if x.story.stopped.Some? then Phase.Answered(Gone(x.story.stopped.value)) else Passed(q))
       case _ => x)
    case Section(c) =>
      (match Reached(x, c)
       case Some(Passed(CallTool(call))) =>
         var why := Ruling(t, x.story.log, call.tool);
         Now(x, Silent(), c, if why.Some? then Refused(call, why.value) else Cleared(call))
       case Some(Passed(q)) => Now(x, Said(t, x.story, q), c, Phase.Answered(Said(t, x.story, q).reply))
       case _ => x)
    case Execute(c, outcome) =>
      (match Reached(x, c)
       case Some(Cleared(call)) => Now(x, Silent(), c, Ran(call, outcome))
       case _ => x)
    case Commit(c) =>
      (match Reached(x, c)
       case Some(Ran(call, outcome)) =>
         Now(x, Outcomes(t, call, outcome), c, Phase.Answered(Outcomes(t, call, outcome).reply))
       case Some(Refused(call, why)) => Now(x, Refusal(call, why), c, Phase.Answered(Denied(why)))
       case _ => x)
    case Drain => x.(story := x.story.(taken := |x.story.log|))
    case CloseOut(reason) =>
      x.(story := Tell(x.story, Answer([ExecutionStopped(if x.story.stopped.Some? then x.story.stopped.value else reason,
                                                         TokensReported(x.story.log) % U64_SIZE)], None, Ok)))
  }

  function HappensAll(t: Template, x: Tale, actions: seq<Action>): Tale {
    if actions == [] then x else Happens(t, HappensAll(t, x, Front(actions)), Last(actions))
  }

  lemma SilentChangesNothing(cell: Cell, c: CallId, p: Phase)
    ensures TaleOf(Put(cell, cell.run, c, p)) == Now(TaleOf(cell), Silent(), c, p)
  {
    NothingTold(cell.run, Ok);
  }

  lemma SectionHappens(t: Template, cell: Cell, c: CallId)
    requires Consistent(cell.run) && c in cell.calls && cell.calls[c].Passed?
    ensures TaleOf(Act(t, cell, Section(c))) == Happens(t, TaleOf(cell), Section(c))
  {
    var q := cell.calls[c].q;
    if q.CallTool? {
      DecideRules(t, cell.run, q.call.tool);
      SilentChangesNothing(cell, c, Act(t, cell, Section(c)).calls[c]);
    } else {
      HandleTells(t, cell.run, q);
    }
  }

  lemma CommitHappens(t: Template, cell: Cell, c: CallId)
    requires Consistent(cell.run) && c in cell.calls
    ensures TaleOf(Act(t, cell, Action.Commit(c))) == Happens(t, TaleOf(cell), Action.Commit(c))
  {
    match cell.calls[c]
    case Ran(call, outcome) => CommitTells(t, cell.run, call, outcome);
    case Refused(call, why) => RefuseTells(cell.run, call, why);
    case _ =>
  }

  lemma ActHappens(t: Template, cell: Cell, a: Action)
    requires Consistent(cell.run)
    ensures TaleOf(Act(t, cell, a)) == Happens(t, TaleOf(cell), a)
  {
    match a
    case Begin(c, q) => SilentChangesNothing(cell, c, if Gated(q) then Waiting(q) else Passed(q));
    case Gate(c) => if c in cell.calls { SilentChangesNothing(cell, c, Act(t, cell, a).calls[c]); }
    case Section(c) => if c in cell.calls && cell.calls[c].Passed? { SectionHappens(t, cell, c); }
    case Execute(c, _) => if c in cell.calls { SilentChangesNothing(cell, c, Act(t, cell, a).calls[c]); }
    case Commit(c) => if c in cell.calls { CommitHappens(t, cell, c); }
    case Drain => assert FullLog(Take(cell.run)) == FullLog(cell.run);
    case CloseOut(reason) =>
      OneTold(cell.run, cell.run, ExecutionStopped(CloseReason(cell.run, reason), cell.run.tokens), None, Ok);
  }

  // Over every interleaving: the run's log, its stop, every reply and, with them, every
  // field are those of the story told by the same sections.
  lemma {:induction false} PlayIsTold(t: Template, cell: Cell, actions: seq<Action>)
    requires Consistent(cell.run)
    ensures TaleOf(Play(t, cell, actions)) == HappensAll(t, TaleOf(cell), actions)
    ensures forall other: Cell | Consistent(other.run) && TaleOf(other) == HappensAll(t, TaleOf(cell), actions) ::
              other == Play(t, cell, actions)
  {
    PlayKeeps(t, cell, actions);
    if actions != [] {
      PlayIsTold(t, cell, Front(actions));
      PlayKeeps(t, cell, Front(actions));
      ActHappens(t, Play(t, cell, Front(actions)), Last(actions));
    }
    forall other: Cell | Consistent(other.run) && TaleOf(other) == HappensAll(t, TaleOf(cell), actions)
      ensures other == Play(t, cell, actions)
    {
      RunIsItsStory(other.run, Play(t, cell, actions).run);
    }
  }
}
