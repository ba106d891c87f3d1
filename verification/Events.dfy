// The audit log's vocabulary: execution events and the envelope they travel in.
module Events {
  import opened Text

  type RunId = string
  type Tool = string

  const U32_SIZE := 0x1_0000_0000
  const U64_SIZE := 0x1_0000_0000_0000_0000

  type u32 = n: int | 0 <= n < U32_SIZE
  type u64 = n: int | 0 <= n < U64_SIZE

  datatype RuleDecl = RuleDecl(name: string, version: Option<string>, pack: Option<string>)

  // The derived order on RuleDecl: field by field, an absent field first.
  predicate DeclLe(a: RuleDecl, b: RuleDecl) {
    if a.name != b.name then StrLe(a.name, b.name)
    else if a.version != b.version then OptLe(a.version, b.version)
    else OptLe(a.pack, b.pack)
  }

  lemma DeclLeIsTotalOrder()
    ensures TotalOrder(DeclLe)
  {
    StrLeIsTotalOrder();
    forall a, b ensures DeclLe(a, b) || DeclLe(b, a) {}
    forall a, b | DeclLe(a, b) && DeclLe(b, a) ensures a == b {}
    forall a, b, c | DeclLe(a, b) && DeclLe(b, c) ensures DeclLe(a, c) {
      assert a.name == b.name || b.name == c.name || StrLe(a.name, c.name);
      assert StrLe(a.name, c.name);
    }
  }

  datatype Event =
    | ExecutionStarted(command: string, allowedTools: seq<Tool>, toolLabels: map<Tool, seq<string>>,
                       configHash: string, runtimeVersion: string)
    | ToolAllowed(tool: Tool, clearedBy: seq<string>)
    | ToolDenied(tool: Tool)
    | RuleDenied(tool: Tool, ruleName: string, clearedBy: seq<string>)
    | ToolFailed(tool: Tool, error: string)
    | LlmUsageRecorded(usage: Usage)
    | HarnessIdentified(harness: string, harnessVersion: Option<string>)
    | AppIdentified(appId: string, appName: string)
    | GovernorIdentified(name: string, address: string, version: string)
    | RulesDeclared(rules: seq<RuleDecl>)
    | AgentScopeEntered(scope: string)
    | AgentScopeExited(scope: string)
    | ExecutionStopped(reason: string, tokensSpent: u64)

  datatype Usage = Usage(input: u64, output: u64, model: Option<string>, provider: Option<string>,
                         cacheRead: Option<u64>, cacheWrite: Option<u64>)

  // Every event is stamped with its run and its position in that run's stream.
  datatype LoggedEvent = LoggedEvent(runId: RunId, seqNo: nat, event: Event)

  type Log = seq<LoggedEvent>
}
