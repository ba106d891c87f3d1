// The policy contract and the two engine policies: the allowlist, then per-tool caps.
module Policy {
  import opened Text
  import opened Events

  datatype Context = Context(
    elapsedMs: u64,
    nowMs: u64,
    requestedTool: Option<Tool>,
    tokensSpent: u64,
    callCounts: map<Tool, u32>,
    history: seq<Tool>,
    labels: map<Tool, seq<string>>,
    lastToolArgs: map<string, string>)
  {
    predicate ToolHas(tool: Tool, tag: string) {
      tool in labels && tag in labels[tool]
    }
  }

  datatype StopReason = ToolNotAllowed(tool: Tool) | RuleFired(ruleName: string)

  datatype Decision = Allow | Deny(reason: StopReason)

  function ReasonName(reason: StopReason): string {
    match reason
    case ToolNotAllowed(_) => "ToolDenied"
    case RuleFired(_) => "RuleDenied"
  }

  function PermitTool(allowed: seq<Tool>, ctx: Context): Decision {
    match ctx.requestedTool
    case Some(tool) => if tool in allowed then Allow else Deny(ToolNotAllowed(tool))
    case None => Allow
  }

  function CapRuleName(tool: Tool): string {
    tool + ".max_calls"
  }

  // The engine rule governing `tool`, if any, as a list to append to `cleared_by`.
  function CapRules(maxCalls: map<Tool, u32>, tool: Tool): seq<string> {
    if tool in maxCalls then [CapRuleName(tool)] else []
  }

  function EnforceCaps(maxCalls: map<Tool, u32>, ctx: Context): Decision {
    match ctx.requestedTool
    case None => Allow
    case Some(tool) =>
      var soFar := if tool in ctx.callCounts then ctx.callCounts[tool] else 0;
      if tool in maxCalls && soFar >= maxCalls[tool] then Deny(RuleFired(CapRuleName(tool))) else Allow
  }

  // First denial wins.
  function Chain(first: Decision, second: Decision): Decision {
    if first.Allow? then second else first
  }
}
