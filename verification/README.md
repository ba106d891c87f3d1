# The governor, verified

A Dafny model of Nanny's governor: the per-run enforcement state machine behind
`/tool/call`, `/stop` and the other endpoints, the interleaving of many runs and many
requests, the shutdown handshake with the CLI, the SDK rule loop composed with all of
it, the delivery of events to the cloud, and five smaller cores (rate limiting, first
contact, run scopes, session tokens, pack digests).

Check the whole project with `dafny verify dfyconfig.toml`.

## How it is laid out

| file | what it holds |
|---|---|
| `Text.dfy`, `Utf8.dfy` | trimming, byte order of strings, the sort, UTF-8 |
| `Events.dfy`, `Policy.dfy`, `Runs.dfy` | events, policies, one run as a value and what every lock section does to it |
| `Replay.dfy` | the invariant: counters, history, tokens, scopes and attribution agree with the log |
| `Stories.dfy`, `Effects.dfy` | a run as its log and its stop: what every request adds and answers, read off the log; usage and outcomes spelled out |
| `Bridge.dfy` | the same sections as methods that update one run's fields in place, and the map of runs |
| `Calls.dfy`, `Caps.dfy`, `Stops.dfy` | requests split into lock sections; the call cap under overlap; a stop is final |
| `Governor.dfy` | many runs, and why each is what its own requests make of it |
| `Shutdown.dfy`, `Endings.dfy` | the drain thread, the CLI and requests, interleaved; how it ends, told by its moves alone |
| `Sdk.dfy`, `Looks.dfy`, `Turns.dfy`, `Fleet.dfy` | rules evaluated by the client and enforced over every interleaving; what they saw of each call; one call from status to count; many runs with a client each |
| `Packs.dfy`, `Reachable.dfy` | the recommended packs; exactly which histories a rule leaves reachable |
| `Declarations.dfy` | declared identity as de-stuttered canonical sets |
| `Outbox.dfy`, `Drains.dfy`, `Fates.dfy`, `FileNames.dfy` | sending, the durable outbox, the forwarder; what becomes of each held batch and of each new one; the order of held files |
| `Pipeline.dfy` | a shutdown and its forwarder together: where every event ends up |
| `RateLimit.dfy`, `FirstContact.dfy`, `Scopes.dfy`, `Tokens.dfy` | the smaller cores |
| `Digest.dfy`, `Twins.dfy` | the stream a pack's digest is taken over; which packs share theirs |

Each operation appears twice: as a function on values, of which the properties are
proved, and, where the source updates state in place or loops, as a method whose
contract ties the new state to that function. What a whole request or interleaving does is
also stated without those functions: by the log (`Stories`), the cloud's answers (`Drains`),
the moves made (`Endings`) or the looks taken (`Looks`).

## How to read it

- A run keeps a specification-only `drained` log beside its buffer, so that "the whole
  log" can be spoken of after the drain thread has taken part of it away.
- A request is a gate, then one lock section; a tool call is gate, decide, execute (no
  lock held) and commit. Actions and moves are total: one that is not enabled changes
  nothing, so every sequence of them is an execution.
- `u32` call counts and `u64` token totals wrap, as a release build does. `next_seq` and
  positions in a log are unbounded.
- `registry.call`, the cloud's answers, the order a directory lists its entries, the
  outcomes of connection attempts and how long things take are parameters.

## Where the code and its words differ

Each comes with the condition under which the words do hold.

- `max_calls` is not a hard ceiling. With calls overlapping between decision and commit
  it is passed by up to the overlap less one, and that is reached; it holds exactly when
  the overlap is one (`Caps.CapIffNoOverlap`), as it is for one client
  (`Sdk.OneClientOverlapsOne`).
- The rate limiter is documented as a sliding window of so many requests a second. It is
  a window that opens at a request. One second can see twice the limit less one, and a
  limit of zero lets requests through; the documented rate holds exactly when it is one
  (`RateLimit.DocumentedRateHolds`).
- The outbox ceiling counts the incoming body and not its session line. It holds after a
  store exactly when the session line fits too (`Outbox.CeilingHolds`), and every batch
  meets an outbox it takes past it (`Outbox.CapIsPassedByTheSessionLine`).
- File names are said to sort by time. A later timestamp sorts after an earlier one
  exactly when its leading digits, as many as the earlier one has, are no smaller a number
  (`FileNames.NameOrderLaw`); that is always so for as many digits.
- The comment on the backoff lists four sleeps; four attempts sleep three times.
- `no_tool_after_a_prior_denial` looks for a history entry that denials do not write. It
  can say no exactly when a tool of that name can be called (`Packs.PriorDenialRuleFires`).
  What it is meant for holds without it, of a client that keeps its rules registered,
  exactly when the denial's report arrives (`Turns.NothingFollowsAReportedDenial`).
- `prerequisite_tool_ordering` is described as a read of the action's target. It asks for
  any earlier call that is not labelled destructive: one is needed
  (`Packs.DestructiveCallsFollowAnother`) and any one is enough
  (`Packs.UnrelatedCallIsEnough`). A call of some kind always comes first exactly when every
  tool that can be called and is not destructive is of that kind, or none that is
  destructive can be called (`Packs.PrerequisiteMeans`).
- Rules read `/status` and the call is a second request. What the rules allowed they would
  still allow when the call is counted exactly when nothing a rule can read has changed in
  between: no call counted by any client, the token total the same, and, for rules that
  read a clock, no time passed (`Turns.RulesBindIffNothingChanged`). Wherever a read and a
  send have room, two clients defeat the taint rule (`Packs.TwoClientsDefeatTheTaintRule`).
- A governor that comes up within thirty seconds can still be missed. It is always reached
  exactly when the last refusal that can precede it ends in time
  (`FirstContact.LateGovernorIsReached`).
- The digest is described as one of a pack's contents. A path is written with slashes for
  backslashes and replacement characters for what is not UTF-8, so it is written as it is
  exactly when it has neither (`Digest.VerbatimIffPlainText`). What the digest sees of any
  other file is the file at the written path (`Digest.DigestSees`), and there is no digest
  when there is none (`Digest.DigestExists`). Among packs without zero bytes, a digest fixes
  the files exactly when every path is written as it is (`Twins.OnlyRewritingConfuses`).
  Among all packs, one without zero bytes is alone with its stream exactly when, besides
  that, it has at most one file but for the manifest: any two files can be swallowed by one
  that holds zeros (`Twins.OnlyOneFileIsAlone`).
- A configured session token with a character no header can carry is accepted by the
  configuration. A token admits the process that presents it exactly when it is one of
  those configured and a header can carry it (`Tokens.AdmittedIffMember`).
- If the forwarder has gone away, the drain thread returns without signalling and the CLI
  waits its two seconds out. That happens exactly when a sink refused lines it was offered
  (`Shutdown.DrainIsLost`), and in every other state the shutdown can still be signalled
  (`Shutdown.SignalledUnlessLost`).

## Model

| member | source | states |
|---|---|---|
| Replay.ServeKeeps | crates/bridge/src/lib.rs:462-605 | after any whole request the history is the tools of the allowed-call events, each count is a tool's multiplicity in it, tokens are the sum reported, the scope stack is the replay of the scope events with every exit naming what it closed, attribution is the last declared of its kind, and the log is numbered 0, 1, 2, … |
| Replay.AppendKeeps | crates/bridge/src/lib.rs:1074-1082 | which field changes may accompany an appended event for the state and the log to go on agreeing |
| Replay.ExitKeeps | crates/bridge/src/lib.rs:669-689 | leaving a scope, or leaving when none is open, keeps state and log in agreement, the exit naming the scope it closed |
| Replay.UsageKeeps | crates/bridge/src/lib.rs:691-757 | recorded usage adds its tokens to the total, and an event unless their sum is zero, and the total stays what the log reports, modulo 2^64 |
| Replay.CommitKeeps | crates/bridge/src/lib.rs:528-604 | a failed call is logged, answered as failed and not counted, any other is counted and answered as allowed, and counts, history and log stay in agreement |
| Replay.RefuseKeeps | crates/bridge/src/lib.rs:502-526 | refusing a call keeps them in agreement |
| Replay.TakeKeeps | crates/bridge/src/lib.rs:457-460 | a destructive drain loses nothing of the log and keeps the agreement |
| Stories.RunIsItsStory | crates/bridge/src/lib.rs:1074-1082 | a run in agreement with its log is determined by its log, how much of it was drained, and its stop reason |
| Stories.ServeTells | crates/bridge/src/lib.rs:440-904 | of every request: the events it adds, the stop it makes and its reply are those read off the log alone, whatever the handlers keep beside it |
| Stories.PlayIsTold | crates/bridge/src/network.rs:413-496 | over every interleaving, the log, the stop, every request's phase and reply, and with them every field, are those of the run told by its log alone |
| Effects.UsageIsAdded | crates/bridge/src/lib.rs:730-757 | reported usage adds input and output to the token total, modulo 2^64, with its event unless the sum is zero; a harness sent along is noted first, and nothing else changes |
| Effects.UsageSection | crates/bridge/src/lib.rs:730-757 | the same of the section of an interleaved report, on a run that may have stopped since its gate |
| Effects.TokensAreReported | crates/bridge/src/lib.rs:737-745 | over every interleaving the token total moves by exactly the tokens reported, modulo 2^64 |
| Effects.OutcomeIsSettled | crates/bridge/src/lib.rs:528-604 | of a call with room on a running run: a failed tool is logged with its error, not counted and answered as an error; any other is counted once, logged and answered with its output, or with nothing when it is not registered |
| Effects.CommitSection | crates/bridge/src/lib.rs:528-604 | the same of the committing section of an interleaved call, whatever landed since it was allowed |
| Calls.UninterruptedIsServe | crates/bridge/src/network.rs:429-496 | the sections of a request played without interruption are exactly the request served at once, reply included |
| Calls.PlayKeeps | crates/bridge/src/lib.rs:462-605 | the agreement of state and log holds after every section of every interleaving of requests on a run |
| Calls.PlayExtends | crates/bridge/src/lib.rs:1074-1082 | over every interleaving a run's log only grows and its id never changes |
| Caps.CapBound | crates/bridge/src/lib.rs:482-604 | with at most K calls of a tool between decision and commit at any moment, its calls never pass max_calls + K − 1, a cap of zero admits none, and the stored 32-bit count is exact |
| Caps.CapInvariant | crates/runtime/src/enforcement.rs:75-93 | the invariant behind it: calls counted plus calls allowed and not yet counted never pass max_calls + K − 1 |
| Caps.CapHoldsWithoutOverlap | crates/runtime/src/enforcement.rs:75-93 | calls that do not overlap never pass the cap |
| Caps.CapBoundIsReached | crates/bridge/src/lib.rs:482-604 | for every cap and every K some execution reaches max_calls + K − 1 |
| Caps.CapIffNoOverlap | crates/bridge/src/lib.rs:482-604 | the cap holds of all executions with overlap K exactly when K is one |
| Stops.StopIsFinal | crates/bridge/src/lib.rs:1018-1072 | once stopped, over every interleaving the reason stays, and only the calls already past the gate can add calls or events other than refusals, scope exits and the closing event |
| Stops.StoppedRunIsFrozen | crates/bridge/src/network.rs:425-496 | with nothing past the gate, a stopped run's counts, history, tokens and attribution never change and its log gains only refusals, scope exits and closing events |
| Stops.RefusalStopsTheRun | crates/bridge/src/lib.rs:482-526 | a refused call stops the run at once: an unknown tool whatever its cap, a spent cap with the client's cleared rules on record; nothing is counted |
| Stops.StopReasonsAreKnown | crates/bridge/src/lib.rs:1009-1063 | over every execution a stop reason is one of the five names a client may report, or ProcessCrashed |
| Governor.RunProjection | crates/bridge/src/network.rs:266-282 | over any interleaving of sections of any runs, one run's state, replies and log are those its own sections give alone, from its first arrival |
| Governor.RunsAreIsolated | crates/bridge/src/network.rs:266-282 | executions that agree on one run's requests agree on that run, whatever the others do, stops included |
| Governor.EveryRunAgreesWithItsLog | crates/bridge/src/network.rs:818-854 | from a governor's boot, with its own run or a placeholder, every run it ever holds agrees with its log |
| Shutdown.InterleaveKeeps | crates/bridge/src/network.rs:877-948 | the handshake invariant over every interleaving of requests, drain thread and CLI |
| Endings.LockedRunsAreClosed | crates/bridge/src/network.rs:883-946 | from the moment the sweep locks the map, over everything after it: when it has signalled, the log of each run then in the map is that run up to the move that closed it, one closing event with the run's own reason if it had one by then or else the first the CLI named and with the tokens it had reported, and no other closing event; a run not in the map has none; and the sink has what the log has |
| Endings.ShutdownClosesEveryRun | crates/bridge/src/network.rs:877-948 | no interleaving signals unless some move locked the map after the flag was raised, and then exactly the runs in the map at that move are closed so |
| Endings.RunsAreTheGovernors | crates/bridge/src/network.rs:877-948 | throughout, the runs are those of the governor serving the same requests, with each closing and each drain where it happened |
| Endings.CliNamesThenRaises | crates/cli/src/commands/server.rs:674-699 | over every interleaving the reason is the first one named, completed or crashed, and the flag is up exactly once it was raised after that |
| Endings.CliReturns | crates/cli/src/commands/server.rs:674-699 | the CLI has returned exactly when, with the flag up, some wait met the signal or its timeout, and it knows of the signal exactly when the first such wait met it |
| Endings.ReleaseBySignal | crates/cli/src/commands/server.rs:674-699 | a CLI that returns on the signal returns after every run in the map at the lock has been closed |
| Shutdown.LogIsContinuous | crates/bridge/src/network.rs:914-937 | in every interleaving and at any time, what the log holds of a run carries its id and is numbered 0, 1, 2, … with no gap, repeat or reordering |
| Shutdown.ClosingEventIsLast | crates/bridge/src/network.rs:883-946 | a run no request reaches after it is closed ends, in the log of a signalled shutdown, with its closing event, and all of it is there |
| Shutdown.BootIsUnopened | crates/bridge/src/network.rs:818-854 | a booted governor meets the conditions the shutdown results start from |
| Shutdown.DrainIsLost | crates/bridge/src/network.rs:931-935 | in every interleaving the drain thread is lost exactly when it has a sink and the sink refused lines it was offered |
| Shutdown.LostDrainIsNeverSignalled | crates/bridge/src/network.rs:931-948 | once it is lost nothing that happens later signals, and a CLI that is released was released by its timeout |
| Shutdown.SignalledUnlessLost | crates/cli/src/commands/server.rs:674-699 | from every reachable state some continuation signals the shutdown exactly when the drain is not lost |
| Shutdown.DrainCanBeLost | crates/bridge/src/network.rs:914-937 | any governor with a buffered line and a sink can lose its drain |
| Bridge.BridgeState.constructor | crates/bridge/src/lib.rs:1245-1288 | a new run is running with nothing counted, its log is its ExecutionStarted with the template's tools, labels, hash, version and command, and the two agree |
| Bridge.BridgeState.AppendEvent | crates/bridge/src/lib.rs:1074-1082 | stamps the event with the run's id and the next number and changes nothing else |
| Bridge.BridgeState.StopWith | crates/bridge/src/lib.rs:1065-1072 | the first reason wins |
| Bridge.BridgeState.TakeRunEvents | crates/bridge/src/lib.rs:457-460 | returns the buffer and moves it out of the run |
| Bridge.BridgeState.NoteHarness | crates/bridge/src/lib.rs:1084-1111 | in place, the recorded harness and its event, a repeat or a blank adding nothing |
| Bridge.BridgeState.NoteApp | crates/bridge/src/lib.rs:1113-1135 | in place, the recorded app and its event |
| Bridge.BridgeState.NoteGovernor | crates/bridge/src/lib.rs:1137-1157 | in place, the recorded governor and its event |
| Bridge.BridgeState.NoteRules | crates/bridge/src/lib.rs:870-904 | in place, the canonical rule set and its event |
| Bridge.BridgeState.EnterScope | crates/bridge/src/lib.rs:648-667 | pushes the scope and records it |
| Bridge.BridgeState.ExitScope | crates/bridge/src/lib.rs:669-689 | pops the scope stack, naming nothing when it is empty |
| Bridge.BridgeState.AddUsage | crates/bridge/src/lib.rs:691-757 | notes the harness sent along, then adds the tokens and their event, a zero total adding neither |
| Bridge.BridgeState.AcceptStop | crates/bridge/src/lib.rs:1018-1063 | an unknown reason becomes ProcessCrashed, and a named rule denial is recorded before the stop |
| Bridge.BridgeState.DecideCall | crates/bridge/src/lib.rs:482-500 | a call is allowed exactly when its tool is allowlisted and below its cap, and a refusal names the allowlist first |
| Bridge.BridgeState.CommitCall | crates/bridge/src/lib.rs:528-604 | counts, records and answers a call that ran, with the client's cleared rules and the engine's cap rule last; a failed one is recorded, answered as an error and not counted |
| Bridge.BridgeState.Route | crates/bridge/src/network.rs:425-496 | a whole request in place is the request as specified; it keeps state and log in agreement, and a stopped run answers its gated endpoints 410 and does not change |
| Bridge.AppState.RunState | crates/bridge/src/network.rs:266-282 | a run is created from the template on first reference, a missing or blank header meaning the default run, and the others are untouched |
| Bridge.AppState.Dispatch | crates/bridge/src/network.rs:413-496 | a request changes the run it names, as that run's own section says, and no other |
| Bridge.AppState.CloseAll | crates/bridge/src/network.rs:888-912 | closing in whatever order closes every run once, each with its own reason if it had one |
| Bridge.AppState.Sweep | crates/bridge/src/network.rs:914-937 | one pass takes exactly the buffers that hold something, each once |
| Sdk.CheckRules | sdks/python/nanny_sdk/_decorators.py:71-99 | the rule loop clears the rules before the first that says no and names that one |
| Turns.GuardedCallCounts | sdks/python/nanny_sdk/_decorators.py:71-117 | whatever lands between status, gate, decision, execution and commit, a call is counted exactly when every rule allows it on the status it saw, the run is running at its gate, its tool is allowlisted and below its cap, and it does not fail |
| Turns.DenialNamesTheFirstFalseRule | sdks/python/nanny_sdk/_decorators.py:93-99 | a denial that arrives stops the run, nothing is called, and the record names the first false rule and exactly the rules before it, whatever lands meanwhile |
| Turns.NothingFollowsAReportedDenial | sdks/python/nanny_sdk/_client.py:612-636 | after a denial no call is ever counted, over every interleaving of one client that goes on under the same rules, exactly when the report arrived, as long as there is a call that has room and that those rules allow |
| Turns.RulesBindIffNothingChanged | sdks/python/nanny_sdk/_decorators.py:71-117 | over any sections of any clients between status and count, every rule that allowed the call on the status would allow it on what the status would show by then exactly when none of those sections counted a call, the token total is the same and no clock has moved; for rules that read no clock, exactly when the first two hold |
| Sdk.EveryCallIsEnforced | crates/bridge/src/lib.rs:462-605 | over every interleaving of one client's steps with the sections of any other requests, drains and closings, every call ever counted was allowlisted, under its cap and allowed by every registered rule on a context built from exactly the calls before it, and the log names those rules in order with the engine's cap rule last |
| Looks.EveryCallWasLookedAt | sdks/python/nanny_sdk/_decorators.py:71-99 | every counted call goes back to a look of the client at that tool, when exactly the calls before it had been counted, at which every rule registered allowed it on the run's tokens, counts and history, the labels, and the arguments of the call |
| Looks.RulesSawWhatIsSent | sdks/python/nanny_sdk/_decorators.py:91-117 | while a call is with the governor, its tool and arguments are those its rules were shown, and it names all of them, in order, as cleared |
| Sdk.OneClientOverlapsOne | crates/bridge/src/lib.rs:482-604 | one client never has two calls between decision and commit, so the overlap of the cap bound is one |
| Fleet.FleetIsGovernor | crates/bridge/src/network.rs:266-282 | any number of runs with a client each, their steps interleaved with any sections, leave the governor as the sections it was sent, in that order, leave it |
| Fleet.EveryRunIsEnforced | crates/bridge/src/lib.rs:462-605 | from a governor's boot, over every such interleaving, every call ever counted in any run was allowlisted, under its cap and allowed by every rule registered for it on exactly the calls of that run before it, and that run's log says so |
| Packs.NoExternalEffectAfterTaint | packs/nanny-recommended/python/injection.py:20-31 | no call labelled external_effect at any position after one labelled reads_untrusted, in any reachable history |
| Packs.NoUntrustedReadOnceSecretsAreIn | packs/nanny-recommended/python/injection.py:34-45 | no call labelled reads_untrusted at any position after one labelled reads_sensitive |
| Packs.DestructiveCallsFollowAnother | packs/nanny-recommended/python/sequence.py:26-36 | every destructive call has an earlier call that is not |
| Packs.UnrelatedCallIsEnough | packs/nanny-recommended/python/sequence.py:26-36 | any one earlier call that is not destructive, of whatever tool, lets a destructive call through |
| Packs.PrerequisiteMeans | packs/nanny-recommended/python/sequence.py:26-36 | in all runs of one client that registers the rule, every destructive call has an earlier call of a given kind exactly when every callable tool that is not destructive is of that kind, or no destructive tool is callable |
| Packs.DestructiveCallsAreConfirmed | packs/nanny-recommended/python/destructive.py:27-33 | every destructive call has an earlier confirmation |
| Packs.PaymentsAreApproved | packs/nanny-recommended/python/destructive.py:36-42 | every call that moves money has an earlier approval |
| Packs.RepeatsCarryArguments | packs/nanny-recommended/python/runaway.py:14-37 | of two adjacent equal calls, the look the second goes back to was at a call with arguments |
| Packs.NothingRepeatsWithoutArguments | packs/nanny-recommended/python/runaway.py:14-37 | a tool a client only ever calls without arguments is never counted twice in a row |
| Packs.PriorDenialRuleFires | packs/nanny-recommended/python/sequence.py:14-23 | over the runs of one client that registers it, the rule ever says no exactly when a tool named `__denied__` is allowlisted and not capped at zero |
| Packs.TwoClientsDefeatTheTaintRule | sdks/python/nanny_sdk/_decorators.py:71-117 | on every governor with room for an untrusted read and an external effect, a second client calling between the first one's status and call gets the effect through after the read |
| Reachable.ReachableExactly | sdks/python/nanny_sdk/_decorators.py:71-117 | under any rule blind to clocks and tokens, a client that registers it and calls with given arguments can reach a history exactly when every call of it is allowlisted, below its cap and allowed by the rule on the calls before it |
| Reachable.TaintedHistories | packs/nanny-recommended/python/injection.py:20-31 | exactly the histories with room in which no external effect comes after an untrusted read are reachable |
| Reachable.SecretHistories | packs/nanny-recommended/python/injection.py:34-45 | exactly those in which no untrusted read comes after a sensitive one |
| Reachable.ConfirmedHistories | packs/nanny-recommended/python/destructive.py:27-33 | exactly those in which every destructive call comes after a confirmation |
| Reachable.ApprovedHistories | packs/nanny-recommended/python/destructive.py:36-42 | exactly those in which every call that moves money comes after an approval |
| Reachable.OrderedHistories | packs/nanny-recommended/python/sequence.py:26-36 | exactly those in which every destructive call comes after one that is not |
| Reachable.RepeatingHistories | packs/nanny-recommended/python/runaway.py:14-37 | exactly those in which the second of two adjacent equal calls has arguments |
| Reachable.UndeniedHistories | packs/nanny-recommended/python/sequence.py:14-23 | exactly those in which nothing comes after a call of a tool named `__denied__` |
| Declarations.CanonicalRulesAreASet | crates/bridge/src/lib.rs:870-884 | a declaration's vector lists what it names once each, in increasing order, and two declarations canonicalise to the same one exactly when they name the same rules |
| Declarations.NamedRules | crates/bridge/src/lib.rs:870-884 | what a declaration names: its rules with trimmed, non-blank names |
| Declarations.LogHoldsDestutteredDeclarations | crates/bridge/src/lib.rs:870-892 | over every interleaving of sections, declarations past the gate of a stopped run included, a run's rule, harness and app events are each its declarations of that kind, in the order their sections ran, with immediate repeats removed |
| Declarations.GovernorIsNamedOnce | crates/bridge/src/network.rs:836-854 | over every interleaving, the run a governor opens first names it exactly once and no other run names one |
| Text.CanonicalListing | crates/core/src/events/event.rs:28-37 | sorting and de-duplicating depends on the members alone and tells member sets apart |
| Events.DeclLeIsTotalOrder | crates/core/src/events/event.rs:28-37 | the derived order on rule declarations is total |
| Outbox.SendBatch | crates/cli/src/sync.rs:219-254 | at most four attempts; the fate is that of the first attempt that is not transient; the sleep is 250 ms doubled between attempts |
| Outbox.HeldBatchRoundTrips | crates/cli/src/sync.rs:427-430 | a held batch reads back as stored exactly when its session has no line break, whatever its body holds |
| Outbox.UnpackIsInverse | crates/cli/src/sync.rs:511-515 | what a drain reads out of a file packs back into that file, and a file is malformed exactly when it has no line break |
| Outbox.ExcessIsShortest | crates/cli/src/sync.rs:466-478 | the cap drops the shortest oldest prefix that makes room, or everything |
| Outbox.DrainConserves | crates/cli/src/sync.rs:500-533 | a drain leaves every batch held, delivered, refused or malformed, exactly once |
| Outbox.DrainLeavesASuffix | crates/cli/src/sync.rs:500-533 | what a drain leaves is an untouched suffix headed by a batch that met four transient answers in a row, and it is all of the outbox exactly when the oldest batch can be read and the first four answers are transient |
| Drains.DrainIsDrained | crates/cli/src/sync.rs:500-533 | each held batch in turn met its fate by the cloud's answers to its own attempts: dropped unread without a line break, delivered when the last was accepted, given up when it was neither accepted nor transient, kept with all after it after four transient ones; and each list grew by exactly the batches of its fate, oldest first |
| Outbox.OutageKeepsEverything | crates/cli/src/sync.rs:500-533 | a drain leaves the outbox as it found it exactly when the oldest batch can be read and the cloud is out for four attempts, and then nothing is filed either |
| Outbox.DrainDeliversInOrder | crates/cli/src/sync.rs:500-533 | what a drain delivers is in the order it was held, oldest first |
| Outbox.ForwarderRunConserves | crates/cli/src/sync.rs:591-620 | over a whole forwarder run, everything held before or received since is delivered, held, refused, dropped for the cap or malformed, exactly once |
| Outbox.HeldIsBounded | crates/cli/src/sync.rs:417-478 | over any stores, held bytes stay within the larger of what was there and max(64 MiB, largest body) + longest session + 1 |
| Outbox.CeilingHolds | crates/cli/src/sync.rs:417-478 | under a new name, held bytes are within the ceiling after a store exactly when what the cap leaves, the session line and the body fit together |
| Outbox.HeldIsBoundedAcrossRuns | crates/cli/src/sync.rs:583-621 | the same bound over any number of governors, each draining and then storing on the outbox the last one left |
| Outbox.NothingIsLostAcrossRuns | crates/cli/src/sync.rs:583-621 | over any number of governors on one outbox, everything held or received is accounted for, exactly once |
| Fates.FatesAreOnRecord | crates/cli/src/sync.rs:591-620 | each batch received has one fate, and what is delivered and what is refused for good grows by exactly the batches of that fate, in the order they came |
| Fates.StoredInOrder | crates/cli/src/sync.rs:591-620 | under names that ascend, what the outbox has dropped and what it holds together grow by exactly the stored batches, in the order they came |
| Fates.FateByAnswers | crates/cli/src/sync.rs:594-618 | a live batch is delivered, refused for good or stored exactly by the answer to the last of at most four attempts |
| Fates.BatchReadsBack | crates/cli/src/sync.rs:592-597 | a batch's session and each of its lines are read back from its bytes when neither holds a line break |
| Pipeline.EveryEventIsAccountedFor | crates/bridge/src/network.rs:914-946 | for a signalled shutdown, over every interleaving and whatever the cloud answers, every run in the map at the lock is closed in the log, the log is what went out under the run's session, and each event is in messages of exactly one fate: delivered, refused for good, or stored, which under ascending names is at the end of what the outbox holds or has dropped for its cap |
| Pipeline.SessionCarriesTheRun | crates/cli/src/sync.rs:592-597 | the lines under a run's session are its events, in order, and no other run's |
| Outbox.DrainShrinks | crates/cli/src/sync.rs:500-533 | a drain never grows the outbox |
| Outbox.CapIsPassedByTheSessionLine | crates/cli/src/sync.rs:424-430 | every batch meets an outbox, filled by at most one store, that is within the ceiling before it and past it after |
| Outbox.Spool.constructor | crates/cli/src/sync.rs:352-369 | the key's prefix picks the environment, and nothing is touched |
| Outbox.Spool.EnforceCap | crates/cli/src/sync.rs:466-478 | the loop drops exactly that prefix, its saturating subtraction exact, and leaves the other environment alone |
| Outbox.Spool.Store | crates/cli/src/sync.rs:417-440 | makes room, then adds the packed batch in name order |
| Outbox.Spool.Drain | crates/cli/src/sync.rs:500-533 | the drain loop in place, with the number it returns, the other environment untouched, and everything left where it was during an outage |
| Outbox.Spool.ForwardAll | crates/cli/src/sync.rs:583-621 | the forwarder: first what was held, then its own batches in order |
| FileNames.NameOrderIsTimeOrder | crates/cli/src/sync.rs:430-430 | between distinct timestamps of as many digits, name order is time order whatever the ids |
| FileNames.LaterBatchIsLast | crates/cli/src/sync.rs:480-493 | a batch stored later than all held ones is listed last exactly when that law puts each of them before it |
| FileNames.NameOrderLaw | crates/cli/src/sync.rs:480-493 | for timestamps of any length and any ids, the later one's name sorts after the earlier one's exactly when the number its leading digits make, as many as the earlier one has, is no smaller |
| RateLimit.RateLimiter.Admit | crates/bridge/src/network.rs:208-222 | the entry update in place, other addresses untouched |
| RateLimit.SecondIsBounded | crates/bridge/src/network.rs:208-222 | over any requests in time order, any half-open second lets one address through at most 2·max(rps, 1) − 1 times |
| RateLimit.BoundIsReached | crates/bridge/src/network.rs:208-222 | for every limit, zero included, a run in which some second reaches that bound |
| RateLimit.DocumentedRateHolds | crates/bridge/src/network.rs:189-222 | no second of any run lets an address through more often than the limit exactly when the limit is one |
| RateLimit.OthersPlayNoPart | crates/bridge/src/network.rs:208-222 | an address's answers are those it would get alone |
| FirstContact.Client.WithFirstContactRetry | crates/cli/src/lib.rs:573-598 | the retry loop terminates and does as specified, setting the flag exactly when it was answered |
| FirstContact.FirstContactIsBounded | crates/cli/src/lib.rs:542-598 | before first contact: at most twelve attempts, at most thirty seconds of sleep asked for, and giving up only once thirty seconds have passed |
| FirstContact.BoundsAreMet | crates/cli/src/lib.rs:542-598 | a governor that never comes costs exactly that |
| FirstContact.LateGovernorIsReached | sdks/python/nanny_sdk/_client.py:334-368 | a governor that comes up is reached whatever else happens exactly when the last refusal that can precede it ends within the thirty seconds |
| FirstContact.ReachedIsForGood | sdks/python/nanny_sdk/_client.py:325-368 | after any answered call every later call makes exactly one attempt and sleeps not at all |
| FirstContact.PatientUntilReached | sdks/python/nanny_sdk/_client.py:325-368 | a call gets a single attempt exactly when some call before it was answered; until then every call waits in full, whatever the calls before it ended in |
| Scopes.ScopedRunId.RunScope | crates/cli/src/lib.rs:286-291 | entering a scope saves the one it replaces |
| Scopes.ScopedRunId.Drop | crates/cli/src/lib.rs:309-313 | leaving a scope puts back the one it saved |
| Scopes.NestingIsSafe | sdks/python/nanny_sdk/run.py:64-90 | while scopes are left youngest first, a call belongs to the innermost open one, and at the end to what was there before |
| Scopes.LeavingOutOfOrder | crates/cli/src/lib.rs:297-313 | leaving an older scope first is harmless exactly when what it restores is the innermost one's run |
| Tokens.TokensRoundTrip | crates/config/src/lib.rs:304-329 | newline-joined tokens are read back as they are exactly when there are some and all are trimmed, free of line breaks and 32 characters or more |
| Tokens.AcceptedAreValid | crates/config/src/lib.rs:304-329 | whatever the setting, an accepted list is not empty and all its tokens are such |
| Tokens.SettingIsRead | crates/config/src/lib.rs:304-329 | whatever its layout, padding, blank lines, carriage returns and a trailing line feed included, a setting is accepted as a list exactly when it spells that list with no token too short, counts as not set exactly when it is blank, and otherwise the first token too short is reported |
| Tokens.SecureCompare | crates/bridge/src/network.rs:249-259 | the accumulating comparison is equality |
| Tokens.SessionTokenOk | crates/bridge/src/network.rs:371-383 | the loop without an early exit admits a visible header that equals some token, and nothing else |
| Tokens.AdmittedIffMember | crates/bridge/src/network.rs:371-383 | a presented text is admitted exactly when it is one of the tokens and a header can carry it |
| Tokens.SettingToDoor | crates/bridge/src/network.rs:371-383 | from the setting to the header: exactly the configured tokens a header can carry are admitted |
| Utf8.EncodeTellsApart | crates/bridge/src/network.rs:249-250 | strings with equal bytes are equal |
| Utf8.RewrittenIffText | crates/cli/src/commands/rules_verify.rs:46-50 | bytes read as text and written again are the same bytes exactly when they are text |
| Utf8.UnreplacedIsText | crates/cli/src/commands/rules_verify.rs:46-50 | bytes that show no replacement character when read are the encoding of what is read |
| Utf8.SubpartIsMaximal | crates/cli/src/commands/rules_verify.rs:46-50 | each part read as one replacement character is as long as it can be: a character could still begin with it, unless it is a single byte, and none with any more |
| Digest.Collect | crates/cli/src/commands/rules_verify.rs:39-57 | the recursion pushes every file but the root manifest, on top of what it was given |
| Digest.ContentDigest | crates/cli/src/commands/rules_verify.rs:24-37 | the stream fed to the hash, or no digest when a written path does not lead back to a file |
| Digest.VerbatimIffPlainText | crates/cli/src/commands/rules_verify.rs:46-50 | a path is written as it is exactly when its bytes are UTF-8 and hold no backslash |
| Digest.DigestSees | crates/cli/src/commands/rules_verify.rs:24-57 | however directories are enumerated and whatever the root manifest holds, the stream is fixed by the paths and the contents at those written as they are: contents at the others are never read |
| Digest.DigestExists | crates/cli/src/commands/rules_verify.rs:29-35 | a pack has a digest exactly when each file whose path is changed in writing reads back as something, inside it a file at the written path |
| Twins.StreamDecides | crates/cli/src/commands/rules_verify.rs:24-57 | packs without zero bytes whose paths are written as they are give the same stream exactly when they hold the same files |
| Twins.OnlyRewritingConfuses | crates/cli/src/commands/rules_verify.rs:46-50 | among packs without zero bytes, one that has a digest shares it with no other files exactly when every path of it is written as it is |
| Twins.RewrittenTwin | crates/cli/src/commands/rules_verify.rs:46-50 | a pack that has a digest and a path that is changed in writing shares it with every pack that differs in the contents there |
| Twins.OnlyOneFileIsAlone | crates/cli/src/commands/rules_verify.rs:29-35 | a pack without zero bytes that has a digest shares it with no pack of other files, whatever those hold and however they are written, exactly when its paths are written as they are and it has at most one file besides the manifest |
| Twins.TwinOfTwoFiles | crates/cli/src/commands/rules_verify.rs:29-35 | every pack whose paths are written as they are and that holds two files or more has a twin with one file less |

## Left out

- JSON, HTTP, TLS, certificate reload, discovery files, signals and process spawning: bodies are datatypes and a body that does not parse is one value.
- Timestamps and elapsed times in events: no property here depends on them; the clocks rules see are parameters of a call.
- The bodies of registered tools, `http_get` among them: `registry.call` answers not registered, an output or an error.
- The router used only by the bridge's tests: it gates `/agent/exit` after a stop and the governor's own router, modelled here, does not.
- A governor with neither a sink nor a log, which signals done at once and drains nothing.
- The drain thread reads an idle run's buffer and the flag at the granularity of lock sections; sleeping between polls is not modelled.
- The SDK's fail-closed path when `/status` cannot be reached: no call is made, so nothing in a history depends on it.
- The `@agent` bracket, an enter on the way in and an exit in a `finally`: what is proved of scopes holds of any enters and exits.
- Rule bodies: any pure function of the context. The regular expressions in `arguments.py` are instances of that.
- `evaluate_local_rules` in the Rust SDK: the same loop as the Python one.
- Registering a rule name twice, which keeps its first position in Python: rules are given as a list.
- `tools_with`, the `_amounts` helper no rule uses, `instrument.py`, CLI text, notices printed once, health and certificate commands.
- Failing file operations in the outbox, and files that come or go while it is listed: writes and removals succeed, file names are new (they carry a UUID), and a directory lists what it holds in name order.
- Overflow of the 64-bit sum of held sizes, which would take an outbox of 16 EiB.
- Task-local scopes (`run_scope_async`) and the environment variable consulted when no scope is open.
- SHA-256 and hex: the digest is followed up to the bytes fed to the hash. Symbolic links inside a pack are not part of this model, and paths are those of a system where a name is bytes and a backslash is part of it. What a written path with an empty, `.` or `..` step in it leads to is a parameter.
- Timing of the token comparison: that no comparison is skipped is visible in the loop and not stated.
- Bridge.BridgeState.Route: covers a request that is not interrupted; interleaved requests are the sections of `Calls` and `Governor`, which work on values and not on the objects.
- Sdk.EveryCallIsEnforced: one client at a time per run, which waits for each call it has sent to be answered; a client that stops waiting and calls again is two clients, and `Turns.RulesBindIffNothingChanged` covers it.
- Twins.OnlyOneFileIsAlone: which packs that hold zero bytes themselves are alone is not stated, beyond those with two files or a path changed in writing, which never are (`Twins.TwinOfTwoFiles`, `Twins.RewrittenTwin`).
- Caps.CapBound: caps whose sum with the overlap passes 2^32 are not covered, since the stored count wraps there.
