// Many runs with a client each, on one governor: every run's calls are enforced, however
// the clients' steps and everyone's sections interleave.
module Fleet {
  import opened Text
  import opened Events
  import opened Policy
  import opened Runs
  import opened Replay
  import opened Calls
  import opened Governor
  import opened Sdk

  // The client of each run the governor holds.
  type Clients = map<RunId, Client>

  // A step of the client of the run a header names, or a section on that run.
  datatype Turning = Turning(header: Option<string>, op: Op)

  function ClientFor(t: Template, f: Clients, id: RunId): Client {
    if id in f then f[id] else Newcomer(t, id)
  }

  // A run appears when a request for it arrives; until then there is nothing to act on.
  function Turn(t: Template, f: Clients, m: Turning): Clients {
    var id := RunIdOf(m.header);
    if id in f || (m.op.AtGovernor? && m.op.a.Begin?) then f[id := Do(t, ClientFor(t, f, id), m.op)] else f
  }

  function TurnAll(t: Template, f: Clients, moves: seq<Turning>): Clients {
    if moves == [] then f else Turn(t, TurnAll(t, f, Front(moves)), Last(moves))
  }

  // What the governor sees of a step.
  function Seen(cl: Client, m: Turning): seq<Label> {
    match m.op
    case Ask(c) =>
      if cl.turn.Checked? && c !in cl.cell.calls then [Arrive(m.header, c, CallTool(CallOf(cl.turn.g)))] else []
    case Report(c) =>
      if cl.turn.Barred? && cl.turn.k < |cl.turn.g.rules| && c !in cl.cell.calls
      then [Arrive(m.header, c, Denial(cl.turn.g, cl.turn.k))] else []
    case AtGovernor(a) => [if a.Begin? then Arrive(m.header, a.c, a.q) else On(RunIdOf(m.header), a)]
    case _ => []
  }

  function AllSeen(t: Template, f: Clients, moves: seq<Turning>): seq<Label> {
    if moves == [] then []
    else AllSeen(t, f, Front(moves)) + Seen(ClientFor(t, TurnAll(t, f, Front(moves)), RunIdOf(Last(moves).header)), Last(moves))
  }

  function CellsOf(f: Clients): Cells {
    map id | id in f :: f[id].cell
  }

  // ── The fleet is the governor ───────────────────────────────────────────────

  lemma SeenStep(t: Template, cells: Cells, labels: seq<Label>)
    requires |labels| <= 1
    ensures Exec(t, cells, labels) == if labels == [] then cells else Step(t, cells, labels[0])
  {
    if labels != [] { assert Front(labels) == []; }
  }

  lemma {:induction false} ExecInTwo(t: Template, cells: Cells, first: seq<Label>, second: seq<Label>)
    ensures Exec(t, cells, first + second) == Exec(t, Exec(t, cells, first), second)
  {
    if second == [] {
      assert first + second == first;
    } else {
      assert Front(first + second) == first + Front(second);
      ExecInTwo(t, cells, first, Front(second));
    }
  }

  // The cell of one run after one step of its client.
  lemma OwnCell(t: Template, cl: Client, m: Turning)
    ensures var seen, next := Seen(cl, m), Do(t, cl, m.op).cell;
            if seen == [] then next == cl.cell
            else seen == [seen[0]] && Target(seen[0]) == RunIdOf(m.header) && next == Act(t, cl.cell, ActionOf(seen[0]))
  {
  }

  lemma TurnIsStep(t: Template, f: Clients, m: Turning)
    ensures CellsOf(Turn(t, f, m)) == Exec(t, CellsOf(f), Seen(ClientFor(t, f, RunIdOf(m.header)), m))
  {
    var id := RunIdOf(m.header);
    var cl, cells := ClientFor(t, f, id), CellsOf(f);
    OwnCell(t, cl, m);
    SeenStep(t, cells, Seen(cl, m));
    assert CellFor(t, cells, id) == cl.cell;
    if id in f || (m.op.AtGovernor? && m.op.a.Begin?) {
      assert CellsOf(Turn(t, f, m)) == cells[id := Do(t, cl, m.op).cell];
      if Seen(cl, m) == [] { assert cells[id := cl.cell] == cells; }
    }
  }

  // The runs of the fleet are those of a governor serving what it sees of the steps.
  lemma {:induction false} FleetIsGovernor(t: Template, f: Clients, moves: seq<Turning>)
    ensures CellsOf(TurnAll(t, f, moves)) == Exec(t, CellsOf(f), AllSeen(t, f, moves))
  {
    if moves != [] {
      var before := TurnAll(t, f, Front(moves));
      FleetIsGovernor(t, f, Front(moves));
      TurnIsStep(t, before, Last(moves));
      ExecInTwo(t, CellsOf(f), AllSeen(t, f, Front(moves)), Seen(ClientFor(t, before, RunIdOf(Last(moves).header)), Last(moves)));
    }
  }

  // ── Every run is enforced ───────────────────────────────────────────────────

  ghost predicate AllGoverned(t: Template, f: Clients) {
    forall id :: id in f ==> Governed(t, f[id])
  }

  // Nobody but a run's own client begins a tool call on it.
  predicate OneClientEach(moves: seq<Turning>) {
    forall i :: 0 <= i < |moves| ==> OneClient(moves[i].op)
  }

  lemma OneMoreGoverned(t: Template, f: Clients, id: RunId, cl: Client)
    requires AllGoverned(t, f) && Governed(t, cl)
    ensures AllGoverned(t, f[id := cl])
  {
    var next := f[id := cl];
    forall other | other in next ensures Governed(t, next[other]) {
      assert next[other] == if other == id then cl else f[other];
    }
  }

  lemma TurnKeeps(t: Template, f: Clients, m: Turning)
    requires AllGoverned(t, f) && OneClient(m.op)
    ensures AllGoverned(t, Turn(t, f, m))
  {
    var id := RunIdOf(m.header);
    NewcomerIsGoverned(t, id);
    DoKeeps(t, ClientFor(t, f, id), m.op);
    OneMoreGoverned(t, f, id, Do(t, ClientFor(t, f, id), m.op));
  }

  lemma {:induction false} GovernedThroughoutFleet(t: Template, f: Clients, moves: seq<Turning>)
    requires AllGoverned(t, f) && OneClientEach(moves)
    ensures AllGoverned(t, TurnAll(t, f, moves))
  {
    if moves != [] {
      GovernedThroughoutFleet(t, f, Front(moves));
      TurnKeeps(t, TurnAll(t, f, Front(moves)), Last(moves));
    }
  }

  // The clients of a governor that has just booted: one, of the run it opened first.
  function FirstClients(t: Template, primary: Option<RunId>, name: string, address: string, version: string): Clients {
    Alone(FirstRun(t, primary, name, address, version))
  }

  function Alone(run: Run): Clients {
    map[run.runId := Client(Cell(run, map[]), Idle, [])]
  }

  lemma AloneIsGoverned(t: Template, run: Run)
    requires Consistent(run) && run.history == [] && Allowals(FullLog(run)) == []
    ensures AllGoverned(t, Alone(run)) && CellsOf(Alone(run)) == map[run.runId := Cell(run, map[])]
  {
    CallsNothingIsAccounted(t, run);
  }

  lemma FirstRunCallsNothing(t: Template, primary: Option<RunId>, name: string, address: string, version: string)
    ensures var run := FirstRun(t, primary, name, address, version);
            Consistent(run) && run.history == [] && Allowals(FullLog(run)) == []
  {
    var start := if primary.Some? then Fresh(t, primary.value) else Placeholder(t, DEFAULT_RUN_ID);
    var p := start.(marks := start.marks.(governor := Some((name, address, version))));
    FreshIsConsistent(t, start.runId);
    GovernorKeeps(start, name, address, version);
    NothingAllowedYet(t, start.runId);
    AppendAllows(start, p, GovernorIdentified(name, address, version));
  }

  lemma CallsNothingIsAccounted(t: Template, r: Run)
    requires Consistent(r) && r.history == [] && Allowals(FullLog(r)) == []
    ensures Governed(t, Client(Cell(r, map[]), Idle, []))
  {
  }

  lemma FirstClientsAreGoverned(t: Template, primary: Option<RunId>, name: string, address: string, version: string)
    ensures AllGoverned(t, FirstClients(t, primary, name, address, version))
    ensures CellsOf(FirstClients(t, primary, name, address, version)) == Boot(t, primary, name, address, version)
  {
    FirstRunCallsNothing(t, primary, name, address, version);
    AloneIsGoverned(t, FirstRun(t, primary, name, address, version));
  }

  lemma NothingAllowedYet(t: Template, id: RunId)
    ensures Allowals(FullLog(Fresh(t, id))) == [] == Allowals(FullLog(Placeholder(t, id)))
  {
    assert FullLog(Fresh(t, id)) == [LoggedEvent(id, 0, Started(t))] && Front(FullLog(Fresh(t, id))) == [];
    assert FullLog(Placeholder(t, id)) == [];
  }

  // From a governor's boot, over every interleaving of any number of runs with a client
  // each: every call ever counted in any of them was enforced in full, and that run's
  // log says so.
  lemma EveryRunIsEnforced(t: Template, primary: Option<RunId>, name: string, address: string, version: string,
                           moves: seq<Turning>, id: RunId)
    requires OneClientEach(moves)
    ensures var start := FirstClients(t, primary, name, address, version);
            var f, cells := TurnAll(t, start, moves),
                            Exec(t, Boot(t, primary, name, address, version), AllSeen(t, start, moves));
            && (id in f <==> id in cells)
            && (id in cells ==>
                  var r := cells[id].run;
                  && RecordedAs(t, Allowals(FullLog(r)), r.history, f[id].seen) && UnderCaps(t, r.history)
                  && forall j :: 0 <= j < |r.history| ==> Enforced(t, r.history, f[id].seen, j))
  {
    var start := FirstClients(t, primary, name, address, version);
    FirstClientsAreGoverned(t, primary, name, address, version);
    GovernedThroughoutFleet(t, start, moves);
    FleetIsGovernor(t, start, moves);
    var f := TurnAll(t, start, moves);
    if id in f { assert CellsOf(f)[id] == f[id].cell; }
  }
}
