// One governor, many runs. Runs appear on first reference and share nothing but the
// template, so each run is what its own requests make of it.
module Governor {
  import opened Text
  import opened Events
  import opened Runs
  import opened Replay
  import opened Calls

  const DEFAULT_RUN_ID := "default"

  function RunIdOf(header: Option<string>): RunId {
    if header.Some? && Trim(header.value) != "" then Trim(header.value) else DEFAULT_RUN_ID
  }

  type Cells = map<RunId, Cell>

  // A request arriving with its run header, or a later section on a run that exists.
  datatype Label =
    | Arrive(header: Option<string>, c: CallId, q: Request)
    | On(id: RunId, action: Action)

  function Target(l: Label): RunId {
    if l.Arrive? then RunIdOf(l.header) else l.id
  }

  function ActionOf(l: Label): Action {
    if l.Arrive? then Begin(l.c, l.q) else l.action
  }

  function CellFor(t: Template, cells: Cells, id: RunId): Cell {
    if id in cells then cells[id] else Opening(t, id)
  }

  // Only an arrival creates a run, and only an arrival begins a call.
  predicate Touches(l: Label, id: RunId, present: bool) {
    Target(l) == id && (l.Arrive? || (present && !l.action.Begin?))
  }

  function Step(t: Template, cells: Cells, l: Label): Cells {
    var id := Target(l);
    if Touches(l, id, id in cells) then cells[id := Act(t, CellFor(t, cells, id), ActionOf(l))] else cells
  }

  function Exec(t: Template, cells: Cells, labels: seq<Label>): Cells {
    if labels == [] then cells else Step(t, Exec(t, cells, Front(labels)), Last(labels))
  }

  // The actions of one run, in order, from its first arrival when it is not there yet.
  function ActionsOf(labels: seq<Label>, id: RunId, present: bool): seq<Action> {
    if labels == [] then []
    else
      var front := ActionsOf(Front(labels), id, present);
      if Touches(Last(labels), id, present || front != []) then front + [ActionOf(Last(labels))] else front
  }

  // The state a run reaches among all the others, its replies and its log included,
  // is the state its own requests reach alone.
  lemma {:induction false} RunProjection(t: Template, cells: Cells, labels: seq<Label>, id: RunId)
    ensures var own := ActionsOf(labels, id, id in cells);
            && (id in Exec(t, cells, labels) <==> id in cells || own != [])
            && (id in Exec(t, cells, labels) ==>
                  Exec(t, cells, labels)[id] == Play(t, CellFor(t, cells, id), own))
  {
    if labels != [] {
      RunProjection(t, cells, Front(labels), id);
      var front, l := ActionsOf(Front(labels), id, id in cells), Last(labels);
      if Touches(l, id, id in cells || front != []) {
        assert Front(front + [ActionOf(l)]) == front && Last(front + [ActionOf(l)]) == ActionOf(l);
      }
    }
  }

  // Requests of other runs, however they interleave, cannot be told from their absence.
  lemma RunsAreIsolated(t: Template, cells: Cells, some: seq<Label>, others: seq<Label>, id: RunId)
    requires ActionsOf(some, id, id in cells) == ActionsOf(others, id, id in cells)
    ensures id in Exec(t, cells, some) <==> id in Exec(t, cells, others)
    ensures id in Exec(t, cells, some) ==> Exec(t, cells, some)[id] == Exec(t, cells, others)[id]
  {
    RunProjection(t, cells, some, id);
    RunProjection(t, cells, others, id);
  }

  // ── Booting ─────────────────────────────────────────────────────────────────

  // The run a governor opens before it listens: its own app's, or a placeholder that
  // carries the governor's identity and nothing else.
  function FirstRun(t: Template, primary: Option<RunId>, name: string, address: string, version: string): Run {
    RecordGovernor(if primary.Some? then Fresh(t, primary.value) else Placeholder(t, DEFAULT_RUN_ID),
                   name, address, version)
  }

  function Boot(t: Template, primary: Option<RunId>, name: string, address: string, version: string): Cells {
    var run := FirstRun(t, primary, name, address, version);
    map[run.runId := Cell(run, map[])]
  }

  ghost predicate AllConsistent(cells: Cells) {
    forall id :: id in cells ==> cells[id].run.runId == id && Consistent(cells[id].run)
  }

  // Of every run a governor ever holds: the log is numbered without a gap and the
  // counters, history, scopes and attribution agree with it.
  lemma EveryRunAgreesWithItsLog(t: Template, primary: Option<RunId>, name: string, address: string, version: string,
                                 labels: seq<Label>)
    ensures AllConsistent(Exec(t, Boot(t, primary, name, address, version), labels))
  {
    var cells := Boot(t, primary, name, address, version);
    var start := if primary.Some? then Fresh(t, primary.value) else Placeholder(t, DEFAULT_RUN_ID);
    FreshIsConsistent(t, start.runId);
    GovernorKeeps(start, name, address, version);
    forall id | id in Exec(t, cells, labels)
      ensures Exec(t, cells, labels)[id].run.runId == id && Consistent(Exec(t, cells, labels)[id].run)
    {
      RunProjection(t, cells, labels, id);
      FreshIsConsistent(t, id);
      PlayKeeps(t, CellFor(t, cells, id), ActionsOf(labels, id, id in cells));
      PlayExtends(t, CellFor(t, cells, id), ActionsOf(labels, id, id in cells));
    }
  }
}
