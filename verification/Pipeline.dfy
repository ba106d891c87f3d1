// From a run's events to the cloud: what the drain thread sends, the forwarder receives
// as batches, and each batch has one fate.
module Pipeline {
  import opened Text
  import opened Utf8
  import opened Events
  import opened Runs
  import opened Replay
  import opened Calls
  import opened Governor
  import opened Shutdown
  import opened Endings
  import O = Outbox
  import F = Fates

  // How messages are written: the governor's secret, an event as a line, and the file
  // name each message would be held under.
  datatype Hand = Hand(secret: Bytes, line: LoggedEvent -> Bytes, name: nat -> string)

  const COLON: Byte := 58

  function Session(h: Hand, id: RunId): Bytes {
    h.secret + [COLON] + Encode(id)
  }

  function Lines(h: Hand, events: Log): seq<Bytes> {
    if events == [] then [] else Lines(h, Front(events)) + [h.line(Last(events))]
  }

  // The messages on the channel, in the order they were sent.
  function Batches(h: Hand, sent: seq<(RunId, Log)>): (batches: seq<O.Batch>)
    ensures |batches| == |sent|
  {
    if sent == [] then []
    else Batches(h, Front(sent))
         + [O.Batch(Session(h, Last(sent).0), Lines(h, Last(sent).1), h.name(|sent| - 1))]
  }

  // All lines that went out under a session.
  function LinesUnder(batches: seq<O.Batch>, session: Bytes): seq<Bytes> {
    if batches == [] then []
    else LinesUnder(Front(batches), session) + if Last(batches).session == session then Last(batches).lines else []
  }

  // A run's events in the messages of one fate, in order.
  function Told(sent: seq<(RunId, Log)>, fates: seq<F.Fate>, id: RunId, fate: F.Fate): Log
    requires |fates| == |sent|
  {
    if sent == [] then []
    else Told(Front(sent), Front(fates), id, fate)
         + if Last(sent).0 == id && Last(fates) == fate then Last(sent).1 else []
  }

  // ── Runs have their own sessions ────────────────────────────────────────────

  lemma SessionsDiffer(h: Hand, a: RunId, b: RunId)
    ensures Session(h, a) == Session(h, b) <==> a == b
  {
    if Session(h, a) == Session(h, b) {
      var n := |h.secret + [COLON]|;
      assert Session(h, a)[n..] == Encode(a) && Session(h, b)[n..] == Encode(b);
      EncodeTellsApart(a, b);
    }
  }

  lemma {:induction false} LinesJoin(h: Hand, a: Log, b: Log)
    ensures Lines(h, a + b) == Lines(h, a) + Lines(h, b)
  {
    if b == [] {
      assert a + b == a;
    } else {
      assert Front(a + b) == a + Front(b);
      LinesJoin(h, a, Front(b));
    }
  }

  // What goes out under a run's session is what was sent of it.
  lemma {:induction false} SessionCarriesTheRun(h: Hand, sent: seq<(RunId, Log)>, id: RunId)
    ensures LinesUnder(Batches(h, sent), Session(h, id)) == Lines(h, SentFor(sent, id))
  {
    if sent != [] {
      var batches := Batches(h, sent);
      assert Front(batches) == Batches(h, Front(sent));
      SessionCarriesTheRun(h, Front(sent), id);
      SessionsDiffer(h, Last(sent).0, id);
      LinesJoin(h, SentFor(Front(sent), id), if Last(sent).0 == id then Last(sent).1 else []);
    }
  }

  // ── No message is empty ─────────────────────────────────────────────────────

  predicate NoneEmpty(w: World) {
    && (w.drainer.Holding? ==> w.drainer.lines != [])
    && forall k :: 0 <= k < |w.sent| ==> w.sent[k].1 != []
  }

  lemma NextSendsSomething(t: Template, w: World, m: Move)
    requires NoneEmpty(w)
    ensures NoneEmpty(Next(t, w, m))
  {
    if Signals(m) { SignalTouchesNothing(w, m); }
  }

  lemma {:induction false} SomethingIsSent(t: Template, cells: Cells, synced: bool, moves: seq<Move>)
    ensures NoneEmpty(Interleave(t, Start(cells, synced), moves))
  {
    if moves != [] {
      SomethingIsSent(t, cells, synced, Front(moves));
      NextSendsSomething(t, Interleave(t, Start(cells, synced), Front(moves)), Last(moves));
    }
  }

  lemma BatchAt(h: Hand, sent: seq<(RunId, Log)>, k: nat)
    requires k < |sent|
    ensures Batches(h, sent)[k] == O.Batch(Session(h, sent[k].0), Lines(h, sent[k].1), h.name(k))
  {
    if k < |sent| - 1 { BatchAt(h, Front(sent), k); }
  }

  lemma {:induction false} FateAt(cloud: O.Cloud, at: nat, batches: seq<O.Batch>, k: nat)
    requires k < |batches|
    ensures batches[k].lines == [] <==> F.FatesOf(cloud, at, batches)[k] == F.Passed
    decreases k
  {
    if k > 0 { FateAt(cloud, F.AttemptsAfter(cloud, at, batches[0]), batches[1..], k - 1); }
  }

  predicate NonePassed(fates: seq<F.Fate>) {
    forall k :: 0 <= k < |fates| ==> fates[k] != F.Passed
  }

  lemma NothingIsPassedOver(h: Hand, w: World, cloud: O.Cloud, at: nat)
    requires NoneEmpty(w)
    ensures NonePassed(F.FatesOf(cloud, at, Batches(h, w.sent)))
  {
    var batches := Batches(h, w.sent);
    forall k | 0 <= k < |batches| ensures F.FatesOf(cloud, at, batches)[k] != F.Passed {
      BatchAt(h, w.sent, k);
      FateAt(cloud, at, batches, k);
    }
  }

  // ── Every event has one fate ────────────────────────────────────────────────

  lemma Shared(a: Log, b: Log, c: Log, more: Log)
    ensures multiset(a + more) + multiset(b) + multiset(c) == multiset(a) + multiset(b) + multiset(c) + multiset(more)
    ensures multiset(a) + multiset(b + more) + multiset(c) == multiset(a) + multiset(b) + multiset(c) + multiset(more)
    ensures multiset(a) + multiset(b) + multiset(c + more) == multiset(a) + multiset(b) + multiset(c) + multiset(more)
  {
  }

  lemma {:induction false} EventsAreShared(sent: seq<(RunId, Log)>, fates: seq<F.Fate>, id: RunId)
    requires |fates| == |sent| && NonePassed(fates)
    ensures multiset(SentFor(sent, id))
            == multiset(Told(sent, fates, id, F.Delivered)) + multiset(Told(sent, fates, id, F.Refused))
               + multiset(Told(sent, fates, id, F.Stored))
  {
    if sent != [] {
      var s, f, more := Front(sent), Front(fates), if Last(sent).0 == id then Last(sent).1 else [];
      EventsAreShared(s, f, id);
      Shared(Told(s, f, id, F.Delivered), Told(s, f, id, F.Refused), Told(s, f, id, F.Stored), more);
      assert multiset(SentFor(s, id) + more) == multiset(SentFor(s, id)) + multiset(more);
    }
  }

  // ── From the log to the cloud ───────────────────────────────────────────────

  // Where the messages end up: the outbox found at the start is drained, then each
  // message is delivered, refused for good or put at the end of the outbox.
  ghost predicate Accounted(cloud: O.Cloud, start: O.Box, end: O.Box, batches: seq<O.Batch>, fates: seq<F.Fate>)
    requires |fates| == |batches|
  {
    && F.Grew(start, end, F.Fated(batches, fates, F.Delivered), F.Fated(batches, fates, F.Refused))
    && (F.NamesAscend(start.files, batches) ==>
          F.QueueOf(end) == F.QueueOf(start) + F.Fated(batches, fates, F.Stored))
  }

  lemma MessagesAreAccounted(cloud: O.Cloud, start: O.Box, batches: seq<O.Batch>)
    ensures Accounted(cloud, start, O.ReceiveAll(cloud, start, batches), batches, F.FatesOf(cloud, start.at, batches))
  {
    F.FatesAreOnRecord(cloud, start, batches);
    if F.NamesAscend(start.files, batches) { F.StoredInOrder(cloud, start, batches); }
  }

  // The events of a closed run: all up to its closing event are in its log, its log is
  // what went out under its session, and each event is in messages of exactly one fate.
  ghost predicate RunAccounted(h: Hand, w: World, id: RunId, batches: seq<O.Batch>, fates: seq<F.Fate>)
    requires |fates| == |w.sent|
  {
    var log := OfRun(w.log, id);
    && Numbered(id, log) && LinesUnder(batches, Session(h, id)) == Lines(h, log)
    && multiset(log) == multiset(Told(w.sent, fates, id, F.Delivered)) + multiset(Told(w.sent, fates, id, F.Refused))
                        + multiset(Told(w.sent, fates, id, F.Stored))
  }

  // A signalled shutdown with the cloud, over every interleaving and whatever the cloud
  // answers: nothing of a run that was in the map when it was locked is missing.
  lemma EveryEventIsAccountedFor(t: Template, cells: Cells, before: seq<Move>, after: seq<Move>, id: RunId,
                                 h: Hand, cloud: O.Cloud, found: O.Box)
    requires Unopened(cells) && Interleave(t, Start(cells, true), before).drainer.Naming?
    requires id in Interleave(t, Start(cells, true), before).cells
    requires Interleave(t, Start(cells, true), before + [LockRuns] + after).done
    ensures var moves := before + [LockRuns] + after;
            var w := Interleave(t, Start(cells, true), moves);
            var start, batches := O.DrainBox(cloud, found), Batches(h, w.sent);
            var fates := F.FatesOf(cloud, start.at, batches);
            && ReasonGiven(moves).Some?
            && ClosedOnce(t, Start(cells, true), moves, id, OfRun(w.log, id), ReasonGiven(moves).value)
            && RunAccounted(h, w, id, batches, fates)
            && Accounted(cloud, start, O.ReceiveAll(cloud, start, batches), batches, fates)
  {
    var moves := before + [LockRuns] + after;
    var w := Interleave(t, Start(cells, true), moves);
    var start, batches := O.DrainBox(cloud, found), Batches(h, w.sent);
    LockedRunsAreClosed(t, cells, true, before, after, id);
    LogIsContinuous(t, cells, true, moves, id);
    SomethingIsSent(t, cells, true, moves);
    MessagesAreAccounted(cloud, start, batches);
    RunIsAccounted(h, w, id, cloud, start.at);
  }

  lemma RunIsAccounted(h: Hand, w: World, id: RunId, cloud: O.Cloud, at: nat)
    requires NoneEmpty(w) && SentFor(w.sent, id) == OfRun(w.log, id) && Numbered(id, OfRun(w.log, id))
    ensures RunAccounted(h, w, id, Batches(h, w.sent), F.FatesOf(cloud, at, Batches(h, w.sent)))
  {
    SessionCarriesTheRun(h, w.sent, id);
    NothingIsPassedOver(h, w, cloud, at);
    EventsAreShared(w.sent, F.FatesOf(cloud, at, Batches(h, w.sent)), id);
  }
}
