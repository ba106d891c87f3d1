// What becomes of each batch a forwarder receives, and where it is found afterwards.
module Fates {
  import opened Text
  import opened Utf8
  import opened Outbox
  import Drains

  // A batch with no lines is passed over.
  datatype Fate = Passed | Delivered | Refused | Stored

  function FateOf(cloud: Cloud, at: nat, batch: Batch): Fate {
    if batch.lines == [] then Passed
    else match Send(cloud, at).0
      case Sent => Delivered
      case Permanent(_) => Refused
      case Retryable => Stored
  }

  function AttemptsAfter(cloud: Cloud, at: nat, batch: Batch): nat {
    if batch.lines == [] then at else at + Send(cloud, at).1
  }

  // A batch with lines is delivered when its last attempt was accepted, refused when it
  // was answered for good otherwise, and stored after four transient answers.
  lemma FateByAnswers(cloud: Cloud, at: nat, batch: Batch)
    requires batch.lines != []
    ensures var fate, next := FateOf(cloud, at, batch), AttemptsAfter(cloud, at, batch);
            && Drains.Tried(cloud, at, next)
            && (fate == Delivered <==> Accepts(cloud(next - 1)))
            && (fate == Refused <==> !Accepts(cloud(next - 1)) && !Transient(cloud(next - 1)))
            && (fate == Stored <==> next == at + 4 && Transient(cloud(next - 1)))
  {
    Drains.SendMeets(cloud, at, [NEWLINE]);
  }

  // One fate for each batch.
  function FatesOf(cloud: Cloud, at: nat, batches: seq<Batch>): (fates: seq<Fate>)
    ensures |fates| == |batches|
    decreases |batches|
  {
    if batches == [] then []
    else [FateOf(cloud, at, batches[0])] + FatesOf(cloud, AttemptsAfter(cloud, at, batches[0]), batches[1..])
  }

  function Packed(batch: Batch): Bytes {
    Pack(batch.session, Join(batch.lines))
  }

  function If(fate: Fate, wanted: Fate, batch: Batch): seq<Bytes> {
    if fate == wanted then [Packed(batch)] else []
  }

  // The batches of one fate, in the order they came.
  function Fated(batches: seq<Batch>, fates: seq<Fate>, wanted: Fate): seq<Bytes>
    requires |fates| == |batches|
  {
    if batches == [] then [] else If(fates[0], wanted, batches[0]) + Fated(batches[1..], fates[1..], wanted)
  }

  // The outbox as a queue: what was dropped from it and what it holds, oldest first.
  function Queue(dropped: seq<Bytes>, files: seq<File>): seq<Bytes> {
    dropped + AllContents(files)
  }

  function QueueOf(b: Box): seq<Bytes> {
    Queue(b.ledger.dropped, b.files)
  }

  lemma {:induction false} AllContentsJoins(a: seq<File>, b: seq<File>)
    ensures AllContents(a + b) == AllContents(a) + AllContents(b)
  {
    var all, apart := AllContents(a + b), AllContents(a) + AllContents(b);
    forall k | 0 <= k < |all| ensures all[k] == apart[k] {
      assert (a + b)[k] == if k < |a| then a[k] else b[k - |a|];
    }
  }

  lemma QueueMoves(dropped: seq<Bytes>, gone: seq<Bytes>, kept: seq<Bytes>, more: seq<Bytes>,
                   held: seq<Bytes>, longer: seq<Bytes>)
    requires held == gone + kept && longer == kept + more
    ensures (dropped + gone) + longer == (dropped + held) + more
  {
  }

  lemma AllContentsOfOne(f: File)
    ensures AllContents([f]) == [f.contents]
  {
    assert [f][1..] == [];
  }

  // Dropping the oldest files moves them along the queue; a file added is its new end.
  lemma QueueAfter(dropped: seq<Bytes>, gone: seq<File>, kept: seq<File>, f: File)
    ensures Queue(dropped + AllContents(gone), kept + [f]) == Queue(dropped, gone + kept) + [f.contents]
  {
    AllContentsJoins(kept, [f]);
    AllContentsJoins(gone, kept);
    AllContentsOfOne(f);
    QueueMoves(dropped, AllContents(gone), AllContents(kept), [f.contents], AllContents(gone + kept), AllContents(kept + [f]));
  }

  // A store under the last name puts its batch at the end of the queue.
  lemma StoreAtEnd(b: Box, session: Bytes, body: Bytes, name: string)
    requires Last(b.files, name)
    ensures var next, k := StoreIn(b, session, body, name), Excess(b.files, |body|);
            && next.files == b.files[k..] + [File(name, Pack(session, body))]
            && next.ledger.dropped == b.ledger.dropped + AllContents(b.files[..k])
  {
    var k := Excess(b.files, |body|);
    LastOfSuffix(b.files, k, name);
    WriteAtEnd(b.files[k..], File(name, Pack(session, body)));
  }

  lemma StoreQueues(b: Box, next: Box, k: nat, f: File)
    requires k <= |b.files| && next.files == b.files[k..] + [f]
    requires next.ledger.dropped == b.ledger.dropped + AllContents(b.files[..k])
    ensures QueueOf(next) == QueueOf(b) + [f.contents]
  {
    var gone, kept := b.files[..k], b.files[k..];
    assert b.files == gone + kept;
    QueueAfter(b.ledger.dropped, gone, kept, f);
  }

  // Every file held is listed before `name`.
  ghost predicate Last(files: seq<File>, name: string) {
    forall i :: 0 <= i < |files| ==> StrLe(files[i].name, name) && files[i].name != name
  }

  lemma LastOfSuffix(files: seq<File>, k: nat, name: string)
    requires k <= |files| && Last(files, name)
    ensures Last(files[k..], name)
  {
  }

  // The batches would be held under names later than any held, and later and later.
  ghost predicate NamesAscend(files: seq<File>, batches: seq<Batch>) {
    && (forall k :: 0 <= k < |batches| ==> Last(files, batches[k].name))
    && (forall i, k :: 0 <= i < k < |batches| ==>
          StrLe(batches[i].name, batches[k].name) && batches[i].name != batches[k].name)
  }

  lemma NamesGoOnAscending(files: seq<File>, batches: seq<Batch>, k: nat, f: File)
    requires batches != [] && NamesAscend(files, batches) && k <= |files| && f.name == batches[0].name
    ensures NamesAscend(files, batches[1..]) && NamesAscend(files[k..] + [f], batches[1..])
  {
    var next := files[k..] + [f];
    forall j | 0 <= j < |batches[1..]| ensures Last(files, batches[1..][j].name) && Last(next, batches[1..][j].name) {
      assert batches[1..][j] == batches[j + 1];
      LastOfSuffix(files, k, batches[j + 1].name);
    }
  }

  // From one box to another, so much has been added to the end of each list.
  ghost predicate Grew(b: Box, end: Box, delivered: seq<Bytes>, refused: seq<Bytes>) {
    && end.ledger.delivered == b.ledger.delivered + delivered
    && end.ledger.refused == b.ledger.refused + refused
    && end.ledger.malformed == b.ledger.malformed
  }

  lemma NothingAdded(s: seq<Bytes>)
    ensures s + [] == s
  {
  }

  lemma Joined(a: seq<Bytes>, b: seq<Bytes>, c: seq<Bytes>)
    ensures (a + b) + c == a + (b + c)
  {
  }

  lemma ReceiveGrows(cloud: Cloud, b: Box, batch: Batch)
    ensures var next, fate := Receive(cloud, b, batch), FateOf(cloud, b.at, batch);
            && next.at == AttemptsAfter(cloud, b.at, batch)
            && Grew(b, next, If(fate, Delivered, batch), If(fate, Refused, batch))
  {
    NothingAdded(b.ledger.delivered);
    NothingAdded(b.ledger.refused);
  }

  lemma ReceiveQueues(cloud: Cloud, b: Box, batch: Batch)
    requires Last(b.files, batch.name)
    ensures var next, f := Receive(cloud, b, batch), File(batch.name, Packed(batch));
            && QueueOf(next) == QueueOf(b) + If(FateOf(cloud, b.at, batch), Stored, batch)
            && (next.files == b.files || next.files == b.files[Excess(b.files, |Join(batch.lines)|)..] + [f])
  {
    if FateOf(cloud, b.at, batch).Stored? {
      var next, k := WasStored(cloud, b, batch);
      StoreQueues(b, next, k, File(batch.name, Packed(batch)));
    } else {
      NotStored(cloud, b, batch);
      NothingAdded(QueueOf(b));
    }
  }

  lemma WasStored(cloud: Cloud, b: Box, batch: Batch) returns (next: Box, k: nat)
    requires Last(b.files, batch.name) && FateOf(cloud, b.at, batch).Stored?
    ensures next == Receive(cloud, b, batch) && k == Excess(b.files, |Join(batch.lines)|)
    ensures next.files == b.files[k..] + [File(batch.name, Packed(batch))]
    ensures next.ledger.dropped == b.ledger.dropped + AllContents(b.files[..k])
  {
    next, k := Receive(cloud, b, batch), Excess(b.files, |Join(batch.lines)|);
    StoreAtEnd(b.(at := b.at + Send(cloud, b.at).1), batch.session, Join(batch.lines), batch.name);
  }

  lemma NotStored(cloud: Cloud, b: Box, batch: Batch)
    requires !FateOf(cloud, b.at, batch).Stored?
    ensures var next := Receive(cloud, b, batch); next.files == b.files && next.ledger.dropped == b.ledger.dropped
  {
  }

  // Over any batches and any answers: what is delivered and what is refused for good is,
  // after what was before, the batches of that fate, in the order they came.
  lemma {:induction false} FatesAreOnRecord(cloud: Cloud, b: Box, batches: seq<Batch>)
    ensures var fates := FatesOf(cloud, b.at, batches);
            Grew(b, ReceiveAll(cloud, b, batches), Fated(batches, fates, Delivered), Fated(batches, fates, Refused))
    decreases |batches|
  {
    if batches == [] {
      NothingAdded(b.ledger.delivered);
      NothingAdded(b.ledger.refused);
    } else {
      var next, fate, rest := Receive(cloud, b, batches[0]), FateOf(cloud, b.at, batches[0]), batches[1..];
      ReceiveGrows(cloud, b, batches[0]);
      FatesAreOnRecord(cloud, next, rest);
      var fates := FatesOf(cloud, next.at, rest);
      assert FatesOf(cloud, b.at, batches)[1..] == fates;
      Joined(b.ledger.delivered, If(fate, Delivered, batches[0]), Fated(rest, fates, Delivered));
      Joined(b.ledger.refused, If(fate, Refused, batches[0]), Fated(rest, fates, Refused));
    }
  }

  // Under names that ascend: what was dropped from the outbox and what it holds is, after
  // what it held before, the stored batches, in the order they came.
  lemma {:induction false} StoredInOrder(cloud: Cloud, b: Box, batches: seq<Batch>)
    requires NamesAscend(b.files, batches)
    ensures QueueOf(ReceiveAll(cloud, b, batches))
            == QueueOf(b) + Fated(batches, FatesOf(cloud, b.at, batches), Stored)
    decreases |batches|
  {
    if batches == [] {
      NothingAdded(QueueOf(b));
    } else {
      var next, fate, rest := Receive(cloud, b, batches[0]), FateOf(cloud, b.at, batches[0]), batches[1..];
      ReceiveGrows(cloud, b, batches[0]);
      ReceiveQueues(cloud, b, batches[0]);
      NamesGoOnAscending(b.files, batches, Excess(b.files, |Join(batches[0].lines)|), File(batches[0].name, Packed(batches[0])));
      StoredInOrder(cloud, next, rest);
      var fates := FatesOf(cloud, next.at, rest);
      assert FatesOf(cloud, b.at, batches)[1..] == fates;
      Joined(QueueOf(b), If(fate, Stored, batches[0]), Fated(rest, fates, Stored));
    }
  }

  // ── Reading a batch again ───────────────────────────────────────────────────

  // A body split at its line breaks.
  function LinesOf(body: Bytes): seq<Bytes>
    decreases |body|
  {
    match Unpack(body)
    case None => [body]
    case Some((line, rest)) => if |rest| < |body| then [line] + LinesOf(rest) else [body]
  }

  lemma {:induction false} JoinedLinesSplit(lines: seq<Bytes>)
    requires lines != [] && forall k :: 0 <= k < |lines| ==> NEWLINE !in lines[k]
    ensures LinesOf(Join(lines)) == lines
  {
    if |lines| == 1 {
      HeldHasBreak(lines[0]);
      assert Join(lines) == lines[0];
    } else {
      var body := Join(lines);
      assert body == Pack(lines[0], Join(lines[1..]));
      HeldBatchRoundTrips(lines[0], Join(lines[1..]));
      JoinedLinesSplit(lines[1..]);
    }
  }

  // Whoever reads a delivered or held batch finds its session and each of its lines, as
  // long as neither holds a line break.
  lemma BatchReadsBack(batch: Batch)
    requires batch.lines != [] && NEWLINE !in batch.session
    requires forall k :: 0 <= k < |batch.lines| ==> NEWLINE !in batch.lines[k]
    ensures Unpack(Packed(batch)).Some? && Unpack(Packed(batch)).value.0 == batch.session
    ensures LinesOf(Unpack(Packed(batch)).value.1) == batch.lines
  {
    HeldBatchRoundTrips(batch.session, Join(batch.lines));
    JoinedLinesSplit(batch.lines);
  }
}
