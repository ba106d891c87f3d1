// Delivery to the cloud: bounded retry, a durable size-capped outbox, and the forwarder
// that puts every batch either in the cloud, in the outbox, or in one of three named
// places a batch can be given up.
module Outbox {
  import opened Text
  import opened Utf8

  const NEWLINE: Byte := 10
  const SEND_ATTEMPTS := 4
  const BACKOFF_BASE_MS := 250
  const MAX_SPOOL_BYTES := 64 * 1024 * 1024

  // ── Sending ─────────────────────────────────────────────────────────────────

  datatype Reply = Unreachable | Answer(status: nat)

  datatype Delivery = Sent | Retryable | Permanent(status: nat)

  // What each attempt ever made meets, in order.
  type Cloud = nat -> Reply

  predicate Accepts(r: Reply) {
    r.Answer? && 200 <= r.status < 300
  }

  predicate Transient(r: Reply) {
    r.Unreachable? || r.status == 429 || 500 <= r.status < 600
  }

  // How many of the next attempts are transient, up to `limit`.
  function Failures(cloud: Cloud, at: nat, limit: nat): (k: nat)
    ensures k <= limit && (forall i: nat :: at <= i < at + k ==> Transient(cloud(i)))
    ensures k < limit ==> !Transient(cloud(at + k))
    decreases limit
  {
    if limit == 0 || !Transient(cloud(at)) then 0 else 1 + Failures(cloud, at + 1, limit - 1)
  }

  // A batch's fate and the attempts it took: decided by the first attempt that is not
  // transient, if it comes within four.
  function Send(cloud: Cloud, at: nat): (Delivery, nat) {
    var k := Failures(cloud, at, SEND_ATTEMPTS);
    if k == SEND_ATTEMPTS then (Retryable, SEND_ATTEMPTS)
    else if Accepts(cloud(at + k)) then (Sent, k + 1)
    else (Permanent(cloud(at + k).status), k + 1)
  }

  // The next four answers are all transient.
  predicate Outage(cloud: Cloud, at: nat) {
    Transient(cloud(at)) && Transient(cloud(at + 1)) && Transient(cloud(at + 2)) && Transient(cloud(at + 3))
  }

  lemma OutageIsRetryable(cloud: Cloud, at: nat)
    ensures Send(cloud, at).0.Retryable? <==> Outage(cloud, at)
  {
    var k := Failures(cloud, at, SEND_ATTEMPTS);
    if k == SEND_ATTEMPTS {
      assert Transient(cloud(at)) && Transient(cloud(at + 1)) && Transient(cloud(at + 2)) && Transient(cloud(at + 3));
    } else {
      assert !Transient(cloud(at + k));
    }
  }

  function Power2(n: nat): nat {
    if n == 0 then 1 else 2 * Power2(n - 1)
  }

  method SendBatch(cloud: Cloud, at: nat) returns (d: Delivery, used: nat, sleptMs: nat)
    ensures (d, used) == Send(cloud, at)
    ensures 1 <= used <= SEND_ATTEMPTS && forall i: nat :: at <= i < at + used - 1 ==> Transient(cloud(i))
    ensures var last := cloud(at + used - 1);
            match d
            case Sent => Accepts(last)
            case Permanent(status) => !Accepts(last) && !Transient(last) && last == Answer(status)
            case Retryable => Transient(last) && used == SEND_ATTEMPTS
    ensures sleptMs == BACKOFF_BASE_MS * (Power2(used - 1) - 1)
  {
    var backoff := BACKOFF_BASE_MS;
    used, sleptMs := 0, 0;
    while used < SEND_ATTEMPTS
      invariant 0 <= used <= SEND_ATTEMPTS
      invariant forall i: nat :: at <= i < at + used ==> Transient(cloud(i))
      invariant used < SEND_ATTEMPTS ==> backoff == BACKOFF_BASE_MS * Power2(used)
                                         && sleptMs == BACKOFF_BASE_MS * (Power2(used) - 1)
      invariant used == SEND_ATTEMPTS ==> sleptMs == BACKOFF_BASE_MS * (Power2(used - 1) - 1)
    {
      var reply := cloud(at + used);
      used := used + 1;
      assert Power2(used) == 2 * Power2(used - 1);
      if reply.Answer? {
        if Accepts(reply) { return Sent, used, sleptMs; }
        if !Transient(reply) { return Permanent(reply.status), used, sleptMs; }
      }
      if used < SEND_ATTEMPTS {
        sleptMs := sleptMs + backoff;
        backoff := backoff * 2;
      }
    }
    d := Retryable;
  }

  // ── The shape of a held batch ───────────────────────────────────────────────

  function Pack(session: Bytes, body: Bytes): Bytes {
    session + [NEWLINE] + body
  }

  // `split_once('\n')`.
  function Unpack(contents: Bytes): Option<(Bytes, Bytes)> {
    if contents == [] then None
    else if contents[0] == NEWLINE then Some(([], contents[1..]))
    else match Unpack(contents[1..])
      case None => None
      case Some((session, body)) => Some(([contents[0]] + session, body))
  }

  lemma {:induction false} UnpackIsInverse(contents: Bytes)
    ensures match Unpack(contents)
            case None => NEWLINE !in contents
            case Some((session, body)) => contents == Pack(session, body) && NEWLINE !in session
  {
    if contents != [] && contents[0] != NEWLINE {
      UnpackIsInverse(contents[1..]);
      assert contents == [contents[0]] + contents[1..];
    }
  }

  lemma HeldHasBreak(contents: Bytes)
    ensures Unpack(contents).None? <==> NEWLINE !in contents
  {
    UnpackIsInverse(contents);
    if Unpack(contents).Some? {
      var (session, body) := Unpack(contents).value;
      assert contents[|session|] == NEWLINE;
    }
  }

  // A batch comes back as it was stored exactly when its session has no line break,
  // whatever its body holds.
  lemma {:induction false} HeldBatchRoundTrips(session: Bytes, body: Bytes)
    ensures Unpack(Pack(session, body)) == Some((session, body)) <==> NEWLINE !in session
    ensures Unpack(Pack(session, body)).Some?
  {
    var contents := Pack(session, body);
    UnpackIsInverse(contents);
    assert contents[|session|] == NEWLINE;
    if NEWLINE !in session {
      var (s, b) := Unpack(contents).value;
      assert contents[|s|] == NEWLINE;
      assert |s| == |session|;
      assert s == contents[..|s|] && b == contents[|s| + 1..];
      assert session == contents[..|s|] && body == contents[|s| + 1..];
    }
  }

  // ── Files, oldest first ─────────────────────────────────────────────────────

  datatype File = File(name: string, contents: Bytes)

  // Every name in the listing comes after `name`.
  ghost predicate Above(files: seq<File>, name: string) {
    forall k :: 0 <= k < |files| ==> StrLe(name, files[k].name) && files[k].name != name
  }

  ghost predicate Unused(files: seq<File>, name: string) {
    forall k :: 0 <= k < |files| ==> files[k].name != name
  }

  // A directory is listed by its sorted file names, so it is kept that way here.
  ghost predicate Listing(files: seq<File>) {
    forall i, j :: 0 <= i < j < |files| ==> StrLe(files[i].name, files[j].name) && files[j].name != files[i].name
  }

  function Write(files: seq<File>, f: File): seq<File> {
    if files == [] then [f]
    else if files[0].name == f.name then [f] + files[1..]
    else if StrLe(f.name, files[0].name) then [f] + files
    else [files[0]] + Write(files[1..], f)
  }

  function Contents(files: seq<File>): multiset<Bytes> {
    if files == [] then multiset{} else multiset{files[0].contents} + Contents(files[1..])
  }

  function Held(files: seq<File>): nat {
    if files == [] then 0 else |files[0].contents| + Held(files[1..])
  }

  lemma {:induction false} WriteKeepsUnused(files: seq<File>, f: File, name: string)
    requires Unused(files, name) && f.name != name
    ensures Unused(Write(files, f), name)
  {
    if files != [] { WriteKeepsUnused(files[1..], f, name); }
  }

  lemma {:induction false} WriteKeepsAbove(files: seq<File>, f: File, name: string)
    requires Above(files, name) && StrLe(name, f.name) && f.name != name
    ensures Above(Write(files, f), name)
  {
    if files != [] { WriteKeepsAbove(files[1..], f, name); }
  }

  lemma ListingConsists(first: File, rest: seq<File>)
    requires Listing(rest) && Above(rest, first.name)
    ensures Listing([first] + rest)
  {
  }

  lemma {:induction false} WriteKeepsListing(files: seq<File>, f: File)
    requires Listing(files)
    ensures Listing(Write(files, f))
  {
    if files != [] {
      var rest := files[1..];
      assert Above(rest, files[0].name);
      WriteKeepsListing(rest, f);
      if files[0].name == f.name {
        ListingConsists(f, rest);
      } else if StrLe(f.name, files[0].name) {
        forall k | 0 <= k < |files| ensures StrLe(f.name, files[k].name) && files[k].name != f.name {
          if k > 0 {
            StrLeTransitive(f.name, files[0].name, files[k].name);
            if files[k].name == f.name { StrLeAntisymmetric(f.name, files[0].name); }
          }
        }
        ListingConsists(f, files);
      } else {
        StrLeTotal(f.name, files[0].name);
        WriteKeepsAbove(rest, f, files[0].name);
        ListingConsists(files[0], Write(rest, f));
      }
    }
  }

  // A fresh name adds a file and keeps the rest; a name in use replaces one.
  lemma {:induction false} WriteAdds(files: seq<File>, f: File)
    requires Unused(files, f.name)
    ensures Contents(Write(files, f)) == Contents(files) + multiset{f.contents}
    ensures Held(Write(files, f)) == Held(files) + |f.contents|
  {
    if files == [] {
      assert [f][1..] == [];
    } else if StrLe(f.name, files[0].name) {
      assert ([f] + files)[1..] == files;
    } else {
      WriteAdds(files[1..], f);
      assert ([files[0]] + Write(files[1..], f))[1..] == Write(files[1..], f);
    }
  }

  lemma {:induction false} WriteBounds(files: seq<File>, f: File)
    ensures Held(Write(files, f)) <= Held(files) + |f.contents|
  {
    if files != [] { WriteBounds(files[1..], f); }
  }

  lemma {:induction false} WriteAtEnd(files: seq<File>, f: File)
    requires forall k :: 0 <= k < |files| ==> StrLe(files[k].name, f.name) && files[k].name != f.name
    ensures Write(files, f) == files + [f]
  {
    if files != [] {
      if StrLe(f.name, files[0].name) { StrLeAntisymmetric(f.name, files[0].name); }
      WriteAtEnd(files[1..], f);
    }
  }

  lemma {:induction false} DropKeeps(files: seq<File>, k: nat)
    requires k <= |files|
    ensures Contents(files) == Contents(files[..k]) + Contents(files[k..])
    ensures Held(files) == Held(files[..k]) + Held(files[k..])
  {
    if k > 0 {
      DropKeeps(files[1..], k - 1);
      assert files[..k][1..] == files[1..][..k - 1] && files[1..][k - 1..] == files[k..];
    } else {
      assert files[0..] == files;
    }
  }

  // ── The cap ─────────────────────────────────────────────────────────────────

  // How many of the oldest files must go for `incoming` bytes to fit.
  function Excess(files: seq<File>, incoming: nat): (k: nat)
    ensures k <= |files|
  {
    if files != [] && Held(files) + incoming > MAX_SPOOL_BYTES then 1 + Excess(files[1..], incoming) else 0
  }

  // It is the shortest prefix whose removal makes room, or everything.
  lemma {:induction false} ExcessIsShortest(files: seq<File>, incoming: nat)
    ensures var k := Excess(files, incoming);
            && (k < |files| ==> Held(files[k..]) + incoming <= MAX_SPOOL_BYTES)
            && forall j :: 0 <= j < k ==> Held(files[j..]) + incoming > MAX_SPOOL_BYTES
  {
    assert files[0..] == files;
    if files != [] && Held(files) + incoming > MAX_SPOOL_BYTES {
      ExcessIsShortest(files[1..], incoming);
      var k := Excess(files[1..], incoming);
      assert files[1..][k..] == files[k + 1..];
      forall j | 0 < j < k + 1 ensures Held(files[j..]) + incoming > MAX_SPOOL_BYTES {
        assert files[1..][j - 1..] == files[j..];
      }
    }
  }

  // ── The outbox and everything that has passed through it ────────────────────

  datatype Environment = Live | Sandbox

  function Other(env: Environment): Environment {
    if env.Live? then Sandbox else Live
  }

  const SANDBOX_PREFIX := "nny_sdbx_"

  function EnvironmentOf(apiKey: string): Environment {
    if SANDBOX_PREFIX <= apiKey then Sandbox else Live
  }

  // Where batches ended up, as the bytes that were or would be held.
  datatype Ledger = Ledger(delivered: seq<Bytes>, refused: seq<Bytes>, dropped: seq<Bytes>, malformed: seq<Bytes>)

  datatype Box = Box(files: seq<File>, ledger: Ledger, at: nat)

  function Account(b: Box): multiset<Bytes> {
    Contents(b.files) + multiset(b.ledger.delivered) + multiset(b.ledger.refused)
    + multiset(b.ledger.dropped) + multiset(b.ledger.malformed)
  }

  function AllContents(files: seq<File>): (all: seq<Bytes>)
    ensures |all| == |files| && (forall k :: 0 <= k < |files| ==> all[k] == files[k].contents)
    ensures multiset(all) == Contents(files)
  {
    if files == [] then [] else
      assert multiset([files[0].contents] + AllContents(files[1..]))
          == multiset{files[0].contents} + multiset(AllContents(files[1..]));
      [files[0].contents] + AllContents(files[1..])
  }

  function StoreIn(b: Box, session: Bytes, body: Bytes, name: string): Box {
    var k := Excess(b.files, |body|);
    b.(files := Write(b.files[k..], File(name, Pack(session, body))),
       ledger := b.ledger.(dropped := b.ledger.dropped + AllContents(b.files[..k])))
  }

  // The oldest batch dealt with, or None when the cloud cannot take it yet.
  function DrainHead(cloud: Cloud, b: Box): (next: Option<Box>)
    requires b.files != []
    ensures next.Some? ==> next.value.files == b.files[1..]
    ensures next.None? ==> Send(cloud, b.at).0.Retryable?
  {
    var contents, rest, l := b.files[0].contents, b.files[1..], b.ledger;
    if Unpack(contents).None? then Some(Box(rest, l.(malformed := l.malformed + [contents]), b.at))
    else
      var (d, used) := Send(cloud, b.at);
      match d
      case Sent => Some(Box(rest, l.(delivered := l.delivered + [contents]), b.at + used))
      case Permanent(_) => Some(Box(rest, l.(refused := l.refused + [contents]), b.at + used))
      case Retryable => None
  }

  // Oldest first, and stopping at the first batch the cloud cannot take yet.
  function DrainBox(cloud: Cloud, b: Box): Box
    decreases |b.files|
  {
    if b.files == [] then b
    else
      var next := DrainHead(cloud, b);
      if next.Some? then DrainBox(cloud, next.value) else b.(at := b.at + SEND_ATTEMPTS)
  }

  // A live batch: sent, held, or refused for good.
  function Forward(cloud: Cloud, b: Box, session: Bytes, body: Bytes, name: string): Box {
    var (d, used) := Send(cloud, b.at);
    var tried, l := b.(at := b.at + used), b.ledger;
    match d
    case Sent => tried.(ledger := l.(delivered := l.delivered + [Pack(session, body)]))
    case Permanent(_) => tried.(ledger := l.(refused := l.refused + [Pack(session, body)]))
    case Retryable => StoreIn(tried, session, body, name)
  }

  lemma PushOne(s: seq<Bytes>, x: Bytes)
    ensures multiset(s + [x]) == multiset(s) + multiset{x}
  {
  }

  lemma HeadConserves(cloud: Cloud, b: Box)
    requires b.files != [] && DrainHead(cloud, b).Some?
    ensures Account(DrainHead(cloud, b).value) == Account(b)
  {
    var contents := b.files[0].contents;
    PushOne(b.ledger.malformed, contents);
    PushOne(b.ledger.delivered, contents);
    PushOne(b.ledger.refused, contents);
  }

  lemma {:induction false} DrainConserves(cloud: Cloud, b: Box)
    ensures Account(DrainBox(cloud, b)) == Account(b)
    decreases |b.files|
  {
    if b.files != [] && DrainHead(cloud, b).Some? {
      HeadConserves(cloud, b);
      DrainConserves(cloud, DrainHead(cloud, b).value);
    }
  }

  // What a drain leaves is a suffix, untouched and in order, headed by a batch that met
  // four transient answers in a row.
  lemma {:induction false} DrainLeavesASuffix(cloud: Cloud, b: Box) returns (k: nat)
    ensures k <= |b.files| && DrainBox(cloud, b).files == b.files[k..]
    ensures k < |b.files| ==>
              var end := DrainBox(cloud, b).at;
              end >= SEND_ATTEMPTS && forall i: nat :: end - SEND_ATTEMPTS <= i < end ==> Transient(cloud(i))
    ensures b.files != [] ==> (k == 0 <==> NEWLINE in b.files[0].contents && Outage(cloud, b.at))
    decreases |b.files|
  {
    if b.files != [] {
      HeldHasBreak(b.files[0].contents);
      OutageIsRetryable(cloud, b.at);
    }
    if b.files == [] || DrainHead(cloud, b).None? {
      k := 0;
    } else {
      k := DrainLeavesASuffix(cloud, DrainHead(cloud, b).value);
      assert b.files[1..][k..] == b.files[k + 1..];
      k := k + 1;
    }
  }

  // A drain leaves the outbox as it found it exactly when the oldest batch can be read
  // and the cloud is out for four attempts; and then nothing is filed either.
  lemma OutageKeepsEverything(cloud: Cloud, b: Box)
    requires b.files != []
    ensures DrainBox(cloud, b).files == b.files <==> NEWLINE in b.files[0].contents && Outage(cloud, b.at)
    ensures NEWLINE in b.files[0].contents && Outage(cloud, b.at) ==> DrainBox(cloud, b).ledger == b.ledger
  {
    HeldHasBreak(b.files[0].contents);
    OutageIsRetryable(cloud, b.at);
    if DrainHead(cloud, b).Some? { var k := DrainLeavesASuffix(cloud, DrainHead(cloud, b).value); }
  }

  predicate Subsequence<T(==)>(s: seq<T>, of: seq<T>) {
    s == [] || (of != [] && ((s[0] == of[0] && Subsequence(s[1..], of[1..])) || Subsequence(s, of[1..])))
  }

  lemma SubsequenceStep<T>(x: T, s: seq<T>, of: seq<T>)
    requires Subsequence(s, of)
    ensures Subsequence(s, [x] + of) && Subsequence([x] + s, [x] + of)
  {
    assert ([x] + of)[1..] == of && ([x] + s)[1..] == s;
  }

  lemma HeadDelivers(cloud: Cloud, b: Box)
    requires b.files != [] && DrainHead(cloud, b).Some?
    ensures var before, next := b.ledger.delivered, DrainHead(cloud, b).value.ledger.delivered;
            next == before || next == before + [b.files[0].contents]
    ensures AllContents(b.files) == [b.files[0].contents] + AllContents(b.files[1..])
  {
  }

  lemma DeliveredInOrder(before: seq<Bytes>, mid: seq<Bytes>, after: seq<Bytes>, x: Bytes, rest: seq<Bytes>)
    requires (mid == before || mid == before + [x]) && mid <= after && Subsequence(after[|mid|..], rest)
    ensures before <= after && Subsequence(after[|before|..], [x] + rest)
  {
    SubsequenceStep(x, after[|mid|..], rest);
    if mid != before {
      assert after[|before|] == mid[|before|] == x;
      assert after[|before|..] == [x] + after[|mid|..];
    }
  }

  // What a drain delivers follows what was delivered before, oldest first.
  lemma {:induction false} DrainDeliversInOrder(cloud: Cloud, b: Box)
    ensures b.ledger.delivered <= DrainBox(cloud, b).ledger.delivered
    ensures Subsequence(DrainBox(cloud, b).ledger.delivered[|b.ledger.delivered|..], AllContents(b.files))
    decreases |b.files|
  {
    if b.files != [] && DrainHead(cloud, b).Some? {
      var next := DrainHead(cloud, b).value;
      DrainDeliversInOrder(cloud, next);
      HeadDelivers(cloud, b);
      DeliveredInOrder(b.ledger.delivered, next.ledger.delivered, DrainBox(cloud, b).ledger.delivered,
                       b.files[0].contents, AllContents(b.files[1..]));
    }
  }

  lemma StoreConserves(b: Box, session: Bytes, body: Bytes, name: string)
    requires Unused(b.files, name)
    ensures Account(StoreIn(b, session, body, name)) == Account(b) + multiset{Pack(session, body)}
  {
    var k := Excess(b.files, |body|);
    DropKeeps(b.files, k);
    WriteAdds(b.files[k..], File(name, Pack(session, body)));
    assert multiset(b.ledger.dropped + AllContents(b.files[..k])) == multiset(b.ledger.dropped) + Contents(b.files[..k]);
  }

  // ── Whole forwarder runs ────────────────────────────────────────────────────

  // One message off the channel: a session, a run's lines joined, and the file name
  // it would be held under.
  datatype Batch = Batch(session: Bytes, lines: seq<Bytes>, name: string)

  function Join(lines: seq<Bytes>): Bytes {
    if lines == [] then []
    else if |lines| == 1 then lines[0]
    else lines[0] + [NEWLINE] + Join(lines[1..])
  }

  function Receive(cloud: Cloud, b: Box, batch: Batch): Box {
    if batch.lines == [] then b else Forward(cloud, b, batch.session, Join(batch.lines), batch.name)
  }

  function ReceiveAll(cloud: Cloud, b: Box, batches: seq<Batch>): Box
    decreases |batches|
  {
    if batches == [] then b
    else ReceiveAll(cloud, Receive(cloud, b, batches[0]), batches[1..])
  }

  function Received(batches: seq<Batch>): multiset<Bytes> {
    if batches == [] then multiset{}
    else (if batches[0].lines == [] then multiset{} else multiset{Pack(batches[0].session, Join(batches[0].lines))})
         + Received(batches[1..])
  }

  // Names carry a UUID, so none is ever used twice.
  ghost predicate FreshNames(files: seq<File>, batches: seq<Batch>) {
    && (forall k :: 0 <= k < |batches| ==> Unused(files, batches[k].name))
    && (forall j, k :: 0 <= j < k < |batches| ==> batches[j].name != batches[k].name)
  }

  lemma ReceiveKeepsNamesFresh(cloud: Cloud, b: Box, batches: seq<Batch>)
    requires batches != [] && FreshNames(b.files, batches)
    ensures FreshNames(Receive(cloud, b, batches[0]).files, batches[1..])
  {
    var first, next := batches[0], Receive(cloud, b, batches[0]);
    var kept := b.files[Excess(b.files, |Join(first.lines)|)..];
    forall k | 0 <= k < |batches[1..]| ensures Unused(next.files, batches[1..][k].name) {
      assert batches[1..][k] == batches[k + 1];
      assert Unused(b.files, batches[k + 1].name);
      WriteKeepsUnused(kept, File(first.name, Pack(first.session, Join(first.lines))), batches[k + 1].name);
    }
  }

  lemma DeliveringConserves(b: Box, at: nat, x: Bytes)
    ensures Account(b.(at := at, ledger := b.ledger.(delivered := b.ledger.delivered + [x]))) == Account(b) + multiset{x}
  {
    PushOne(b.ledger.delivered, x);
  }

  lemma RefusingConserves(b: Box, at: nat, x: Bytes)
    ensures Account(b.(at := at, ledger := b.ledger.(refused := b.ledger.refused + [x]))) == Account(b) + multiset{x}
  {
    PushOne(b.ledger.refused, x);
  }

  lemma ForwardConserves(cloud: Cloud, b: Box, session: Bytes, body: Bytes, name: string)
    requires Unused(b.files, name)
    ensures Account(Forward(cloud, b, session, body, name)) == Account(b) + multiset{Pack(session, body)}
  {
    var (d, used) := Send(cloud, b.at);
    match d
    case Sent => DeliveringConserves(b, b.at + used, Pack(session, body));
    case Permanent(_) => RefusingConserves(b, b.at + used, Pack(session, body));
    case Retryable => StoreConserves(b.(at := b.at + used), session, body, name);
  }

  lemma ReceiveConserves(cloud: Cloud, b: Box, batch: Batch)
    requires Unused(b.files, batch.name)
    ensures Account(Receive(cloud, b, batch)) == Account(b) + Received([batch])
  {
    assert [batch][1..] == [];
    if batch.lines != [] {
      ForwardConserves(cloud, b, batch.session, Join(batch.lines), batch.name);
    }
  }

  // Over any messages and any answers of the cloud, what was held at the start and what
  // was received since is all accounted for, once: delivered, held, refused for good,
  // dropped for the cap, or found malformed.
  lemma {:induction false} NothingIsLost(cloud: Cloud, b: Box, batches: seq<Batch>)
    requires FreshNames(b.files, batches)
    ensures Account(ReceiveAll(cloud, b, batches)) == Account(b) + Received(batches)
    decreases |batches|
  {
    if batches != [] {
      ReceiveConserves(cloud, b, batches[0]);
      ReceiveKeepsNamesFresh(cloud, b, batches);
      NothingIsLost(cloud, Receive(cloud, b, batches[0]), batches[1..]);
      assert [batches[0]][1..] == [];
    }
  }

  lemma ForwarderRunConserves(cloud: Cloud, b: Box, batches: seq<Batch>)
    requires FreshNames(DrainBox(cloud, b).files, batches)
    ensures Account(ReceiveAll(cloud, DrainBox(cloud, b), batches)) == Account(b) + Received(batches)
  {
    DrainConserves(cloud, b);
    NothingIsLost(cloud, DrainBox(cloud, b), batches);
  }

  // ── The size bound ──────────────────────────────────────────────────────────

  function Max(a: nat, b: nat): nat {
    if a < b then b else a
  }

  // The cap counts the incoming body and not its session line, so a store can pass it
  // by the session and one line break, and by no more.
  lemma StoreBounds(b: Box, session: Bytes, body: Bytes, name: string)
    ensures Held(StoreIn(b, session, body, name).files) <= Max(MAX_SPOOL_BYTES, |body|) + |session| + 1
  {
    var k := Excess(b.files, |body|);
    ExcessIsShortest(b.files, |body|);
    WriteBounds(b.files[k..], File(name, Pack(session, body)));
    if k == |b.files| { assert b.files[k..] == []; }
  }

  predicate Within(batch: Batch, largestBody: nat, longestSession: nat) {
    |Join(batch.lines)| <= largestBody && |batch.session| <= longestSession
  }

  lemma ReceiveBounds(cloud: Cloud, b: Box, batch: Batch, largestBody: nat, longestSession: nat)
    requires Within(batch, largestBody, longestSession)
    ensures Held(Receive(cloud, b, batch).files)
            <= Max(Held(b.files), Max(MAX_SPOOL_BYTES, largestBody) + longestSession + 1)
  {
    if batch.lines != [] && Send(cloud, b.at).0.Retryable? {
      StoreBounds(b.(at := b.at + Send(cloud, b.at).1), batch.session, Join(batch.lines), batch.name);
    }
  }

  lemma {:induction false} HeldIsBounded(cloud: Cloud, b: Box, batches: seq<Batch>, largestBody: nat, longestSession: nat)
    requires forall k :: 0 <= k < |batches| ==> Within(batches[k], largestBody, longestSession)
    ensures Held(ReceiveAll(cloud, b, batches).files)
            <= Max(Held(b.files), Max(MAX_SPOOL_BYTES, largestBody) + longestSession + 1)
    decreases |batches|
  {
    if batches != [] {
      ReceiveBounds(cloud, b, batches[0], largestBody, longestSession);
      HeldIsBounded(cloud, Receive(cloud, b, batches[0]), batches[1..], largestBody, longestSession);
    }
  }

  lemma DrainShrinks(cloud: Cloud, b: Box)
    ensures Held(DrainBox(cloud, b).files) <= Held(b.files)
  {
    var k := DrainLeavesASuffix(cloud, b);
    DropKeeps(b.files, k);
  }

  // The ceiling holds after a store exactly when the session line fits too.
  lemma CeilingHolds(b: Box, session: Bytes, body: Bytes, name: string)
    requires Unused(b.files, name)
    ensures Held(StoreIn(b, session, body, name).files) <= MAX_SPOOL_BYTES
            <==> Held(b.files[Excess(b.files, |body|)..]) + |session| + 1 + |body| <= MAX_SPOOL_BYTES
  {
    WriteAdds(b.files[Excess(b.files, |body|)..], File(name, Pack(session, body)));
  }

  function Filler(n: nat): Bytes {
    seq(n, i => 0)
  }

  // An outbox that leaves exactly room for the body: one held batch, or none when the
  // body and its session are too much by themselves.
  function NearlyFull(session: Bytes, body: Bytes, first: string, l: Ledger, at: nat): Box {
    var spare := MAX_SPOOL_BYTES - |body| - |session| - 1;
    if spare < 0 then Box([], l, at) else StoreIn(Box([], l, at), session, Filler(spare), first)
  }

  // Every batch meets an outbox, filled by at most one store, that is within the ceiling
  // before it and past it after.
  lemma CapIsPassedByTheSessionLine(session: Bytes, body: Bytes, first: string, name: string, l: Ledger, at: nat)
    requires first != name
    ensures var b := NearlyFull(session, body, first, l, at);
            Held(b.files) <= MAX_SPOOL_BYTES < Held(StoreIn(b, session, body, name).files)
  {
    var b, spare := NearlyFull(session, body, first, l, at), MAX_SPOOL_BYTES - |body| - |session| - 1;
    if spare >= 0 {
      var f := File(first, Pack(session, Filler(spare)));
      var none: seq<File> := [];
      assert none[Excess(none, spare)..] == none;
      assert b.files == [f] && Held([f]) == |f.contents| + Held([f][1..]);
      assert Excess([f], |body|) == 0 && [f][0..] == [f];
    }
    CeilingHolds(b, session, body, name);
  }

  // ── Run after run ───────────────────────────────────────────────────────────

  // What one governor's forwarder does with the outbox it finds: its own connection to
  // the cloud, the drain, then its batches.
  datatype Shift = Shift(cloud: Cloud, batches: seq<Batch>)

  function Work(b: Box, shift: Shift): Box {
    ReceiveAll(shift.cloud, DrainBox(shift.cloud, b.(at := 0)), shift.batches)
  }

  function WorkAll(b: Box, shifts: seq<Shift>): Box
    decreases |shifts|
  {
    if |shifts| == 0 then b else WorkAll(Work(b, shifts[0]), shifts[1..])
  }

  ghost predicate NamesStayFresh(b: Box, shifts: seq<Shift>)
    decreases |shifts|
  {
    |shifts| == 0
    || (FreshNames(DrainBox(shifts[0].cloud, b.(at := 0)).files, shifts[0].batches)
        && NamesStayFresh(Work(b, shifts[0]), shifts[1..]))
  }

  function ReceivedByAll(shifts: seq<Shift>): multiset<Bytes>
    decreases |shifts|
  {
    if |shifts| == 0 then multiset{} else Received(shifts[0].batches) + ReceivedByAll(shifts[1..])
  }

  // Over any number of governors, one after another on the same outbox.
  lemma {:induction false} NothingIsLostAcrossRuns(b: Box, shifts: seq<Shift>)
    requires NamesStayFresh(b, shifts)
    ensures Account(WorkAll(b, shifts)) == Account(b) + ReceivedByAll(shifts)
    decreases |shifts|
  {
    if |shifts| > 0 {
      ForwarderRunConserves(shifts[0].cloud, b.(at := 0), shifts[0].batches);
      NothingIsLostAcrossRuns(Work(b, shifts[0]), shifts[1..]);
    }
  }

  lemma WorkBounds(b: Box, shift: Shift, largestBody: nat, longestSession: nat)
    requires forall k :: 0 <= k < |shift.batches| ==> Within(shift.batches[k], largestBody, longestSession)
    ensures Held(Work(b, shift).files) <= Max(Held(b.files), Max(MAX_SPOOL_BYTES, largestBody) + longestSession + 1)
  {
    var start := b.(at := 0);
    DrainShrinks(shift.cloud, start);
    HeldIsBounded(shift.cloud, DrainBox(shift.cloud, start), shift.batches, largestBody, longestSession);
  }

  lemma {:induction false} HeldIsBoundedAcrossRuns(b: Box, shifts: seq<Shift>, largestBody: nat, longestSession: nat)
    requires forall i, k :: 0 <= i < |shifts| && 0 <= k < |shifts[i].batches| ==>
               Within(shifts[i].batches[k], largestBody, longestSession)
    ensures Held(WorkAll(b, shifts).files)
            <= Max(Held(b.files), Max(MAX_SPOOL_BYTES, largestBody) + longestSession + 1)
    decreases |shifts|
  {
    if |shifts| > 0 {
      WorkBounds(b, shifts[0], largestBody, longestSession);
      HeldIsBoundedAcrossRuns(Work(b, shifts[0]), shifts[1..], largestBody, longestSession);
    }
  }

  lemma ListingSuffix(files: seq<File>, k: nat)
    requires k <= |files| && Listing(files)
    ensures Listing(files[k..])
  {
  }

  lemma OldestGoes(files: seq<File>, k: nat, incoming: nat)
    requires k < |files| && Held(files[k..]) + incoming > MAX_SPOOL_BYTES
    ensures files[k..][1..] == files[k + 1..] && files[k..][0] == files[k]
    ensures Excess(files[k..], incoming) == 1 + Excess(files[k + 1..], incoming)
    ensures Held(files[k..]) == |files[k].contents| + Held(files[k + 1..])
  {
    assert files[k..][1..] == files[k + 1..];
  }

  // ── The outbox in place ─────────────────────────────────────────────────────

  datatype Disk = Disk(live: seq<File>, sandbox: seq<File>)
  {
    function Dir(env: Environment): seq<File> {
      if env.Live? then live else sandbox
    }

    function With(env: Environment, files: seq<File>): (d: Disk)
      ensures d.Dir(env) == files && d.Dir(Other(env)) == Dir(Other(env))
    {
      if env.Live? then this.(live := files) else this.(sandbox := files)
    }
  }

  // Both environments' directories lie side by side; a spool works in one of them.
  class Spool {
    const environment: Environment
    var disk: Disk
    ghost var ledger: Ledger

    ghost predicate Valid()
      reads this
    {
      Listing(disk.Dir(environment))
    }

    ghost function View(at: nat): Box
      requires Valid()
      reads this
    {
      Box(disk.Dir(environment), ledger, at)
    }

    constructor (found: Disk, apiKey: string)
      requires Listing(found.Dir(EnvironmentOf(apiKey)))
      ensures Valid() && disk == found && (environment.Sandbox? <==> "nny_sdbx_" <= apiKey)
      ensures View(0) == Box(found.Dir(environment), Ledger([], [], [], []), 0)
    {
      environment, disk, ledger := EnvironmentOf(apiKey), found, Ledger([], [], [], []);
    }

    method EnforceCap(incoming: nat)
      requires Valid()
      modifies this
      ensures Valid() && disk.Dir(Other(environment)) == old(disk).Dir(Other(environment))
      ensures var files := old(disk).Dir(environment);
              var k := Excess(files, incoming);
              && disk.Dir(environment) == files[k..]
              && ledger == old(ledger).(dropped := old(ledger).dropped + AllContents(files[..k]))
    {
      ghost var files := disk.Dir(environment);
      var entries := disk.Dir(environment);
      var total := Held(entries);
      ghost var k := 0;
      assert files[0..] == files;
      while total + incoming > MAX_SPOOL_BYTES && entries != []
        invariant k <= |files| && entries == files[k..] && total == Held(entries)
        invariant Excess(files, incoming) == k + Excess(entries, incoming)
        invariant disk == old(disk).With(environment, entries)
        invariant ledger == old(ledger)
        decreases |entries|
      {
        var oldest := entries[0];
        OldestGoes(files, k, incoming);
        entries := entries[1..];
        disk := disk.With(environment, entries);
        total := if total < |oldest.contents| then 0 else total - |oldest.contents|;
        k := k + 1;
      }
      ListingSuffix(files, k);
      ledger := ledger.(dropped := ledger.dropped + AllContents(files[..k]));
    }

    method Store(session: Bytes, body: Bytes, name: string, ghost at: nat)
      requires Valid()
      modifies this
      ensures Valid() && disk.Dir(Other(environment)) == old(disk).Dir(Other(environment))
      ensures View(at) == StoreIn(old(View(at)), session, body, name)
    {
      EnforceCap(|body|);
      var f := File(name, session + [NEWLINE] + body);
      WriteKeepsListing(disk.Dir(environment), f);
      disk := disk.With(environment, Write(disk.Dir(environment), f));
    }

    // The oldest batch: sent or given up and removed, or left because the cloud cannot
    // take it yet.
    method DrainOldest(cloud: Cloud, at: nat) returns (next: bool, sent: bool, end: nat)
      requires Valid() && disk.Dir(environment) != []
      modifies this
      ensures Valid() && disk.Dir(Other(environment)) == old(disk).Dir(Other(environment))
      ensures next == DrainHead(cloud, old(View(at))).Some?
      ensures if next then View(end) == DrainHead(cloud, old(View(at))).value
              else View(end) == old(View(at)).(at := at + SEND_ATTEMPTS)
      ensures |ledger.delivered| == |old(ledger).delivered| + if sent then 1 else 0
    {
      var contents, rest := disk.Dir(environment)[0].contents, disk.Dir(environment)[1..];
      next, sent, end := true, false, at;
      if Unpack(contents).None? {
        ledger := ledger.(malformed := ledger.malformed + [contents]);
      } else {
        var d, used, slept := SendBatch(cloud, at);
        end := at + used;
        match d {
          case Sent =>
            ledger := ledger.(delivered := ledger.delivered + [contents]);
            sent := true;
          case Permanent(_) => ledger := ledger.(refused := ledger.refused + [contents]);
          case Retryable => next := false;
        }
      }
      if next { disk := disk.With(environment, rest); }
    }

    method Drain(cloud: Cloud, at: nat) returns (delivered: nat, end: nat)
      requires Valid()
      modifies this
      ensures Valid() && disk.Dir(Other(environment)) == old(disk).Dir(Other(environment))
      ensures View(end) == DrainBox(cloud, old(View(at)))
      ensures |ledger.delivered| == |old(ledger).delivered| + delivered
      ensures var files := old(disk).Dir(environment);
              files != [] && NEWLINE in files[0].contents && Outage(cloud, at) ==>
                disk.Dir(environment) == files && ledger == old(ledger) && delivered == 0
    {
      ghost var start := View(at);
      if start.files != [] { OutageKeepsEverything(cloud, start); }
      delivered, end := 0, at;
      while disk.Dir(environment) != []
        invariant Valid() && disk.Dir(Other(environment)) == old(disk).Dir(Other(environment))
        invariant DrainBox(cloud, View(end)) == DrainBox(cloud, start)
        invariant |ledger.delivered| == |old(ledger).delivered| + delivered
        decreases |disk.Dir(environment)|
      {
        var next, sent;
        next, sent, end := DrainOldest(cloud, end);
        if sent { delivered := delivered + 1; }
        if !next { return; }
      }
    }

    method ForwardOne(cloud: Cloud, batch: Batch, at: nat) returns (end: nat)
      requires Valid()
      modifies this
      ensures Valid() && disk.Dir(Other(environment)) == old(disk).Dir(Other(environment))
      ensures View(end) == Receive(cloud, old(View(at)), batch)
    {
      end := at;
      if batch.lines == [] { return; }
      var body := Join(batch.lines);
      var d, used, slept := SendBatch(cloud, at);
      end := at + used;
      match d {
        case Sent => ledger := ledger.(delivered := ledger.delivered + [Pack(batch.session, body)]);
        case Permanent(_) => ledger := ledger.(refused := ledger.refused + [Pack(batch.session, body)]);
        case Retryable => Store(batch.session, body, batch.name, end);
      }
    }

    // The forwarder thread: what an earlier run left, then this run's own batches.
    method ForwardAll(cloud: Cloud, batches: seq<Batch>) returns (end: nat)
      requires Valid()
      modifies this
      ensures Valid() && disk.Dir(Other(environment)) == old(disk).Dir(Other(environment))
      ensures View(end) == ReceiveAll(cloud, DrainBox(cloud, old(View(0))), batches)
    {
      var recovered, at := Drain(cloud, 0);
      end := at;
      ghost var start := View(end);
      var i := 0;
      assert batches[0..] == batches;
      while i < |batches|
        invariant 0 <= i <= |batches| && Valid() && disk.Dir(Other(environment)) == old(disk).Dir(Other(environment))
        invariant ReceiveAll(cloud, View(end), batches[i..]) == ReceiveAll(cloud, start, batches)
      {
        assert batches[i..][0] == batches[i] && batches[i..][1..] == batches[i + 1..];
        end := ForwardOne(cloud, batches[i], end);
        i := i + 1;
      }
    }
  }
}
