// What a drain does with each held batch, told by the cloud's answers alone.
module Drains {
  import opened Text
  import opened Utf8
  import opened Outbox

  datatype HeldFate = Unreadable | TakenIn | TurnedDown | KeptBack

  // The attempts from `at` up to `next`: four at the most, and every one but the last
  // met a transient answer.
  ghost predicate Tried(cloud: Cloud, at: nat, next: nat) {
    at < next <= at + 4 && forall i: nat :: at <= i < next - 1 ==> Transient(cloud(i))
  }

  // A batch without a line break is not sent. One that is sent is taken in, turned down,
  // or kept back after four transient answers.
  ghost predicate Meets(cloud: Cloud, at: nat, next: nat, contents: Bytes, fate: HeldFate) {
    match fate
    case Unreadable => NEWLINE !in contents && next == at
    case TakenIn => NEWLINE in contents && Tried(cloud, at, next) && Accepts(cloud(next - 1))
    case TurnedDown =>
      NEWLINE in contents && Tried(cloud, at, next) && !Accepts(cloud(next - 1)) && !Transient(cloud(next - 1))
    case KeptBack => NEWLINE in contents && Tried(cloud, at, next) && next == at + 4 && Transient(cloud(next - 1))
  }

  // The contents of the files of one fate, oldest first.
  function OfFate(files: seq<File>, fates: seq<HeldFate>, fate: HeldFate): seq<Bytes>
    requires |fates| <= |files|
  {
    if fates == [] then []
    else (if fates[0] == fate then [files[0].contents] else []) + OfFate(files[1..], fates[1..], fate)
  }

  // Files met their fates in turn, the attempts for each starting where the ones before
  // it ended.
  ghost predicate InTurn(cloud: Cloud, files: seq<File>, fates: seq<HeldFate>, ats: seq<nat>) {
    && |fates| <= |files| && |ats| == |fates| + 1
    && (forall i :: 0 <= i < |fates| ==> Meets(cloud, ats[i], ats[i + 1], files[i].contents, fates[i]))
  }

  // Only the last one met can be kept back, and what is left starts with it; with none
  // kept back nothing is left.
  ghost predicate Leaves(files: seq<File>, fates: seq<HeldFate>, left: seq<File>) {
    && |fates| <= |files|
    && (forall i :: 0 <= i < |fates| - 1 ==> fates[i] != KeptBack)
    && if fates != [] && fates[|fates| - 1] == KeptBack then left == files[|fates| - 1..]
       else |fates| == |files| && left == []
  }

  ghost predicate Filed(files: seq<File>, fates: seq<HeldFate>, before: Ledger, after: Ledger)
    requires |fates| <= |files|
  {
    && after.delivered == before.delivered + OfFate(files, fates, TakenIn)
    && after.refused == before.refused + OfFate(files, fates, TurnedDown)
    && after.malformed == before.malformed + OfFate(files, fates, Unreadable)
    && after.dropped == before.dropped
  }

  ghost predicate Drained(cloud: Cloud, b: Box, end: Box, fates: seq<HeldFate>, ats: seq<nat>) {
    && InTurn(cloud, b.files, fates, ats) && ats[0] == b.at && ats[|fates|] == end.at
    && Leaves(b.files, fates, end.files) && Filed(b.files, fates, b.ledger, end.ledger)
  }

  // ── One file ────────────────────────────────────────────────────────────────

  lemma SendMeets(cloud: Cloud, at: nat, contents: Bytes)
    requires NEWLINE in contents
    ensures var (d, used) := Send(cloud, at);
            Meets(cloud, at, at + used, contents, match d case Sent => TakenIn case Permanent(_) => TurnedDown case Retryable => KeptBack)
  {
    var k := Failures(cloud, at, SEND_ATTEMPTS);
    assert forall i: nat :: at <= i < at + k ==> Transient(cloud(i));
    if k == SEND_ATTEMPTS { assert Transient(cloud(at + 3)); }
  }

  function HeadFate(cloud: Cloud, b: Box): HeldFate
    requires b.files != []
  {
    if NEWLINE !in b.files[0].contents then Unreadable
    else match Send(cloud, b.at).0 case Sent => TakenIn case Permanent(_) => TurnedDown case Retryable => KeptBack
  }

  function One(fate: HeldFate, wanted: HeldFate, x: Bytes): seq<Bytes> {
    if fate == wanted then [x] else []
  }

  lemma HeadMeets(cloud: Cloud, b: Box)
    requires b.files != []
    ensures var fate, x, next := HeadFate(cloud, b), b.files[0].contents, DrainHead(cloud, b);
            && (next.Some? <==> fate != KeptBack)
            && Meets(cloud, b.at, if next.Some? then next.value.at else b.at + 4, x, fate)
            && (next.Some? ==>
                  && next.value.files == b.files[1..]
                  && next.value.ledger == b.ledger.(delivered := b.ledger.delivered + One(fate, TakenIn, x),
                                                    refused := b.ledger.refused + One(fate, TurnedDown, x),
                                                    malformed := b.ledger.malformed + One(fate, Unreadable, x)))
  {
    var x := b.files[0].contents;
    UnpackIsInverse(x);
    HeldHasBreak(x);
    if NEWLINE in x { SendMeets(cloud, b.at, x); }
    assert b.ledger.delivered + [] == b.ledger.delivered && b.ledger.refused + [] == b.ledger.refused
           && b.ledger.malformed + [] == b.ledger.malformed;
  }

  // ── The whole drain ─────────────────────────────────────────────────────────

  lemma NothingFiled(files: seq<File>, fate: HeldFate, l: Ledger)
    ensures Filed([], [], l, l)
    ensures files != [] && fate == KeptBack ==> Filed(files, [fate], l, l)
  {
    assert [fate][1..] == [];
    assert l.delivered + [] == l.delivered && l.refused + [] == l.refused && l.malformed + [] == l.malformed;
  }

  lemma Joined(a: seq<Bytes>, b: seq<Bytes>, c: seq<Bytes>)
    ensures (a + b) + c == a + (b + c)
  {
  }

  lemma OneMoreFiled(files: seq<File>, fate: HeldFate, rest: seq<HeldFate>, l: Ledger, mid: Ledger, end: Ledger)
    requires |rest| < |files| && Filed(files[1..], rest, mid, end)
    requires var x := files[0].contents;
             mid == l.(delivered := l.delivered + One(fate, TakenIn, x), refused := l.refused + One(fate, TurnedDown, x),
                       malformed := l.malformed + One(fate, Unreadable, x))
    ensures Filed(files, [fate] + rest, l, end)
  {
    var x := files[0].contents;
    assert ([fate] + rest)[1..] == rest;
    Joined(l.delivered, One(fate, TakenIn, x), OfFate(files[1..], rest, TakenIn));
    Joined(l.refused, One(fate, TurnedDown, x), OfFate(files[1..], rest, TurnedDown));
    Joined(l.malformed, One(fate, Unreadable, x), OfFate(files[1..], rest, Unreadable));
  }

  lemma OneMoreInTurn(cloud: Cloud, files: seq<File>, fate: HeldFate, rest: seq<HeldFate>, at: nat, ats: seq<nat>)
    requires files != [] && InTurn(cloud, files[1..], rest, ats) && Meets(cloud, at, ats[0], files[0].contents, fate)
    ensures InTurn(cloud, files, [fate] + rest, [at] + ats)
  {
    var fates, all := [fate] + rest, [at] + ats;
    forall i | 0 <= i < |fates| ensures Meets(cloud, all[i], all[i + 1], files[i].contents, fates[i]) {
      if i > 0 { assert files[1..][i - 1] == files[i] && all[i] == ats[i - 1] && all[i + 1] == ats[i]; }
    }
  }

  lemma OneMoreLeaves(files: seq<File>, fate: HeldFate, rest: seq<HeldFate>, left: seq<File>)
    requires files != [] && fate != KeptBack && Leaves(files[1..], rest, left)
    ensures Leaves(files, [fate] + rest, left)
  {
    var fates := [fate] + rest;
    assert rest != [] ==> fates[|fates| - 1] == rest[|rest| - 1] && files[1..][|rest| - 1..] == files[|fates| - 1..];
  }

  // Over any files and any answers, each file in turn met its fate by the answers to its
  // own attempts, and is filed under it or, with all after it, still held.
  lemma {:induction false} DrainIsDrained(cloud: Cloud, b: Box) returns (fates: seq<HeldFate>, ats: seq<nat>)
    ensures Drained(cloud, b, DrainBox(cloud, b), fates, ats)
    decreases |b.files|
  {
    if b.files == [] {
      fates, ats := [], [b.at];
      NothingFiled(b.files, KeptBack, b.ledger);
    } else {
      var fate := HeadFate(cloud, b);
      HeadMeets(cloud, b);
      if fate == KeptBack {
        fates, ats := [fate], [b.at, b.at + 4];
        NothingFiled(b.files, fate, b.ledger);
        assert b.files[0..] == b.files;
      } else {
        var next := DrainHead(cloud, b).value;
        var fs, more := DrainIsDrained(cloud, next);
        fates, ats := [fate] + fs, [b.at] + more;
        OneMoreInTurn(cloud, b.files, fate, fs, b.at, more);
        OneMoreLeaves(b.files, fate, fs, DrainBox(cloud, next).files);
        OneMoreFiled(b.files, fate, fs, b.ledger, next.ledger, DrainBox(cloud, next).ledger);
      }
    }
  }
}
