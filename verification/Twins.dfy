// When the byte stream of a pack fixes its files: which packs share theirs with a pack
// that holds other files, and why.
module Twins {
  import opened Text
  import opened Utf8
  import opened Digest

  predicate NoZero(bytes: Bytes) {
    0 !in bytes
  }

  ghost predicate ZeroFree(n: Node) {
    forall p :: FileAt(n, p).Some? ==> NoZero(FileAt(n, p).value)
  }

  // Every file's path is written as it is.
  ghost predicate Plain(n: Node) {
    forall p :: FileAt(n, p).Some? ==> Verbatim(p)
  }

  // A pack as it is found: a directory, listed in some order, with file system names.
  ghost predicate Pack(order: Order, n: Node) {
    n.Dir? && Enumerates(order, n, []) && Named(n)
  }

  // ── Reading a stream back ───────────────────────────────────────────────────

  lemma {:induction false} EncodeHasNoZero(s: string)
    requires '\0' !in s
    ensures NoZero(Encode(s))
  {
    if s != "" {
      EncodeHasNoZero(s[1..]);
      assert s[0] as int != 0;
    }
  }

  lemma UpToZero(p: Bytes, x: Bytes, q: Bytes, y: Bytes)
    requires NoZero(p) && NoZero(q) && p + [0] + x == q + [0] + y
    ensures p == q && x == y
  {
    var s, t := p + [0] + x, q + [0] + y;
    assert s[|p|] == 0 && t[|q|] == 0;
    assert forall i :: 0 <= i < |p| ==> s[i] == p[i] && p[i] in p;
    assert forall i :: 0 <= i < |q| ==> t[i] == q[i] && q[i] in q;
    assert |p| == |q|;
    assert p == s[..|p|] && q == t[..|q|] && x == s[|p| + 1..] && y == t[|q| + 1..];
  }

  lemma FrameSplits(r: string, c: Bytes, x: Bytes, r': string, c': Bytes, y: Bytes)
    requires '\0' !in r && '\0' !in r'
    requires Frame(r, c) + x == Frame(r', c') + y
    ensures r == r' && c + [0] + x == c' + [0] + y
    ensures NoZero(c) && NoZero(c') ==> c == c' && x == y
  {
    EncodeHasNoZero(r);
    EncodeHasNoZero(r');
    assert Frame(r, c) + x == Encode(r) + [0] + (c + [0] + x);
    assert Frame(r', c') + y == Encode(r') + [0] + (c' + [0] + y);
    UpToZero(Encode(r), c + [0] + x, Encode(r'), c' + [0] + y);
    EncodeTellsApart(r, r');
    if NoZero(c) && NoZero(c') { UpToZero(c, x, c', y); }
  }

  // Every path reads back as something, and no zero is met on the way.
  predicate Clean(read: Reader, rels: seq<string>) {
    forall r :: r in rels ==> '\0' !in r && read(r).Some? && NoZero(read(r).value)
  }

  lemma {:induction false} CleanStream(read: Reader, rels: seq<string>)
    requires Clean(read, rels)
    ensures Stream(read, rels).Some? && (Stream(read, rels).value == [] <==> rels == [])
  {
    if rels != [] {
      assert rels[0] in rels && forall r :: r in rels[1..] ==> r in rels;
      CleanStream(read, rels[1..]);
    }
  }

  lemma {:induction false} StreamTellsApart(a: Reader, ra: seq<string>, b: Reader, rb: seq<string>)
    requires Clean(a, ra) && Clean(b, rb) && Stream(a, ra) == Stream(b, rb)
    ensures ra == rb && forall r :: r in ra ==> a(r) == b(r)
    decreases |ra|
  {
    CleanStream(a, ra);
    CleanStream(b, rb);
    if ra != [] {
      var r, r' := ra[0], rb[0];
      assert ra == [r] + ra[1..] && rb == [r'] + rb[1..];
      CleanStream(a, ra[1..]);
      CleanStream(b, rb[1..]);
      FrameSplits(r, a(r).value, Stream(a, ra[1..]).value, r', b(r').value, Stream(b, rb[1..]).value);
      StreamTellsApart(a, ra[1..], b, rb[1..]);
    }
  }

  // ── Paths as they are written ───────────────────────────────────────────────

  lemma WrittenPaths(order: Order, n: Node, p: Path)
    requires Pack(order, n) && FileAt(n, p).Some?
    ensures p != [] && '\0' !in Rel(p)
    ensures p != MANIFEST_PATH ==> Rel(p) in Files(order, n)
    ensures !Verbatim(p) ==> p != MANIFEST_PATH
    ensures Verbatim(p) ==> PathOf(Rel(p)) == p
  {
    FilesMembers(order, n);
    assert NamedPath(p);
    RelHasNoZero(p);
    if Verbatim(p) {
      VerbatimReadsBack(p);
      if p != MANIFEST_PATH { OnlyOnePathIsManifest(p); }
    } else {
      RewrittenIsNoManifest(p);
    }
  }

  lemma FilesAreClean(order: Order, n: Node, around: Reader)
    requires Pack(order, n) && ZeroFree(n) && Digested(order, n, around).Some?
    requires forall r :: around(r).Some? ==> NoZero(around(r).value)
    ensures Clean(ReaderOf(n, around), Files(order, n))
  {
    var read := ReaderOf(n, around);
    FilesMembers(order, n);
    StreamExists(read, Files(order, n));
    forall r | r in Files(order, n) ensures '\0' !in r && read(r).Some? && NoZero(read(r).value) {
      var p :| FileAt(n, p).Some? && r == Rel(p);
      WrittenPaths(order, n, p);
    }
  }

  lemma {:induction false} KeptOnce(paths: seq<Path>)
    requires NoRepeats(paths) && forall i :: 0 <= i < |paths| ==> PathOf(Rel(paths[i])) == paths[i]
    ensures NoRepeats(Kept(paths))
  {
    if paths != [] {
      var p, rest := paths[0], paths[1..];
      KeptOnce(rest);
      assert paths == [p] + rest;
      WrittenApart(p, rest);
      NoRepeatsInBoth(KeptOne(p), Kept(rest));
    }
  }

  lemma WrittenApart(p: Path, others: seq<Path>)
    requires p !in others && PathOf(Rel(p)) == p && forall q :: q in others ==> PathOf(Rel(q)) == q
    ensures Rel(p) !in Kept(others)
  {
    KeptMembers(others);
  }

  lemma NoRepeatsByCount<T>(a: seq<T>, b: seq<T>)
    requires multiset(a) == multiset(b) && NoRepeats(a)
    ensures NoRepeats(b)
  {
    forall i, j | 0 <= i < j < |b| ensures b[i] != b[j] {
      if b[i] == b[j] {
        CountsTwice(b, i, j);
        CountsOnce(a, b[i]);
      }
    }
  }

  lemma CountsTwice<T>(s: seq<T>, i: nat, j: nat)
    requires i < j < |s| && s[i] == s[j]
    ensures multiset(s)[s[i]] >= 2
  {
    assert s == s[..i] + [s[i]] + (s[i + 1..j] + [s[j]] + s[j + 1..]);
  }

  lemma {:induction false} CountsOnce<T>(s: seq<T>, x: T)
    requires NoRepeats(s)
    ensures multiset(s)[x] <= 1
  {
    if s != [] {
      CountsOnce(s[1..], x);
      assert s == [s[0]] + s[1..];
      assert s[0] !in s[1..];
    }
  }

  // The paths of a pack written as they are are written once each.
  lemma WrittenOnce(order: Order, n: Node)
    requires Pack(order, n) && Plain(n)
    ensures NoRepeats(Files(order, n))
  {
    var walk := Walk(order, n, []);
    WalkFinds(order, n, []);
    forall i | 0 <= i < |walk| ensures PathOf(Rel(walk[i])) == walk[i] {
      assert walk[i] in walk && Leads(n, [], walk[i]) && walk[i][0..] == walk[i];
      WrittenPaths(order, n, walk[i]);
    }
    KeptOnce(walk);
    NoRepeatsByCount(Kept(walk), Files(order, n));
  }

  // Two paths written alike are written twice.
  lemma WrittenTwice(order: Order, n: Node, p: Path, q: Path)
    requires Pack(order, n) && FileAt(n, p).Some? && FileAt(n, q).Some? && p != q && Rel(p) == Rel(q)
    requires !Verbatim(p)
    ensures !NoRepeats(Files(order, n))
  {
    var walk := Walk(order, n, []);
    WalkFinds(order, n, []);
    assert p[0..] == p && q[0..] == q;
    assert Leads(n, [], p) && Leads(n, [], q);
    RewrittenIsNoManifest(p);
    KeptTwice(walk, p, q);
    if NoRepeats(Files(order, n)) { CountsOnce(Files(order, n), Rel(p)); }
  }

  lemma KeptTwice(walk: seq<Path>, p: Path, q: Path)
    requires p in walk && q in walk && p != q && Rel(p) == Rel(q) && Rel(p) != MANIFEST
    ensures multiset(Kept(walk))[Rel(p)] >= 2
  {
    var i :| 0 <= i < |walk| && walk[i] == p;
    var before, after := walk[..i], walk[i + 1..];
    assert walk == before + [p] + after;
    KeptWithout(before, p, after);
    KeptOfOne(p);
    assert q in before + after;
    KeptMembers(before + after);
    assert Rel(q) in Kept(before + after);
  }

  // ── Packs made from packs ───────────────────────────────────────────────────

  // A pack with other contents at a path.
  function Put(n: Node, p: Path, c: Bytes): Node
    requires FileAt(n, p).Some?
    decreases |p|
  {
    match n
    case File(_) => File(c)
    case Dir(entries) => Dir(entries[p[0] := Put(entries[p[0]], p[1..], c)])
  }

  // A pack without the file at a path.
  function Cut(n: Node, p: Path): Node
    requires n.Dir? && FileAt(n, p).Some?
    decreases |p|
  {
    if n.entries[p[0]].File? then Dir(n.entries - {p[0]}) else Dir(n.entries[p[0] := Cut(n.entries[p[0]], p[1..])])
  }

  lemma {:induction false} PutAt(n: Node, p: Path, c: Bytes, q: Path)
    requires FileAt(n, p).Some?
    ensures FileAt(Put(n, p, c), q) == if q == p then Some(c) else FileAt(n, q)
    decreases |p|
  {
    if n.Dir? && q != [] && q[0] == p[0] {
      PutAt(n.entries[p[0]], p[1..], c, q[1..]);
      assert p == [p[0]] + p[1..] && q == [q[0]] + q[1..];
    }
  }

  lemma {:induction false} CutAt(n: Node, p: Path, q: Path)
    requires n.Dir? && FileAt(n, p).Some?
    ensures FileAt(Cut(n, p), q) == if q == p then None else FileAt(n, q)
    decreases |p|
  {
    if q != [] && q[0] == p[0] {
      assert p == [p[0]] + p[1..] && q == [q[0]] + q[1..];
      if n.entries[p[0]].Dir? { CutAt(n.entries[p[0]], p[1..], q[1..]); }
    }
  }

  // ── Some order for every pack ───────────────────────────────────────────────

  ghost function Listed(names: set<Bytes>): seq<Bytes> {
    if names == {} then [] else
      var x :| x in names;
      [x] + Listed(names - {x})
  }

  lemma {:induction false} ListedOnce(names: set<Bytes>)
    ensures forall x :: x in Listed(names) <==> x in names
    ensures NoRepeats(Listed(names))
  {
    if names != {} {
      var x := Listed(names)[0];
      ListedOnce(names - {x});
    }
  }

  function At(n: Node, p: Path): Option<Node>
    decreases |p|
  {
    if p == [] then Some(n)
    else if n.Dir? && p[0] in n.entries then At(n.entries[p[0]], p[1..]) else None
  }

  ghost function SomeOrder(n: Node): Order {
    p => if At(n, p).Some? && At(n, p).value.Dir? then Listed(At(n, p).value.entries.Keys) else []
  }

  lemma {:induction false} OneFurther(n: Node, p: Path, x: Bytes)
    requires At(n, p).Some? && At(n, p).value.Dir? && x in At(n, p).value.entries
    ensures At(n, p + [x]) == Some(At(n, p).value.entries[x])
    decreases |p|
  {
    if p == [] {
      assert [] + [x] == [x] && [x][1..] == [];
    } else {
      OneFurther(n.entries[p[0]], p[1..], x);
      assert (p + [x])[1..] == p[1..] + [x];
    }
  }

  lemma {:induction false} SomeOrderEnumerates(root: Node, n: Node, at: Path)
    requires At(root, at) == Some(n)
    ensures Enumerates(SomeOrder(root), n, at)
    decreases n
  {
    if n.Dir? {
      ListedOnce(n.entries.Keys);
      forall x | x in n.entries ensures Enumerates(SomeOrder(root), n.entries[x], at + [x]) {
        OneFurther(root, at, x);
        SomeOrderEnumerates(root, n.entries[x], at + [x]);
      }
    }
  }

  // ── Twins without zeros ─────────────────────────────────────────────────────

  // Another pack with the same stream.
  ghost predicate SameDigest(oa: Order, a: Node, ob: Order, b: Node, around: Reader)
    requires Pack(oa, a) && Pack(ob, b)
  {
    Digested(oa, a, around).Some? && Digested(oa, a, around) == Digested(ob, b, around)
  }

  ghost predicate Quiet(around: Reader) {
    forall r :: around(r).Some? ==> NoZero(around(r).value)
  }

  lemma ReadsItsOwn(order: Order, n: Node, around: Reader, p: Path)
    requires Pack(order, n) && FileAt(n, p).Some? && Verbatim(p)
    ensures ReaderOf(n, around)(Rel(p)) == FileAt(n, p)
  {
    WrittenPaths(order, n, p);
    assert NamedPath(p);
  }

  // A path changed in writing is written like another one of the same pack, when that
  // one is what it reads back as.
  lemma RewrittenIsWrittenTwice(order: Order, n: Node, around: Reader, q: Path, p: Path)
    requires Pack(order, n) && FileAt(n, q).Some? && !Verbatim(q)
    requires NamedPath(p) && Verbatim(p) && p != [] && Rel(q) == Rel(p)
    requires ReaderOf(n, around)(Rel(q)).Some?
    ensures !NoRepeats(Files(order, n))
  {
    VerbatimReadsBack(p);
    assert FileAt(n, p).Some?;
    WrittenTwice(order, n, q, p);
  }

  lemma Origin(order: Order, n: Node, r: string) returns (p: Path)
    requires Pack(order, n) && r in Files(order, n)
    ensures FileAt(n, p).Some? && r == Rel(p) && NamedPath(p) && p != [] && p != MANIFEST_PATH
  {
    FilesMembers(order, n);
    ManifestIsDropped();
    p :| FileAt(n, p).Some? && r == Rel(p);
    assert NamedPath(p);
  }

  lemma IsVerbatim(oa: Order, a: Node, ob: Order, b: Node, around: Reader, q: Path)
    requires Pack(oa, a) && Pack(ob, b) && Plain(a) && FileAt(b, q).Some?
    requires Rel(q) in Files(oa, a) && ReaderOf(b, around)(Rel(q)).Some? && NoRepeats(Files(ob, b))
    ensures Verbatim(q)
  {
    var p := Origin(oa, a, Rel(q));
    if !Verbatim(q) { RewrittenIsWrittenTwice(ob, b, around, q, p); }
  }

  lemma Written(order: Order, n: Node, q: Path)
    requires Pack(order, n) && FileAt(n, q).Some?
    ensures Verbatim(q) || Rel(q) in Files(order, n)
  {
    if !Verbatim(q) { WrittenPaths(order, n, q); }
  }

  // A twin of a pack written as it is is written as it is too.
  lemma TwinIsPlain(oa: Order, a: Node, ob: Order, b: Node, around: Reader)
    requires Pack(oa, a) && Pack(ob, b) && Plain(a)
    requires Files(oa, a) == Files(ob, b) && Clean(ReaderOf(b, around), Files(ob, b))
    ensures Plain(b)
  {
    WrittenOnce(oa, a);
    var rels := Files(ob, b);
    forall q | FileAt(b, q).Some? ensures Verbatim(q) {
      Written(ob, b, q);
      if Rel(q) in rels { IsVerbatim(oa, a, ob, b, around, q); }
    }
  }

  lemma TwinsReadAlike(oa: Order, a: Node, ob: Order, b: Node, around: Reader)
    requires Pack(oa, a) && Pack(ob, b) && ZeroFree(a) && ZeroFree(b) && Quiet(around)
    requires SameDigest(oa, a, ob, b, around)
    ensures Files(oa, a) == Files(ob, b) && Clean(ReaderOf(b, around), Files(ob, b))
  {
    FilesAreClean(oa, a, around);
    FilesAreClean(ob, b, around);
    StreamTellsApart(ReaderOf(a, around), Files(oa, a), ReaderOf(b, around), Files(ob, b));
  }

  lemma SameFilesRead(oa: Order, a: Node, ob: Order, b: Node, around: Reader)
    requires Pack(oa, a) && Pack(ob, b) && Plain(a) && Plain(b)
    requires Files(oa, a) == Files(ob, b)
    requires forall r :: r in Files(oa, a) ==> ReaderOf(a, around)(r) == ReaderOf(b, around)(r)
    ensures SameFiles(a, b)
  {
    forall p | p != MANIFEST_PATH ensures FileAt(a, p) == FileAt(b, p) {
      if FileAt(a, p).Some? {
        WrittenPaths(oa, a, p);
        ReadsItsOwn(oa, a, around, p);
        assert NamedPath(p);
      }
      if FileAt(b, p).Some? {
        WrittenPaths(ob, b, p);
        ReadsItsOwn(ob, b, around, p);
        assert NamedPath(p);
      }
    }
  }

  // Packs without zeros whose paths are all written as they are give the same stream
  // exactly when they hold the same files.
  lemma StreamDecides(oa: Order, a: Node, ob: Order, b: Node, around: Reader)
    requires Pack(oa, a) && Pack(ob, b) && ZeroFree(a) && ZeroFree(b) && Plain(a) && Plain(b)
    ensures Digested(oa, a, around).Some?
    ensures Digested(oa, a, around) == Digested(ob, b, around) <==> SameFiles(a, b)
  {
    DigestExists(oa, a, around);
    DigestExists(ob, b, around);
    if SameFiles(a, b) { FilesDecide(oa, a, ob, b, around); }
    if Digested(oa, a, around) == Digested(ob, b, around) {
      PlainIsClean(oa, a, around);
      PlainIsClean(ob, b, around);
      StreamTellsApart(ReaderOf(a, around), Files(oa, a), ReaderOf(b, around), Files(ob, b));
      SameFilesRead(oa, a, ob, b, around);
    }
  }

  lemma PlainIsClean(order: Order, n: Node, around: Reader)
    requires Pack(order, n) && ZeroFree(n) && Plain(n)
    ensures Clean(ReaderOf(n, around), Files(order, n))
  {
    FilesMembers(order, n);
    forall r | r in Files(order, n)
      ensures '\0' !in r && ReaderOf(n, around)(r).Some? && NoZero(ReaderOf(n, around)(r).value)
    {
      var p :| FileAt(n, p).Some? && r == Rel(p);
      WrittenPaths(order, n, p);
      ReadsItsOwn(order, n, around, p);
    }
  }

  lemma PutKeeps(n: Node, p: Path, c: Bytes)
    requires n.Dir? && Named(n) && FileAt(n, p).Some?
    ensures var b := Put(n, p, c);
            && Pack(SomeOrder(b), b) && (ZeroFree(n) && NoZero(c) ==> ZeroFree(b))
            && (forall q :: FileAt(b, q) == if q == p then Some(c) else FileAt(n, q))
  {
    var b := Put(n, p, c);
    forall q ensures FileAt(b, q) == if q == p then Some(c) else FileAt(n, q) { PutAt(n, p, c, q); }
    SomeOrderEnumerates(b, b, []);
  }

  lemma CutKeeps(n: Node, p: Path)
    requires n.Dir? && Named(n) && FileAt(n, p).Some?
    ensures var b := Cut(n, p);
            && Pack(SomeOrder(b), b) && (forall q :: FileAt(b, q) == if q == p then None else FileAt(n, q))
  {
    var b := Cut(n, p);
    forall q ensures FileAt(b, q) == if q == p then None else FileAt(n, q) { CutAt(n, p, q); }
    SomeOrderEnumerates(b, b, []);
  }

  // A pack with other contents at a path that is changed in writing is a twin.
  lemma RewrittenTwin(order: Order, n: Node, around: Reader, p: Path, c: Bytes)
    requires Pack(order, n) && FileAt(n, p).Some? && !Verbatim(p) && c != FileAt(n, p).value
    requires Digested(order, n, around).Some?
    ensures var b := Put(n, p, c);
            && Pack(SomeOrder(b), b) && (ZeroFree(n) && NoZero(c) ==> ZeroFree(b))
            && SameDigest(order, n, SomeOrder(b), b, around) && !SameFiles(n, b)
  {
    var b := Put(n, p, c);
    PutKeeps(n, p, c);
    OnlyRewrittenDiffers(n, b, p);
    DigestSees(order, n, SomeOrder(b), b, around);
    RewrittenIsNoManifest(p);
    DifferAt(n, b, p);
  }

  lemma DifferAt(a: Node, b: Node, p: Path)
    requires p != MANIFEST_PATH && FileAt(a, p) != FileAt(b, p)
    ensures !SameFiles(a, b)
  {
  }

  lemma OnlyRewrittenDiffers(a: Node, b: Node, p: Path)
    requires !Verbatim(p) && FileAt(a, p).Some? && FileAt(b, p).Some?
    requires forall q :: q != p ==> FileAt(a, q) == FileAt(b, q)
    ensures SameToDigest(a, b)
  {
  }

  // Among packs without zeros, a pack that has a digest is the only one with it, up to
  // the manifest, exactly when no path of it is changed in writing.
  lemma OnlyRewritingConfuses(order: Order, n: Node, around: Reader)
    requires Pack(order, n) && ZeroFree(n) && Quiet(around) && Digested(order, n, around).Some?
    ensures (forall ob, b | Pack(ob, b) && ZeroFree(b) && SameDigest(order, n, ob, b, around) :: SameFiles(n, b))
            <==> Plain(n)
  {
    if Plain(n) {
      forall ob, b | Pack(ob, b) && ZeroFree(b) && SameDigest(order, n, ob, b, around) ensures SameFiles(n, b) {
        TwinsReadAlike(order, n, ob, b, around);
        TwinIsPlain(order, n, ob, b, around);
        StreamDecides(order, n, ob, b, around);
      }
    } else {
      var p :| FileAt(n, p).Some? && !Verbatim(p);
      var c := FileAt(n, p).value + [1];
      assert |c| == |FileAt(n, p).value| + 1;
      RewrittenTwin(order, n, around, p, c);
    }
  }

  // ── Twins with zeros ────────────────────────────────────────────────────────

  lemma {:induction false} EmptyStream(read: Reader, rels: seq<string>)
    requires Stream(read, rels).Some?
    ensures Stream(read, rels).value == [] <==> rels == []
  {
    if rels != [] {
      var frame := Frame(rels[0], read(rels[0]).value);
      assert |frame + Stream(read, rels[1..]).value| >= |frame| >= 2;
    }
  }

  lemma OneZeroAtTheEnd(c: Bytes, c': Bytes, rest: Bytes)
    requires NoZero(c) && c + [0] + [] == c' + [0] + rest
    ensures c == c' && rest == []
  {
    var s, t := c + [0] + [], c' + [0] + rest;
    assert t[|c'|] == 0 && |s| == |c| + 1;
    assert forall i :: 0 <= i < |c| ==> s[i] == c[i] && c[i] in c;
    assert |c'| == |c|;
    assert c == s[..|c|] && c' == t[..|c'|];
  }

  // A stream of one file without zeros is no other stream.
  lemma OneFileReadsBack(a: Reader, r: string, b: Reader, rb: seq<string>)
    requires '\0' !in r && a(r).Some? && NoZero(a(r).value) && forall r' :: r' in rb ==> '\0' !in r'
    requires Stream(a, [r]) == Stream(b, rb)
    ensures rb == [r] && b(r) == a(r)
  {
    assert [r][1..] == [];
    EmptyStream(a, [r]);
    EmptyStream(b, rb);
    var r', more := rb[0], rb[1..];
    assert rb == [r'] + more;
    var rest := Stream(b, more).value;
    FrameSplits(r, a(r).value, [], r', b(r').value, rest);
    OneZeroAtTheEnd(a(r).value, b(r').value, rest);
    EmptyStream(b, more);
  }

  lemma FilesHaveNoZero(order: Order, n: Node)
    requires Pack(order, n)
    ensures forall r :: r in Files(order, n) ==> '\0' !in r
  {
    forall r | r in Files(order, n) ensures '\0' !in r {
      var p := Origin(order, n, r);
      RelHasNoZero(p);
    }
  }

  lemma FewReadBack(a: Reader, ra: seq<string>, b: Reader, rb: seq<string>)
    requires |ra| <= 1 && Clean(a, ra) && (forall r :: r in rb ==> '\0' !in r)
    requires Stream(a, ra) == Stream(b, rb)
    ensures ra == rb && forall r :: r in ra ==> a(r) == b(r)
  {
    CleanStream(a, ra);
    if ra == [] {
      EmptyStream(b, rb);
    } else {
      assert ra == [ra[0]];
      OneFileReadsBack(a, ra[0], b, rb);
    }
  }

  lemma FewFilesAreAlone(oa: Order, a: Node, ob: Order, b: Node, around: Reader)
    requires Pack(oa, a) && Pack(ob, b) && ZeroFree(a) && Plain(a)
    requires |Files(oa, a)| <= 1 && SameDigest(oa, a, ob, b, around)
    ensures SameFiles(a, b)
  {
    PlainIsClean(oa, a, around);
    FilesHaveNoZero(ob, b);
    FewReadBack(ReaderOf(a, around), Files(oa, a), ReaderOf(b, around), Files(ob, b));
    TwinIsPlain(oa, a, ob, b, around);
    SameFilesRead(oa, a, ob, b, around);
  }

  // What the first file must hold to swallow the second.
  function Swallowed(c1: Bytes, r2: string, c2: Bytes): Bytes {
    c1 + [0] + Encode(r2) + [0] + c2
  }

  lemma SwallowedReadsAlike(r1: string, c1: Bytes, r2: string, c2: Bytes, rest: Bytes)
    ensures Frame(r1, c1) + (Frame(r2, c2) + rest) == Frame(r1, Swallowed(c1, r2, c2)) + rest
  {
    assert Frame(r1, c1) + (Frame(r2, c2) + rest)
        == Encode(r1) + [0] + c1 + [0] + Encode(r2) + [0] + c2 + [0] + rest;
  }

  lemma WalkIsFiles(order: Order, n: Node)
    requires Pack(order, n)
    ensures NoRepeats(Walk(order, n, [])) && forall p :: p in Walk(order, n, []) <==> FileAt(n, p).Some?
  {
    WalkFinds(order, n, []);
    forall p ensures p in Walk(order, n, []) <==> FileAt(n, p).Some? {
      assert p[0..] == p;
      assert Leads(n, [], p) <==> p in Walk(order, n, []);
    }
  }

  lemma WithoutOne(before: seq<Path>, p: Path, after: seq<Path>)
    requires NoRepeats(before + [p] + after)
    ensures NoRepeats(before + after)
    ensures forall q :: q in before + after <==> q in before + [p] + after && q != p
  {
    var all, less := before + [p] + after, before + after;
    assert all[|before|] == p;
    forall i | 0 <= i < |less| ensures less[i] == all[if i < |before| then i else i + 1] && less[i] != p {}
    forall i, j | 0 <= i < j < |less| ensures less[i] != less[j] {
      assert all[if i < |before| then i else i + 1] != all[if j < |before| then j else j + 1];
    }
  }

  lemma FilesAreSorted(order: Order, n: Node)
    requires Pack(order, n)
    ensures Sorted(StrLe, Files(order, n))
  {
    StrLeIsTotalOrder();
    SortIsSorted(StrLe, Kept(Walk(order, n, [])));
  }

  lemma MembersWithout(first: string, second: string, rest: seq<string>, less: multiset<string>)
    requires multiset([first, second] + rest) == multiset{second} + less
    ensures less == multiset([first] + rest)
  {
    var all, r := multiset([first, second] + rest), multiset(rest);
    assert all == multiset([first, second]) + r && multiset([first, second]) == multiset{first} + multiset{second};
    assert multiset([first] + rest) == multiset{first} + r;
    assert less == all - multiset{second};
  }

  lemma StillSorted(first: string, second: string, rest: seq<string>)
    requires Sorted(StrLe, [first, second] + rest)
    ensures Sorted(StrLe, [first] + rest)
  {
    var all, less := [first, second] + rest, [first] + rest;
    forall i, j | 0 <= i < j < |less| ensures StrLe(less[i], less[j]) {
      assert less[i] == all[if i < 1 then i else i + 1] && less[j] == all[j + 1];
    }
  }

  lemma SortedWithout(first: string, second: string, rest: seq<string>, less: seq<string>)
    requires Sorted(StrLe, [first, second] + rest) && Sorted(StrLe, less)
    requires multiset([first, second] + rest) == multiset{second} + multiset(less)
    ensures less == [first] + rest
  {
    MembersWithout(first, second, rest, multiset(less));
    StillSorted(first, second, rest);
    StrLeIsTotalOrder();
    SortedIsUnique(StrLe, less, [first] + rest);
  }

  lemma KeptMinusOne(walk: seq<Path>, less: seq<Path>, p: Path)
    requires NoRepeats(walk) && NoRepeats(less) && p in walk && Rel(p) != MANIFEST
    requires forall q :: q in less <==> q in walk && q != p
    ensures multiset(Kept(walk)) == multiset{Rel(p)} + multiset(Kept(less))
  {
    var i :| 0 <= i < |walk| && walk[i] == p;
    var before, after := walk[..i], walk[i + 1..];
    assert walk == before + [p] + after;
    WithoutOne(before, p, after);
    SamePathsKept(less, before + after);
    KeptWithout(before, p, after);
    KeptOfOne(p);
  }

  // A pack without one file is written without it.
  lemma WrittenWithout(order: Order, n: Node, ob: Order, b: Node, p: Path, first: string, rest: seq<string>)
    requires Pack(order, n) && Pack(ob, b) && FileAt(n, p).Some? && Rel(p) != MANIFEST
    requires forall q :: FileAt(b, q).Some? <==> q != p && FileAt(n, q).Some?
    requires Files(order, n) == [first, Rel(p)] + rest
    ensures Files(ob, b) == [first] + rest
  {
    WalkIsFiles(order, n);
    WalkIsFiles(ob, b);
    KeptMinusOne(Walk(order, n, []), Walk(ob, b, []), p);
    FilesAreSorted(order, n);
    FilesAreSorted(ob, b);
    SortedWithout(first, Rel(p), rest, Files(ob, b));
  }

  // The twin of a pack with two files: the first file holds what the stream says of the
  // second, and the second is gone.
  function Swallow(n: Node, p1: Path, p2: Path, r2: string): Node
    requires FileAt(n, p1).Some? && FileAt(n, p2).Some? && n.Dir?
  {
    PutAt(n, p1, Swallowed(FileAt(n, p1).value, r2, FileAt(n, p2).value), p2);
    Cut(Put(n, p1, Swallowed(FileAt(n, p1).value, r2, FileAt(n, p2).value)), p2)
  }

  lemma SwallowKeeps(order: Order, n: Node, p1: Path, p2: Path, r2: string)
    requires Pack(order, n) && Plain(n) && FileAt(n, p1).Some? && FileAt(n, p2).Some? && p1 != p2
    ensures var b := Swallow(n, p1, p2, r2);
            && Pack(SomeOrder(b), b) && Plain(b)
            && (forall q :: FileAt(b, q) == if q == p2 then None
                                            else if q == p1 then Some(Swallowed(FileAt(n, p1).value, r2, FileAt(n, p2).value))
                                            else FileAt(n, q))
  {
    var c := Swallowed(FileAt(n, p1).value, r2, FileAt(n, p2).value);
    PutKeeps(n, p1, c);
    CutKeeps(Put(n, p1, c), p2);
  }

  // The rest of the stream is the same.
  lemma RestReadsAlike(order: Order, n: Node, ob: Order, b: Node, around: Reader, p1: Path, p2: Path, rest: seq<string>)
    requires Pack(order, n) && Pack(ob, b) && Plain(n) && Plain(b)
    requires forall q :: q != p1 && q != p2 ==> FileAt(b, q) == FileAt(n, q)
    requires forall r :: r in rest ==> r in Files(order, n) && r != Rel(p1) && r != Rel(p2)
    ensures Stream(ReaderOf(n, around), rest) == Stream(ReaderOf(b, around), rest)
  {
    forall r | r in rest ensures ReaderOf(n, around)(r) == ReaderOf(b, around)(r) {
      var q := Origin(order, n, r);
      assert q != p1 && q != p2;
      ReadsItsOwn(order, n, around, q);
      ReadsItsOwn(ob, b, around, q);
    }
    SameStream(ReaderOf(n, around), ReaderOf(b, around), rest);
  }

  lemma TwoFramesRead(read: Reader, r1: string, r2: string, rest: seq<string>)
    requires read(r1).Some? && read(r2).Some?
    ensures Stream(read, [r1, r2] + rest) == Fed(read(r1), r1, Fed(read(r2), r2, Stream(read, rest)))
  {
    assert ([r1, r2] + rest)[1..] == [r2] + rest && ([r2] + rest)[1..] == rest;
  }

  // The first two written paths, p1 and p2, and the others.
  ghost predicate StartsWith(order: Order, n: Node, p1: Path, p2: Path, rest: seq<string>) {
    && Pack(order, n) && Plain(n) && FileAt(n, p1).Some? && FileAt(n, p2).Some? && p1 != p2
    && p1 != MANIFEST_PATH && p2 != MANIFEST_PATH && Files(order, n) == [Rel(p1), Rel(p2)] + rest
  }

  lemma TwoApart(files: seq<string>)
    requires |files| >= 2 && NoRepeats(files)
    ensures files[0] in files && files[1] in files && files[0] != files[1]
    ensures files == [files[0], files[1]] + files[2..]
  {
  }

  lemma FirstTwo(order: Order, n: Node) returns (p1: Path, p2: Path)
    requires Pack(order, n) && Plain(n) && |Files(order, n)| >= 2
    ensures StartsWith(order, n, p1, p2, Files(order, n)[2..])
  {
    var files := Files(order, n);
    WrittenOnce(order, n);
    TwoApart(files);
    p1 := Origin(order, n, files[0]);
    p2 := Origin(order, n, files[1]);
  }

  lemma SwallowIsWritten(order: Order, n: Node, p1: Path, p2: Path, rest: seq<string>)
    requires StartsWith(order, n, p1, p2, rest)
    ensures var b := Swallow(n, p1, p2, Rel(p2)); Pack(SomeOrder(b), b) && Files(SomeOrder(b), b) == [Rel(p1)] + rest
  {
    var b := Swallow(n, p1, p2, Rel(p2));
    SwallowKeeps(order, n, p1, p2, Rel(p2));
    assert Verbatim(p2);
    WrittenPaths(order, n, p2);
    OnlyOnePathIsManifest(p2);
    WrittenWithout(order, n, SomeOrder(b), b, p2, Rel(p1), rest);
  }

  lemma SwallowReads(order: Order, n: Node, around: Reader, p1: Path, p2: Path, rest: seq<string>)
    requires StartsWith(order, n, p1, p2, rest)
    ensures var b := Swallow(n, p1, p2, Rel(p2));
            Stream(ReaderOf(n, around), [Rel(p1), Rel(p2)] + rest) == Stream(ReaderOf(b, around), [Rel(p1)] + rest)
  {
    var b := Swallow(n, p1, p2, Rel(p2));
    SwallowKeeps(order, n, p1, p2, Rel(p2));
    WrittenOnce(order, n);
    RestIsApart(Files(order, n), Rel(p1), Rel(p2), rest);
    RestReadsAlike(order, n, SomeOrder(b), b, around, p1, p2, rest);
    ReadsItsOwn(order, n, around, p1);
    ReadsItsOwn(order, n, around, p2);
    ReadsItsOwn(SomeOrder(b), b, around, p1);
    TwinStreams(ReaderOf(n, around), ReaderOf(b, around), Rel(p1), Rel(p2), rest);
  }

  // Every pack of two files or more, written as they are, has a twin that holds one less.
  lemma TwinOfTwoFiles(order: Order, n: Node, around: Reader) returns (ob: Order, b: Node)
    requires Pack(order, n) && Plain(n) && |Files(order, n)| >= 2
    ensures Pack(ob, b) && Plain(b) && SameDigest(order, n, ob, b, around) && !SameFiles(n, b)
    ensures |Files(ob, b)| == |Files(order, n)| - 1
  {
    var p1, p2 := FirstTwo(order, n);
    var rest := Files(order, n)[2..];
    b := Swallow(n, p1, p2, Rel(p2));
    ob := SomeOrder(b);
    SwallowKeeps(order, n, p1, p2, Rel(p2));
    SwallowIsWritten(order, n, p1, p2, rest);
    SwallowReads(order, n, around, p1, p2, rest);
    DigestExists(order, n, around);
    assert FileAt(n, p2) != FileAt(b, p2);
  }

  lemma RestIsApart(files: seq<string>, r1: string, r2: string, rest: seq<string>)
    requires files == [r1, r2] + rest && NoRepeats(files)
    ensures forall r :: r in rest ==> r in files && r != r1 && r != r2
  {
    forall i | 0 <= i < |rest| ensures rest[i] in files && rest[i] != r1 && rest[i] != r2 {
      assert files[i + 2] == rest[i] && files[0] == r1 && files[1] == r2;
    }
  }

  lemma TwinStreams(a: Reader, b: Reader, r1: string, r2: string, rest: seq<string>)
    requires a(r1).Some? && a(r2).Some? && b(r1) == Some(Swallowed(a(r1).value, r2, a(r2).value))
    requires Stream(a, rest) == Stream(b, rest)
    ensures Stream(a, [r1, r2] + rest) == Stream(b, [r1] + rest)
  {
    TwoFramesRead(a, r1, r2, rest);
    assert ([r1] + rest)[1..] == rest;
    if Stream(a, rest).Some? {
      SwallowedReadsAlike(r1, a(r1).value, r2, a(r2).value, Stream(a, rest).value);
    }
  }

  // A pack without zeros that has a digest shares it with no pack of other files, whatever
  // those hold and however they are written, exactly when its paths are all written as
  // they are and it has at most one file besides the manifest.
  lemma OnlyOneFileIsAlone(order: Order, n: Node, around: Reader)
    requires Pack(order, n) && ZeroFree(n) && Digested(order, n, around).Some?
    ensures (forall ob, b | Pack(ob, b) && SameDigest(order, n, ob, b, around) :: SameFiles(n, b))
            <==> Plain(n) && |Files(order, n)| <= 1
  {
    if !Plain(n) {
      var p :| FileAt(n, p).Some? && !Verbatim(p);
      var c := FileAt(n, p).value + [1];
      assert |c| == |FileAt(n, p).value| + 1;
      RewrittenTwin(order, n, around, p, c);
    } else if |Files(order, n)| <= 1 {
      forall ob, b | Pack(ob, b) && SameDigest(order, n, ob, b, around) ensures SameFiles(n, b) {
        FewFilesAreAlone(order, n, ob, b, around);
      }
    } else {
      var ob, b := TwinOfTwoFiles(order, n, around);
    }
  }
}
