// The byte stream a pack's digest is taken over: every file but the root manifest, in
// path order, each as its path, a zero, its contents and a zero. A path is bytes. It is
// written as a string, with a replacement character for what is not UTF-8 and slashes for
// backslashes, and contents are read back through the written path: what the digest sees
// of a file whose path was changed in writing is not that file. (`Twins` says when the
// stream fixes the files.)
module Digest {
  import opened Text
  import opened Utf8

  type Path = seq<Bytes>

  datatype Node = File(content: Bytes) | Dir(entries: map<Bytes, Node>)

  // In what order each directory, named by its path, lists its entries.
  type Order = Path -> seq<Bytes>

  const MANIFEST := "pack.toml"
  const MANIFEST_PATH := [Encode(MANIFEST)]

  const SLASH: Byte := 47
  const BACKSLASH: Byte := 92

  function FileAt(n: Node, p: Path): Option<Bytes>
    decreases |p|
  {
    match n
    case File(content) => if p == [] then Some(content) else None
    case Dir(entries) => if p != [] && p[0] in entries then FileAt(entries[p[0]], p[1..]) else None
  }

  ghost predicate NoRepeats<T>(s: seq<T>) {
    forall i, j :: 0 <= i < j < |s| ==> s[i] != s[j]
  }

  ghost predicate Enumerates(order: Order, n: Node, at: Path) {
    n.Dir? ==>
      && NoRepeats(order(at))
      && (forall x :: x in order(at) <==> x in n.entries)
      && forall x :: x in n.entries ==> Enumerates(order, n.entries[x], at + [x])
  }

  // ── Paths ───────────────────────────────────────────────────────────────────

  function JoinPath(p: Path): Bytes {
    if p == [] then [] else if |p| == 1 then p[0] else p[0] + [SLASH] + JoinPath(p[1..])
  }

  function Slashes(s: string): string {
    if s == "" then "" else [if s[0] == '\\' then '/' else s[0]] + Slashes(s[1..])
  }

  // A path as the digest writes it.
  function Rel(p: Path): string {
    Slashes(Lossy(JoinPath(p)))
  }

  function FirstName(s: Bytes): (r: Bytes)
    ensures r <= s && SLASH !in r
    ensures r == s || s[|r|] == SLASH
  {
    if s == [] || s[0] == SLASH then [] else [s[0]] + FirstName(s[1..])
  }

  function SplitPath(s: Bytes): (p: Path)
    ensures p != []
    decreases |s|
  {
    var name := FirstName(s);
    if name == s then [s] else [name] + SplitPath(s[|name| + 1..])
  }

  // A written path as the file system reads it back.
  function PathOf(rel: string): Path {
    SplitPath(Encode(rel))
  }

  // ── Collecting ──────────────────────────────────────────────────────────────

  function Walk(order: Order, n: Node, at: Path): seq<Path>
    requires Enumerates(order, n, at)
    decreases n, 1, 0
  {
    match n
    case File(_) => [at]
    case Dir(_) => WalkAll(order, n, at, order(at))
  }

  function WalkAll(order: Order, n: Node, at: Path, names: seq<Bytes>): seq<Path>
    requires n.Dir? && Enumerates(order, n, at)
    requires forall x :: x in names ==> x in n.entries
    decreases n, 0, |names|
  {
    if names == [] then []
    else Walk(order, n.entries[names[0]], at + [names[0]]) + WalkAll(order, n, at, names[1..])
  }

  function KeptOne(p: Path): seq<string> {
    if Rel(p) == MANIFEST then [] else [Rel(p)]
  }

  function Kept(paths: seq<Path>): seq<string> {
    if paths == [] then [] else KeptOne(paths[0]) + Kept(paths[1..])
  }

  lemma KeptStep(p: Path, rest: seq<Path>)
    ensures Kept([p] + rest) == KeptOne(p) + Kept(rest)
  {
    assert ([p] + rest)[1..] == rest;
  }

  lemma {:induction false} KeptOfBoth(a: seq<Path>, b: seq<Path>)
    ensures Kept(a + b) == Kept(a) + Kept(b)
  {
    if a == [] {
      assert a + b == b;
    } else {
      var p, rest := a[0], a[1..];
      assert a == [p] + rest && a + b == [p] + (rest + b);
      KeptOfBoth(rest, b);
      KeptStep(p, rest);
      KeptStep(p, rest + b);
      assert KeptOne(p) + (Kept(rest) + Kept(b)) == KeptOne(p) + Kept(rest) + Kept(b);
    }
  }

  lemma WalkAllStep(order: Order, n: Node, at: Path, names: seq<Bytes>)
    requires n.Dir? && Enumerates(order, n, at) && names != []
    requires forall x :: x in names ==> x in n.entries
    ensures Kept(WalkAll(order, n, at, names))
            == Kept(Walk(order, n.entries[names[0]], at + [names[0]])) + Kept(WalkAll(order, n, at, names[1..]))
  {
    KeptOfBoth(Walk(order, n.entries[names[0]], at + [names[0]]), WalkAll(order, n, at, names[1..]));
  }

  lemma KeptOfOne(p: Path)
    ensures Kept([p]) == KeptOne(p)
  {
    KeptStep(p, []);
    assert [p] + [] == [p];
  }

  lemma Rejoin(a: seq<string>, b: seq<string>, c: seq<string>)
    ensures a + (b + c) == a + b + c
  {
  }

  method Collect(order: Order, n: Node, at: Path, found: seq<string>) returns (out: seq<string>)
    requires n.Dir? && Enumerates(order, n, at)
    ensures out == found + Kept(Walk(order, n, at))
    decreases n, 1
  {
    out := found;
    var names := order(at);
    var i := 0;
    ghost var total := found + Kept(Walk(order, n, at));
    assert names[0..] == names;
    while i < |names|
      invariant 0 <= i <= |names|
      invariant out + Kept(WalkAll(order, n, at, names[i..])) == total
    {
      var name := names[i];
      ghost var before, here, rest := out, Kept(Walk(order, n.entries[name], at + [name])), Kept(WalkAll(order, n, at, names[i + 1..]));
      assert names[i..][0] == name && names[i..][1..] == names[i + 1..];
      WalkAllStep(order, n, at, names[i..]);
      out := CollectEntry(order, n, at, name, out);
      Rejoin(before, here, rest);
      i := i + 1;
    }
  }

  method CollectEntry(order: Order, n: Node, at: Path, name: Bytes, found: seq<string>) returns (out: seq<string>)
    requires n.Dir? && Enumerates(order, n, at) && name in n.entries
    ensures out == found + Kept(Walk(order, n.entries[name], at + [name]))
    decreases n, 0
  {
    var path := at + [name];
    if n.entries[name].Dir? {
      out := Collect(order, n.entries[name], path, found);
    } else {
      KeptOfOne(path);
      out := if Rel(path) == MANIFEST then found else found + [Rel(path)];
    }
  }

  // ── The stream ──────────────────────────────────────────────────────────────

  // What a written path reads back, if anything.
  type Reader = string -> Option<Bytes>

  // Names a file system resolves to a directory already open, or to nothing at all, are
  // no entry's name.
  predicate EntryName(x: Bytes) {
    x != [] && x != Encode(".") && x != Encode("..")
  }

  predicate StaysInside(p: Path) {
    forall i :: 0 <= i < |p| ==> EntryName(p[i])
  }

  // A written path is joined to the root and resolved. One with an empty, `.` or `..`
  // step in it resolves wherever the file system around it says.
  function ReadBack(n: Node, around: Reader, rel: string): Option<Bytes> {
    if StaysInside(PathOf(rel)) then FileAt(n, PathOf(rel)) else around(rel)
  }

  function ReaderOf(n: Node, around: Reader): Reader {
    rel => ReadBack(n, around, rel)
  }

  function Frame(rel: string, content: Bytes): Bytes {
    Encode(rel) + [0] + content + [0]
  }

  // No stream when a path does not lead back to a file.
  function Stream(read: Reader, rels: seq<string>): Option<Bytes> {
    if rels == [] then Some([])
    else Fed(read(rels[0]), rels[0], Stream(read, rels[1..]))
  }

  function Fed(content: Option<Bytes>, rel: string, rest: Option<Bytes>): Option<Bytes> {
    if content.None? || rest.None? then None else Some(Frame(rel, content.value) + rest.value)
  }

  function Files(order: Order, n: Node): seq<string>
    requires Enumerates(order, n, [])
  {
    Sort(StrLe, Kept(Walk(order, n, [])))
  }

  function Digested(order: Order, n: Node, around: Reader): Option<Bytes>
    requires n.Dir? && Enumerates(order, n, [])
  {
    Stream(ReaderOf(n, around), Files(order, n))
  }

  method ContentDigest(order: Order, n: Node, around: Reader) returns (hashed: Option<Bytes>)
    requires n.Dir? && Enumerates(order, n, [])
    ensures hashed == Digested(order, n, around)
  {
    var found := Collect(order, n, [], []);
    assert found == Kept(Walk(order, n, []));
    var files := Sort(StrLe, found);
    assert files == Files(order, n);
    hashed := HashAll(ReaderOf(n, around), files);
  }

  function After(fed: Bytes, rest: Option<Bytes>): Option<Bytes> {
    if rest.None? then None else Some(fed + rest.value)
  }

  method HashAll(read: Reader, files: seq<string>) returns (hashed: Option<Bytes>)
    ensures hashed == Stream(read, files)
  {
    var fed: Bytes := [];
    var i := 0;
    assert files[0..] == files;
    StartEmpty(Stream(read, files));
    while i < |files|
      invariant 0 <= i <= |files|
      invariant Stream(read, files) == After(fed, Stream(read, files[i..]))
    {
      assert files[i..][0] == files[i] && files[i..][1..] == files[i + 1..];
      var content := read(files[i]);
      if content.None? { return None; }
      FeedNext(fed, content, files[i], Stream(read, files[i + 1..]));
      fed := fed + Frame(files[i], content.value);
      i := i + 1;
    }
    assert fed + [] == fed;
    return Some(fed);
  }

  lemma StartEmpty(rest: Option<Bytes>)
    ensures After([], rest) == rest
  {
    if rest.Some? { assert [] + rest.value == rest.value; }
  }

  lemma FeedNext(fed: Bytes, content: Option<Bytes>, rel: string, rest: Option<Bytes>)
    requires content.Some?
    ensures After(fed, Fed(content, rel, rest)) == After(fed + Frame(rel, content.value), rest)
  {
    if rest.Some? {
      var frame := Frame(rel, content.value);
      assert fed + (frame + rest.value) == (fed + frame) + rest.value;
    }
  }

  // ── Which paths are written ─────────────────────────────────────────────────

  predicate Leads(n: Node, at: Path, p: Path) {
    at <= p && FileAt(n, p[|at|..]).Some?
  }

  lemma LeadsStep(n: Node, at: Path, x: Bytes, p: Path)
    requires n.Dir? && x in n.entries
    ensures Leads(n.entries[x], at + [x], p) <==> Leads(n, at, p) && |p| > |at| && p[|at|] == x
  {
    if |p| > |at| && at <= p {
      assert p[|at|..][1..] == p[|at| + 1..];
      if p[|at|] == x { assert at + [x] <= p; }
    }
  }

  lemma {:induction false} WalkFinds(order: Order, n: Node, at: Path)
    requires Enumerates(order, n, at)
    ensures forall p :: p in Walk(order, n, at) <==> Leads(n, at, p)
    ensures NoRepeats(Walk(order, n, at))
    decreases n, 1, 0
  {
    if n.File? {
      forall p ensures p in [at] <==> Leads(n, at, p) {
        if Leads(n, at, p) { assert p == at + p[|at|..]; }
        if p == at { assert p[|at|..] == []; }
      }
    } else {
      WalkAllFinds(order, n, at, order(at));
      forall p | Leads(n, at, p) ensures |p| > |at| && p[|at|] in order(at) {
        assert p[|at|..] != [] && p[|at|..][0] == p[|at|];
      }
    }
  }

  lemma {:induction false} WalkAllFinds(order: Order, n: Node, at: Path, names: seq<Bytes>)
    requires n.Dir? && Enumerates(order, n, at) && NoRepeats(names)
    requires forall x :: x in names ==> x in n.entries
    ensures forall p :: p in WalkAll(order, n, at, names) <==> Leads(n, at, p) && |p| > |at| && p[|at|] in names
    ensures NoRepeats(WalkAll(order, n, at, names))
    decreases n, 0, |names|
  {
    if names != [] {
      var x, rest := names[0], names[1..];
      var first, others := Walk(order, n.entries[x], at + [x]), WalkAll(order, n, at, rest);
      WalkFinds(order, n.entries[x], at + [x]);
      WalkAllFinds(order, n, at, rest);
      forall p ensures p in first <==> Leads(n, at, p) && |p| > |at| && p[|at|] == x {
        LeadsStep(n, at, x, p);
      }
      assert names == [x] + rest;
      assert x !in rest;
      NoRepeatsInBoth(first, others);
    }
  }

  lemma NoRepeatsInBoth<T>(a: seq<T>, b: seq<T>)
    requires NoRepeats(a) && NoRepeats(b) && forall x :: x in a ==> x !in b
    ensures NoRepeats(a + b)
  {
    forall i, j | 0 <= i < j < |a + b| ensures (a + b)[i] != (a + b)[j] {
      if i < |a| <= j { assert a[i] in a && b[j - |a|] in b; }
    }
  }

  lemma {:induction false} OnlyManifests(paths: seq<Path>)
    requires forall p :: p in paths ==> p == MANIFEST_PATH
    ensures Kept(paths) == []
  {
    if paths != [] {
      assert paths[0] in paths;
      assert forall p :: p in paths[1..] ==> p in paths;
      ManifestIsDropped();
      OnlyManifests(paths[1..]);
    }
  }

  lemma ManifestIsDropped()
    ensures Rel(MANIFEST_PATH) == MANIFEST
  {
    LossyReadsText(MANIFEST);
    SlashesChangesNothing(MANIFEST);
  }

  lemma {:induction false} SlashesChangesNothing(s: string)
    requires '\\' !in s
    ensures Slashes(s) == s
  {
    if s != "" { SlashesChangesNothing(s[1..]); }
  }

  lemma KeptWithout(before: seq<Path>, p: Path, after: seq<Path>)
    ensures multiset(Kept(before + [p] + after)) == multiset(Kept([p])) + multiset(Kept(before + after))
  {
    KeptOfBoth(before + [p], after);
    KeptOfBoth(before, [p]);
    KeptOfBoth(before, after);
  }

  ghost predicate SameBut<T(!new)>(a: seq<T>, b: seq<T>, but: T) {
    forall x :: x != but ==> (x in a <==> x in b)
  }

  lemma Removed<T(!new)>(a: seq<T>, b: seq<T>, i: nat, but: T)
    requires NoRepeats(a) && NoRepeats(b) && SameBut(a, b, but)
    requires a != [] && i < |b| && b[i] == a[0]
    ensures NoRepeats(a[1..]) && NoRepeats(b[..i] + b[i + 1..]) && SameBut(a[1..], b[..i] + b[i + 1..], but)
  {
    var less := b[..i] + b[i + 1..];
    assert a == [a[0]] + a[1..];
    assert b == b[..i] + [b[i]] + b[i + 1..];
    forall j | 0 <= j < |less| ensures less[j] == (if j < i then b[j] else b[j + 1]) {}
    forall x | x != but ensures x in a[1..] <==> x in less {
      if x in less { assert x in b && x != a[0]; }
      if x in a[1..] { assert x in a && x != a[0]; assert x in b; }
    }
  }

  lemma SameWithPath(rest: seq<Path>, before: seq<Path>, p: Path, after: seq<Path>)
    requires multiset(Kept(rest)) == multiset(Kept(before + after))
    ensures multiset(Kept([p] + rest)) == multiset(Kept(before + [p] + after))
  {
    KeptWithout(before, p, after);
    KeptOfBoth([p], rest);
  }

  lemma {:induction false} SamePathsKept(a: seq<Path>, b: seq<Path>)
    requires NoRepeats(a) && NoRepeats(b) && SameBut(a, b, MANIFEST_PATH)
    ensures multiset(Kept(a)) == multiset(Kept(b))
    decreases |a|
  {
    if a == [] {
      OnlyManifests(b);
    } else {
      var p, rest := a[0], a[1..];
      assert a == [p] + rest;
      if p in b {
        var before, after := TakenOut(a, b);
        SamePathsKept(rest, before + after);
        SameWithPath(rest, before, p, after);
      } else {
        DroppedFromOne(a, b);
        SamePathsKept(rest, b);
        KeptStep(p, rest);
      }
    }
  }

  lemma TakenOut(a: seq<Path>, b: seq<Path>) returns (before: seq<Path>, after: seq<Path>)
    requires NoRepeats(a) && NoRepeats(b) && SameBut(a, b, MANIFEST_PATH) && a != [] && a[0] in b
    ensures b == before + [a[0]] + after
    ensures NoRepeats(a[1..]) && NoRepeats(before + after) && SameBut(a[1..], before + after, MANIFEST_PATH)
  {
    var i :| 0 <= i < |b| && b[i] == a[0];
    before, after := b[..i], b[i + 1..];
    Removed(a, b, i, MANIFEST_PATH);
  }

  lemma DroppedFromOne(a: seq<Path>, b: seq<Path>)
    requires NoRepeats(a) && SameBut(a, b, MANIFEST_PATH) && a != [] && a[0] !in b
    ensures SameBut(a[1..], b, MANIFEST_PATH) && NoRepeats(a[1..]) && KeptOne(a[0]) == []
  {
    assert a[0] in a;
    ManifestIsDropped();
    assert a == [a[0]] + a[1..];
  }

  lemma {:induction false} JoinOfSplit(s: Bytes)
    ensures JoinPath(SplitPath(s)) == s
    decreases |s|
  {
    var name := FirstName(s);
    if name != s {
      JoinOfSplit(s[|name| + 1..]);
      assert s == name + [SLASH] + s[|name| + 1..];
    }
  }

  lemma OnlyManifestLeadsThere(rel: string)
    requires rel != MANIFEST
    ensures PathOf(rel) != MANIFEST_PATH
  {
    JoinOfSplit(Encode(rel));
    if PathOf(rel) == MANIFEST_PATH { EncodeTellsApart(rel, MANIFEST); }
  }

  lemma {:induction false} KeptMembers(paths: seq<Path>)
    ensures forall r :: r in Kept(paths) <==> r != MANIFEST && exists p :: p in paths && r == Rel(p)
  {
    if paths != [] {
      KeptMembers(paths[1..]);
      assert paths == [paths[0]] + paths[1..];
    }
  }

  lemma FilesMembers(order: Order, n: Node)
    requires Enumerates(order, n, [])
    ensures forall r :: r in Files(order, n) <==> r != MANIFEST && exists p :: FileAt(n, p).Some? && r == Rel(p)
  {
    var found := Walk(order, n, []);
    WalkFinds(order, n, []);
    forall p ensures p in found <==> FileAt(n, p).Some? { assert p[0..] == p; assert Leads(n, [], p) <==> p in found; }
    KeptMembers(found);
    SortKeepsMembers(StrLe, Kept(found));
  }

  // ── What the digest sees ────────────────────────────────────────────────────

  // Unchanged in writing.
  predicate Verbatim(p: Path) {
    Encode(Rel(p)) == JoinPath(p)
  }

  // The same paths, the root manifest apart, and the same contents at those written as they are.
  ghost predicate SameToDigest(a: Node, b: Node) {
    forall p :: p != MANIFEST_PATH ==>
      (FileAt(a, p).Some? <==> FileAt(b, p).Some?) && (Verbatim(p) ==> FileAt(a, p) == FileAt(b, p))
  }

  // The same files, the root manifest apart.
  ghost predicate SameFiles(a: Node, b: Node) {
    forall p :: p != MANIFEST_PATH ==> FileAt(a, p) == FileAt(b, p)
  }

  lemma {:induction false} SlashesLeavesNoBackslash(s: string)
    ensures '\\' !in Slashes(s)
  {
    if s != "" { SlashesLeavesNoBackslash(s[1..]); }
  }

  // Text without a backslash is how the path it reads back as is written.
  lemma WrittenAsRead(rel: string)
    requires '\\' !in rel
    ensures Rel(PathOf(rel)) == rel && Verbatim(PathOf(rel))
  {
    JoinOfSplit(Encode(rel));
    LossyReadsText(rel);
    SlashesChangesNothing(rel);
  }

  lemma FilesAreVerbatim(order: Order, n: Node)
    requires Enumerates(order, n, [])
    ensures forall r :: r in Files(order, n) ==> Verbatim(PathOf(r)) && PathOf(r) != MANIFEST_PATH
  {
    FilesMembers(order, n);
    forall r | r in Files(order, n) ensures Verbatim(PathOf(r)) && PathOf(r) != MANIFEST_PATH {
      var p :| FileAt(n, p).Some? && r == Rel(p);
      SlashesLeavesNoBackslash(Lossy(JoinPath(p)));
      WrittenAsRead(r);
      OnlyManifestLeadsThere(r);
    }
  }

  lemma {:induction false} SameStream(a: Reader, b: Reader, rels: seq<string>)
    requires forall r :: r in rels ==> a(r) == b(r)
    ensures Stream(a, rels) == Stream(b, rels)
  {
    if rels != [] {
      assert rels[0] in rels && forall r :: r in rels[1..] ==> r in rels;
      SameStream(a, b, rels[1..]);
    }
  }

  lemma SamePathsWritten(oa: Order, a: Node, ob: Order, b: Node)
    requires Enumerates(oa, a, []) && Enumerates(ob, b, []) && SameToDigest(a, b)
    ensures Files(oa, a) == Files(ob, b)
  {
    var wa, wb := Walk(oa, a, []), Walk(ob, b, []);
    WalkFinds(oa, a, []);
    WalkFinds(ob, b, []);
    forall p | p != MANIFEST_PATH ensures p in wa <==> p in wb {
      assert p[0..] == p;
      assert Leads(a, [], p) <==> Leads(b, [], p);
    }
    SamePathsKept(wa, wb);
    StrLeIsTotalOrder();
    SortIsSorted(StrLe, Kept(wa));
    SortIsSorted(StrLe, Kept(wb));
    SortedIsUnique(StrLe, Files(oa, a), Files(ob, b));
  }

  // However directories are enumerated and whatever the root manifest holds, the stream
  // is fixed by the paths and by the contents at those written as they are: contents at
  // a path that is changed in writing are never read.
  lemma DigestSees(oa: Order, a: Node, ob: Order, b: Node, around: Reader)
    requires a.Dir? && b.Dir? && Enumerates(oa, a, []) && Enumerates(ob, b, [])
    requires SameToDigest(a, b)
    ensures Digested(oa, a, around) == Digested(ob, b, around)
  {
    SamePathsWritten(oa, a, ob, b);
    FilesAreVerbatim(oa, a);
    SameStream(ReaderOf(a, around), ReaderOf(b, around), Files(oa, a));
  }

  lemma FilesDecide(oa: Order, a: Node, ob: Order, b: Node, around: Reader)
    requires a.Dir? && b.Dir? && Enumerates(oa, a, []) && Enumerates(ob, b, [])
    requires SameFiles(a, b)
    ensures Digested(oa, a, around) == Digested(ob, b, around)
  {
    DigestSees(oa, a, ob, b, around);
  }

  // ── When there is a digest ──────────────────────────────────────────────────

  // What every file system's names satisfy.
  predicate FileName(x: Bytes) {
    EntryName(x) && SLASH !in x && 0 !in x
  }

  predicate NamedPath(p: Path) {
    forall i :: 0 <= i < |p| ==> FileName(p[i])
  }

  ghost predicate Named(n: Node) {
    forall p :: FileAt(n, p).Some? ==> NamedPath(p)
  }

  lemma {:induction false} SplitOfJoin(p: Path)
    requires NamedPath(p) && p != []
    ensures SplitPath(JoinPath(p)) == p
  {
    if |p| == 1 {
      NameStops(p[0], []);
      assert p[0] + [] == p[0];
    } else {
      SplitOfJoin(p[1..]);
      JoinStep(p[0], JoinPath(p[1..]));
      assert p == [p[0]] + p[1..];
    }
  }

  lemma JoinStep(name: Bytes, rest: Bytes)
    requires SLASH !in name
    ensures SplitPath(name + [SLASH] + rest) == [name] + SplitPath(rest)
  {
    NameStops(name, [SLASH] + rest);
    var s := name + [SLASH] + rest;
    assert s == name + ([SLASH] + rest) && s[|name| + 1..] == rest;
  }

  lemma {:induction false} NameStops(name: Bytes, tail: Bytes)
    requires SLASH !in name && (tail == [] || tail[0] == SLASH)
    ensures FirstName(name + tail) == name
  {
    if name != [] {
      assert (name + tail)[1..] == name[1..] + tail;
      NameStops(name[1..], tail);
    } else {
      assert name + tail == tail;
    }
  }

  lemma {:induction false} JoinHasNoZero(p: Path)
    requires NamedPath(p)
    ensures 0 !in JoinPath(p)
  {
    if |p| > 1 { JoinHasNoZero(p[1..]); }
  }

  lemma {:induction false} SlashesAddsNoZero(s: string)
    requires '\0' !in s
    ensures '\0' !in Slashes(s)
  {
    if s != "" { SlashesAddsNoZero(s[1..]); }
  }

  lemma RelHasNoZero(p: Path)
    requires NamedPath(p)
    ensures '\0' !in Rel(p)
  {
    JoinHasNoZero(p);
    AsciiIsReadWhereItIs(JoinPath(p), '\0');
    SlashesAddsNoZero(Lossy(JoinPath(p)));
  }

  lemma VerbatimReadsBack(p: Path)
    requires NamedPath(p) && Verbatim(p) && p != []
    ensures PathOf(Rel(p)) == p
  {
    SplitOfJoin(p);
  }

  lemma {:induction false} StreamExists(read: Reader, rels: seq<string>)
    ensures Stream(read, rels).Some? <==> forall r :: r in rels ==> read(r).Some?
  {
    if rels != [] {
      StreamExists(read, rels[1..]);
      assert rels == [rels[0]] + rels[1..];
    }
  }

  lemma OneName(s: string)
    requires '/' !in s
    ensures PathOf(s) == [Encode(s)]
  {
    LossyReadsText(s);
    AsciiIsReadWhereItIs(Encode(s), '/');
    NameStops(Encode(s), []);
    assert Encode(s) + [] == Encode(s);
  }

  lemma OnlyOnePathIsManifest(p: Path)
    requires PathOf(Rel(p)) == p && p != MANIFEST_PATH
    ensures Rel(p) != MANIFEST
  {
    OneName(MANIFEST);
  }

  lemma {:induction false} SlashIsWritten(s: string)
    requires '/' !in Slashes(s)
    ensures Slashes(s) == s && '\\' !in s
  {
    if s != "" {
      assert Slashes(s)[0] != '/' && Slashes(s)[1..] == Slashes(s[1..]);
      SlashIsWritten(s[1..]);
    }
  }

  // A path that is changed in writing is not written as the manifest's.
  lemma RewrittenIsNoManifest(p: Path)
    requires !Verbatim(p)
    ensures Rel(p) != MANIFEST && p != MANIFEST_PATH
  {
    ManifestIsDropped();
    LossyReadsText(MANIFEST);
    if Rel(p) == MANIFEST {
      SlashIsWritten(Lossy(JoinPath(p)));
      UnreplacedIsText(JoinPath(p));
    }
  }

  lemma {:induction false} SlashesChangesBackslashes(s: string)
    requires Slashes(s) == s
    ensures '\\' !in s
  {
    if s != "" {
      assert Slashes(s)[1..] == s[1..];
      SlashesChangesBackslashes(s[1..]);
    }
  }

  // A path is written as it is exactly when it is text and has no backslash in it.
  lemma VerbatimIffPlainText(p: Path)
    ensures Verbatim(p) <==> IsText(JoinPath(p)) && BACKSLASH !in JoinPath(p)
  {
    var path := JoinPath(p);
    RewrittenIffText(path);
    AsciiIsReadWhereItIs(path, '\\');
    if Verbatim(p) {
      LossyReadsText(Rel(p));
      SlashesChangesBackslashes(Lossy(path));
    } else if '\\' !in Lossy(path) {
      SlashesChangesNothing(Lossy(path));
    }
  }

  // A pack has a digest exactly when each of its files whose path is changed in writing
  // reads back as something: inside, a file at the path that was written.
  lemma DigestExists(order: Order, n: Node, around: Reader)
    requires n.Dir? && Enumerates(order, n, []) && Named(n)
    ensures Digested(order, n, around).Some?
            <==> forall p :: FileAt(n, p).Some? && !Verbatim(p) ==> ReadBack(n, around, Rel(p)).Some?
  {
    var read := ReaderOf(n, around);
    FilesMembers(order, n);
    StreamExists(read, Files(order, n));
    forall p | FileAt(n, p).Some? && Verbatim(p) ensures read(Rel(p)).Some? {
      assert NamedPath(p);
      VerbatimReadsBack(p);
    }
    forall p | FileAt(n, p).Some? && !Verbatim(p) ensures Rel(p) in Files(order, n) {
      RewrittenIsNoManifest(p);
    }
  }
}
