// The session tokens: how the operator's setting is read into a set, and how a request's
// header is compared with it.
module Tokens {
  import opened Text
  import opened Utf8

  const MIN_LENGTH := 32

  // ── Reading the setting ─────────────────────────────────────────────────────

  function BeforeLineFeed(s: string): (r: string)
    ensures r <= s && '\n' !in r
    ensures r == s || s[|r|] == '\n'
  {
    if s == "" || s[0] == '\n' then "" else [s[0]] + BeforeLineFeed(s[1..])
  }

  function WithoutReturn(line: string): string {
    if line != "" && line[|line| - 1] == '\r' then line[..|line| - 1] else line
  }

  // `str::lines`: a line ends at a line feed, and a carriage return before it goes too.
  function Lines(s: string): seq<string>
    decreases |s|
  {
    if s == "" then []
    else
      var line := BeforeLineFeed(s);
      if line == s then [s] else [WithoutReturn(line)] + Lines(s[|line| + 1..])
  }

  function TrimmedLines(lines: seq<string>): seq<string> {
    if lines == [] then []
    else (if Trim(lines[0]) == "" then [] else [Trim(lines[0])]) + TrimmedLines(lines[1..])
  }

  datatype Setting = NothingSet | TooShort(length: nat) | Accepted(tokens: seq<string>)

  function CheckLengths(all: seq<string>, rest: seq<string>): Setting {
    if rest == [] then Accepted(all)
    else if |rest[0]| < MIN_LENGTH then TooShort(|rest[0]|)
    else CheckLengths(all, rest[1..])
  }

  function Resolve(configured: Option<string>): Setting {
    match configured
    case None => NothingSet
    case Some(raw) =>
      var tokens := TrimmedLines(Lines(raw));
      if tokens == [] then NothingSet else CheckLengths(tokens, tokens)
  }

  // ── What is read back ───────────────────────────────────────────────────────

  predicate ValidToken(t: string) {
    Trimmed(t) && '\n' !in t && |t| >= MIN_LENGTH
  }

  predicate ValidTokens(ts: seq<string>) {
    forall t :: t in ts ==> ValidToken(t)
  }

  function Join(ts: seq<string>): string {
    if ts == [] then ""
    else if |ts| == 1 then ts[0]
    else ts[0] + "\n" + Join(ts[1..])
  }

  lemma TrimKeepsTrimmed(t: string)
    requires Trimmed(t)
    ensures Trim(t) == t
  {}

  lemma {:induction false} TrimStartOnlyDrops(s: string)
    ensures exists k :: 0 <= k <= |s| && TrimStart(s) == s[k..]
    ensures TrimStart(s) != "" ==> !IsSpace(TrimStart(s)[0])
  {
    if s != [] && IsSpace(s[0]) {
      TrimStartOnlyDrops(s[1..]);
      var k :| 0 <= k <= |s[1..]| && TrimStart(s[1..]) == s[1..][k..];
      assert s[1..][k..] == s[k + 1..];
    } else {
      assert s == s[0..];
    }
  }

  lemma {:induction false} TrimEndOnlyDrops(s: string)
    ensures exists k :: 0 <= k <= |s| && TrimEnd(s) == s[..k]
    ensures TrimEnd(s) != "" ==> !IsSpace(TrimEnd(s)[|TrimEnd(s)| - 1])
  {
    if s != [] && IsSpace(s[|s| - 1]) {
      TrimEndOnlyDrops(s[..|s| - 1]);
      var k :| 0 <= k <= |s[..|s| - 1]| && TrimEnd(s[..|s| - 1]) == s[..|s| - 1][..k];
      assert s[..|s| - 1][..k] == s[..k];
    } else {
      assert s == s[..|s|];
    }
  }

  lemma TrimIsTrimmed(s: string)
    ensures Trimmed(Trim(s))
    ensures forall c :: c in Trim(s) ==> c in s
  {
    TrimStartOnlyDrops(s);
    TrimEndOnlyDrops(TrimStart(s));
  }

  lemma {:induction false} LinesHaveNoLineFeed(s: string)
    ensures forall line :: line in Lines(s) ==> '\n' !in line
    decreases |s|
  {
    if s != "" && BeforeLineFeed(s) != s {
      LinesHaveNoLineFeed(s[|BeforeLineFeed(s)| + 1..]);
    }
  }

  lemma {:induction false} TrimmedLinesAreTrimmed(lines: seq<string>)
    requires forall line :: line in lines ==> '\n' !in line
    ensures forall t :: t in TrimmedLines(lines) ==> Trimmed(t) && '\n' !in t && t != ""
  {
    if lines != [] {
      TrimIsTrimmed(lines[0]);
      TrimmedLinesAreTrimmed(lines[1..]);
    }
  }

  lemma {:induction false} LengthsChecked(all: seq<string>, rest: seq<string>)
    ensures var setting := CheckLengths(all, rest);
            if forall t :: t in rest ==> |t| >= MIN_LENGTH then setting == Accepted(all)
            else setting.TooShort? && exists t :: t in rest && |t| == setting.length < MIN_LENGTH
  {
    if rest != [] {
      LengthsChecked(all, rest[1..]);
      assert rest[0] in rest;
    }
  }

  lemma FirstLine(t: string, rest: string)
    requires ValidToken(t)
    ensures Lines(t) == [t]
    ensures Lines(t + "\n" + rest) == [t] + Lines(rest)
  {
    LineStopsAtFeed(t, "");
    assert t + "" == t;
    LineStopsAtFeed(t, "\n" + rest);
    var s := t + "\n" + rest;
    assert s == t + ("\n" + rest) && |s| > |t|;
    assert s[|t| + 1..] == rest;
    assert WithoutReturn(t) == t;
  }

  lemma {:induction false} LinesOfJoin(ts: seq<string>)
    requires ValidTokens(ts)
    ensures Lines(Join(ts)) == ts
  {
    if ts != [] {
      var t, rest := ts[0], ts[1..];
      assert ts == [t] + rest && ValidToken(t);
      LinesOfJoin(rest);
      FirstLine(t, Join(rest));
      if rest == [] {
        assert Join(ts) == t;
      } else {
        assert Join(ts) == t + "\n" + Join(rest);
      }
    }
  }

  lemma {:induction false} LineStopsAtFeed(t: string, tail: string)
    requires '\n' !in t && (tail == "" || tail[0] == '\n')
    ensures BeforeLineFeed(t + tail) == t
  {
    if t != "" {
      assert (t + tail)[1..] == t[1..] + tail;
      LineStopsAtFeed(t[1..], tail);
    } else {
      assert t + tail == tail;
    }
  }

  lemma OneToken(t: string, rest: seq<string>)
    requires ValidToken(t)
    ensures TrimmedLines([t] + rest) == [t] + TrimmedLines(rest)
  {
    TrimKeepsTrimmed(t);
    assert ([t] + rest)[1..] == rest;
  }

  lemma {:induction false} TrimmedLinesOfTokens(ts: seq<string>)
    requires ValidTokens(ts)
    ensures TrimmedLines(ts) == ts
  {
    if ts != [] {
      var t, rest := ts[0], ts[1..];
      assert ts == [t] + rest && ValidToken(t);
      TrimmedLinesOfTokens(rest);
      OneToken(t, rest);
    }
  }

  // Every list of valid tokens, written one to a line, is read back as it is; and only
  // such lists are ever accepted.
  lemma TokensRoundTrip(ts: seq<string>)
    ensures ts != [] && ValidTokens(ts) <==> Resolve(Some(Join(ts))) == Accepted(ts)
  {
    if ts != [] && ValidTokens(ts) {
      LinesOfJoin(ts);
      TrimmedLinesOfTokens(ts);
      LengthsChecked(ts, ts);
    } else if Resolve(Some(Join(ts))) == Accepted(ts) {
      AcceptedAreValid(Some(Join(ts)));
    }
  }

  lemma AcceptedAreValid(configured: Option<string>)
    ensures Resolve(configured).Accepted? ==> Resolve(configured).tokens != [] && ValidTokens(Resolve(configured).tokens)
  {
    if configured.Some? {
      var lines := Lines(configured.value);
      LinesHaveNoLineFeed(configured.value);
      TrimmedLinesAreTrimmed(lines);
      LengthsChecked(TrimmedLines(lines), TrimmedLines(lines));
    }
  }

  // ── However the setting is laid out ─────────────────────────────────────────

  predicate Spaces(s: string) {
    forall i :: 0 <= i < |s| ==> IsSpace(s[i])
  }

  // The token with white space around it, or none.
  ghost predicate Dressed(line: string, t: string) {
    t != "" && Trimmed(t) && exists a, b :: Spaces(a) && Spaces(b) && line == a + t + b
  }

  // Lines that each hold the next token or nothing.
  ghost predicate LinesSpell(lines: seq<string>, ts: seq<string>)
    decreases |lines|
  {
    if lines == [] then ts == []
    else
      || (Spaces(lines[0]) && LinesSpell(lines[1..], ts))
      || (ts != [] && Dressed(lines[0], ts[0]) && LinesSpell(lines[1..], ts[1..]))
  }

  predicate NoLineFeed(lines: seq<string>) {
    forall line :: line in lines ==> '\n' !in line
  }

  // The text lists these tokens, one to a line, blank lines and padding aside.
  ghost predicate Spells(text: string, ts: seq<string>) {
    exists lines :: NoLineFeed(lines) && text == Join(lines) && LinesSpell(lines, ts)
  }

  // The first token that is too short has this length.
  ghost predicate FirstShort(ts: seq<string>, length: nat) {
    exists k :: 0 <= k < |ts| && |ts[k]| == length < MIN_LENGTH && forall j :: 0 <= j < k ==> |ts[j]| >= MIN_LENGTH
  }

  lemma {:induction false} TrimStartUndresses(a: string, s: string)
    requires Spaces(a) && (s != "" ==> !IsSpace(s[0]))
    ensures TrimStart(a + s) == s
  {
    if a == "" {
      assert a + s == s;
    } else {
      assert (a + s)[1..] == a[1..] + s;
      TrimStartUndresses(a[1..], s);
    }
  }

  lemma {:induction false} TrimEndUndresses(s: string, b: string)
    requires Spaces(b) && (s != "" ==> !IsSpace(s[|s| - 1]))
    ensures TrimEnd(s + b) == s
  {
    if b == "" {
      assert s + b == s;
    } else {
      assert (s + b)[..|s + b| - 1] == s + b[..|b| - 1];
      TrimEndUndresses(s, b[..|b| - 1]);
    }
  }

  lemma BlankTrims(s: string)
    requires Spaces(s)
    ensures Trim(s) == ""
  {
    TrimStartUndresses(s, "");
    assert s + "" == s;
  }

  lemma DressedTrims(line: string, t: string)
    requires Dressed(line, t)
    ensures Trim(line) == t
  {
    var a, b :| Spaces(a) && Spaces(b) && line == a + t + b;
    assert line == a + (t + b) && (t + b)[0] == t[0];
    TrimStartUndresses(a, t + b);
    TrimEndUndresses(t, b);
  }

  lemma {:induction false} TrimStartDrops(s: string) returns (a: string)
    ensures Spaces(a) && s == a + TrimStart(s)
  {
    if s != "" && IsSpace(s[0]) {
      var more := TrimStartDrops(s[1..]);
      a := [s[0]] + more;
      assert s == [s[0]] + s[1..];
    } else {
      a := "";
    }
  }

  lemma {:induction false} TrimEndDrops(s: string) returns (b: string)
    ensures Spaces(b) && s == TrimEnd(s) + b
  {
    if s != "" && IsSpace(s[|s| - 1]) {
      var more := TrimEndDrops(s[..|s| - 1]);
      b := more + [s[|s| - 1]];
      assert s == s[..|s| - 1] + [s[|s| - 1]];
    } else {
      b := "";
      assert s + "" == s;
    }
  }

  // A line is blank, or what it trims to with white space around it.
  lemma TrimIsDress(s: string)
    ensures if Trim(s) == "" then Spaces(s) else Dressed(s, Trim(s))
  {
    var a := TrimStartDrops(s);
    var b := TrimEndDrops(TrimStart(s));
    TrimIsTrimmed(s);
    assert s == a + (Trim(s) + b);
    assert s == a + Trim(s) + b;
    if Trim(s) == "" { assert s == a + b; }
  }

  lemma {:induction false} LinesSpellTheirTokens(lines: seq<string>)
    ensures LinesSpell(lines, TrimmedLines(lines))
    decreases |lines|
  {
    if lines != [] {
      LinesSpellTheirTokens(lines[1..]);
      TrimIsDress(lines[0]);
      var t, rest := Trim(lines[0]), TrimmedLines(lines[1..]);
      if t == "" { assert TrimmedLines(lines) == rest; } else { assert ([t] + rest)[1..] == rest; }
    }
  }

  lemma {:induction false} LinesSpellOneList(lines: seq<string>, ts: seq<string>)
    requires LinesSpell(lines, ts)
    ensures TrimmedLines(lines) == ts
    decreases |lines|
  {
    if lines != [] {
      if Spaces(lines[0]) && LinesSpell(lines[1..], ts) {
        BlankTrims(lines[0]);
        LinesSpellOneList(lines[1..], ts);
      } else {
        DressedTrims(lines[0], ts[0]);
        LinesSpellOneList(lines[1..], ts[1..]);
        assert ts == [ts[0]] + ts[1..];
      }
    }
  }

  lemma ReturnIsPadding(line: string)
    ensures Trim(WithoutReturn(line)) == Trim(line)
  {
    var s := WithoutReturn(line);
    if s != line {
      TrimIsDress(s);
      if Trim(s) == "" {
        BlankTrims(line);
      } else {
        var t := Trim(s);
        var a, b :| Spaces(a) && Spaces(b) && s == a + t + b;
        assert line == a + t + (b + ['\r']);
        assert Spaces(b + ['\r']);
        DressedTrims(line, t);
      }
    }
  }

  // Joined and split again, lines keep their tokens.
  lemma {:induction false} JoinedLinesAreRead(lines: seq<string>)
    requires NoLineFeed(lines)
    ensures TrimmedLines(Lines(Join(lines))) == TrimmedLines(lines)
    decreases |lines|
  {
    if |lines| == 1 {
      LineStopsAtFeed(lines[0], "");
      assert lines[0] + "" == lines[0] && lines[1..] == [];
      if lines[0] != "" { assert Lines(lines[0]) == lines; }
    } else if |lines| > 1 {
      var line, rest := lines[0], Join(lines[1..]);
      JoinedLinesAreRead(lines[1..]);
      LineStopsAtFeed(line, "\n" + rest);
      var s := line + "\n" + rest;
      assert s == line + ("\n" + rest) && s[|line| + 1..] == rest;
      ReturnIsPadding(line);
      assert ([WithoutReturn(line)] + Lines(rest))[1..] == Lines(rest);
    }
  }

  lemma {:induction false} EveryTextHasLines(text: string) returns (lines: seq<string>)
    ensures lines != [] && NoLineFeed(lines) && text == Join(lines)
    decreases |text|
  {
    var line := BeforeLineFeed(text);
    if line == text {
      lines := [text];
    } else {
      var rest := EveryTextHasLines(text[|line| + 1..]);
      lines := [line] + rest;
      assert lines[1..] == rest;
      assert text == line + "\n" + text[|line| + 1..];
    }
  }

  lemma SpellsWhatIsRead(text: string, ts: seq<string>)
    ensures Spells(text, ts) <==> ts == TrimmedLines(Lines(text))
  {
    if Spells(text, ts) {
      var lines :| NoLineFeed(lines) && text == Join(lines) && LinesSpell(lines, ts);
      LinesSpellOneList(lines, ts);
      JoinedLinesAreRead(lines);
    }
    var lines := EveryTextHasLines(text);
    JoinedLinesAreRead(lines);
    LinesSpellTheirTokens(lines);
  }

  lemma {:induction false} FirstShortIsReported(all: seq<string>, rest: seq<string>, length: nat)
    ensures CheckLengths(all, rest) == TooShort(length) <==> FirstShort(rest, length)
  {
    if rest != [] {
      FirstShortIsReported(all, rest[1..], length);
      assert rest == [rest[0]] + rest[1..];
      if FirstShort(rest[1..], length) && |rest[0]| >= MIN_LENGTH {
        var k :| 0 <= k < |rest[1..]| && |rest[1..][k]| == length < MIN_LENGTH && forall j :: 0 <= j < k ==> |rest[1..][j]| >= MIN_LENGTH;
        assert rest[k + 1] == rest[1..][k];
        assert forall j :: 0 < j < k + 1 ==> rest[j] == rest[1..][j - 1];
      }
      if FirstShort(rest, length) && |rest[0]| >= MIN_LENGTH {
        var k :| 0 <= k < |rest| && |rest[k]| == length < MIN_LENGTH && forall j :: 0 <= j < k ==> |rest[j]| >= MIN_LENGTH;
        assert rest[1..][k - 1] == rest[k];
      }
    }
  }

  // Whatever the layout of the setting, blank lines, padding, carriage returns and a
  // trailing line feed included: it is accepted as a list of tokens exactly when it
  // spells that list, none too short; it counts as not set exactly when it is blank; and
  // otherwise the first token that is too short is reported.
  lemma SettingIsRead(text: string, ts: seq<string>, length: nat)
    ensures Resolve(Some(text)) == Accepted(ts)
            <==> ts != [] && Spells(text, ts) && forall t :: t in ts ==> |t| >= MIN_LENGTH
    ensures Resolve(Some(text)) == NothingSet <==> Spells(text, [])
    ensures Resolve(Some(text)) == TooShort(length) <==> exists us :: Spells(text, us) && FirstShort(us, length)
  {
    var us := TrimmedLines(Lines(text));
    SpellsWhatIsRead(text, ts);
    SpellsWhatIsRead(text, us);
    SpellsWhatIsRead(text, []);
    LengthsChecked(us, us);
    FirstShortIsReported(us, us, length);
    if vs :| Spells(text, vs) && FirstShort(vs, length) { SpellsWhatIsRead(text, vs); }
  }

  // ── Comparing ───────────────────────────────────────────────────────────────────

  function Xor(x: nat, y: nat): nat {
    if x == 0 && y == 0 then 0 else (if x % 2 == y % 2 then 0 else 1) + 2 * Xor(x / 2, y / 2)
  }

  function Or(x: nat, y: nat): nat {
    if x == 0 && y == 0 then 0 else (if x % 2 == 0 && y % 2 == 0 then 0 else 1) + 2 * Or(x / 2, y / 2)
  }

  lemma {:induction false} XorIsZero(x: nat, y: nat)
    ensures Xor(x, y) == 0 <==> x == y
  {
    if x != 0 || y != 0 { XorIsZero(x / 2, y / 2); }
  }

  lemma {:induction false} OrIsZero(x: nat, y: nat)
    ensures Or(x, y) == 0 <==> x == 0 && y == 0
  {
    if x != 0 || y != 0 { OrIsZero(x / 2, y / 2); }
  }

  method SecureCompare(a: Bytes, b: Bytes) returns (same: bool)
    ensures same <==> a == b
  {
    if |a| != |b| { return false; }
    var diff: nat := 0;
    for i := 0 to |a|
      invariant diff == 0 <==> a[..i] == b[..i]
    {
      assert a[..i + 1] == a[..i] + [a[i]] && b[..i + 1] == b[..i] + [b[i]];
      XorIsZero(a[i], b[i]);
      OrIsZero(diff, Xor(a[i], b[i]));
      diff := Or(diff, Xor(a[i], b[i]));
    }
    assert a[..|a|] == a && b[..|b|] == b;
    return diff == 0;
  }

  // A header value is text when all of it is visible.
  predicate Visible(bytes: Bytes) {
    forall i :: 0 <= i < |bytes| ==> bytes[i] == 9 || 32 <= bytes[i] < 127
  }

  predicate Admits(header: Option<Bytes>, expected: seq<string>) {
    header.Some? && Visible(header.value) && exists i :: 0 <= i < |expected| && header.value == Encode(expected[i])
  }

  method SessionTokenOk(header: Option<Bytes>, expected: seq<string>) returns (ok: bool)
    ensures ok <==> Admits(header, expected)
  {
    if header.None? || !Visible(header.value) { return false; }
    var matched := false;
    for k := 0 to |expected|
      invariant matched <==> exists i :: 0 <= i < k && header.value == Encode(expected[i])
    {
      var same := SecureCompare(header.value, Encode(expected[k]));
      matched := matched || same;
    }
    return matched;
  }

  // A presented text is admitted exactly when it is one of the tokens, and visible.
  lemma AdmittedIffMember(presented: string, expected: seq<string>)
    ensures Admits(Some(Encode(presented)), expected) <==> presented in expected && Visible(Encode(presented))
  {
    forall i | 0 <= i < |expected| && Encode(presented) == Encode(expected[i]) ensures presented == expected[i] {
      EncodeTellsApart(presented, expected[i]);
    }
  }

  // From the setting to the door: the governor configured with a list of valid tokens
  // admits those among them that a header can carry, and nothing else.
  lemma SettingToDoor(ts: seq<string>, header: Option<Bytes>)
    requires ts != [] && ValidTokens(ts)
    ensures Resolve(Some(Join(ts))).Accepted?
    ensures Admits(header, Resolve(Some(Join(ts))).tokens)
            <==> exists t :: t in ts && header == Some(Encode(t)) && Visible(Encode(t))
  {
    TokensRoundTrip(ts);
    if Admits(header, ts) {
      var i :| 0 <= i < |ts| && header.value == Encode(ts[i]);
      assert ts[i] in ts && header == Some(Encode(ts[i]));
    }
  }
}
