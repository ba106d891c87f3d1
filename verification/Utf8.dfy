// Bytes, and strings as bytes.
module Utf8 {
  type Byte = n: int | 0 <= n < 256
  type Bytes = seq<Byte>

  // The UTF-8 encoding of a string, as RFC 3629 section 3 lays it out.
  function EncodeChar(c: char): Bytes {
    var n := c as int;
    if n < 0x80 then [n]
    else if n < 0x800 then [0xC0 + n / 0x40, 0x80 + n % 0x40]
    else if n < 0x10000 then [0xE0 + n / 0x1000, 0x80 + n / 0x40 % 0x40, 0x80 + n % 0x40]
    else [0xF0 + n / 0x40000, 0x80 + n / 0x1000 % 0x40, 0x80 + n / 0x40 % 0x40, 0x80 + n % 0x40]
  }

  function Encode(s: string): Bytes {
    if s == "" then [] else EncodeChar(s[0]) + Encode(s[1..])
  }

  // How many bytes a character takes shows in the first of them.
  function Length(first: Byte): nat {
    if first < 0x80 then 1 else if first < 0xE0 then 2 else if first < 0xF0 then 3 else 4
  }

  function Code(p: seq<int>): int {
    if |p| == 1 then p[0]
    else if |p| == 2 then (p[0] - 0xC0) * 0x40 + (p[1] - 0x80)
    else if |p| == 3 then (p[0] - 0xE0) * 0x1000 + (p[1] - 0x80) * 0x40 + (p[2] - 0x80)
    else if |p| == 4 then (p[0] - 0xF0) * 0x40000 + (p[1] - 0x80) * 0x1000 + (p[2] - 0x80) * 0x40 + (p[3] - 0x80)
    else 0
  }

  lemma Digits(n: nat)
    ensures n == n / 0x40 * 0x40 + n % 0x40
    ensures n == n / 0x1000 * 0x1000 + n / 0x40 % 0x40 * 0x40 + n % 0x40
    ensures n == n / 0x40000 * 0x40000 + n / 0x1000 % 0x40 * 0x1000 + n / 0x40 % 0x40 * 0x40 + n % 0x40
  {
    var m := n / 0x40;
    var l := m / 0x40;
    assert n / 0x1000 == l && n / 0x40000 == l / 0x40;
  }

  lemma CharReadsBack(c: char)
    ensures var p := EncodeChar(c); p != [] && |p| == Length(p[0]) && Code(p) == c as int
  {
    Digits(c as int);
    var p := EncodeChar(c);
    if |p| == 1 {
    } else if |p| == 2 {
      assert p[0] < 0xE0;
    } else if |p| == 3 {
      assert 0xE0 <= p[0] < 0xF0;
    } else {
      assert p[0] >= 0xF0;
    }
  }

  lemma CharIsPrefixFree(c: char, d: char, x: Bytes, y: Bytes)
    requires EncodeChar(c) + x == EncodeChar(d) + y
    ensures c == d && x == y
  {
    CharReadsBack(c);
    CharReadsBack(d);
    Resplit(EncodeChar(c), x, EncodeChar(d), y);
  }

  lemma Resplit(p: Bytes, x: Bytes, q: Bytes, y: Bytes)
    requires p + x == q + y
    requires p != [] && |p| == Length(p[0]) && q != [] && |q| == Length(q[0])
    ensures p == q && x == y
  {
    assert p[0] == (p + x)[0] == (q + y)[0] == q[0];
    assert p == (p + x)[..|p|] && x == (p + x)[|p|..];
    assert q == (q + y)[..|q|] && y == (q + y)[|q|..];
  }

  lemma {:induction false} EncodeTellsApart(a: string, b: string)
    requires Encode(a) == Encode(b)
    ensures a == b
  {
    if a != "" && b != "" {
      CharIsPrefixFree(a[0], b[0], Encode(a[1..]), Encode(b[1..]));
      EncodeTellsApart(a[1..], b[1..]);
      assert a == [a[0]] + a[1..] && b == [b[0]] + b[1..];
    }
  }

  // ── Bytes as a string ───────────────────────────────────────────────────────

  // How many bytes a character starting so has; none starts with the others.
  function Width(first: Byte): nat {
    if first < 0x80 then 1
    else if first < 0xC2 then 0
    else if first < 0xE0 then 2
    else if first < 0xF0 then 3
    else if first < 0xF5 then 4 else 0
  }

  predicate Continues(b: Byte) {
    0x80 <= b < 0xC0
  }

  // Longer forms than needed, surrogates and what is past the last character are out.
  predicate SecondFits(first: Byte, second: Byte) {
    && Continues(second)
    && (first == 0xE0 ==> second >= 0xA0) && (first == 0xED ==> second < 0xA0)
    && (first == 0xF0 ==> second >= 0x90) && (first == 0xF4 ==> second < 0x90)
  }

  // How many of the leading bytes could begin a character, and at least one.
  function Subpart(b: Bytes): (k: nat)
    requires b != []
    ensures 1 <= k <= |b| && (k > 1 ==> k <= Width(b[0]))
  {
    var w := Width(b[0]);
    if w < 2 || |b| < 2 || !SecondFits(b[0], b[1]) then 1
    else if w < 3 || |b| < 3 || !Continues(b[2]) then 2
    else if w < 4 || |b| < 4 || !Continues(b[3]) then 3 else 4
  }

  predicate StartsWithChar(b: Bytes) {
    b != [] && Subpart(b) == Width(b[0])
  }

  const REPLACEMENT := '\U{FFFD}'

  function FirstChar(b: Bytes): char
    requires b != []
  {
    if StartsWithChar(b) then Code(b[..Width(b[0])]) as char else REPLACEMENT
  }

  // Bytes read as UTF-8, each part that begins no character read as the replacement
  // character (`String::from_utf8_lossy`).
  function Lossy(b: Bytes): string {
    if b == [] then "" else [FirstChar(b)] + Lossy(b[Subpart(b)..])
  }

  lemma TwoDigits(a: nat, b: nat)
    requires b < 0x40
    ensures (a * 0x40 + b) / 0x40 == a && (a * 0x40 + b) % 0x40 == b
  {
  }

  lemma ThreeDigits(a: nat, b: nat, c: nat)
    requires b < 0x40 && c < 0x40
    ensures var n := a * 0x1000 + b * 0x40 + c; n / 0x1000 == a && n / 0x40 % 0x40 == b && n % 0x40 == c
  {
    TwoDigits(a * 0x40 + b, c);
    TwoDigits(a, b);
  }

  lemma FourDigits(a: nat, b: nat, c: nat, d: nat)
    requires b < 0x40 && c < 0x40 && d < 0x40
    ensures var n := a * 0x40000 + b * 0x1000 + c * 0x40 + d;
            n / 0x40000 == a && n / 0x1000 % 0x40 == b && n / 0x40 % 0x40 == c && n % 0x40 == d
  {
    ThreeDigits(a * 0x40 + b, c, d);
    TwoDigits(a, b);
  }

  lemma TwoBytes(p: Bytes)
    requires |p| == 2 && Width(p[0]) == 2 && SecondFits(p[0], p[1])
    ensures 0x80 <= Code(p) < 0x800 && EncodeChar(Code(p) as char) == p
  {
    TwoDigits(p[0] - 0xC0, p[1] - 0x80);
  }

  lemma ThreeBytes(p: Bytes)
    requires |p| == 3 && Width(p[0]) == 3 && SecondFits(p[0], p[1]) && Continues(p[2])
    ensures 0x800 <= Code(p) < 0x10000 && !(0xD800 <= Code(p) < 0xE000) && EncodeChar(Code(p) as char) == p
  {
    ThreeDigits(p[0] - 0xE0, p[1] - 0x80, p[2] - 0x80);
  }

  lemma FourBytes(p: Bytes)
    requires |p| == 4 && Width(p[0]) == 4 && SecondFits(p[0], p[1]) && Continues(p[2]) && Continues(p[3])
    ensures 0x10000 <= Code(p) < 0x110000 && EncodeChar(Code(p) as char) == p
  {
    FourDigits(p[0] - 0xF0, p[1] - 0x80, p[2] - 0x80, p[3] - 0x80);
  }

  lemma FirstCharIsThere(b: Bytes)
    requires StartsWithChar(b)
    ensures EncodeChar(FirstChar(b)) == b[..Subpart(b)]
  {
    var w := Width(b[0]);
    var p := b[..w];
    assert forall i :: 0 <= i < w ==> p[i] == b[i];
    if w == 2 { TwoBytes(p); } else if w == 3 { ThreeBytes(p); } else if w == 4 { FourBytes(p); }
  }

  lemma EncodedCharStarts(c: char, rest: Bytes)
    ensures var b := EncodeChar(c) + rest;
            StartsWithChar(b) && Subpart(b) == |EncodeChar(c)| && FirstChar(b) == c
  {
    CharReadsBack(c);
    var p := EncodeChar(c);
    CharIsWellFormed(c);
    var b := p + rest;
    assert forall i :: 0 <= i < |p| ==> b[i] == p[i];
    assert b[..|p|] == p;
  }

  lemma CharIsWellFormed(c: char)
    ensures var p := EncodeChar(c);
            && |p| == Width(p[0]) && (|p| > 1 ==> SecondFits(p[0], p[1]))
            && forall i :: 2 <= i < |p| ==> Continues(p[i])
  {
    Digits(c as int);
  }

  // Some character starts so.
  ghost predicate Begins(p: Bytes) {
    exists c, rest :: EncodeChar(c) == p + rest
  }

  lemma FittingBegins(b: Bytes)
    requires b != [] && !StartsWithChar(b) && Subpart(b) > 1
    ensures Begins(b[..Subpart(b)])
  {
    var w, k := Width(b[0]), Subpart(b);
    var p := b[..k];
    assert forall i :: 0 <= i < k ==> p[i] == b[i];
    if w == 3 {
      ThreeBytes(p + [0x80]);
    } else if k == 2 {
      FourBytes(p + [0x80, 0x80]);
    } else {
      FourBytes(p + [0x80]);
    }
  }

  lemma NoLongerBegins(b: Bytes, j: nat)
    requires b != [] && Subpart(b) < j <= |b|
    ensures !Begins(b[..j])
  {
    forall c, rest ensures EncodeChar(c) != b[..j] + rest {
      CharIsWellFormed(c);
      var p, q := EncodeChar(c), b[..j] + rest;
      assert forall i :: 0 <= i < j ==> q[i] == b[i];
    }
  }

  // Each part that is replaced is as long as it can be: a character could still begin
  // with it, unless it is a single byte, and none with any more.
  lemma SubpartIsMaximal(b: Bytes)
    requires b != [] && !StartsWithChar(b)
    ensures Subpart(b) == 1 || Begins(b[..Subpart(b)])
    ensures forall j :: Subpart(b) < j <= |b| ==> !Begins(b[..j])
  {
    if Subpart(b) > 1 { FittingBegins(b); }
    forall j | Subpart(b) < j <= |b| ensures !Begins(b[..j]) { NoLongerBegins(b, j); }
  }

  // Text survives the reading.
  lemma {:induction false} LossyReadsText(s: string)
    ensures Lossy(Encode(s)) == s
  {
    if s != "" {
      var p, rest := EncodeChar(s[0]), Encode(s[1..]);
      EncodedCharStarts(s[0], rest);
      assert (p + rest)[|p|..] == rest;
      LossyReadsText(s[1..]);
    }
  }

  // What shows no replacement character was read as it is.
  lemma {:induction false} UnreplacedIsText(b: Bytes)
    requires REPLACEMENT !in Lossy(b)
    ensures Encode(Lossy(b)) == b
    decreases |b|
  {
    if b != [] {
      var c, rest := LossyStep(b);
      UnreplacedIsText(rest);
      EncodeStep(c, Lossy(rest));
    }
  }

  lemma EncodeStep(c: char, rest: string)
    ensures Encode([c] + rest) == EncodeChar(c) + Encode(rest)
  {
    assert ([c] + rest)[1..] == rest;
  }

  lemma LossyStep(b: Bytes) returns (c: char, rest: Bytes)
    requires b != [] && REPLACEMENT !in Lossy(b)
    ensures b == EncodeChar(c) + rest && |rest| < |b|
    ensures Lossy(b) == [c] + Lossy(rest) && REPLACEMENT !in Lossy(rest)
  {
    c, rest := FirstChar(b), b[Subpart(b)..];
    assert Lossy(b)[0] == c && Lossy(b)[1..] == Lossy(rest);
    FirstCharIsThere(b);
    assert b == b[..Subpart(b)] + rest;
  }

  ghost predicate IsText(b: Bytes) {
    exists s :: b == Encode(s)
  }

  // Reading and writing again gives the bytes back exactly when they are text.
  lemma RewrittenIffText(b: Bytes)
    ensures Encode(Lossy(b)) == b <==> IsText(b)
  {
    if IsText(b) {
      var s :| b == Encode(s);
      LossyReadsText(s);
    }
  }

  // A character below 0x80 is read exactly where its byte is.
  lemma {:induction false} AsciiIsReadWhereItIs(b: Bytes, c: char)
    requires c as int < 0x80
    ensures c in Lossy(b) <==> c as int in b
  {
    if b != [] {
      var k := Subpart(b);
      AsciiIsReadWhereItIs(b[k..], c);
      AsciiStandsAlone(b, c);
      assert b == b[..k] + b[k..];
    }
  }

  lemma AsciiStandsAlone(b: Bytes, c: char)
    requires b != [] && c as int < 0x80
    ensures FirstChar(b) == c <==> c as int in b[..Subpart(b)]
  {
    var p := b[..Subpart(b)];
    assert p[0] == b[0] && forall i :: 0 < i < |p| ==> p[i] == b[i] && Continues(p[i]);
    if StartsWithChar(b) { FirstCharIsThere(b); }
  }
}
