// The per-IP rate limiter. A window opens at a request and lasts a second, so what one
// second can see is bounded by two windows' worth less one, and that is reached. Other
// addresses play no part in it.
module RateLimit {
  import opened Text

  type Ip = string

  const SECOND := 1_000_000_000   // nanoseconds

  datatype Window = Window(count: nat, start: int)

  type Windows = map<Ip, Window>

  datatype Request = Request(ip: Ip, time: int)

  function Check(rps: nat, w: Windows, q: Request): (Windows, bool) {
    var e := if q.ip in w then w[q.ip] else Window(0, q.time);
    if q.time - e.start >= SECOND then (w[q.ip := Window(1, q.time)], true)
    else if e.count < rps then (w[q.ip := Window(e.count + 1, e.start)], true)
    else (w[q.ip := e], false)
  }

  class RateLimiter {
    const rps: nat
    var inner: Windows

    constructor (rps: nat)
      ensures this.rps == rps && inner == map[]
    {
      this.rps, inner := rps, map[];
    }

    method Admit(ip: Ip, now: int) returns (ok: bool)
      modifies this
      ensures (inner, ok) == Check(rps, old(inner), Request(ip, now))
      ensures forall other :: other in old(inner) && other != ip ==> other in inner && inner[other] == old(inner)[other]
    {
      if ip !in inner { inner := inner[ip := Window(0, now)]; }
      var entry := inner[ip];
      if now - entry.start >= SECOND {
        inner := inner[ip := Window(1, now)];
        assert inner == old(inner)[ip := Window(1, now)];
        return true;
      } else if entry.count < rps {
        inner := inner[ip := Window(entry.count + 1, entry.start)];
        assert inner == old(inner)[ip := Window(entry.count + 1, entry.start)];
        return true;
      }
      assert inner == inner[ip := entry];
      return false;
    }
  }

  // ── Whole request sequences ─────────────────────────────────────────────────

  function After(rps: nat, qs: seq<Request>): Windows {
    if qs == [] then map[] else Check(rps, After(rps, qs[..|qs| - 1]), qs[|qs| - 1]).0
  }

  predicate Accepts(rps: nat, qs: seq<Request>)
    requires qs != []
  {
    Check(rps, After(rps, qs[..|qs| - 1]), qs[|qs| - 1]).1
  }

  // Accepted requests of `ip` with a time in [lo, hi).
  function Accepted(rps: nat, qs: seq<Request>, ip: Ip, lo: int, hi: int): nat {
    if qs == [] then 0
    else
      var q := qs[|qs| - 1];
      Accepted(rps, qs[..|qs| - 1], ip, lo, hi) + if q.ip == ip && lo <= q.time < hi && Accepts(rps, qs) then 1 else 0
  }

  predicate Monotone(qs: seq<Request>) {
    forall i, j :: 0 <= i < j < |qs| ==> qs[i].time <= qs[j].time
  }

  lemma OneMore(rps: nat, qs: seq<Request>, q: Request, ip: Ip, lo: int, hi: int)
    ensures Accepted(rps, qs + [q], ip, lo, hi)
            == Accepted(rps, qs, ip, lo, hi)
               + if q.ip == ip && lo <= q.time < hi && Check(rps, After(rps, qs), q).1 then 1 else 0
    ensures After(rps, qs + [q]) == Check(rps, After(rps, qs), q).0
  {
    assert (qs + [q])[..|qs + [q]| - 1] == qs;
  }

  lemma {:induction false} Splits(rps: nat, qs: seq<Request>, ip: Ip, lo: int, mid: int, hi: int)
    requires lo <= mid <= hi
    ensures Accepted(rps, qs, ip, lo, hi) == Accepted(rps, qs, ip, lo, mid) + Accepted(rps, qs, ip, mid, hi)
  {
    if qs != [] { Splits(rps, qs[..|qs| - 1], ip, lo, mid, hi); }
  }

  function Most(rps: nat): nat {
    if rps < 1 then 1 else rps
  }

  function InSecond(rps: nat, qs: seq<Request>, ip: Ip, lo: int): nat {
    Accepted(rps, qs, ip, lo, lo + SECOND)
  }

  // What holds of one IP's window after any monotone requests: it has let through what
  // its count says, starting with the request that opened it, none after its second,
  // and less than a window's worth since a second before it opened.
  ghost predicate Counted(rps: nat, qs: seq<Request>, ip: Ip, w: Window) {
    && w.count <= Most(rps)
    && (forall hi :: Accepted(rps, qs, ip, w.start, hi) <= w.count)
    && (if w.count > 0 then Accepted(rps, qs, ip, w.start, w.start + 1) > 0 else rps == 0)
  }

  ghost predicate NoneAfter(rps: nat, qs: seq<Request>, ip: Ip, end: int) {
    forall lo, hi :: end <= lo ==> Accepted(rps, qs, ip, lo, hi) == 0
  }

  ghost predicate FewBefore(rps: nat, qs: seq<Request>, ip: Ip, start: int) {
    forall lo :: start - SECOND < lo ==> Accepted(rps, qs, ip, lo, start) <= Most(rps) - 1
  }

  ghost predicate FewInASecond(rps: nat, qs: seq<Request>, ip: Ip) {
    forall lo :: InSecond(rps, qs, ip, lo) <= 2 * Most(rps) - 1
  }

  ghost predicate Sound(rps: nat, qs: seq<Request>, ip: Ip) {
    var windows := After(rps, qs);
    && FewInASecond(rps, qs, ip)
    && if ip in windows
       then Counted(rps, qs, ip, windows[ip]) && NoneAfter(rps, qs, ip, windows[ip].start + SECOND)
            && FewBefore(rps, qs, ip, windows[ip].start)
       else forall lo, hi :: Accepted(rps, qs, ip, lo, hi) == 0
  }

  lemma {:induction false} Empty(rps: nat, qs: seq<Request>, ip: Ip, lo: int, hi: int)
    requires hi <= lo
    ensures Accepted(rps, qs, ip, lo, hi) == 0
  {
    if qs != [] { Empty(rps, qs[..|qs| - 1], ip, lo, hi); }
  }

  lemma FewSince(rps: nat, qs: seq<Request>, ip: Ip, w: Window, time: int, lo: int)
    requires Counted(rps, qs, ip, w) && time - w.start >= SECOND && time - SECOND < lo
    ensures Accepted(rps, qs, ip, lo, time) <= Most(rps) - 1
  {
    if lo <= time {
      Splits(rps, qs, ip, w.start, w.start + 1, time);
      Splits(rps, qs, ip, w.start + 1, lo, time);
    } else {
      Empty(rps, qs, ip, lo, time);
    }
  }

  lemma NewWindow(rps: nat, qs: seq<Request>, q: Request, w: Window)
    requires Sound(rps, qs, q.ip) && q.ip in After(rps, qs) && w == After(rps, qs)[q.ip]
    requires q.time - w.start >= SECOND
    ensures Sound(rps, qs + [q], q.ip)
  {
    var ip, longer := q.ip, qs + [q];
    forall lo, hi ensures Accepted(rps, longer, ip, lo, hi) == Accepted(rps, qs, ip, lo, hi) + if lo <= q.time < hi then 1 else 0 {
      OneMore(rps, qs, q, ip, lo, hi);
    }
    OneMore(rps, qs, q, ip, 0, 0);
    forall lo | q.time - SECOND < lo ensures Accepted(rps, qs, ip, lo, q.time) <= Most(rps) - 1 {
      FewSince(rps, qs, ip, w, q.time, lo);
    }
    forall lo ensures InSecond(rps, longer, ip, lo) <= 2 * Most(rps) - 1 {
      assert InSecond(rps, qs, ip, lo) <= 2 * Most(rps) - 1;
      if lo <= q.time < lo + SECOND { Splits(rps, qs, ip, lo, q.time, lo + SECOND); }
    }
  }

  lemma SameWindow(rps: nat, qs: seq<Request>, q: Request, w: Window)
    requires Sound(rps, qs, q.ip) && q.ip in After(rps, qs) && w == After(rps, qs)[q.ip]
    requires 0 <= q.time - w.start < SECOND
    ensures Sound(rps, qs + [q], q.ip)
  {
    var ip, longer, ok := q.ip, qs + [q], w.count < rps;
    forall lo, hi
      ensures Accepted(rps, longer, ip, lo, hi) == Accepted(rps, qs, ip, lo, hi) + if lo <= q.time < hi && ok then 1 else 0
    {
      OneMore(rps, qs, q, ip, lo, hi);
    }
    OneMore(rps, qs, q, ip, 0, 0);
    forall lo ensures InSecond(rps, longer, ip, lo) <= 2 * Most(rps) - 1 {
      assert InSecond(rps, qs, ip, lo) <= 2 * Most(rps) - 1;
      if lo <= q.time < lo + SECOND {
        if lo <= w.start { Splits(rps, qs, ip, lo, w.start, lo + SECOND); }
        else { Splits(rps, qs, ip, w.start, lo, lo + SECOND); }
      }
    }
  }

  lemma FirstRequest(rps: nat, qs: seq<Request>, q: Request)
    requires Sound(rps, qs, q.ip) && q.ip !in After(rps, qs)
    ensures Sound(rps, qs + [q], q.ip)
  {
    forall lo, hi
      ensures Accepted(rps, qs + [q], q.ip, lo, hi) == if lo <= q.time < hi && rps > 0 then 1 else 0
    {
      OneMore(rps, qs, q, q.ip, lo, hi);
    }
    OneMore(rps, qs, q, q.ip, 0, 0);
  }

  lemma AnotherAddress(rps: nat, qs: seq<Request>, q: Request, ip: Ip)
    requires Sound(rps, qs, ip) && q.ip != ip
    ensures Sound(rps, qs + [q], ip)
  {
    forall lo, hi ensures Accepted(rps, qs + [q], ip, lo, hi) == Accepted(rps, qs, ip, lo, hi) {
      OneMore(rps, qs, q, ip, lo, hi);
    }
    OneMore(rps, qs, q, ip, 0, 0);
    forall lo ensures InSecond(rps, qs + [q], ip, lo) <= 2 * Most(rps) - 1 {
      assert InSecond(rps, qs, ip, lo) <= 2 * Most(rps) - 1;
    }
  }

  lemma {:induction false} WindowsOpenAtRequests(rps: nat, qs: seq<Request>, ip: Ip)
    requires ip in After(rps, qs)
    ensures exists i :: 0 <= i < |qs| && qs[i].time == After(rps, qs)[ip].start
  {
    var before, q := qs[..|qs| - 1], qs[|qs| - 1];
    if ip in After(rps, before) {
      WindowsOpenAtRequests(rps, before, ip);
      var i :| 0 <= i < |before| && before[i].time == After(rps, before)[ip].start;
      assert qs[i].time == before[i].time;
    }
    assert qs[|qs| - 1].time == q.time;
  }

  lemma {:induction false} AlwaysSound(rps: nat, qs: seq<Request>, ip: Ip)
    requires Monotone(qs)
    ensures Sound(rps, qs, ip)
  {
    if qs == [] { return; }
    var before, q := qs[..|qs| - 1], qs[|qs| - 1];
    AlwaysSound(rps, before, ip);
    assert qs == before + [q];
    if q.ip != ip {
      AnotherAddress(rps, before, q, ip);
    } else if ip !in After(rps, before) {
      FirstRequest(rps, before, q);
    } else {
      WindowsOpenAtRequests(rps, before, ip);
      var w := After(rps, before)[ip];
      if q.time - w.start >= SECOND { NewWindow(rps, before, q, w); } else { SameWindow(rps, before, q, w); }
    }
  }

  // No second lets one address through more than twice its allowance less one.
  lemma SecondIsBounded(rps: nat, qs: seq<Request>, ip: Ip, lo: int)
    requires Monotone(qs)
    ensures Accepted(rps, qs, ip, lo, lo + SECOND) <= 2 * Most(rps) - 1
  {
    AlwaysSound(rps, qs, ip);
    assert InSecond(rps, qs, ip, lo) <= 2 * Most(rps) - 1;
  }

  // ── Other addresses play no part ────────────────────────────────────────────

  function Own(qs: seq<Request>, ip: Ip): seq<Request> {
    if qs == [] then []
    else Own(qs[..|qs| - 1], ip) + if qs[|qs| - 1].ip == ip then [qs[|qs| - 1]] else []
  }

  function WindowOf(w: Windows, ip: Ip): Option<Window> {
    if ip in w then Some(w[ip]) else None
  }

  lemma CheckIsLocal(rps: nat, v: Windows, w: Windows, q: Request, ip: Ip)
    requires WindowOf(v, ip) == WindowOf(w, ip)
    ensures if q.ip == ip
            then WindowOf(Check(rps, v, q).0, ip) == WindowOf(Check(rps, w, q).0, ip)
                 && Check(rps, v, q).1 == Check(rps, w, q).1
            else WindowOf(Check(rps, v, q).0, ip) == WindowOf(w, ip)
  {
  }

  lemma {:induction false} OthersPlayNoPart(rps: nat, qs: seq<Request>, ip: Ip)
    ensures WindowOf(After(rps, qs), ip) == WindowOf(After(rps, Own(qs, ip)), ip)
    ensures qs != [] && qs[|qs| - 1].ip == ip ==> Own(qs, ip) != [] && Accepts(rps, qs) == Accepts(rps, Own(qs, ip))
  {
    if qs == [] { return; }
    var before, q := qs[..|qs| - 1], qs[|qs| - 1];
    var own := Own(before, ip);
    OthersPlayNoPart(rps, before, ip);
    CheckIsLocal(rps, After(rps, before), After(rps, own), q, ip);
    if q.ip == ip {
      assert (own + [q])[..|own + [q]| - 1] == own;
      assert Own(qs, ip) == own + [q];
    } else {
      assert Own(qs, ip) == own;
    }
  }

  // ── The bound is reached ────────────────────────────────────────────────────

  function Burst(ip: Ip, time: int, n: nat): (r: seq<Request>)
    ensures |r| == n && forall i :: 0 <= i < n ==> r[i] == Request(ip, time)
  {
    if n == 0 then [] else Burst(ip, time, n - 1) + [Request(ip, time)]
  }

  // Where an address stands: its window, and how much of the second was let through.
  ghost predicate At(rps: nat, qs: seq<Request>, ip: Ip, lo: int, w: Window, through: nat) {
    WindowOf(After(rps, qs), ip) == Some(w) && InSecond(rps, qs, ip, lo) == through
  }

  lemma OneThrough(rps: nat, qs: seq<Request>, q: Request, lo: int, w: Window, through: nat)
    requires At(rps, qs, q.ip, lo, w, through) && lo <= q.time < lo + SECOND
    ensures q.time - w.start >= SECOND ==> At(rps, qs + [q], q.ip, lo, Window(1, q.time), through + 1)
    ensures q.time - w.start < SECOND && w.count < rps ==>
      At(rps, qs + [q], q.ip, lo, Window(w.count + 1, w.start), through + 1)
  {
    OneMore(rps, qs, q, q.ip, lo, lo + SECOND);
  }

  // A fact that each request of a burst passes on holds at its end.
  lemma {:induction false} BurstFits(at: (seq<Request>, nat) -> bool, qs: seq<Request>, ip: Ip, time: int, have: nat, n: nat)
    requires at(qs, have)
    requires forall most, k: nat :: at(most, k) && k < have + n ==> at(most + [Request(ip, time)], k + 1)
    ensures at(qs + Burst(ip, time, n), have + n)
  {
    if n == 0 {
      assert qs + Burst(ip, time, 0) == qs;
    } else {
      var most, q := qs + Burst(ip, time, n - 1), Request(ip, time);
      BurstFits(at, qs, ip, time, have, n - 1);
      assert qs + Burst(ip, time, n) == most + [q];
    }
  }

  // A burst inside an open window with room for it is let through whole.
  lemma BurstIsLetThrough(rps: nat, qs: seq<Request>, ip: Ip, time: int, n: nat, lo: int, w: Window, through: nat)
    requires At(rps, qs, ip, lo, w, through) && lo <= time < lo + SECOND
    requires time - w.start < SECOND && w.count + n <= rps
    ensures At(rps, qs + Burst(ip, time, n), ip, lo, Window(w.count + n, w.start), through + n)
  {
    var at := (most, k: nat) => At(rps, most, ip, lo, Window(w.count + k, w.start), through + k);
    forall most, k: nat | at(most, k) && k < n ensures at(most + [Request(ip, time)], k + 1) {
      OneThrough(rps, most, Request(ip, time), lo, Window(w.count + k, w.start), through + k);
    }
    BurstFits(at, qs, ip, time, 0, n);
    assert at(qs + Burst(ip, time, n), n);
  }

  // One request opens a window, the rest of its allowance comes at its very end, and a
  // full allowance right after.
  function WorstCase(rps: nat, ip: Ip): seq<Request> {
    var room := Most(rps) - 1;
    [Request(ip, 0)] + Burst(ip, SECOND - 1, room) + [Request(ip, SECOND)] + Burst(ip, SECOND, room)
  }

  lemma OpeningRequest(rps: nat, ip: Ip)
    ensures At(rps, [Request(ip, 0)], ip, SECOND - 1, Window(if rps == 0 then 0 else 1, 0), 0)
  {
    OneMore(rps, [], Request(ip, 0), ip, SECOND - 1, 2 * SECOND - 1);
    assert [] + [Request(ip, 0)] == [Request(ip, 0)];
  }

  lemma OneASecondAtZero(ip: Ip)
    ensures InSecond(0, [Request(ip, 0), Request(ip, SECOND)], ip, SECOND - 1) == 1
  {
    var one := [Request(ip, 0)];
    OpeningRequest(0, ip);
    OneThrough(0, one, Request(ip, SECOND), SECOND - 1, Window(0, 0), 0);
    assert one + [Request(ip, SECOND)] == [Request(ip, 0), Request(ip, SECOND)];
  }

  lemma NearlyTwice(rps: nat, ip: Ip)
    requires rps >= 1
    ensures InSecond(rps, WorstCase(rps, ip), ip, SECOND - 1) == 2 * rps - 1
  {
    var lo := SECOND - 1;
    var one := [Request(ip, 0)];
    OpeningRequest(rps, ip);
    BurstIsLetThrough(rps, one, ip, lo, rps - 1, lo, Window(1, 0), 0);
    SecondHalf(rps, one + Burst(ip, lo, rps - 1), ip, lo);
  }

  // Whatever the limit, some second sees all the bound allows.
  lemma BoundIsReached(rps: nat, ip: Ip)
    ensures Monotone(WorstCase(rps, ip))
    ensures InSecond(rps, WorstCase(rps, ip), ip, SECOND - 1) == 2 * Most(rps) - 1
  {
    if rps == 0 {
      assert WorstCase(0, ip) == [Request(ip, 0), Request(ip, SECOND)];
      OneASecondAtZero(ip);
    } else {
      NearlyTwice(rps, ip);
    }
  }

  lemma SecondHalf(rps: nat, two: seq<Request>, ip: Ip, lo: int)
    requires rps >= 1 && At(rps, two, ip, lo, Window(rps, lo + 1 - SECOND), rps - 1)
    ensures InSecond(rps, two + [Request(ip, lo + 1)] + Burst(ip, lo + 1, rps - 1), ip, lo) == 2 * rps - 1
  {
    var three := two + [Request(ip, lo + 1)];
    OneThrough(rps, two, Request(ip, lo + 1), lo, Window(rps, lo + 1 - SECOND), rps - 1);
    BurstIsLetThrough(rps, three, ip, lo + 1, rps - 1, lo, Window(1, lo + 1), rps);
  }

  // The rate the limiter is named for holds of every second of every run exactly when
  // it is one: a higher limit can be nearly doubled, and a limit of zero lets one
  // request through for each second an address waits.
  lemma DocumentedRateHolds(rps: nat, ip: Ip)
    ensures (forall qs, lo | Monotone(qs) :: InSecond(rps, qs, ip, lo) <= rps) <==> rps == 1
  {
    forall qs, lo | Monotone(qs) ensures InSecond(rps, qs, ip, lo) <= 2 * Most(rps) - 1 {
      SecondIsBounded(rps, qs, ip, lo);
    }
    BoundIsReached(rps, ip);
  }
}
