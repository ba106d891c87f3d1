// Waiting for a governor that has never answered. A client that has not reached one yet
// retries for up to thirty seconds; one that has gets a single attempt, for good.
module FirstContact {
  import opened Text

  const MS := 1_000_000   // nanoseconds
  const PATIENCE := 30_000 * MS
  const BACKOFFS := [250 * MS, 500 * MS, 1000 * MS, 2000 * MS, 4000 * MS]

  // One attempt to reach the bridge: its answer, if any, and how long it took.
  datatype Attempt<T> = Attempt(answer: Option<T>, took: nat)

  // What happens to a caller: attempt `i` started `now` nanoseconds after the first, and
  // how much longer than asked the sleep after it lasts. A sleep is never shorter.
  datatype Surroundings<!T> = Surroundings(attempt: (nat, nat) -> Attempt<T>, oversleep: nat -> nat)

  // How a call ends: its answer, the attempts made, the sleep asked for, and when.
  datatype Ending<T> = Ending(answer: Option<T>, attempts: nat, asked: nat, at: nat)

  function Min(a: int, b: int): int {
    if a < b then a else b
  }

  function Backoff(tries: nat): nat {
    BACKOFFS[Min(tries, |BACKOFFS| - 1)]
  }

  function Left(now: nat): nat {
    if now < PATIENCE then PATIENCE - now else 0
  }

  function Retry<T>(s: Surroundings<T>, tries: nat, now: nat, asked: nat): Ending<T>
    decreases Left(now)
  {
    var a := s.attempt(tries, now);
    var ended := now + a.took;
    if a.answer.Some? || Left(ended) == 0 then Ending(a.answer, tries + 1, asked, ended)
    else
      var nap := Min(Backoff(tries), Left(ended));
      Retry(s, tries + 1, ended + nap + s.oversleep(tries), asked + nap)
  }

  function Contact<T>(reached: bool, s: Surroundings<T>): (Ending<T>, bool) {
    if reached then
      var a := s.attempt(0, 0);
      (Ending(a.answer, 1, 0, a.took), true)
    else
      var e := Retry(s, 0, 0, 0);
      (e, e.answer.Some?)
  }

  class Client<!T(0)> {
    var reached: bool

    constructor ()
      ensures !reached
    {
      reached := false;
    }

    method WithFirstContactRetry(s: Surroundings<T>) returns (e: Ending<T>)
      modifies this
      ensures (e, reached) == Contact(old(reached), s)
    {
      if reached {
        var a := s.attempt(0, 0);
        return Ending(a.answer, 1, 0, a.took);
      }
      var tries: nat, now: nat, asked: nat := 0, 0, 0;
      while true
        invariant !reached
        invariant Retry(s, 0, 0, 0) == Retry(s, tries, now, asked)
        decreases Left(now)
      {
        var a := s.attempt(tries, now);
        now := now + a.took;
        if a.answer.Some? {
          reached := true;
          return Ending(a.answer, tries + 1, asked, now);
        }
        var remaining := Left(now);
        if remaining == 0 { return Ending(None, tries + 1, asked, now); }
        var nap := Min(Backoff(tries), remaining);
        now, asked := now + nap + s.oversleep(tries), asked + nap;
        tries := tries + 1;
      }
    }
  }

  // ── Before first contact ────────────────────────────────────────────────────

  // The sleep the first `n` backoffs ask for.
  function Wait(n: nat): nat {
    if n == 0 then 0 else Wait(n - 1) + Backoff(n - 1)
  }

  const MOST_ATTEMPTS := 12

  // The first five backoffs are 7.75 seconds, and each one after them is four.
  lemma {:induction false} WaitFromFive(n: nat)
    requires n >= 5
    ensures Wait(n) == (7750 + 4000 * (n - 5)) * MS
  {
    if n == 5 {
      assert Wait(3) == 1750 * MS;
    } else {
      WaitFromFive(n - 1);
    }
  }

  lemma {:induction false} WaitGrows(n: nat)
    requires n >= MOST_ATTEMPTS - 1
    ensures Wait(n) >= PATIENCE
  {
    if n == MOST_ATTEMPTS - 1 {
      WaitFromFive(n);
    } else {
      WaitGrows(n - 1);
    }
  }

  // The clock never falls behind the sleep asked for, and the sleep asked for is a full
  // schedule of backoffs until patience has run out.
  predicate OnSchedule(tries: nat, now: nat, asked: nat) {
    asked <= now && asked <= PATIENCE && now >= Min(Wait(tries), PATIENCE)
  }

  lemma {:induction false} RetryIsBounded<T>(s: Surroundings<T>, tries: nat, now: nat, asked: nat)
    requires OnSchedule(tries, now, asked) && tries < MOST_ATTEMPTS
    ensures var e := Retry(s, tries, now, asked);
            && tries < e.attempts <= MOST_ATTEMPTS
            && e.asked <= PATIENCE
            && (e.answer.None? ==> e.at >= PATIENCE)
    decreases Left(now)
  {
    var a := s.attempt(tries, now);
    var ended := now + a.took;
    if a.answer.None? && Left(ended) > 0 {
      if tries >= MOST_ATTEMPTS - 1 { WaitGrows(tries); }
      var nap := Min(Backoff(tries), Left(ended));
      RetryIsBounded(s, tries + 1, ended + nap + s.oversleep(tries), asked + nap);
    }
  }

  // A caller that gives up has waited its thirty seconds out; no caller sleeps longer
  // than that or tries more than twelve times.
  lemma FirstContactIsBounded<T>(s: Surroundings<T>)
    ensures var e := Contact(false, s).0;
            1 <= e.attempts <= MOST_ATTEMPTS && e.asked <= PATIENCE && (e.answer.None? ==> e.at >= PATIENCE)
  {
    RetryIsBounded(s, 0, 0, 0);
  }

  function Silence<T>(): Surroundings<T> {
    Surroundings((i, now) => Attempt(None, 0), i => 0)
  }

  lemma WaitIsShort(tries: nat)
    requires tries < MOST_ATTEMPTS - 1
    ensures Wait(tries) < PATIENCE
  {
    if tries >= 5 {
      WaitFromFive(tries);
    } else {
      WaitFromFive(5);
    }
  }

  lemma SilenceStep<T>(tries: nat)
    requires tries < MOST_ATTEMPTS - 1
    ensures var now, later := Wait(tries), Min(Wait(tries + 1), PATIENCE);
            Retry(Silence<T>(), tries, now, now) == Retry(Silence<T>(), tries + 1, later, later)
  {
    WaitIsShort(tries);
  }

  lemma {:induction false} SilenceFrom<T>(tries: nat)
    requires tries < MOST_ATTEMPTS
    ensures var now := Min(Wait(tries), PATIENCE);
            Retry(Silence<T>(), tries, now, now) == Ending(None, MOST_ATTEMPTS, PATIENCE, PATIENCE)
    decreases MOST_ATTEMPTS - tries
  {
    if tries < MOST_ATTEMPTS - 1 {
      WaitIsShort(tries);
      SilenceStep<T>(tries);
      SilenceFrom<T>(tries + 1);
    } else {
      WaitGrows(tries);
    }
  }

  // Both bounds are met by a governor that refuses at once and never comes.
  lemma BoundsAreMet<T>()
    ensures Contact(false, Silence<T>()).0 == Ending(None, MOST_ATTEMPTS, PATIENCE, PATIENCE)
  {
    SilenceFrom<T>(0);
  }

  // ── Patience covers a late governor ─────────────────────────────────────────

  // A governor that answers whatever starts at `up` or later, and before that may refuse,
  // in at most `slow`.
  ghost predicate ComesUp<T(!new)>(s: Surroundings<T>, up: nat, slow: nat) {
    forall i: nat, now: nat ::
      && (now >= up ==> s.attempt(i, now).answer.Some?)
      && (s.attempt(i, now).answer.None? ==> s.attempt(i, now).took <= slow)
  }

  // The latest an attempt can start and still find nobody there: the first one starts at
  // once, the others after a backoff.
  function LastMiss(up: nat): nat {
    if up > BACKOFFS[0] then up - 1 else 0
  }

  predicate InTime(up: nat, slow: nat) {
    up == 0 || LastMiss(up) + slow < PATIENCE
  }

  lemma {:induction false} LateGovernorFrom<T(!new)>(s: Surroundings<T>, up: nat, slow: nat, tries: nat, now: nat, asked: nat)
    requires ComesUp(s, up, slow) && InTime(up, slow)
    requires now == 0 || now >= BACKOFFS[0]
    ensures Retry(s, tries, now, asked).answer.Some?
    decreases Left(now)
  {
    var a := s.attempt(tries, now);
    var ended := now + a.took;
    if a.answer.None? {
      var nap := Min(Backoff(tries), Left(ended));
      LateGovernorFrom(s, up, slow, tries + 1, ended + nap + s.oversleep(tries), asked + nap);
    }
  }

  // Refuses at once the first time, oversleeps into the last moment before it is up, and
  // refuses slowly then.
  function LateAndSlow<T(0)>(up: nat, slow: nat, answer: T): Surroundings<T> {
    var last := LastMiss(up);
    Surroundings((i, now) => Attempt(if now >= up then Some(answer) else None, if now == last then slow else 0),
                 i => if last > 0 then last - BACKOFFS[0] else 0)
  }

  // A governor that comes up is reached whatever else happens, exactly when a refusal
  // that starts as late as can be still ends inside the patience.
  lemma LateGovernorIsReached<T(!new, 0)>(up: nat, slow: nat, answer: T)
    ensures InTime(up, slow) <==> (forall s: Surroundings<T> :: ComesUp(s, up, slow) ==> Contact(false, s).0.answer.Some?)
  {
    if InTime(up, slow) {
      forall s: Surroundings<T> | ComesUp(s, up, slow) ensures Contact(false, s).0.answer.Some? {
        LateGovernorFrom(s, up, slow, 0, 0, 0);
      }
    } else {
      var s := LateAndSlow(up, slow, answer);
      assert ComesUp(s, up, slow);
      assert Backoff(0) == BACKOFFS[0];
      assert Contact(false, s).0 == Retry(s, 0, 0, 0);
      if LastMiss(up) > 0 {
        assert Retry(s, 0, 0, 0) == Retry(s, 1, LastMiss(up), BACKOFFS[0]);
      }
    }
  }

  // ── Once reached, never patient again ───────────────────────────────────────

  // The endings of a process's calls, one after another.
  function Calls<T>(reached: bool, calls: seq<Surroundings<T>>): seq<Ending<T>>
    decreases |calls|
  {
    if |calls| == 0 then []
    else
      var (e, after) := Contact(reached, calls[0]);
      [e] + Calls(after, calls[1..])
  }

  lemma {:induction false} ReachedIsForGood<T>(reached: bool, calls: seq<Surroundings<T>>)
    ensures |Calls(reached, calls)| == |calls|
    ensures reached ==> forall j :: 0 <= j < |calls| ==> Calls(reached, calls)[j].attempts == 1 && Calls(reached, calls)[j].asked == 0
    ensures forall i, j :: 0 <= i < j < |calls| && Calls(reached, calls)[i].answer.Some? ==>
              Calls(reached, calls)[j].attempts == 1 && Calls(reached, calls)[j].asked == 0
    decreases |calls|
  {
    if |calls| > 0 {
      ReachedIsForGood(Contact(reached, calls[0]).1, calls[1..]);
    }
  }

  function Once<T>(s: Surroundings<T>): Ending<T> {
    Ending(s.attempt(0, 0).answer, 1, 0, s.attempt(0, 0).took)
  }

  ghost predicate AnsweredBefore<T(!new)>(endings: seq<Ending<T>>, j: nat) {
    exists i :: 0 <= i < j && i < |endings| && endings[i].answer.Some?
  }

  lemma OneMoreEnding<T(!new)>(e: Ending<T>, rest: seq<Ending<T>>, j: nat)
    requires 0 < j <= |rest|
    ensures AnsweredBefore([e] + rest, j) <==> e.answer.Some? || AnsweredBefore(rest, j - 1)
  {
    var all := [e] + rest;
    if AnsweredBefore(rest, j - 1) {
      var i :| 0 <= i < j - 1 && rest[i].answer.Some?;
      assert all[i + 1].answer.Some?;
    }
    if e.answer.Some? { assert all[0].answer.Some?; }
    assert forall i :: 0 < i < j ==> all[i] == rest[i - 1];
  }

  // A call gets a single attempt exactly when some call before it was answered; until
  // then, however often it has given up, a process waits as it did the first time.
  lemma {:induction false} PatientUntilReached<T(!new)>(reached: bool, calls: seq<Surroundings<T>>, j: nat)
    requires j < |calls|
    ensures |Calls(reached, calls)| == |calls|
    ensures Calls(reached, calls)[j]
            == if reached || AnsweredBefore(Calls(reached, calls), j) then Once(calls[j]) else Retry(calls[j], 0, 0, 0)
    decreases |calls|
  {
    ReachedIsForGood(reached, calls);
    if j > 0 {
      var (e, after) := Contact(reached, calls[0]);
      PatientUntilReached(after, calls[1..], j - 1);
      OneMoreEnding(e, Calls(after, calls[1..]), j);
    }
  }
}
