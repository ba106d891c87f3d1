// Held batches are named `<millis>-<id>.ndjson` and listed in name order. A later
// timestamp sorts after an earlier one exactly when its leading digits, as many as the
// earlier one has, are not a smaller number.
module FileNames {
  import opened Text
  import opened Utf8
  import opened Outbox

  function Digit(d: nat): char
    requires d < 10
  {
    ('0' as int + d) as char
  }

  function Decimal(n: nat): string {
    if n < 10 then [Digit(n)] else Decimal(n / 10) + [Digit(n % 10)]
  }

  function NameOf(millis: nat, id: string): string {
    Decimal(millis) + "-" + id + ".ndjson"
  }

  predicate Before(a: string, b: string) {
    StrLe(a, b) && a != b
  }

  lemma {:induction false} EarlierPrefix(a: string, b: string, x: string, y: string)
    requires |a| == |b| && Before(a, b)
    ensures Before(a + x, b + y)
  {
    assert a == [a[0]] + a[1..] && b == [b[0]] + b[1..];
    assert (a + x)[1..] == a[1..] + x && (b + y)[1..] == b[1..] + y;
    assert (a + x)[0] == a[0] && (b + y)[0] == b[0];
    if a[0] == b[0] { EarlierPrefix(a[1..], b[1..], x, y); }
  }

  lemma {:induction false} EarlierSuffix(a: string, x: string, y: string)
    requires Before(x, y)
    ensures Before(a + x, a + y)
  {
    if a == [] {
      assert a + x == x && a + y == y;
    } else {
      EarlierSuffix(a[1..], x, y);
      assert (a + x)[1..] == a[1..] + x && (a + y)[1..] == a[1..] + y;
    }
  }

  lemma {:induction false} DecimalOrder(m: nat, n: nat)
    requires m < n && |Decimal(m)| == |Decimal(n)|
    ensures Before(Decimal(m), Decimal(n))
  {
    if n >= 10 {
      if m / 10 < n / 10 {
        DecimalOrder(m / 10, n / 10);
        EarlierPrefix(Decimal(m / 10), Decimal(n / 10), [Digit(m % 10)], [Digit(n % 10)]);
      } else {
        assert m / 10 == n / 10 && m % 10 < n % 10;
        EarlierSuffix(Decimal(m / 10), [Digit(m % 10)], [Digit(n % 10)]);
      }
    }
  }

  // Whatever the ids, names of distinct timestamps sort as the timestamps do.
  lemma NameOrderIsTimeOrder(m: nat, i: string, n: nat, j: string)
    requires m != n && |Decimal(m)| == |Decimal(n)|
    ensures Before(NameOf(m, i), NameOf(n, j)) <==> m < n
  {
    if m < n {
      DecimalOrder(m, n);
      EarlierPrefix(Decimal(m), Decimal(n), "-" + i + ".ndjson", "-" + j + ".ndjson");
    } else {
      DecimalOrder(n, m);
      EarlierPrefix(Decimal(n), Decimal(m), "-" + j + ".ndjson", "-" + i + ".ndjson");
      Rejoin(n, j);
      Rejoin(m, i);
      if Before(NameOf(m, i), NameOf(n, j)) { StrLeAntisymmetric(NameOf(m, i), NameOf(n, j)); }
    }
    Rejoin(m, i);
    Rejoin(n, j);
  }

  lemma Rejoin(m: nat, i: string)
    ensures NameOf(m, i) == Decimal(m) + ("-" + i + ".ndjson")
  {
  }

  // ── Timestamps of any length ────────────────────────────────────────────────

  function Pow10(k: nat): (p: nat)
    ensures p >= 1
  {
    if k == 0 then 1 else 10 * Pow10(k - 1)
  }

  // The number left when the last k digits go.
  function Leading(n: nat, k: nat): nat
    decreases k
  {
    if k == 0 then n else Leading(n / 10, k - 1)
  }

  lemma Quotient(n: nat, p: nat, q: nat)
    requires p >= 1 && q * p <= n < q * p + p
    ensures n / p == q
  {
    var d := n / p;
    assert n == d * p + n % p;
    assert d < q ==> (d + 1) * p <= q * p;
    assert d > q ==> (q + 1) * p <= d * p;
  }

  lemma {:induction false} LeadingIsQuotient(n: nat, k: nat)
    ensures Leading(n, k) == n / Pow10(k)
    decreases k
  {
    if k > 0 {
      var p, q := Pow10(k - 1), Leading(n / 10, k - 1);
      LeadingIsQuotient(n / 10, k - 1);
      assert n / 10 == q * p + (n / 10) % p;
      assert q * (10 * p) == 10 * (q * p);
      Quotient(n, 10 * p, q);
    }
  }

  lemma {:induction false} LeadingDigits(n: nat, k: nat) returns (rest: string)
    requires k < |Decimal(n)|
    ensures Decimal(n) == Decimal(Leading(n, k)) + rest
    ensures |rest| == k && (k > 0 ==> '0' <= rest[0] <= '9')
    decreases k
  {
    if k == 0 {
      rest := "";
    } else {
      var front := LeadingDigits(n / 10, k - 1);
      rest := front + [Digit(n % 10)];
    }
  }

  lemma {:induction false} MoreIsNoShorter(m: nat, n: nat)
    requires m <= n
    ensures |Decimal(m)| <= |Decimal(n)|
  {
    if m >= 10 { MoreIsNoShorter(m / 10, n / 10); }
  }

  predicate SortsBefore(m: nat, n: nat)
    requires m < n
  {
    MoreIsNoShorter(m, n);
    m <= n / Pow10(|Decimal(n)| - |Decimal(m)|)
  }

  lemma ShorterTimestamp(m: nat, i: string, n: nat, j: string)
    requires m < n && |Decimal(m)| < |Decimal(n)|
    ensures Before(NameOf(m, i), NameOf(n, j)) <==> m <= Leading(n, |Decimal(n)| - |Decimal(m)|)
  {
    var k := |Decimal(n)| - |Decimal(m)|;
    var q := Leading(n, k);
    var rest := LeadingDigits(n, k);
    var x, y := "-" + i + ".ndjson", rest + ("-" + j + ".ndjson");
    Rejoin(m, i);
    Rejoin(n, j);
    assert NameOf(n, j) == Decimal(q) + y;
    if m < q {
      DecimalOrder(m, q);
      EarlierPrefix(Decimal(m), Decimal(q), x, y);
    } else if m == q {
      assert x[0] == '-' && y[0] == rest[0];
      EarlierSuffix(Decimal(m), x, y);
    } else {
      DecimalOrder(q, m);
      EarlierPrefix(Decimal(q), Decimal(m), y, x);
      if Before(NameOf(m, i), NameOf(n, j)) { StrLeAntisymmetric(NameOf(m, i), NameOf(n, j)); }
    }
  }

  // The exact law, whatever the ids and however many digits either timestamp has.
  lemma NameOrderLaw(m: nat, i: string, n: nat, j: string)
    requires m < n
    ensures Before(NameOf(m, i), NameOf(n, j)) <==> SortsBefore(m, n)
  {
    MoreIsNoShorter(m, n);
    if |Decimal(m)| == |Decimal(n)| {
      NameOrderIsTimeOrder(m, i, n, j);
    } else {
      ShorterTimestamp(m, i, n, j);
      LeadingIsQuotient(n, |Decimal(n)| - |Decimal(m)|);
    }
  }

  // ── The order a drain takes them in ─────────────────────────────────────────

  ghost predicate HeldSince(files: seq<File>, stamps: seq<nat>, ids: seq<string>) {
    && |files| == |stamps| == |ids|
    && forall k :: 0 <= k < |files| ==> files[k].name == NameOf(stamps[k], ids[k])
  }

  // A batch stored later than every held one is listed after them all, and so drained
  // after them, exactly when each held timestamp sorts before its own.
  lemma LaterBatchIsLast(files: seq<File>, stamps: seq<nat>, ids: seq<string>, now: nat, id: string, contents: Bytes)
    requires Listing(files) && HeldSince(files, stamps, ids) && forall k :: 0 <= k < |stamps| ==> stamps[k] < now
    ensures Write(files, File(NameOf(now, id), contents)) == files + [File(NameOf(now, id), contents)]
            <==> forall k :: 0 <= k < |stamps| ==> SortsBefore(stamps[k], now)
  {
    var f := File(NameOf(now, id), contents);
    forall k | 0 <= k < |files| ensures Before(files[k].name, f.name) <==> SortsBefore(stamps[k], now) {
      NameOrderLaw(stamps[k], ids[k], now, id);
    }
    if forall k :: 0 <= k < |stamps| ==> SortsBefore(stamps[k], now) {
      WriteAtEnd(files, f);
    }
    if Write(files, f) == files + [f] {
      WriteKeepsListing(files, f);
      forall k | 0 <= k < |stamps| ensures SortsBefore(stamps[k], now) {
        assert (files + [f])[k] == files[k] && (files + [f])[|files|] == f;
        assert Before(files[k].name, f.name);
      }
    }
  }
}
