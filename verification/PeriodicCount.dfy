/** Counting how often a periodic property holds on consecutive integers. */
module PeriodicCount {
  /** Number of x with a <= x < a + n and p(x). */
  function Count(p: int -> bool, a: int, n: nat): nat {
    if n == 0 then 0 else Count(p, a, n - 1) + (if p(a + n - 1) then 1 else 0)
  }

  ghost predicate Periodic(p: int -> bool, period: nat) {
    forall x :: x >= 0 ==> p(x + period) == p(x)
  }

  lemma {:induction false} CountSplit(p: int -> bool, a: int, m: nat, n: nat)
    ensures Count(p, a, m + n) == Count(p, a, m) + Count(p, a + m, n)
  {
    if n != 0 {
      CountSplit(p, a, m, n - 1);
    }
  }

  lemma {:induction false} CountSame(p: int -> bool, q: int -> bool, a: int, n: nat)
    requires forall x :: a <= x < a + n ==> p(x) == q(x)
    ensures Count(p, a, n) == Count(q, a, n)
  {
    if n != 0 {
      CountSame(p, q, a, n - 1);
    }
  }

  lemma {:induction false} CountNone(p: int -> bool, a: int, n: nat)
    requires forall x :: a <= x < a + n ==> !p(x)
    ensures Count(p, a, n) == 0
  {
    if n != 0 {
      CountNone(p, a, n - 1);
    }
  }

  lemma {:induction false} CountAll(p: int -> bool, a: int, n: nat)
    requires forall x :: a <= x < a + n ==> p(x)
    ensures Count(p, a, n) == n
  {
    if n != 0 {
      CountAll(p, a, n - 1);
    }
  }

  /** An interval inside a range is counted by its length. */
  lemma CountInterval(p: int -> bool, n: nat, lo: nat, hi: nat)
    requires lo <= hi <= n
    requires forall x :: 0 <= x < n ==> (p(x) <==> lo <= x < hi)
    ensures Count(p, 0, n) == hi - lo
  {
    CountSplit(p, 0, lo, n - lo);
    CountSplit(p, lo, hi - lo, n - hi);
    CountNone(p, 0, lo);
    CountAll(p, lo, hi - lo);
    CountNone(p, hi, n - hi);
  }

  /** Every full cycle counts the same, wherever it starts. */
  lemma {:induction false} CycleAnywhere(p: int -> bool, period: nat, a: nat)
    requires Periodic(p, period)
    ensures Count(p, a, period) == Count(p, 0, period)
  {
    if a != 0 {
      CycleAnywhere(p, period, a - 1);
      CountSplit(p, a - 1, 1, period);
      CountSplit(p, a - 1, period, 1);
      assert p(a - 1 + period) == p(a - 1);
    }
  }

  lemma MulMonotone(a: nat, b: nat, c: nat)
    requires a <= b
    ensures a * c <= b * c
  {
  }

  lemma DivStep(n: nat, period: nat)
    requires 0 < period <= n
    ensures n / period == (n - period) / period + 1
    ensures n % period == (n - period) % period
  {
    var q, r := (n - period) / period, (n - period) % period;
    assert n == (q + 1) * period + r;
    DivModUnique(n, period, q + 1, r);
  }

  lemma DivModUnique(n: nat, period: nat, q: nat, r: nat)
    requires 0 < period && r < period && n == q * period + r
    ensures n / period == q && n % period == r
  {
    var q', r' := n / period, n % period;
    assert n == q' * period + r';
    if q' < q {
      MulMonotone(q' + 1, q, period);
    } else if q' > q {
      MulMonotone(q + 1, q', period);
    }
  }

  /** Between q and q + 1 cycles' worth of hits; `whole` asks for q exactly. */
  predicate HitsOf(hits: nat, q: nat, w: nat, whole: bool) {
    q * w <= hits <= (q + 1) * w && (whole ==> hits == q * w)
  }

  lemma OneMoreCycle(hits: nat, q: nat, w: nat, whole: bool)
    requires HitsOf(hits, q, w, whole)
    ensures HitsOf(w + hits, q + 1, w, whole)
  {
    assert (q + 1) * w == q * w + w && (q + 2) * w == (q + 1) * w + w;
  }

  /** Over N consecutive integers a property with w hits per cycle holds at least
      floor(N / period) * w and at most w more times; exactly so over whole cycles. */
  lemma PeriodicShare(p: int -> bool, period: nat, w: nat, a: nat, n: nat)
    requires period > 0 && Periodic(p, period) && Count(p, 0, period) == w
    ensures n / period * w <= Count(p, a, n) <= (n / period + 1) * w
    ensures n % period == 0 ==> Count(p, a, n) == n / period * w
  {
    var q := CyclesCounted(p, period, w, a, n);
  }

  lemma {:induction false} CyclesCounted(p: int -> bool, period: nat, w: nat, a: nat, n: nat) returns (q: nat)
    requires period > 0 && Periodic(p, period) && Count(p, 0, period) == w
    ensures q == n / period && HitsOf(Count(p, a, n), q, w, n % period == 0)
    decreases n
  {
    CycleAnywhere(p, period, a);
    if n < period {
      CountSplit(p, a, n, period - n);
      DivModUnique(n, period, 0, n);
      return 0;
    }
    var fewer := CyclesCounted(p, period, w, a + period, n - period);
    CountSplit(p, a, period, n - period);
    DivStep(n, period);
    OneMoreCycle(Count(p, a + period, n - period), fewer, w, n % period == 0);
    return fewer + 1;
  }

  /** Adding a multiple of the modulus changes no remainder. */
  lemma ModShift(x: nat, m: nat)
    requires m > 0
    ensures (x + m) % m == x % m
  {
    DivStep(x + m, m);
  }

  /** Wrapping before a further addition makes no difference. */
  lemma WrapAdd(x: nat, j: nat, m: nat)
    requires m > 0
    ensures (x % m + j) % m == (x + j) % m
  {
    var q := x / m;
    assert x + j == (x % m + j) + q * m;
    ModShiftMany(x % m + j, m, q);
  }

  /** Both the last multiple of n below `big` and `big` itself wrap to a multiple of n. */
  lemma WrapsToMultiple(big: nat, n: nat)
    requires n > 0 && big > 0 && big % n != 0
    ensures ((big - big % n) % big) % n == 0 && (big % big) % n == 0
  {
    var c := big - big % n;
    DivModUnique(c, n, big / n, 0);
    DivModUnique(c, big, 0, c);
    DivModUnique(big, big, 1, 0);
    DivModUnique(0, n, 0, 0);
  }

  lemma ModMod(x: nat, big: nat, m: nat)
    requires m > 0 && big > 0 && big % m == 0
    ensures (x % big) % m == x % m
  {
    var q, k := x / big, big / m;
    MulAssoc(q, k, m);
    assert x == q * big + x % big;
    assert big == k * m;
    ModShiftMany(x % big, m, q * k);
  }

  lemma MulAssoc(a: nat, b: nat, c: nat)
    ensures (a * b) * c == a * (b * c)
  {
  }

  lemma {:induction false} ModShiftMany(x: nat, m: nat, k: nat)
    requires m > 0
    ensures (x + k * m) % m == x % m
  {
    if k != 0 {
      ModShiftMany(x, m, k - 1);
      ModShift(x + (k - 1) * m, m);
      assert x + k * m == x + (k - 1) * m + m;
    } else {
      assert k * m == 0;
    }
  }
}
