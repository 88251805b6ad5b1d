/** Exponential backoff with full jitter (app/processing.py). Settings are real seconds; the delay is
    rounded to milliseconds and given as an integer number of them. */
module Backoff {
  datatype Params = Params(base: real, max: real)

  function Pow2(n: nat): nat {
    if n == 0 then 1 else 2 * Pow2(n - 1)
  }

  /** base * 2**n, doubling by doubling. */
  function Doubled(base: real, n: nat): real {
    if n == 0 then base else 2.0 * Doubled(base, n - 1)
  }

  lemma {:induction false} DoubledIsPower(base: real, n: nat)
    ensures Doubled(base, n) == base * (Pow2(n) as real)
  {
    if n > 0 {
      DoubledIsPower(base, n - 1);
      var k := Pow2(n - 1) as real;
      assert Pow2(n) as real == 2.0 * k;
      assert 2.0 * (base * k) == base * (2.0 * k);
    }
  }

  function Min(a: real, b: real): real { if a < b then a else b }

  function Ceiling(p: Params, attempt: int): real {
    Min(p.max, Doubled(p.base, if 1 < attempt then attempt - 1 else 0))
  }

  /** round(seconds, 3) in milliseconds: half to even, as Python rounds. */
  function RoundMs(seconds: real): int {
    var ms := seconds * 1000.0;
    var below := ms.Floor;
    var rest := ms - below as real;
    if rest < 0.5 then below
    else if 0.5 < rest then below + 1
    else if below % 2 == 0 then below else below + 1
  }

  /** random.uniform(lo, hi): any value between the two bounds, whichever is the larger. */
  predicate Between(lo: real, x: real, hi: real) {
    lo <= x <= hi || hi <= x <= lo
  }

  /** What backoff_delay(attempt) can return, over every random draw. */
  ghost predicate Drawable(p: Params, attempt: int, delay: int) {
    exists x :: Between(p.base / 2.0, x, Ceiling(p, attempt)) && delay == RoundMs(x)
  }

  /** The scheduler's cap on one sleep, on the millisecond grid. */
  function MaxMs(p: Params): int { (p.max * 1000.0).Floor }

  predicate OnGrid(seconds: real) {
    (seconds * 1000.0).Floor as real == seconds * 1000.0
  }

  lemma RoundMonotone(x: real, y: real)
    requires x <= y
    ensures RoundMs(x) <= RoundMs(y)
  {
  }

  lemma RoundOnGrid(x: real)
    requires OnGrid(x)
    ensures RoundMs(x) as real == x * 1000.0
  {
  }

  lemma {:induction false} DoublingsGrow(base: real, m: nat, n: nat)
    requires 0.0 <= base && m <= n
    ensures base <= Doubled(base, m) <= Doubled(base, n)
    decreases n
  {
    if m < n {
      DoublingsGrow(base, m, n - 1);
    } else if 0 < m {
      DoublingsGrow(base, m - 1, m - 1);
    }
  }

  /** The ceiling is the smaller of the maximum delay and base * 2**(attempt - 1), for every attempt. */
  lemma CeilingIsSmaller(p: Params, attempt: nat)
    requires 1 <= attempt
    ensures var exponential := p.base * (Pow2(attempt - 1) as real);
            && Ceiling(p, attempt) <= p.max && Ceiling(p, attempt) <= exponential
            && (Ceiling(p, attempt) == p.max || Ceiling(p, attempt) == exponential)
  {
    DoubledIsPower(p.base, attempt - 1);
  }

  /** Rounding goes to the nearest millisecond, and to the even one in the middle. */
  lemma RoundsToNearest(x: real)
    ensures RoundMs(x) as real - 0.5 <= x * 1000.0 <= RoundMs(x) as real + 0.5
    ensures x * 1000.0 == RoundMs(x) as real + 0.5 || x * 1000.0 == RoundMs(x) as real - 0.5 ==> RoundMs(x) % 2 == 0
  {
    var ms := x * 1000.0;
    var below := ms.Floor;
    assert below as real <= ms < below as real + 1.0;
  }

  /** The per-attempt ceilings never decrease, and never exceed the maximum delay. */
  lemma CeilingsGrow(p: Params, a: int, b: int)
    requires 0.0 <= p.base && a <= b
    ensures Ceiling(p, a) <= Ceiling(p, b) <= p.max
  {
    DoublingsGrow(p.base, if 1 < a then a - 1 else 0, if 1 < b then b - 1 else 0);
  }

  /** The premises under which delays behave as documented. */
  predicate Sane(p: Params) {
    0.0 <= p.base <= 2.0 * p.max && OnGrid(p.max)
  }

  /** Every delay that can be drawn lies in the jitter interval, up to rounding. */
  lemma DelayWithin(p: Params, attempt: int, delay: int)
    requires Sane(p) && Drawable(p, attempt, delay)
    ensures 0 <= RoundMs(p.base / 2.0) <= delay <= RoundMs(Ceiling(p, attempt)) <= MaxMs(p)
  {
    var lo, hi := p.base / 2.0, Ceiling(p, attempt);
    var x :| Between(lo, x, hi) && delay == RoundMs(x);
    var n := if 1 < attempt then attempt - 1 else 0;
    DoublingsGrow(p.base, n, n);
    RoundMonotone(0.0, lo);
    RoundMonotone(lo, x);
    RoundMonotone(x, hi);
    RoundMonotone(hi, p.max);
    RoundOnGrid(p.max);
  }

  /** Exactly when the scheduler's `min` never truncates a wait: for a cap on the grid, if and only
      if half the base delay rounds to at most the cap. */
  lemma NeverTruncatedIff(p: Params)
    requires 0.0 <= p.base && 0.0 <= p.max && OnGrid(p.max)
    ensures (forall attempt, delay :: Drawable(p, attempt, delay) ==> delay <= MaxMs(p))
            <==> RoundMs(p.base / 2.0) <= MaxMs(p)
  {
    var half := p.base / 2.0;
    assert Between(half, half, Ceiling(p, 1));
    assert Drawable(p, 1, RoundMs(half));
    if RoundMs(half) <= MaxMs(p) {
      forall attempt, delay | Drawable(p, attempt, delay)
        ensures delay <= MaxMs(p)
      {
        var hi := Ceiling(p, attempt);
        var x :| Between(half, x, hi) && delay == RoundMs(x);
        RoundMonotone(x, if half <= hi then hi else half);
        RoundMonotone(hi, p.max);
        RoundOnGrid(p.max);
      }
    }
  }

  // ---------------------------------------------------------------- the whole ladder

  /** The scheduled delays of attempts 1..|delays|, each one a possible draw. */
  ghost predicate Ladder(p: Params, delays: seq<int>) {
    forall k :: 0 <= k < |delays| ==> Drawable(p, k + 1, delays[k])
  }

  function Sum(delays: seq<int>): int {
    if delays == [] then 0 else Sum(delays[..|delays| - 1]) + delays[|delays| - 1]
  }

  lemma TwiceOnGrid(x: real)
    requires OnGrid(x)
    ensures OnGrid(x + x)
  {
    var k := (x * 1000.0).Floor;
    assert (x + x) * 1000.0 == (2 * k) as real;
  }

  lemma {:induction false} DoublingsOnGrid(base: real, n: nat)
    requires OnGrid(base)
    ensures OnGrid(Doubled(base, n))
  {
    if n > 0 {
      DoublingsOnGrid(base, n - 1);
      TwiceOnGrid(Doubled(base, n - 1));
    }
  }

  /** One hop's delay is at most its ceiling, given that both settings are on the grid. */
  lemma HopBound(p: Params, attempt: nat, delay: int)
    requires Sane(p) && OnGrid(p.base) && 1 <= attempt && Drawable(p, attempt, delay)
    ensures delay as real <= Doubled(p.base, attempt - 1) * 1000.0
    ensures delay <= MaxMs(p)
  {
    DelayWithin(p, attempt, delay);
    var top := Doubled(p.base, attempt - 1);
    RoundMonotone(Ceiling(p, attempt), top);
    DoublingsOnGrid(p.base, attempt - 1);
    RoundOnGrid(top);
  }

  lemma LadderPrefix(p: Params, delays: seq<int>)
    requires Ladder(p, delays) && delays != []
    ensures Ladder(p, delays[..|delays| - 1]) && Drawable(p, |delays|, delays[|delays| - 1])
  {
    var init := delays[..|delays| - 1];
    forall k | 0 <= k < |init|
      ensures Drawable(p, k + 1, init[k])
    {
      assert init[k] == delays[k];
    }
    assert Drawable(p, |delays| - 1 + 1, delays[|delays| - 1]);
  }

  /** With the base on the grid the total is at most base * (2**hops - 1). */
  lemma {:induction false} LadderTotal(p: Params, delays: seq<int>)
    requires Sane(p) && OnGrid(p.base) && Ladder(p, delays)
    ensures Sum(delays) as real <= TotalBound(p, |delays|)
  {
    if delays != [] {
      LadderPrefix(p, delays);
      LadderTotal(p, delays[..|delays| - 1]);
      HopBound(p, |delays|, delays[|delays| - 1]);
    }
  }

  lemma CapStep(sum: int, last: int, n: int, cap: int)
    requires sum <= n * cap && last <= cap
    ensures sum + last <= (n + 1) * cap
  {
  }

  /** It is also at most the maximum delay per hop, whether or not the base is on the grid. */
  lemma {:induction false} LadderCap(p: Params, delays: seq<int>)
    requires Sane(p) && Ladder(p, delays)
    ensures Sum(delays) <= |delays| * MaxMs(p)
  {
    if delays != [] {
      LadderPrefix(p, delays);
      LadderCap(p, delays[..|delays| - 1]);
      DelayWithin(p, |delays|, delays[|delays| - 1]);
      CapStep(Sum(delays[..|delays| - 1]), delays[|delays| - 1], |delays| - 1, MaxMs(p));
    }
  }

  // ---------------------------------------------------------------- the total, on or off the grid

  /** The rounded ceilings of the first `n` attempts: the most that can be drawn. */
  function Tops(p: Params, n: nat): seq<int> {
    if n == 0 then [] else Tops(p, n - 1) + [RoundMs(Ceiling(p, n))]
  }

  lemma {:induction false} TopsAreALadder(p: Params, n: nat)
    requires Sane(p)
    ensures |Tops(p, n)| == n && Ladder(p, Tops(p, n))
  {
    if 0 < n {
      TopsAreALadder(p, n - 1);
      var hi := Ceiling(p, n);
      assert Between(p.base / 2.0, hi, hi);
      assert Drawable(p, n, RoundMs(hi));
    }
  }

  lemma SumAppend(delays: seq<int>, last: int)
    ensures Sum(delays + [last]) == Sum(delays) + last
  {
    assert (delays + [last])[..|delays|] == delays;
  }

  lemma {:induction false} NoLadderIsHigher(p: Params, delays: seq<int>)
    requires Sane(p) && Ladder(p, delays)
    ensures Sum(delays) <= Sum(Tops(p, |delays|))
  {
    if delays != [] {
      var n := |delays|;
      LadderPrefix(p, delays);
      NoLadderIsHigher(p, delays[..n - 1]);
      DelayWithin(p, n, delays[n - 1]);
      SumAppend(Tops(p, n - 1), RoundMs(Ceiling(p, n)));
    }
  }

  /** The documented bound on the total delay of `n` hops, base * (2**n - 1), in milliseconds. */
  function TotalBound(p: Params, n: nat): real {
    (Doubled(p.base, n) - p.base) * 1000.0
  }

  /** Exactly when every ladder of `n` hops meets the bound, for every base delay: if and only if the
      rounded ceilings do. */
  lemma LadderTotalIff(p: Params, n: nat)
    requires Sane(p)
    ensures (forall delays :: |delays| == n && Ladder(p, delays) ==> Sum(delays) as real <= TotalBound(p, n))
            <==> Sum(Tops(p, n)) as real <= TotalBound(p, n)
  {
    TopsAreALadder(p, n);
    forall delays | |delays| == n && Ladder(p, delays)
      ensures Sum(delays) <= Sum(Tops(p, n))
    {
      NoLadderIsHigher(p, delays);
    }
  }

  lemma HalfStep(n: nat)
    requires 0 < n
    ensures (n - 1) as real * 0.5 + 0.5 == n as real * 0.5
  {
    assert n as real == (n - 1) as real + 1.0;
  }

  /** For every base delay the total exceeds the bound by at most half a millisecond per hop. */
  lemma {:induction false} LadderTotalRounded(p: Params, delays: seq<int>)
    requires Sane(p) && Ladder(p, delays)
    ensures Sum(delays) as real <= TotalBound(p, |delays|) + |delays| as real * 0.5
  {
    if delays != [] {
      var n := |delays|;
      LadderPrefix(p, delays);
      LadderTotalRounded(p, delays[..n - 1]);
      DelayWithin(p, n, delays[n - 1]);
      HalfStep(n);
    }
  }

  const TINY := Params(0.0006, 60.0)

  lemma TinyDoublings()
    ensures Doubled(0.0006, 1) == 0.0012 && Doubled(0.0006, 2) == 0.0024 && Doubled(0.0006, 3) == 0.0048
  {
    assert Doubled(0.0006, 0) == 0.0006;
  }

  lemma TinyCeiling(attempt: nat, top: int)
    requires (attempt == 1 && top == 1) || (attempt == 2 && top == 1) || (attempt == 3 && top == 2)
    ensures RoundMs(Ceiling(TINY, attempt)) == top
  {
    TinyDoublings();
  }

  lemma TinyTops()
    ensures Sum(Tops(TINY, 1)) == 1 && Sum(Tops(TINY, 2)) == 2 && Sum(Tops(TINY, 3)) == 4
  {
    TinyCeiling(1, 1);
    TinyCeiling(2, 1);
    TinyCeiling(3, 2);
    assert Tops(TINY, 0) == [];
    SumAppend([], 1);
    SumAppend(Tops(TINY, 1), 1);
    SumAppend(Tops(TINY, 2), 2);
  }

  /** Off the grid the bound can fail and hold again: with a 0.6 ms base delay it fails for one hop and for
      two, and holds for three. */
  lemma OffGridExceeds()
    ensures Sane(TINY)
    ensures Sum(Tops(TINY, 1)) as real > TotalBound(TINY, 1)
    ensures Sum(Tops(TINY, 2)) as real > TotalBound(TINY, 2)
    ensures Sum(Tops(TINY, 3)) as real <= TotalBound(TINY, 3)
  {
    TinyDoublings();
    TinyTops();
  }

  /** For one attempt, exactly when no draw exceeds the ceiling: when the ceiling rounds down. */
  lemma CeilingKeptIff(p: Params, attempt: int)
    requires Sane(p)
    ensures (forall delay :: Drawable(p, attempt, delay) ==> delay as real <= Ceiling(p, attempt) * 1000.0)
            <==> RoundMs(Ceiling(p, attempt)) as real <= Ceiling(p, attempt) * 1000.0
  {
    var hi := Ceiling(p, attempt);
    assert Between(p.base / 2.0, hi, hi);
    assert Drawable(p, attempt, RoundMs(hi));
    forall delay | Drawable(p, attempt, delay)
      ensures delay <= RoundMs(hi)
    {
      DelayWithin(p, attempt, delay);
    }
  }
}
