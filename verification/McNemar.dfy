/**
 The paired test the benchmark summaries report (`benchmarks/summarise.py`, again in
 `benchmarks/power.py`): the exact binomial test on the questions two arms disagree about. The p-value
 is over the reals, before it is rounded.
 */
module McNemar {
  /** `math.comb`. */
  function Comb(n: nat, k: nat): nat
    decreases n
  {
    if k == 0 then 1 else if n == 0 then 0 else Comb(n - 1, k - 1) + Comb(n - 1, k)
  }

  function Pow2(n: nat): (p: nat)
    ensures p > 0
  {
    if n == 0 then 1 else 2 * Pow2(n - 1)
  }

  /** The outcomes of `n` with at most `m` one way. */
  function Tail(n: nat, m: nat): nat {
    if m == 0 then Comb(n, 0) else Tail(n, m - 1) + Comb(n, m)
  }

  function Min(a: nat, b: nat): nat {
    if a < b then a else b
  }

  /** What the p-value is before it is held to 1. */
  function Doubled(a: nat, b: nat): real {
    (2 * Tail(a + b, Min(a, b))) as real / Pow2(a + b) as real
  }

  /** `mcnemar`'s p-value. */
  function P(a: nat, b: nat): real {
    if a + b == 0 then 1.0 else if Doubled(a, b) > 1.0 then 1.0 else Doubled(a, b)
  }

  // --- Binomial coefficients -------------------------------------------------------------------

  lemma {:induction false} CombBeyond(n: nat, k: nat)
    ensures Comb(n, k) > 0 <==> k <= n
    ensures Comb(n, n) == 1
    decreases n
  {
    if n > 0 {
      CombBeyond(n - 1, n);
      if k > 0 {
        CombBeyond(n - 1, k - 1);
        CombBeyond(n - 1, k);
      }
    }
  }

  lemma {:induction false} CombMirrors(n: nat, k: nat)
    requires k <= n
    ensures Comb(n, k) == Comb(n, n - k)
    decreases n
  {
    CombBeyond(n, k);
    if 0 < k < n {
      CombMirrors(n - 1, k - 1);
      CombMirrors(n - 1, k);
    }
  }

  lemma {:induction false} TailPascal(n: nat, m: nat)
    requires n > 0 && m > 0
    ensures Tail(n, m) == Tail(n - 1, m - 1) + Tail(n - 1, m)
  {
    if m > 1 {
      TailPascal(n, m - 1);
    }
  }

  lemma {:induction false} TailOfAll(n: nat)
    ensures Tail(n, n) == Pow2(n)
  {
    if n > 0 {
      TailPascal(n, n);
      TailOfAll(n - 1);
      CombBeyond(n - 1, n);
    }
  }

  lemma {:induction false} TailRises(n: nat, m: nat, k: nat)
    requires m <= k
    ensures Tail(n, m) <= Tail(n, k)
    ensures m < k && m < n ==> Tail(n, m) < Tail(n, k)
    decreases k
  {
    if m < k {
      TailRises(n, m, k - 1);
      CombBeyond(n, k);
      if m == k - 1 {
        CombBeyond(n, k);
      }
    }
  }

  /** The outcomes below a place and those above its mirror are all there are. */
  lemma {:induction false} TailsMeet(n: nat, m: nat)
    requires m < n
    ensures Tail(n, m) + Tail(n, n - m - 1) == Pow2(n)
    decreases m
  {
    CombMirrors(n, m);
    if m == 0 {
      TailOfAll(n);
      CombBeyond(n, n);
      assert Tail(n, n) == Tail(n, n - 1) + Comb(n, n);
    } else {
      TailsMeet(n, m - 1);
      assert Tail(n, n - m) == Tail(n, n - m - 1) + Comb(n, n - m);
    }
  }

  // --- The test --------------------------------------------------------------------------------

  function Distance(a: nat, b: nat): nat {
    if a < b then b - a else a - b
  }

  /** How the doubled tail stands to all the outcomes: above only for an even split, and even with them next to one. */
  lemma DoubledTail(a: nat, b: nat)
    requires a + b > 0
    ensures var (doubled, all) := (2 * Tail(a + b, Min(a, b)), Pow2(a + b));
            && (doubled > all <==> a == b)
            && (doubled == all <==> Distance(a, b) == 1)
            && (doubled < all <==> Distance(a, b) >= 2)
  {
    var n, m := a + b, Min(a, b);
    TailsMeet(n, m);
    if a == b {
      TailRises(n, m - 1, m);
    } else {
      TailRises(n, m, n - m - 1);
    }
  }

  lemma Ratio(x: int, y: nat)
    requires y > 0
    ensures x > y <==> x as real / y as real > 1.0
    ensures x == y <==> x as real / y as real == 1.0
  {
  }

  /** Holding the p-value to 1 matters exactly when the arms split evenly the questions they disagree about. */
  lemma ClampedExactly(a: nat, b: nat)
    requires a + b > 0
    ensures Doubled(a, b) > 1.0 <==> a == b
  {
    DoubledTail(a, b);
    Ratio(2 * Tail(a + b, Min(a, b)), Pow2(a + b));
  }

  /** The p-value is 1 exactly when the split could be no closer: the counts are equal or next to each other. */
  lemma CertainExactly(a: nat, b: nat)
    ensures 0.0 < P(a, b) <= 1.0
    ensures P(a, b) == 1.0 <==> Distance(a, b) <= 1
  {
    if a + b > 0 {
      DoubledTail(a, b);
      var (doubled, all) := (2 * Tail(a + b, Min(a, b)), Pow2(a + b));
      Ratio(doubled, all);
      TailRises(a + b, 0, Min(a, b));
      PositiveQuotient(doubled as real, all as real);
    }
  }

  lemma PositiveQuotient(x: real, y: real)
    requires x > 0.0 && y > 0.0
    ensures x / y > 0.0
  {
  }

  lemma EitherArmFirst(a: nat, b: nat)
    ensures P(a, b) == P(b, a)
  {
    assert a + b == b + a;
  }

  lemma QuotientsRise(x: nat, y: nat, all: nat)
    requires x <= y && all > 0
    ensures x as real / all as real <= y as real / all as real
    ensures x < y ==> (x as real / all as real) < (y as real / all as real)
  {
  }

  /** Of as many disagreements, the more one-sided are never the more likely, and less likely once one can tell. */
  lemma OneSidedIsLessLikely(a: nat, b: nat, c: nat, d: nat)
    requires a + b == c + d && Distance(a, b) < Distance(c, d)
    ensures P(c, d) <= P(a, b)
    ensures Distance(c, d) >= 2 ==> P(c, d) < P(a, b)
  {
    CertainExactly(a, b);
    CertainExactly(c, d);
    if Distance(a, b) >= 2 {
      var n, m, k := a + b, Min(c, d), Min(a, b);
      TailRises(n, m, k);
      QuotientsRise(2 * Tail(n, m), 2 * Tail(n, k), Pow2(n));
    }
  }

  // --- What it means ---------------------------------------------------------------------------

  /** Of the first `m + 1` outcomes of `n`, those at least as one-sided as a split `apart`. */
  function AsOneSided(n: nat, apart: nat, m: nat): nat
    requires m <= n
  {
    (if Distance(m, n - m) >= apart then Comb(n, m) else 0) + if m == 0 then 0 else AsOneSided(n, apart, m - 1)
  }

  lemma {:induction false} LowSide(n: nat, apart: nat, m: nat)
    requires m <= n && apart > 0 && 2 * m + apart <= n
    ensures AsOneSided(n, apart, m) == Tail(n, m)
  {
    if m > 0 {
      LowSide(n, apart, m - 1);
    }
  }

  lemma {:induction false} Between(n: nat, apart: nat, low: nat, m: nat)
    requires low <= m <= n && apart > 0 && 2 * low + apart == n && m < n - low
    ensures AsOneSided(n, apart, m) == Tail(n, low)
  {
    if m == low {
      LowSide(n, apart, low);
    } else {
      Between(n, apart, low, m - 1);
    }
  }

  lemma {:induction false} HighSide(n: nat, apart: nat, low: nat, m: nat)
    requires m <= n && apart > 0 && 2 * low + apart == n && m >= n - low
    ensures AsOneSided(n, apart, m) == Tail(n, low) + Tail(n, m) - Tail(n, n - low - 1)
  {
    if m == n - low {
      Between(n, apart, low, m - 1);
    } else {
      HighSide(n, apart, low, m - 1);
    }
  }

  lemma {:induction false} EverySplitIsApart(n: nat, m: nat)
    requires m <= n
    ensures AsOneSided(n, 0, m) == Tail(n, m)
  {
    if m > 0 {
      EverySplitIsApart(n, m - 1);
    }
  }

  /**
   What the p-value is: the chance that `n` fair coins come out at least as one-sided as the arms' split,
   on either side.
   */
  lemma PIsTwoSided(a: nat, b: nat)
    ensures P(a, b) == AsOneSided(a + b, Distance(a, b), a + b) as real / Pow2(a + b) as real
  {
    var n, m, apart := a + b, Min(a, b), Distance(a, b);
    TailOfAll(n);
    if n > 0 {
      ClampedExactly(a, b);
      if a == b {
        EverySplitIsApart(n, n);
        Ratio(Pow2(n), Pow2(n));
      } else {
        HighSide(n, apart, m, n);
        TailsMeet(n, m);
      }
    }
  }

  // --- Two arms' answers -----------------------------------------------------------------------

  type Question(==, !new)

  /** The questions both arms answered that only the first won. */
  ghost function OnlyFirst(a: map<Question, bool>, b: map<Question, bool>): set<Question> {
    set q | q in a.Keys * b.Keys && a[q] && !b[q]
  }

  ghost function Both(a: map<Question, bool>, b: map<Question, bool>): set<Question> {
    set q | q in a.Keys * b.Keys && a[q] && b[q]
  }

  /** `paired`'s counts. */
  ghost function Paired(a: map<Question, bool>, b: map<Question, bool>): (nat, nat) {
    (|OnlyFirst(a, b)|, |OnlyFirst(b, a)|)
  }

  ghost function Won(a: map<Question, bool>, shared: set<Question>): set<Question> {
    set q | q in shared && q in a && a[q]
  }

  /** The totals say no more than the disagreements do: what both arms won is in both. */
  lemma TotalsDifferAsDisagreements(a: map<Question, bool>, b: map<Question, bool>)
    ensures var shared := a.Keys * b.Keys; var (onlyA, onlyB) := Paired(a, b);
            && |Won(a, shared)| - |Won(b, shared)| == onlyA - onlyB
            && onlyA + onlyB <= |shared|
  {
    var shared := a.Keys * b.Keys;
    assert Won(a, shared) == OnlyFirst(a, b) + Both(a, b) && OnlyFirst(a, b) !! Both(a, b);
    assert Won(b, shared) == OnlyFirst(b, a) + Both(a, b) && OnlyFirst(b, a) !! Both(a, b);
    var (first, second) := (OnlyFirst(a, b), OnlyFirst(b, a));
    assert first !! second && first <= shared && second <= shared;
    hide OnlyFirst, Both, Won;
    Smaller(first + second, shared);
  }

  lemma {:induction false} Smaller(a: set<Question>, b: set<Question>)
    requires a <= b
    ensures |a| <= |b|
  {
    assert b == a + (b - a);
  }
}
