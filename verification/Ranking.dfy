/**
 How a run is scored against the questions' gold sessions (`benchmarks/datasets/longmemeval.py`): a
 session ranks where its best turn does, and normalized discounted cumulative gain is 1 exactly for a
 perfect start. The discount, `1 / log2(i + 2)` there, is any that is positive and strictly falling.
 */
module Ranking {
  // --- Sessions --------------------------------------------------------------------------------

  const MARK := "__t"

  predicate MarkAt(topic: string, p: nat) {
    p + 3 <= |topic| && topic[p..p + 3] == MARK
  }

  /** `topic.rsplit("__t", 1)[0]`: what is before the last mark, or all of it. */
  function SessionOf(topic: string): string {
    Before(topic, |topic|)
  }

  function Before(topic: string, upTo: nat): string
    requires upTo <= |topic|
  {
    if upTo == 0 then topic else if MarkAt(topic, upTo - 1) then topic[..upTo - 1] else Before(topic, upTo - 1)
  }

  /** `turns_of`'s name for a turn, `number` being its place in its session. */
  function TurnOf(session: string, number: string): string {
    session + MARK + number
  }

  predicate Digits(s: string) {
    forall i :: 0 <= i < |s| ==> '0' <= s[i] <= '9'
  }

  lemma {:induction false} BeforeFindsLast(topic: string, p: nat, upTo: nat)
    requires MarkAt(topic, p) && p < upTo <= |topic|
    requires forall q :: p < q < upTo ==> !MarkAt(topic, q)
    ensures Before(topic, upTo) == topic[..p]
  {
    if upTo - 1 != p {
      BeforeFindsLast(topic, p, upTo - 1);
    }
  }

  lemma MarkLetters(topic: string, q: nat)
    ensures MarkAt(topic, q) ==> topic[q + 1] == '_'
  {
  }

  /** A turn belongs to the session it was named for, whatever marks the session's own name has. */
  lemma TurnIsOfItsSession(session: string, number: string)
    requires Digits(number)
    ensures SessionOf(TurnOf(session, number)) == session
  {
    var topic, p := TurnOf(session, number), |session|;
    assert topic[p..p + 3] == MARK;
    forall q | p < q < |topic| ensures !MarkAt(topic, q) {
      MarkLetters(topic, q);
      assert q + 1 < |topic| ==> topic[q + 1] != '_';
    }
    BeforeFindsLast(topic, p, |topic|);
    assert topic[..p] == session;
  }

  lemma {:induction false} UnmarkedBefore(topic: string, upTo: nat)
    requires upTo <= |topic| && forall q: nat :: q < upTo ==> !MarkAt(topic, q)
    ensures Before(topic, upTo) == topic
  {
    if upTo > 0 {
      UnmarkedBefore(topic, upTo - 1);
    }
  }

  /** A name with no mark in it is a session's. */
  lemma UnmarkedIsItself(topic: string)
    requires forall q: nat :: !MarkAt(topic, q)
    ensures SessionOf(topic) == topic
  {
    UnmarkedBefore(topic, |topic|);
  }

  /** The sessions of `passages`, each where it is first found. */
  ghost function Firsts(passages: seq<string>): seq<string> {
    if passages == [] then []
    else
      var rest, session := Firsts(passages[..|passages| - 1]), SessionOf(passages[|passages| - 1]);
      if session in rest then rest else rest + [session]
  }

  /** `sessions_of`. */
  method SessionsOf(passages: seq<string>) returns (ranked: seq<string>)
    ensures ranked == Firsts(passages)
  {
    ranked := [];
    var seen := {};
    for i := 0 to |passages|
      invariant ranked == Firsts(passages[..i])
      invariant seen == set s | s in ranked
    {
      assert passages[..i + 1][..i] == passages[..i];
      var session := SessionOf(passages[i]);
      if session !in seen {
        seen := seen + {session};
        ranked := ranked + [session];
      }
    }
    assert passages[..|passages|] == passages;
  }

  predicate Distinct(ranked: seq<string>) {
    forall i, j :: 0 <= i < j < |ranked| ==> ranked[i] != ranked[j]
  }

  /** Where a session's best turn ranked. */
  ghost predicate FirstFoundAt(passages: seq<string>, session: string, at: nat) {
    && at < |passages| && SessionOf(passages[at]) == session
    && forall i :: 0 <= i < at ==> SessionOf(passages[i]) != session
  }

  ghost predicate Found(passages: seq<string>, session: string) {
    exists i :: 0 <= i < |passages| && SessionOf(passages[i]) == session
  }

  /** One session ranks before another exactly when its best turn ranked before the other's. */
  ghost predicate ByBestTurn(passages: seq<string>, ranked: seq<string>) {
    forall i, j, x, y ::
      (&& 0 <= i < |ranked| && 0 <= j < |ranked|
       && FirstFoundAt(passages, ranked[i], x) && FirstFoundAt(passages, ranked[j], y)) ==>
        (i < j <==> x < y)
  }

  lemma FoundLonger(passages: seq<string>, session: string)
    requires passages != []
    ensures var n := |passages| - 1;
            Found(passages, session) <==> Found(passages[..n], session) || SessionOf(passages[n]) == session
  {
  }

  /** The sessions are those of the passages, each once, ordered by where their best turns ranked. */
  lemma {:induction false} SessionsRankByBestTurn(passages: seq<string>)
    ensures Distinct(Firsts(passages)) && ByBestTurn(passages, Firsts(passages))
    ensures forall s :: s in Firsts(passages) <==> Found(passages, s)
  {
    if passages != [] {
      var n := |passages| - 1;
      var rest, ranked := Firsts(passages[..n]), Firsts(passages);
      SessionsRankByBestTurn(passages[..n]);
      forall s ensures s in ranked <==> Found(passages, s) {
        FoundLonger(passages, s);
      }
      forall i, j, x, y
        | 0 <= i < |ranked| && 0 <= j < |ranked| && FirstFoundAt(passages, ranked[i], x)
            && FirstFoundAt(passages, ranked[j], y)
        ensures i < j <==> x < y
      {
        FoundEarlier(passages, ranked[i], x);
        FoundEarlier(passages, ranked[j], y);
      }
    }
  }

  /** A session was first found before the last passage exactly when the passages before that have it. */
  lemma FoundEarlier(passages: seq<string>, session: string, x: nat)
    requires FirstFoundAt(passages, session, x)
    ensures var n := |passages| - 1; Found(passages[..n], session) <==> x < n
    ensures x < |passages| - 1 ==> FirstFoundAt(passages[..|passages| - 1], session, x)
  {
  }

  // --- Gain ------------------------------------------------------------------------------------

  /** A discount: positive, and falling with every place. */
  ghost predicate Discounts(d: nat -> real) {
    && (forall i {:trigger d(i)} :: d(i) > 0.0)
    && (forall i, j {:trigger d(i), d(j)} :: i < j ==> d(i) > d(j))
  }

  function Gain(ranked: seq<string>, gold: set<string>, d: nat -> real, n: nat): real
    requires n <= |ranked|
  {
    if n == 0 then 0.0 else Gain(ranked, gold, d, n - 1) + if ranked[n - 1] in gold then d(n - 1) else 0.0
  }

  function Ideal(d: nat -> real, n: nat): real {
    if n == 0 then 0.0 else Ideal(d, n - 1) + d(n - 1)
  }

  function Min(a: nat, b: nat): nat {
    if a < b then a else b
  }

  /** `ndcg_any`: any gold session counts. */
  function Ndcg(ranked: seq<string>, gold: set<string>, d: nat -> real, k: nat): real {
    var ideal := Ideal(d, Min(|gold|, k));
    if ideal == 0.0 then 0.0 else Gain(ranked, gold, d, Min(|ranked|, k)) / ideal
  }

  /** `recall_all`: every gold session in the first `k`. */
  predicate RecallsAll(ranked: seq<string>, gold: set<string>, k: nat) {
    gold != {} && forall s :: s in gold ==> s in ranked[..Min(|ranked|, k)]
  }

  // --- Properties ------------------------------------------------------------------------------

  /** How many of the first `n` places are gold. */
  function Hits(ranked: seq<string>, gold: set<string>, n: nat): nat
    requires n <= |ranked|
  {
    if n == 0 then 0 else Hits(ranked, gold, n - 1) + if ranked[n - 1] in gold then 1 else 0
  }

  /** On distinct sessions, so many places are as many gold sessions. */
  lemma {:induction false} HitsAreGold(ranked: seq<string>, gold: set<string>, n: nat) returns (hits: set<string>)
    requires n <= |ranked| && Distinct(ranked)
    ensures |hits| == Hits(ranked, gold, n) && hits <= gold && forall s :: s in hits ==> s in ranked[..n]
  {
    if n == 0 {
      return {};
    }
    hits := HitsAreGold(ranked, gold, n - 1);
    var last := ranked[n - 1];
    assert ranked[..n] == ranked[..n - 1] + [last];
    assert last !in ranked[..n - 1];
    if last in gold {
      hits := hits + {last};
    }
  }

  lemma {:induction false} HitsRise(ranked: seq<string>, gold: set<string>, m: nat, n: nat)
    requires m <= n <= |ranked|
    ensures Hits(ranked, gold, m) <= Hits(ranked, gold, n) <= n
    decreases n
  {
    if m < n {
      HitsRise(ranked, gold, m, n - 1);
    } else if n > 0 {
      HitsRise(ranked, gold, n - 1, n - 1);
    }
  }

  /** The first `n` places are all gold. */
  predicate AllGold(ranked: seq<string>, gold: set<string>, n: nat) {
    n <= |ranked| && forall i :: 0 <= i < n ==> ranked[i] in gold
  }

  lemma {:induction false} IdealRises(d: nat -> real, m: nat, n: nat)
    requires Discounts(d) && m <= n
    ensures Ideal(d, m) <= Ideal(d, n) && (m < n ==> Ideal(d, m) < Ideal(d, n)) && (n > 0 ==> Ideal(d, n) > 0.0)
    decreases n
  {
    if m < n {
      IdealRises(d, m, n - 1);
    } else if n > 0 {
      IdealRises(d, n - 1, n - 1);
    }
  }

  /** So many hits gain no more than they would in the first places, and as much only there. */
  lemma {:induction false} GainAtMostIdeal(ranked: seq<string>, gold: set<string>, d: nat -> real, n: nat)
    requires n <= |ranked| && Discounts(d)
    ensures var h := Hits(ranked, gold, n);
            && h <= n
            && 0.0 <= Gain(ranked, gold, d, n) <= Ideal(d, h)
            && (Gain(ranked, gold, d, n) == Ideal(d, h) <==> AllGold(ranked, gold, h))
  {
    if n > 0 {
      var h := Hits(ranked, gold, n - 1);
      GainAtMostIdeal(ranked, gold, d, n - 1);
      if ranked[n - 1] in gold {
        assert d(n - 1) > 0.0;
        if h < n - 1 {
          assert d(h) > d(n - 1);
          HitsElsewhere(ranked, gold, h, n);
        }
      }
    }
  }

  /** With a hit after the first `h + 1` places, `h + 1` hits do not fill them. */
  lemma HitsElsewhere(ranked: seq<string>, gold: set<string>, h: nat, n: nat)
    requires h + 1 < n <= |ranked| && ranked[n - 1] in gold && Hits(ranked, gold, n) == h + 1
    ensures !AllGold(ranked, gold, h + 1)
  {
    if AllGold(ranked, gold, h + 1) {
      FullHits(ranked, gold, h + 1);
      HitsRise(ranked, gold, h + 1, n - 1);
    }
  }

  lemma {:induction false} FullHits(ranked: seq<string>, gold: set<string>, n: nat)
    requires AllGold(ranked, gold, n)
    ensures Hits(ranked, gold, n) == n
  {
    if n > 0 {
      FullHits(ranked, gold, n - 1);
    }
  }

  lemma Subset(a: set<string>, b: set<string>)
    requires a <= b
    ensures |a| <= |b| && (|a| == |b| ==> a == b)
  {
    assert b == a + (b - a);
  }

  /**
   On distinct sessions, as `sessions_of` ranks them, the score is from 0 to 1, and 1 exactly when the
   first places, as many as there are gold sessions or as `k`, are there and all gold.
   */
  lemma PerfectExactly(ranked: seq<string>, gold: set<string>, d: nat -> real, k: nat)
    requires Distinct(ranked) && Discounts(d) && gold != {} && k >= 1
    ensures 0.0 <= Ndcg(ranked, gold, d, k) <= 1.0
    ensures Ndcg(ranked, gold, d, k) == 1.0 <==> AllGold(ranked, gold, Min(|gold|, k))
  {
    var n, m := Min(|ranked|, k), Min(|gold|, k);
    var h := Hits(ranked, gold, n);
    GainAtMostIdeal(ranked, gold, d, n);
    var hits := HitsAreGold(ranked, gold, n);
    Subset(hits, gold);
    assert h <= m;
    assert |gold| > 0;
    IdealRises(d, h, m);
    Fraction(Gain(ranked, gold, d, n), Ideal(d, m));
    if AllGold(ranked, gold, m) {
      FullHits(ranked, gold, m);
      HitsRise(ranked, gold, m, n);
    }
  }

  lemma Fraction(x: real, y: real)
    requires 0.0 <= x <= y && y > 0.0
    ensures 0.0 <= x / y <= 1.0 && (x / y == 1.0 <==> x == y)
  {
  }

  lemma {:induction false} OneHitGains(ranked: seq<string>, gold: set<string>, d: nat -> real, n: nat, at: nat)
    requires n <= |ranked| && at < |ranked|
    requires forall i :: 0 <= i < |ranked| ==> (ranked[i] in gold <==> i == at)
    ensures Gain(ranked, gold, d, n) == if at < n then d(at) else 0.0
  {
    if n > 0 {
      OneHitGains(ranked, gold, d, n - 1, at);
    }
  }

  /**
   A question's one gold session, found at a place, is worth that place's discount against the first's; too late,
   nothing.
   */
  lemma OneGoldScores(ranked: seq<string>, session: string, d: nat -> real, k: nat, at: nat)
    requires Distinct(ranked) && Discounts(d) && k >= 1 && at < |ranked| && ranked[at] == session
    ensures d(0) > 0.0 && Ndcg(ranked, {session}, d, k) == if at < k then d(at) / d(0) else 0.0
  {
    var n := Min(|ranked|, k);
    assert d(0) > 0.0 && |{session}| == 1;
    assert Ideal(d, 1) == Ideal(d, 0) + d(0);
    OneHitGains(ranked, {session}, d, n, at);
    assert 0.0 / d(0) == 0.0;
  }

  lemma {:induction false} NoHitsGainNothing(ranked: seq<string>, gold: set<string>, d: nat -> real, n: nat)
    requires n <= |ranked| && forall i :: 0 <= i < n ==> ranked[i] !in gold
    ensures Gain(ranked, gold, d, n) == 0.0
  {
    if n > 0 {
      NoHitsGainNothing(ranked, gold, d, n - 1);
    }
  }

  lemma {:induction false} SomeHitGains(ranked: seq<string>, gold: set<string>, d: nat -> real, n: nat, at: nat)
    requires Discounts(d) && at < n <= |ranked| && ranked[at] in gold
    ensures Gain(ranked, gold, d, n) > 0.0
  {
    GainAtMostIdeal(ranked, gold, d, n - 1);
    if at < n - 1 {
      SomeHitGains(ranked, gold, d, n - 1, at);
      if ranked[n - 1] in gold {
        assert d(n - 1) > 0.0;
      }
    } else {
      assert d(at) > 0.0;
    }
  }

  /** A ranking scores nothing exactly when no gold session is in its first `k` places. */
  lemma ZeroExactly(ranked: seq<string>, gold: set<string>, d: nat -> real, k: nat)
    requires Discounts(d) && gold != {} && k >= 1
    ensures Ndcg(ranked, gold, d, k) == 0.0 <==> forall i :: 0 <= i < |ranked| && i < k ==> ranked[i] !in gold
  {
    var n, m := Min(|ranked|, k), Min(|gold|, k);
    assert |gold| > 0;
    IdealRises(d, 0, m);
    if i :| 0 <= i < n && ranked[i] in gold {
      SomeHitGains(ranked, gold, d, n, i);
      AQuotient(Gain(ranked, gold, d, n), Ideal(d, m));
    } else {
      NoHitsGainNothing(ranked, gold, d, n);
      assert 0.0 / Ideal(d, m) == 0.0;
    }
  }

  lemma AQuotient(x: real, y: real)
    requires x > 0.0 && y > 0.0
    ensures x / y > 0.0
  {
  }

  /** A perfect score within `k` places recalls everything, when everything fits in them. */
  lemma PerfectRecalls(ranked: seq<string>, gold: set<string>, d: nat -> real, k: nat)
    requires Distinct(ranked) && Discounts(d) && gold != {} && k >= 1
    ensures RecallsAll(ranked, gold, k) ==> |gold| <= k
    ensures |gold| <= k && Ndcg(ranked, gold, d, k) == 1.0 ==> RecallsAll(ranked, gold, k)
  {
    var n := Min(|ranked|, k);
    PerfectExactly(ranked, gold, d, k);
    if RecallsAll(ranked, gold, k) {
      var first := set s | s in ranked[..n];
      FewInPlaces(ranked[..n]);
      Subset(gold, first);
    }
    if |gold| <= k && AllGold(ranked, gold, |gold|) {
      FullHits(ranked, gold, |gold|);
      var hits := HitsAreGold(ranked, gold, |gold|);
      Subset(hits, gold);
      assert forall s :: s in ranked[..|gold|] ==> s in ranked[..n];
    }
  }

  lemma {:induction false} FewInPlaces(places: seq<string>)
    ensures |set s | s in places| <= |places|
  {
    if places != [] {
      var rest := places[..|places| - 1];
      FewInPlaces(rest);
      assert places == rest + [places[|places| - 1]];
      assert (set s | s in places) == (set s | s in rest) + {places[|places| - 1]};
    }
  }

  /** A session listed twice would score above perfect: it is `sessions_of` that makes the score one. */
  lemma TwiceListedScoresAboveOne(session: string, d: nat -> real)
    requires Discounts(d)
    ensures Ndcg([session, session], {session}, d, 2) > 1.0
  {
    var ranked, gold := [session, session], {session};
    assert |gold| == 1;
    assert Ideal(d, 1) == Ideal(d, 0) + d(0);
    assert Gain(ranked, gold, d, 1) == d(0);
    assert Gain(ranked, gold, d, 2) == d(0) + d(1);
    assert d(1) > 0.0;
    AboveOne(d(0) + d(1), d(0));
  }

  lemma AboveOne(x: real, y: real)
    requires x > y > 0.0
    ensures x / y > 1.0
  {
  }

  /** So a run's passages are scored from 0 to 1, and 1 exactly for a perfect start. */
  lemma PassagesScoreAtMostOne(passages: seq<string>, gold: set<string>, d: nat -> real, k: nat)
    requires Discounts(d) && gold != {} && k >= 1
    ensures 0.0 <= Ndcg(Firsts(passages), gold, d, k) <= 1.0
    ensures Ndcg(Firsts(passages), gold, d, k) == 1.0 <==> AllGold(Firsts(passages), gold, Min(|gold|, k))
  {
    SessionsRankByBestTurn(passages);
    PerfectExactly(Firsts(passages), gold, d, k);
  }
}
