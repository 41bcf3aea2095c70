/**
 What a candidate is worth before its channel's weight (`Fusion::share` and `rescale` in
 `crates/core/src/fusion.rs`): the band a list spans is the one its ranks would, its ends are reached,
 and where a candidate falls in it is its score's alone.
 */
module FusionBands {
  import opened Wrappers
  import opened Fusion

  predicate AllScored(candidates: seq<Scored>) {
    forall c :: c in candidates ==> c.score.Some?
  }

  /** What a list's candidate at `i` is worth. */
  function ShareAt(f: Weighing, list: List, i: nat): real
    requires f.Sane() && i < |list.candidates|
  {
    Share(f, Rescale(list.candidates, Calibrated(list.channel))[i], i + 1)
  }

  function ScaleOf(list: List): Option<(real, real)> {
    Scale(list.candidates, Calibrated(list.channel))
  }

  // --- Least and most --------------------------------------------------------------------------

  lemma {:induction false} LeastIsLeast(candidates: seq<Scored>)
    requires candidates != [] && AllScored(candidates)
    ensures exists i :: 0 <= i < |candidates| && candidates[i].score.value == Least(candidates)
    ensures forall i :: 0 <= i < |candidates| ==> Least(candidates) <= candidates[i].score.value
  {
    var n := |candidates| - 1;
    assert candidates[n] in candidates;
    if n > 0 {
      LeastIsLeast(candidates[..n]);
      var i :| 0 <= i < n && candidates[..n][i].score.value == Least(candidates[..n]);
      assert candidates[i].score.value == Least(candidates[..n]);
      assert forall j :: 0 <= j < n ==> candidates[j] == candidates[..n][j];
    }
  }

  lemma {:induction false} MostIsMost(candidates: seq<Scored>)
    requires candidates != [] && AllScored(candidates)
    ensures exists i :: 0 <= i < |candidates| && candidates[i].score.value == Most(candidates)
    ensures forall i :: 0 <= i < |candidates| ==> candidates[i].score.value <= Most(candidates)
  {
    var n := |candidates| - 1;
    assert candidates[n] in candidates;
    if n > 0 {
      MostIsMost(candidates[..n]);
      var i :| 0 <= i < n && candidates[..n][i].score.value == Most(candidates[..n]);
      assert candidates[i].score.value == Most(candidates[..n]);
      assert forall j :: 0 <= j < n ==> candidates[j] == candidates[..n][j];
    }
  }

  // --- The band --------------------------------------------------------------------------------

  lemma ByRankFalls(k: real, m: nat, n: nat)
    requires k >= 0.0 && 0 < m <= n
    ensures 0.0 < ByRank(k, n) <= ByRank(k, m)
  {
  }

  /** The band runs from what the last rank would be worth to what the first would, evenly. */
  lemma InBandIs(k: real, n: nat, within: real)
    requires k >= 0.0 && n > 0
    ensures InBand(k, n, within) == ByRank(k, n) + (ByRank(k, 1) - ByRank(k, n)) * within
  {
    var a, b := k + 1.0, k + n as real;
    var p, r := 1.0 / b, 1.0 / a;
    var floor := a / b;
    assert floor == a * p by { assert p * b == 1.0; assert a * p * b == a; }
    assert a * r == 1.0;
    assert floor + (1.0 - floor) * within == a * (p + (r - p) * within) by {
      assert a * (p + (r - p) * within) == a * p + (a * r - a * p) * within;
    }
    OutOf(p + (r - p) * within, a);
  }

  lemma OutOf(x: real, a: real)
    requires a > 0.0
    ensures a * x / a == x
  {
  }

  lemma InBandRises(k: real, n: nat, x: real, y: real)
    requires k >= 0.0 && n > 0 && x <= y
    ensures InBand(k, n, x) <= InBand(k, n, y)
    ensures InBand(k, n, 0.0) == ByRank(k, n) && InBand(k, n, 1.0) == ByRank(k, 1)
  {
    InBandIs(k, n, x);
    InBandIs(k, n, y);
    InBandIs(k, n, 0.0);
    InBandIs(k, n, 1.0);
    ByRankFalls(k, 1, n);
    var span := ByRank(k, 1) - ByRank(k, n);
    NoLess(span, x, y);
  }

  lemma NoLess(span: real, x: real, y: real)
    requires span >= 0.0 && x <= y
    ensures span * x <= span * y
  {
  }

  lemma AlongRises(x: real, y: real, low: real, width: real)
    requires width > 0.0 && x <= y
    ensures 0.0 <= Along(x, low, width) <= Along(y, low, width) <= 1.0
  {
  }

  /** `x` scaled by `a` and moved by `b`. */
  function Move(a: real, b: real, x: real): real {
    a * x + b
  }

  lemma MoveSpreads(a: real, b: real, x: real, y: real)
    ensures Move(a, b, x) - Move(a, b, y) == a * (x - y)
  {
  }

  lemma MoveKeepsOrder(a: real, b: real, x: real, y: real)
    requires a > 0.0
    ensures x < y <==> Move(a, b, x) < Move(a, b, y)
  {
  }

  lemma AlongMoved(x: real, low: real, width: real, a: real, b: real, wide: real)
    requires a > 0.0 && width > 0.0 && wide == a * width && wide > 0.0
    ensures Along(Move(a, b, x), Move(a, b, low), wide) == Along(x, low, width)
  {
    var d := Move(a, b, x) - Move(a, b, low);
    MoveSpreads(a, b, x, low);
    SameRatio(x - low, width, a);
    assert d / wide == (x - low) / width;
  }

  lemma SameRatio(x: real, width: real, a: real)
    requires width > 0.0 && a * width > 0.0
    ensures a * x / (a * width) == x / width
  {
  }

  // --- Lists -----------------------------------------------------------------------------------

  lemma WithinScale(list: List, i: nat)
    requires i < |list.candidates|
    ensures var within := Rescale(list.candidates, Calibrated(list.channel))[i].within;
            && (within.Some? <==> ScaleOf(list).Some?)
            && (within.Some? ==> 0.0 <= within.value <= 1.0)
  {
  }

  lemma RescaledAt(list: List, i: nat)
    requires i < |list.candidates|
    ensures Rescale(list.candidates, Calibrated(list.channel))[i] ==
            var scale := ScaleOf(list);
            Scaled(if scale.None? then None
                else Some(Along(list.candidates[i].score.value, scale.value.0, scale.value.1)), |list.candidates|)
  {
  }

  /** Every share lies between what the last and the first rank of its list would be worth. */
  lemma ShareBetween(f: Weighing, list: List, i: nat)
    requires f.Sane() && i < |list.candidates|
    ensures 0.0 < ByRank(f.k, |list.candidates|) <= ShareAt(f, list, i) <= ByRank(f.k, 1)
  {
    hide ByRank, InBand, Scale;
    var n, within := |list.candidates|, Rescale(list.candidates, Calibrated(list.channel))[i].within;
    WithinScale(list, i);
    ByRankFalls(f.k, 1, n);
    ByRankFalls(f.k, 1, i + 1);
    ByRankFalls(f.k, i + 1, n);
    if within.Some? {
      InBandRises(f.k, n, 0.0, within.value);
      InBandRises(f.k, n, within.value, 1.0);
    }
  }

  /** A list whose scores tell its candidates apart reaches both ends of its band. */
  lemma BothEndsReached(f: Weighing, list: List)
    requires f.Sane() && f.combine.Banded? && !list.channel.Graph?
    requires list.candidates != [] && AllScored(list.candidates)
        && Most(list.candidates) - Least(list.candidates) > EPSILON
    ensures exists i :: 0 <= i < |list.candidates| && ShareAt(f, list, i) == ByRank(f.k, 1)
    ensures exists i :: 0 <= i < |list.candidates| && ShareAt(f, list, i) == ByRank(f.k, |list.candidates|)
  {
    var n := |list.candidates|;
    LeastIsLeast(list.candidates);
    MostIsMost(list.candidates);
    var top :| 0 <= top < n && list.candidates[top].score.value == Most(list.candidates);
    var bottom :| 0 <= bottom < n && list.candidates[bottom].score.value == Least(list.candidates);
    var low, width := Least(list.candidates), Most(list.candidates) - Least(list.candidates);
    AlongEnds(low, width);
    ScaleSpread(list);
    InBandRises(f.k, n, 0.0, 1.0);
    assert ShareAt(f, list, top) == ByRank(f.k, 1) by { hide ByRank, InBand, Scale, Least, Most, Along; }
    assert ShareAt(f, list, bottom) == ByRank(f.k, n) by { hide ByRank, InBand, Scale, Least, Most, Along; }
  }

  lemma AlongEnds(low: real, width: real)
    requires width > 0.0
    ensures Along(low, low, width) == 0.0 && Along(low + width, low, width) == 1.0
  {
  }

  /** The scale of an uncalibrated channel runs over its own scores. */
  lemma ScaleSpread(list: List)
    requires !list.channel.Graph? && list.candidates != [] && AllScored(list.candidates)
    ensures ScaleOf(list) ==
            var spread := Most(list.candidates) - Least(list.candidates);
            if spread > EPSILON then Some((Least(list.candidates), spread)) else None
  {
  }

  /** Reciprocal rank fusion reads the rank alone: of each place, one over the constant and the rank. */
  lemma ReciprocalReadsRank(f: Weighing, list: List, i: nat)
    requires f.Sane() && f.combine.Reciprocal? && i < |list.candidates|
    ensures f.k + (i + 1) as real > 0.0 && ShareAt(f, list, i) == 1.0 / (f.k + (i + 1) as real)
  {
    hide Rescale;
  }

  /** With a score missing, or nothing to tell an uncalibrated channel's apart, the rank alone decides. */
  lemma NoScaleReadsRank(f: Weighing, list: List, i: nat)
    requires f.Sane() && i < |list.candidates|
    requires !AllScored(list.candidates)
        || (!list.channel.Graph? && Most(list.candidates) - Least(list.candidates) <= EPSILON)
    ensures ShareAt(f, list, i) == ShareAt(f.(combine := Reciprocal), list, i) == ByRank(f.k, i + 1)
  {
    hide ByRank, InBand, Least, Most, Along;
    WithinScale(list, i);
  }

  /** On a scale, a higher score in a channel is never worth less. */
  lemma {:induction false} HigherNeverWorthLess(f: Weighing, list: List, i: nat, j: nat)
    requires f.Sane() && f.combine.Banded? && i < |list.candidates| && j < |list.candidates|
    requires ScaleOf(list).Some? && list.candidates[i].score.value <= list.candidates[j].score.value
    ensures ShareAt(f, list, i) <= ShareAt(f, list, j)
  {
    hide ByRank, InBand, Least, Most, Along, Scale;
    var (low, width) := ScaleOf(list).value;
    var x, y := list.candidates[i].score.value, list.candidates[j].score.value;
    AlongRises(x, y, low, width);
    InBandRises(f.k, |list.candidates|, Along(x, low, width), Along(y, low, width));
  }

  /** A graph candidate is worth what its own score says, whatever else the graph found. */
  lemma GraphReadsOwnScore(f: Weighing, a: List, b: List, i: nat, j: nat)
    requires f.Sane() && f.combine.Banded? && a.channel.Graph? && b.channel.Graph?
    requires i < |a.candidates| == |b.candidates| && j < |b.candidates|
    requires AllScored(a.candidates) && AllScored(b.candidates) && a.candidates[i].score == b.candidates[j].score
    ensures ShareAt(f, a, i) == ShareAt(f, b, j)
  {
    hide ByRank, InBand, Along;
    assert ScaleOf(a) == Some((0.0, 1.0)) && ScaleOf(b) == Some((0.0, 1.0));
    hide Scale, Least, Most;
  }

  // --- Scores on another scale -----------------------------------------------------------------

  /** `list` with every score moved. */
  function Moved(list: List, a: real, b: real): List {
    list.(candidates := seq(|list.candidates|, i requires 0 <= i < |list.candidates| =>
      var c := list.candidates[i];
      if c.score.None? then c else c.(score := Some(Move(a, b, c.score.value)))))
  }

  ghost predicate Moves(candidates: seq<Scored>, moved: seq<Scored>, a: real, b: real) {
    && |moved| == |candidates| && AllScored(candidates) && AllScored(moved)
    && forall i :: 0 <= i < |moved| ==> moved[i].score == Some(Move(a, b, candidates[i].score.value))
  }

  lemma {:induction false} MovedEnds(candidates: seq<Scored>, moved: seq<Scored>, a: real, b: real)
    requires a > 0.0 && candidates != [] && Moves(candidates, moved, a, b)
    ensures Least(moved) == Move(a, b, Least(candidates)) && Most(moved) == Move(a, b, Most(candidates))
  {
    hide Move;
    var n := |candidates| - 1;
    assert candidates[n] in candidates && moved[n] in moved;
    if n > 0 {
      assert Moves(candidates[..n], moved[..n], a, b);
      MovedEnds(candidates[..n], moved[..n], a, b);
      var last := candidates[n].score.value;
      MoveKeepsOrder(a, b, last, Least(candidates[..n]));
      MoveKeepsOrder(a, b, Most(candidates[..n]), last);
    }
  }

  lemma MovedMoves(list: List, a: real, b: real)
    requires AllScored(list.candidates)
    ensures Moves(list.candidates, Moved(list, a, b).candidates, a, b)
  {
  }

  /** On which scale an uncalibrated channel scores makes no difference to what its candidates are worth. */
  lemma MovedSharesAlike(f: Weighing, list: List, a: real, b: real, i: nat)
    requires f.Sane() && !list.channel.Graph? && a > 0.0 && i < |list.candidates| && AllScored(list.candidates)
    requires var spread := Most(list.candidates) - Least(list.candidates); spread > EPSILON && a * spread > EPSILON
    ensures ShareAt(f, Moved(list, a, b), i) == ShareAt(f, list, i)
  {
    hide ByRank, InBand, Along, Least, Most, Move;
    var moved := Moved(list, a, b);
    MovedMoves(list, a, b);
    MovedEnds(list.candidates, moved.candidates, a, b);
    var least, width := Least(list.candidates), Most(list.candidates) - Least(list.candidates);
    var wide := a * width;
    MoveSpreads(a, b, Most(list.candidates), least);
    ScaleSpread(list);
    ScaleSpread(moved);
    assert wide > EPSILON;
    assert Most(moved.candidates) - Least(moved.candidates) == wide;
    assert moved.candidates != [] && AllScored(moved.candidates);
    MovedAlong(list, moved, least, width, a, b, wide, i);
  }

  lemma MovedAlong(list: List, moved: List, least: real, width: real, a: real, b: real, wide: real, i: nat)
    requires a > 0.0 && width > 0.0 && wide > 0.0 && wide == a * width
    requires ScaleOf(list) == Some((least, width)) && ScaleOf(moved) == Some((Move(a, b, least), wide))
    requires Moves(list.candidates, moved.candidates, a, b) && i < |list.candidates|
    ensures Rescale(moved.candidates, Calibrated(moved.channel))[i]
        == Rescale(list.candidates, Calibrated(list.channel))[i]
  {
    hide Along, Scale, Least, Most, Move;
    AlongMoved(list.candidates[i].score.value, least, width, a, b, wide);
  }
}
