/**
 What the shipped weights and scales do to the order (`crates/core/src/fusion.rs`): a channel may score
 on any scale, and a lexical channel alone never outvotes a vector list no longer than 77.
 */
module FusionOrder {
  import opened Wrappers
  import opened Fusion
  import opened FusionLaws
  import opened FusionBands

  // --- Scores on another scale change nothing --------------------------------------------------

  /** Two votes alike but for the score they show. */
  predicate Similar(a: Vote, b: Vote) {
    && a.topic == b.topic && a.span == b.span && a.why.channel == b.why.channel
    && a.why.contribution == b.why.contribution
  }

  ghost predicate AllSimilar(a: seq<Vote>, b: seq<Vote>) {
    |a| == |b| && forall i :: 0 <= i < |a| ==> Similar(a[i], b[i])
  }

  lemma {:induction false} SimilarSums(a: seq<Vote>, b: seq<Vote>, topic: Topic, span: Span)
    requires AllSimilar(a, b)
    ensures TallyOf(a, topic).score == TallyOf(b, topic).score && SpanSum(a, topic, span) == SpanSum(b, topic, span)
  {
    if a != [] {
      var n := |a| - 1;
      assert Similar(a[n], b[n]);
      SimilarSums(a[..n], b[..n], topic, span);
    }
  }

  lemma SimilarVoted(a: seq<Vote>, b: seq<Vote>, topic: Topic, span: Span)
    requires AllSimilar(a, b)
    ensures Voted(a, topic) ==> Voted(b, topic)
    ensures SpanVoted(a, topic, span) ==> SpanVoted(b, topic, span)
  {
    if v :| v in a && v.topic == topic {
      var i :| 0 <= i < |a| && a[i] == v;
      assert Similar(a[i], b[i]) && b[i] in b;
    }
    if v :| v in a && ForSpan(v, topic, span) {
      var i :| 0 <= i < |a| && a[i] == v;
      assert Similar(a[i], b[i]) && b[i] in b;
    }
  }

  lemma SimilarStanding(a: seq<Vote>, b: seq<Vote>)
    requires AllSimilar(a, b)
    ensures SameStanding(a, b)
  {
    hide TallyOf, SpanSum, Voted, SpanVoted;
    assert AllSimilar(b, a);
    forall t, s
      ensures TallyOf(a, t).score == TallyOf(b, t).score && SpanSum(a, t, s) == SpanSum(b, t, s)
      ensures (Voted(a, t) <==> Voted(b, t)) && (SpanVoted(a, t, s) <==> SpanVoted(b, t, s))
    {
      SimilarSums(a, b, t, s);
      SimilarVoted(a, b, t, s);
      SimilarVoted(b, a, t, s);
    }
    forall t ensures TallyOf(a, t).score == TallyOf(b, t).score && (Voted(a, t) <==> Voted(b, t)) {
      SimilarSums(a, b, t, 0);
      SimilarVoted(a, b, t, 0);
      SimilarVoted(b, a, t, 0);
    }
  }

  /** Two lists that rank the same candidates by the same spans, each worth as much. */
  ghost predicate WorthAlike(f: Weighing, a: List, b: List)
    requires f.Sane()
  {
    && a.channel == b.channel && |a.candidates| == |b.candidates|
    && forall i :: 0 <= i < |a.candidates| ==>
         && a.candidates[i].topic == b.candidates[i].topic && a.candidates[i].span == b.candidates[i].span
         && ShareAt(f, a, i) == ShareAt(f, b, i)
  }

  lemma {:induction false} WorthAlikeVotesSimilar(f: Weighing, a: seq<List>, b: seq<List>)
    requires f.Sane() && |a| == |b| && forall p :: 0 <= p < |a| ==> WorthAlike(f, a[p], b[p])
    ensures AllSimilar(Votes(f, a), Votes(f, b))
  {
    hide Similar, VotesIn, WorthAlike;
    if a != [] {
      var n := |a| - 1;
      assert forall p :: 0 <= p < n ==> WorthAlike(f, a[..n][p], b[..n][p]) by {
        assert forall p :: 0 <= p < n ==> a[..n][p] == a[p] && b[..n][p] == b[p];
      }
      WorthAlikeVotesSimilar(f, a[..n], b[..n]);
      ListVotesSimilar(f, a[n], b[n]);
    }
  }

  lemma ListVotesSimilar(f: Weighing, a: List, b: List)
    requires f.Sane() && WorthAlike(f, a, b)
    ensures AllSimilar(VotesIn(f, a), VotesIn(f, b))
  {
    hide Share, Rescale;
    forall i | 0 <= i < |VotesIn(f, a)| ensures Similar(VotesIn(f, a)[i], VotesIn(f, b)[i]) {
      assert VotesIn(f, a)[i] == VoteAt(f, a, i) && VotesIn(f, b)[i] == VoteAt(f, b, i);
      assert ShareAt(f, a, i) == ShareAt(f, b, i);
    }
  }

  /**
   A channel other than the graph may score on another scale, larger or smaller and from another zero:
   while its scores still tell its candidates apart, the results are the same but for the scores shown.
   */
  lemma AnotherScaleFusesAlike(f: Weighing, lists: seq<List>, p: nat, a: real, b: real, before: seq<Fused>,
      after: seq<Fused>)
    requires f.Sane() && p < |lists| && !lists[p].channel.Graph? && a > 0.0
    requires lists[p].candidates != [] && AllScored(lists[p].candidates)
    requires var spread := Most(lists[p].candidates) - Least(lists[p].candidates);
        spread > EPSILON && a * spread > EPSILON
    requires Fuses(Votes(f, lists), before) && Fuses(Votes(f, lists[p := Moved(lists[p], a, b)]), after)
    ensures |before| == |after| && forall i :: 0 <= i < |before| ==> Alike(before[i], after[i])
  {
    hide Votes, ShareAt, WorthAlike, Moved, Fuses, Alike, SameStanding, AllSimilar;
    var others := lists[p := Moved(lists[p], a, b)];
    forall q | 0 <= q < |lists| ensures WorthAlike(f, lists[q], others[q]) {
      if q == p {
        MovedWorthAlike(f, lists[p], a, b);
      } else {
        AlikeItself(f, lists[q]);
      }
    }
    WorthAlikeVotesSimilar(f, lists, others);
    SimilarStanding(Votes(f, lists), Votes(f, others));
    SameStandingFusesAlike(Votes(f, lists), Votes(f, others), before, after);
  }

  lemma AlikeItself(f: Weighing, list: List)
    requires f.Sane()
    ensures WorthAlike(f, list, list)
  {
  }

  lemma MovedWorthAlike(f: Weighing, list: List, a: real, b: real)
    requires f.Sane() && !list.channel.Graph? && a > 0.0 && list.candidates != [] && AllScored(list.candidates)
    requires var spread := Most(list.candidates) - Least(list.candidates); spread > EPSILON && a * spread > EPSILON
    ensures WorthAlike(f, list, Moved(list, a, b))
  {
    hide ShareAt;
    forall i | 0 <= i < |list.candidates| ensures ShareAt(f, list, i) == ShareAt(f, Moved(list, a, b), i) {
      MovedSharesAlike(f, list, a, b, i);
    }
  }

  // --- One vote --------------------------------------------------------------------------------

  /** The only list and place `topic` is found at. */
  ghost predicate OnlyAt(lists: seq<List>, topic: Topic, p: nat, i: nat) {
    && p < |lists| && i < |lists[p].candidates| && lists[p].candidates[i].topic == topic
    && forall q, j :: 0 <= q < |lists| && 0 <= j < |lists[q].candidates| && lists[q].candidates[j].topic == topic
        ==> q == p && j == i
  }

  function Worth(f: Weighing, list: List, i: nat): real
    requires f.Sane() && i < |list.candidates|
  {
    f.Weight(list.channel) * ShareAt(f, list, i)
  }

  lemma {:induction false} OnceInList(f: Weighing, list: List, n: nat, topic: Topic, i: nat)
    requires f.Sane() && n <= |list.candidates| && i < |list.candidates| && list.candidates[i].topic == topic
    requires forall j :: 0 <= j < |list.candidates| && list.candidates[j].topic == topic ==> j == i
    ensures TallyOf(VotesUpTo(f, list, n), topic).score == if i < n then Worth(f, list, i) else 0.0
  {
    hide Share, Rescale;
    if n > 0 {
      OnceInList(f, list, n - 1, topic, i);
      assert VotesUpTo(f, list, n)[..n - 1] == VotesUpTo(f, list, n - 1);
    }
  }

  /** Every vote is some candidate's. */
  lemma VoteIsCandidates(f: Weighing, list: List, v: Vote) returns (j: nat)
    requires f.Sane() && v in VotesIn(f, list)
    ensures j < |list.candidates| && v.topic == list.candidates[j].topic && v.why.contribution == Worth(f, list, j)
    ensures v == VoteAt(f, list, j)
  {
    hide Share, Rescale;
    j :| 0 <= j < |VotesIn(f, list)| && VotesIn(f, list)[j] == v;
  }

  lemma NotInList(f: Weighing, list: List, topic: Topic)
    requires f.Sane() && forall j :: 0 <= j < |list.candidates| ==> list.candidates[j].topic != topic
    ensures TallyOf(VotesIn(f, list), topic).score == 0.0
  {
    hide VotesIn;
    forall v | v in VotesIn(f, list) ensures v.topic != topic {
      var j := VoteIsCandidates(f, list, v);
    }
    UnvotedTally(VotesIn(f, list), topic);
  }

  lemma OnlyInList(f: Weighing, list: List, topic: Topic, i: nat)
    requires f.Sane() && i < |list.candidates| && list.candidates[i].topic == topic
    requires forall j :: 0 <= j < |list.candidates| && list.candidates[j].topic == topic ==> j == i
    ensures TallyOf(VotesIn(f, list), topic).score == Worth(f, list, i)
  {
    hide ShareAt;
    if f.Weight(list.channel) != 0.0 {
      OnceInList(f, list, |list.candidates|, topic, i);
    }
  }

  lemma {:induction false} OnlyVoteIsScore(f: Weighing, lists: seq<List>, topic: Topic, p: nat, i: nat)
    requires f.Sane() && OnlyAt(lists, topic, p, i)
    ensures TallyOf(Votes(f, lists), topic).score == Worth(f, lists[p], i)
  {
    hide VotesIn, Worth, TallyOf;
    var n := |lists| - 1;
    ScoreOfTwo(Votes(f, lists[..n]), VotesIn(f, lists[n]), topic);
    if p == n {
      OnlyInList(f, lists[p], topic, i);
      NotInLists(f, lists[..n], topic);
    } else {
      assert lists[..n][p] == lists[p];
      OnlyVoteIsScore(f, lists[..n], topic, p, i);
      NotInList(f, lists[n], topic);
    }
  }

  lemma {:induction false} NotInLists(f: Weighing, lists: seq<List>, topic: Topic)
    requires f.Sane()
    requires forall q, j :: 0 <= q < |lists| && 0 <= j < |lists[q].candidates| ==> lists[q].candidates[j].topic != topic
    ensures TallyOf(Votes(f, lists), topic).score == 0.0
  {
    hide VotesIn;
    if lists != [] {
      var n := |lists| - 1;
      NotInLists(f, lists[..n], topic);
      NotInList(f, lists[n], topic);
      ScoreOfTwo(Votes(f, lists[..n]), VotesIn(f, lists[n]), topic);
    }
  }

  /** No vote counts against a topic, so its score is at least what any one of its candidates is worth. */
  lemma {:induction false} ScoreAtLeastWorth(f: Weighing, lists: seq<List>, p: nat, i: nat)
    requires f.Sane() && p < |lists| && i < |lists[p].candidates|
    ensures TallyOf(Votes(f, lists), lists[p].candidates[i].topic).score >= Worth(f, lists[p], i)
  {
    hide Votes, VotesIn, Worth;
    var topic, votes := lists[p].candidates[i].topic, Votes(f, lists);
    forall v | v in votes ensures v.why.contribution >= 0.0 {
      ContributionNotNegative(f, lists, v);
    }
    var v := CandidateVotes(f, lists[p], i);
    if f.Weight(lists[p].channel) == 0.0 {
      AtLeastNothing(votes, topic);
    } else {
      VotesFromLists(f, lists, v);
      AtLeastOne(votes, v);
    }
  }

  /** Every candidate of a channel worth something votes. */
  lemma CandidateVotes(f: Weighing, list: List, i: nat) returns (v: Vote)
    requires f.Sane() && i < |list.candidates|
    ensures v.topic == list.candidates[i].topic && v.why.contribution == Worth(f, list, i)
    ensures if f.Weight(list.channel) == 0.0 then Worth(f, list, i) == 0.0 else v in VotesIn(f, list)
  {
    hide Share, Rescale;
    v := VoteAt(f, list, i);
    if f.Weight(list.channel) != 0.0 {
      assert VotesIn(f, list)[i] == v;
    }
  }

  lemma ContributionNotNegative(f: Weighing, lists: seq<List>, v: Vote)
    requires f.Sane() && v in Votes(f, lists)
    ensures v.why.contribution >= 0.0
  {
    hide Votes, VotesIn, ShareAt;
    VotesFromLists(f, lists, v);
    var list :| list in lists && v in VotesIn(f, list);
    var j := VoteIsCandidates(f, list, v);
    ShareBetween(f, list, j);
    Product(f.Weight(list.channel), ShareAt(f, list, j));
  }

  lemma Product(x: real, y: real)
    requires x >= 0.0 && y >= 0.0
    ensures x * y >= 0.0
  {
  }

  lemma {:induction false} AtLeastNothing(votes: seq<Vote>, topic: Topic)
    requires forall v :: v in votes ==> v.why.contribution >= 0.0
    ensures TallyOf(votes, topic).score >= 0.0
  {
    if votes != [] {
      AtLeastNothing(votes[..|votes| - 1], topic);
      assert votes[|votes| - 1] in votes;
    }
  }

  lemma {:induction false} AtLeastOne(votes: seq<Vote>, v: Vote)
    requires v in votes && forall w :: w in votes ==> w.why.contribution >= 0.0
    ensures TallyOf(votes, v.topic).score >= v.why.contribution
  {
    var rest, last := votes[..|votes| - 1], votes[|votes| - 1];
    assert last in votes && votes == rest + [last];
    if v in rest {
      AtLeastOne(rest, v);
    } else {
      AtLeastNothing(rest, v.topic);
    }
  }

  // --- The shipped weights ---------------------------------------------------------------------

  predicate Lexical(channel: Channel) {
    channel.LexicalSegmented? || channel.LexicalNgram?
  }

  /** Where a topic found by its better score comes first. */
  lemma HigherComesFirst(votes: seq<Vote>, results: seq<Fused>, x: nat, y: nat)
    requires Fuses(votes, results) && x < |results| && y < |results|
    requires var (t, u) := (results[x].topic, results[y].topic);
             || TallyOf(votes, t).score > TallyOf(votes, u).score
             || (TallyOf(votes, t).score == TallyOf(votes, u).score && t < u)
    ensures x < y
  {
  }

  /** Whatever a vector list of at most 77 finds comes before what one lexical channel alone finds. */
  lemma {:induction false} VectorOutranksOneLexical(lists: seq<List>, results: seq<Fused>, p: nat, i: nat, q: nat,
      j: nat, x: nat, y: nat)
    requires Fuses(Votes(SHIPPED, lists), results)
    requires p < |lists| && lists[p].channel.Vector? && i < |lists[p].candidates| <= 77
    requires x < |results| && results[x].topic == lists[p].candidates[i].topic
    requires y < |results| && OnlyAt(lists, results[y].topic, q, j) && Lexical(lists[q].channel)
    ensures x < y
  {
    hide Votes, Worth, ShareAt, Fuses, TallyOf;
    ScoreAtLeastWorth(SHIPPED, lists, p, i);
    OnlyVoteIsScore(SHIPPED, lists, results[y].topic, q, j);
    ShareBetween(SHIPPED, lists[p], i);
    ShareBetween(SHIPPED, lists[q], j);
    ByRankFalls(SHIPPED.k, |lists[p].candidates|, 77);
    ShippedWorths(lists, p, i, q, j);
    HigherComesFirst(Votes(SHIPPED, lists), results, x, y);
  }

  lemma ShippedWorths(lists: seq<List>, p: nat, i: nat, q: nat, j: nat)
    requires p < |lists| && lists[p].channel.Vector? && i < |lists[p].candidates|
    requires q < |lists| && j < |lists[q].candidates| && Lexical(lists[q].channel)
    requires ShareAt(SHIPPED, lists[p], i) >= 1.0 / 87.0 && ShareAt(SHIPPED, lists[q], j) <= 1.0 / 11.0
    ensures Worth(SHIPPED, lists[p], i) > Worth(SHIPPED, lists[q], j)
  {
  }

  function Descending(n: nat): seq<Scored> {
    seq(n, i requires 0 <= i < n => Scored(i + 1, Some((n - i) as real), 0))
  }

  /** A vector list of `n` topics, best first, and a word found by its spelling alone. */
  function Rivals(n: nat): seq<List> {
    [List(Vector, Descending(n)),
     List(LexicalSegmented, [Scored(0, Some(1.0), 0)])]
  }

  lemma {:induction false} DescendingEnds(n: nat, m: nat)
    requires 0 < m <= n
    ensures var candidates := Descending(n)[..m];
            AllScored(candidates) && Most(candidates) == n as real && Least(candidates) == (n - m + 1) as real
  {
    var all := Descending(n);
    if m > 1 {
      DescendingEnds(n, m - 1);
      assert all[..m][..m - 1] == all[..m - 1];
    }
  }

  /**
   And 77 is the most there can be: of any more, the last is ordered after a topic that one lexical channel
   alone found, if only by its identifier.
   */
  lemma LexicalOutranksAnyLongerList(n: nat, results: seq<Fused>, x: nat, y: nat)
    requires n >= 78 && Fuses(Votes(SHIPPED, Rivals(n)), results)
    requires x < |results| && results[x].topic == n
    requires y < |results| && results[y].topic == 0
    ensures OnlyAt(Rivals(n), 0, 1, 0) && OnlyAt(Rivals(n), n, 0, n - 1)
    ensures y < x
  {
    hide Votes, Worth, ShareAt, Fuses;
    var lists := Rivals(n);
    OnlyVoteIsScore(SHIPPED, lists, n, 0, n - 1);
    OnlyVoteIsScore(SHIPPED, lists, 0, 1, 0);
    LastIsWorthLeast(n);
    AloneReadsRank(lists[1]);
    RivalWorths(lists, n);
    HigherComesFirst(Votes(SHIPPED, lists), results, y, x);
  }

  lemma AloneReadsRank(list: List)
    requires !list.channel.Graph? && |list.candidates| == 1 && list.candidates[0].score.Some?
    ensures ShareAt(SHIPPED, list, 0) == 1.0 / 11.0
  {
  }

  lemma LastIsWorthLeast(n: nat)
    requires n >= 78
    ensures ShareAt(SHIPPED, Rivals(n)[0], n - 1) == ByRank(DEFAULT_K, n) <= 1.0 / 88.0
  {
    var list := Rivals(n)[0];
    DescendingEnds(n, n);
    assert list.candidates[..n] == list.candidates;
    ScaleSpread(list);
    RescaledAt(list, n - 1);
    AlongEnds(1.0, (n - 1) as real);
    InBandRises(DEFAULT_K, n, 0.0, 1.0);
    ByRankFalls(DEFAULT_K, 78, n);
  }

  lemma RivalWorths(lists: seq<List>, n: nat)
    requires lists == Rivals(n) && n >= 78
    requires ShareAt(SHIPPED, lists[0], n - 1) <= 1.0 / 88.0 && ShareAt(SHIPPED, lists[1], 0) == 1.0 / 11.0
    ensures Worth(SHIPPED, lists[1], 0) >= Worth(SHIPPED, lists[0], n - 1)
  {
  }
}
