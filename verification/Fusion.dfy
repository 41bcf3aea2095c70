/**
 Rank fusion (`crates/core/src/fusion.rs`, `crates/core/src/channel.rs`), over the reals: each channel's
 ranked list of candidates votes for topics, each vote worth the channel's weight times a share that
 says where the candidate falls in its list. Weights are not negative, and neither is the rank constant.
 */
module Fusion {
  import opened Wrappers

  /** Below this a channel's scores are as good as one score. */
  const EPSILON: real := 1.0 / 8388608.0

  const DEFAULT_K: real := 10.0
  const SEGMENTED_WEIGHT: real := 0.125
  const NGRAM_WEIGHT: real := 0.125
  const GRAPH_WEIGHT: real := 0.30

  datatype Channel = LexicalSegmented | LexicalNgram | Vector | Graph

  /** The range a channel's score means the same thing over, if any. */
  function Calibrated(channel: Channel): Option<(real, real)> {
    if channel.Graph? then Some((0.0, 1.0)) else None
  }

  type Topic = nat
  type Span = nat

  datatype Scored = Scored(topic: Topic, score: Option<real>, span: Span)

  datatype List = List(channel: Channel, candidates: seq<Scored>)

  datatype Combine = Reciprocal | Banded

  datatype Weighing = Weighing(combine: Combine, k: real, weights: map<Channel, real>) {
    function Weight(channel: Channel): real {
      if channel in weights then weights[channel] else 1.0
    }

    predicate Sane() {
      k >= 0.0 && forall c :: c in weights ==> weights[c] >= 0.0
    }
  }

  const SHIPPED := Weighing(Banded, DEFAULT_K, map[
    LexicalSegmented := SEGMENTED_WEIGHT, LexicalNgram := NGRAM_WEIGHT, Graph := GRAPH_WEIGHT])

  // --- Scales ----------------------------------------------------------------------------------

  /** Where a candidate falls on its channel's scale, from 0 to 1, and how many candidates there are. */
  datatype Scaled = Scaled(within: Option<real>, of: nat)

  function Least(candidates: seq<Scored>): real
    requires candidates != [] && forall c :: c in candidates ==> c.score.Some?
  {
    var last := candidates[|candidates| - 1].score.value;
    if |candidates| == 1 then last
    else var rest := Least(candidates[..|candidates| - 1]); if last < rest then last else rest
  }

  function Most(candidates: seq<Scored>): real
    requires candidates != [] && forall c :: c in candidates ==> c.score.Some?
  {
    var last := candidates[|candidates| - 1].score.value;
    if |candidates| == 1 then last
    else var rest := Most(candidates[..|candidates| - 1]); if last > rest then last else rest
  }

  function Clamp(x: real): real {
    if x < 0.0 then 0.0 else if x > 1.0 then 1.0 else x
  }

  /** The low end and the width of the scale a list is read on, if there is one. */
  function Scale(candidates: seq<Scored>, calibrated: Option<(real, real)>): (scale: Option<(real, real)>)
    ensures scale.Some? ==> scale.value.1 > EPSILON && forall c :: c in candidates ==> c.score.Some?
  {
    if candidates == [] || exists c :: c in candidates && c.score.None? then None
    else
      match calibrated
      case Some((low, high)) => if high - low > EPSILON then Some((low, high - low)) else None
      case None =>
        var least, most := Least(candidates), Most(candidates);
        if most - least > EPSILON then Some((least, most - least)) else None
  }

  /** How far along the scale a score falls. */
  function Along(score: real, low: real, width: real): real
    requires width > 0.0
  {
    Clamp((score - low) / width)
  }

  /** `rescale`: every candidate's score on its own channel's scale. */
  function Rescale(candidates: seq<Scored>, calibrated: Option<(real, real)>): (scaled: seq<Scaled>)
    ensures |scaled| == |candidates| && forall i :: 0 <= i < |scaled| ==> scaled[i].of == |candidates|
  {
    var scale := Scale(candidates, calibrated);
    seq(|candidates|, i requires 0 <= i < |candidates| =>
      Scaled(if scale.None? then None else Some(Along(candidates[i].score.value, scale.value.0, scale.value.1)),
          |candidates|))
  }

  /** What reciprocal rank fusion makes of a rank. */
  function ByRank(k: real, rank: nat): real
    requires k >= 0.0 && rank > 0
  {
    1.0 / (k + rank as real)
  }

  /** What a band over `n` candidates makes of a place on their scale. */
  function InBand(k: real, n: nat, within: real): real
    requires k >= 0.0 && n > 0
  {
    var floor := (k + 1.0) / (k + n as real);
    (floor + (1.0 - floor) * within) / (k + 1.0)
  }

  /** `share`: what a candidate is worth, before its channel's weight. */
  function Share(f: Weighing, scaled: Scaled, rank: nat): real
    requires f.Sane() && rank > 0 && scaled.of > 0
  {
    if f.combine.Reciprocal? || scaled.within.None? then ByRank(f.k, rank)
        else InBand(f.k, scaled.of, scaled.within.value)
  }

  // --- Votes -----------------------------------------------------------------------------------

  datatype Why = Why(channel: Channel, rank: nat, score: Option<real>, weight: real, contribution: real)

  datatype Vote = Vote(topic: Topic, span: Span, why: Why)

  function VoteAt(f: Weighing, list: List, i: nat): Vote
    requires f.Sane() && i < |list.candidates|
  {
    var candidate, weight := list.candidates[i], f.Weight(list.channel);
    Vote(candidate.topic, candidate.span,
         Why(list.channel, i + 1, candidate.score, weight,
             weight * Share(f, Rescale(list.candidates, Calibrated(list.channel))[i], i + 1)))
  }

  ghost function VotesUpTo(f: Weighing, list: List, n: nat): (votes: seq<Vote>)
    requires f.Sane() && n <= |list.candidates|
    ensures |votes| == n && forall i :: 0 <= i < n ==> votes[i] == VoteAt(f, list, i)
  {
    if n == 0 then [] else VotesUpTo(f, list, n - 1) + [VoteAt(f, list, n - 1)]
  }

  /** A channel worth nothing names no candidates. */
  ghost function VotesIn(f: Weighing, list: List): seq<Vote>
    requires f.Sane()
  {
    if f.Weight(list.channel) == 0.0 then [] else VotesUpTo(f, list, |list.candidates|)
  }

  ghost function Votes(f: Weighing, lists: seq<List>): seq<Vote>
    requires f.Sane()
  {
    if lists == [] then [] else Votes(f, lists[..|lists| - 1]) + VotesIn(f, lists[|lists| - 1])
  }

  // --- Accumulating ----------------------------------------------------------------------------

  /** A topic's score, its trace, and the weight behind each of its spans. */
  datatype Tally = Tally(score: real, why: seq<Why>, spans: map<Span, real>)

  const NO_VOTES := Tally(0.0, [], map[])

  function Counted(tally: Tally, vote: Vote): Tally {
    Tally(
      tally.score + vote.why.contribution,
      tally.why + [vote.why],
      if vote.why.channel.Graph? then tally.spans
      else tally.spans[vote.span := (if vote.span in tally.spans then tally.spans[vote.span] else 0.0)
          + vote.why.contribution])
  }

  ghost function TallyOf(votes: seq<Vote>, topic: Topic): Tally {
    if votes == [] then NO_VOTES
    else
      var rest, last := TallyOf(votes[..|votes| - 1], topic), votes[|votes| - 1];
      if last.topic == topic then Counted(rest, last) else rest
  }

  ghost predicate Voted(votes: seq<Vote>, topic: Topic) {
    exists v :: v in votes && v.topic == topic
  }

  /** A span no other has more weight behind, nor as much and an earlier start; 0 when none voted. */
  ghost predicate IsBestSpan(spans: map<Span, real>, span: Span) {
    if spans == map[] then span == 0
    else span in spans && forall s :: s in spans ==> spans[s] < spans[span] || (spans[s] == spans[span] && span <= s)
  }

  /** `best_span`. */
  method BestSpan(spans: map<Span, real>) returns (span: Span)
    ensures IsBestSpan(spans, span)
    ensures forall other :: IsBestSpan(spans, other) ==> other == span
  {
    span := 0;
    var rest := spans.Keys;
    if rest == {} {
      assert spans == map[];
      return;
    }
    span :| span in rest;
    rest := rest - {span};
    while rest != {}
      invariant rest <= spans.Keys && span in spans
      invariant forall s ::
          s in spans && s !in rest ==> spans[s] < spans[span] || (spans[s] == spans[span] && span <= s)
    {
      var s :| s in rest;
      rest := rest - {s};
      if spans[s] > spans[span] || (spans[s] == spans[span] && s < span) {
        span := s;
      }
    }
  }

  // --- Fusing ----------------------------------------------------------------------------------

  datatype Fused = Fused(topic: Topic, score: real, why: seq<Why>, span: Span)

  /** Better scores first, and of the same score the smaller identifier. */
  predicate Before(a: Fused, b: Fused) {
    a.score > b.score || (a.score == b.score && a.topic <= b.topic)
  }

  ghost predicate Ordered(results: seq<Fused>) {
    forall i, j :: 0 <= i < j < |results| ==> Before(results[i], results[j])
  }

  ghost predicate DistinctTopics(results: seq<Fused>) {
    forall i, j :: 0 <= i < j < |results| ==> results[i].topic != results[j].topic
  }

  /** `result` is what `votes` come to for its topic. */
  ghost predicate Tells(votes: seq<Vote>, result: Fused) {
    var tally := TallyOf(votes, result.topic);
    && Voted(votes, result.topic)
    && result.score == tally.score && result.why == tally.why && IsBestSpan(tally.spans, result.span)
  }

  ghost predicate Named(results: seq<Fused>, topic: Topic) {
    exists i :: 0 <= i < |results| && results[i].topic == topic
  }

  /** The fusion of `votes`: each topic voted for once, as the votes tell, in order. */
  ghost predicate Fuses(votes: seq<Vote>, results: seq<Fused>) {
    && DistinctTopics(results) && Ordered(results)
    && (forall i :: 0 <= i < |results| ==> Tells(votes, results[i]))
    && (forall topic :: Voted(votes, topic) ==> Named(results, topic))
  }

  /** Where a result goes in an ordered list. */
  method Insert(results: seq<Fused>, result: Fused) returns (longer: seq<Fused>)
    requires Ordered(results)
    ensures Ordered(longer) && multiset(longer) == multiset(results) + multiset{result}
  {
    var i := |results|;
    while i > 0 && !Before(results[i - 1], result)
      invariant 0 <= i <= |results|
      invariant forall j :: i <= j < |results| ==> Before(result, results[j])
    {
      i := i - 1;
    }
    longer := results[..i] + [result] + results[i..];
    InsertedInOrder(results, i, result);
    InsertedOnce(results, i, result);
  }

  lemma InsertedInOrder(results: seq<Fused>, i: nat, result: Fused)
    requires Ordered(results) && i <= |results|
    requires i > 0 ==> Before(results[i - 1], result)
    requires forall j :: i <= j < |results| ==> Before(result, results[j])
    ensures Ordered(results[..i] + [result] + results[i..])
  {
  }

  lemma InsertedOnce(results: seq<Fused>, i: nat, result: Fused)
    requires i <= |results|
    ensures multiset(results[..i] + [result] + results[i..]) == multiset(results) + multiset{result}
  {
    assert results == results[..i] + results[i..];
  }

  /** `sort_results`. */
  method SortResults(results: seq<Fused>) returns (sorted: seq<Fused>)
    ensures Ordered(sorted) && multiset(sorted) == multiset(results)
  {
    sorted := [];
    for i := 0 to |results|
      invariant Ordered(sorted) && multiset(sorted) == multiset(results[..i])
    {
      assert results[..i + 1] == results[..i] + [results[i]];
      sorted := Insert(sorted, results[i]);
    }
    assert results[..|results|] == results;
  }

  // --- The whole of it -------------------------------------------------------------------------

  ghost predicate Accumulates(accumulated: map<Topic, Tally>, votes: seq<Vote>) {
    && (forall t {:trigger t in accumulated} :: t in accumulated <==> Voted(votes, t))
    && (forall t {:trigger accumulated[t]} :: t in accumulated ==> accumulated[t] == TallyOf(votes, t))
  }

  lemma {:induction false} UnvotedTally(votes: seq<Vote>, topic: Topic)
    requires !Voted(votes, topic)
    ensures TallyOf(votes, topic) == NO_VOTES
  {
    if votes != [] {
      assert votes[|votes| - 1] in votes;
      forall v | v in votes[..|votes| - 1] ensures v in votes {
      }
      UnvotedTally(votes[..|votes| - 1], topic);
    }
  }

  lemma AccumulatesOneMore(accumulated: map<Topic, Tally>, votes: seq<Vote>, vote: Vote)
    requires Accumulates(accumulated, votes)
    ensures var tally := if vote.topic in accumulated then accumulated[vote.topic] else NO_VOTES;
            Accumulates(accumulated[vote.topic := Counted(tally, vote)], votes + [vote])
  {
    var longer := votes + [vote];
    assert longer[..|longer| - 1] == votes;
    forall t ensures Voted(longer, t) <==> Voted(votes, t) || t == vote.topic {
      assert vote in longer;
      forall v | v in votes ensures v in longer {
      }
    }
    if vote.topic !in accumulated {
      UnvotedTally(votes, vote.topic);
    }
  }

  /** Two orders of the same results name as many topics. */
  lemma DistinctInAnyOrder(a: seq<Fused>, b: seq<Fused>)
    requires multiset(a) == multiset(b) && DistinctTopics(a)
    ensures DistinctTopics(b)
  {
    forall i, j | 0 <= i < j < |b| ensures b[i].topic != b[j].topic {
      assert b[i] in multiset(a) && b[j] in multiset(a);
      var p :| 0 <= p < |a| && a[p] == b[i];
      var q :| 0 <= q < |a| && a[q] == b[j];
      if p == q {
        TwiceInIt(b, i, j);
        OnceInIt(a, p);
      }
    }
  }

  lemma TwiceInIt(b: seq<Fused>, i: nat, j: nat)
    requires i < j < |b| && b[i] == b[j]
    ensures multiset(b)[b[i]] >= 2
  {
    assert b == b[..i] + [b[i]] + b[i + 1..j] + [b[j]] + b[j + 1..];
  }

  lemma OnceInIt(a: seq<Fused>, p: nat)
    requires p < |a| && DistinctTopics(a)
    ensures multiset(a)[a[p]] == 1
  {
    assert a == a[..p] + [a[p]] + a[p + 1..];
    assert a[p] !in a[..p] && a[p] !in a[p + 1..];
  }

  lemma FusesInOrder(votes: seq<Vote>, results: seq<Fused>, sorted: seq<Fused>)
    requires DistinctTopics(results) && multiset(results) == multiset(sorted) && Ordered(sorted)
    requires forall i :: 0 <= i < |results| ==> Tells(votes, results[i])
    requires forall topic :: Voted(votes, topic) ==> Named(results, topic)
    ensures Fuses(votes, sorted)
  {
    hide Tells, Voted, Before;
    DistinctInAnyOrder(results, sorted);
    forall i | 0 <= i < |sorted| ensures Tells(votes, sorted[i]) {
      assert sorted[i] in multiset(results);
    }
    forall topic | Voted(votes, topic) ensures Named(sorted, topic) {
      var i :| 0 <= i < |results| && results[i].topic == topic;
      assert results[i] in multiset(sorted);
    }
  }

  /** The results the accumulated topics come to, in no order. */
  method Collect(accumulated: map<Topic, Tally>, ghost votes: seq<Vote>) returns (results: seq<Fused>)
    requires Accumulates(accumulated, votes)
    ensures DistinctTopics(results)
    ensures forall i :: 0 <= i < |results| ==> Tells(votes, results[i])
    ensures forall topic :: Voted(votes, topic) ==> Named(results, topic)
  {
    results := [];
    var rest := accumulated.Keys;
    while rest != {}
      invariant rest <= accumulated.Keys && DistinctTopics(results)
      invariant forall i :: 0 <= i < |results| ==> Tells(votes, results[i]) && results[i].topic !in rest
      invariant forall topic :: topic in accumulated && topic !in rest ==> Named(results, topic)
    {
      var topic :| topic in rest;
      var tally := accumulated[topic];
      var span := BestSpan(tally.spans);
      var result := Fused(topic, tally.score, tally.why, span);
      assert Tells(votes, result);
      rest := rest - {topic};
      ghost var before := results;
      results := results + [result];
      assert results[|before|].topic == topic;
      forall t | t in accumulated && t !in rest ensures Named(results, t) {
        if t != topic {
          var i :| 0 <= i < |before| && before[i].topic == t;
          assert results[i].topic == t;
        }
      }
    }
  }

  /** `fuse`: every topic a channel worth something names, once, by the votes it got. */
  method Fuse(f: Weighing, lists: seq<List>) returns (results: seq<Fused>)
    requires f.Sane()
    ensures Fuses(Votes(f, lists), results)
  {
    var accumulated: map<Topic, Tally> := map[];
    for at := 0 to |lists|
      invariant Accumulates(accumulated, Votes(f, lists[..at]))
    {
      var list := lists[at];
      var weight := f.Weight(list.channel);
      assert lists[..at + 1][..at] == lists[..at];
      assert Votes(f, lists[..at + 1]) == Votes(f, lists[..at]) + VotesIn(f, list);
      if weight == 0.0 {
        assert Votes(f, lists[..at]) + [] == Votes(f, lists[..at]);
        continue;
      }
      accumulated := CountList(f, list, accumulated, Votes(f, lists[..at]));
    }
    assert lists[..|lists|] == lists;
    var collected := Collect(accumulated, Votes(f, lists));
    results := SortResults(collected);
    FusesInOrder(Votes(f, lists), collected, results);
  }

  /** Counts the votes of one channel's list. */
  method CountList(f: Weighing, list: List, before: map<Topic, Tally>, ghost votes: seq<Vote>)
      returns (accumulated: map<Topic, Tally>)
    requires f.Sane() && f.Weight(list.channel) != 0.0 && Accumulates(before, votes)
    ensures Accumulates(accumulated, votes + VotesIn(f, list))
  {
    hide Accumulates, Counted, Share, Rescale, VotesUpTo;
    var weight, scaled := f.Weight(list.channel), Rescale(list.candidates, Calibrated(list.channel));
    accumulated := before;
    VotesGrow(f, list, votes, 0);
    for i := 0 to |list.candidates|
      invariant Accumulates(accumulated, votes + VotesUpTo(f, list, i))
    {
      var candidate, rank := list.candidates[i], i + 1;
      var contribution := weight * Share(f, scaled[i], rank);
      var vote := Vote(candidate.topic, candidate.span, Why(list.channel, rank, candidate.score, weight, contribution));
      var entry := if candidate.topic in accumulated then accumulated[candidate.topic] else NO_VOTES;
      assert vote == VoteAt(f, list, i);
      VotesGrow(f, list, votes, i);
      AccumulatesOneMore(accumulated, votes + VotesUpTo(f, list, i), vote);
      accumulated := accumulated[candidate.topic := Counted(entry, vote)];
    }
  }

  lemma VotesGrow(f: Weighing, list: List, votes: seq<Vote>, i: nat)
    requires f.Sane() && i <= |list.candidates|
    ensures votes + VotesUpTo(f, list, 0) == votes
    ensures i < |list.candidates| ==>
        votes + VotesUpTo(f, list, i + 1) == votes + VotesUpTo(f, list, i) + [VoteAt(f, list, i)]
  {
  }
}
