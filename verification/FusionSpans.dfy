/**
 Where a result comes from (`Fusion::fuse` in `crates/core/src/fusion.rs`), told by the channels' lists alone: its trace
 is of the candidates with its topic, and its span is one of theirs.
 */
module FusionSpans {
  import opened Fusion
  import opened FusionLaws
  import opened FusionBands
  import opened FusionOrder

  /** What the trace says of the candidate at `i`: its channel, its rank, its score, and what it is worth. */
  function WhyOf(f: Weighing, list: List, i: nat): Why
    requires f.Sane() && i < |list.candidates|
  {
    Why(list.channel, i + 1, list.candidates[i].score, f.Weight(list.channel), Worth(f, list, i))
  }

  /** Of the first `n` candidates of `list`, the trace of those with `topic`. */
  ghost function TraceIn(f: Weighing, list: List, n: nat, topic: Topic): seq<Why>
    requires f.Sane() && n <= |list.candidates|
  {
    if n == 0 then []
    else TraceIn(f, list, n - 1, topic) + if list.candidates[n - 1].topic == topic then [WhyOf(f, list, n - 1)] else []
  }

  ghost function Trace(f: Weighing, lists: seq<List>, topic: Topic): seq<Why>
    requires f.Sane()
  {
    if lists == [] then []
    else
      var last := lists[|lists| - 1];
      Trace(f, lists[..|lists| - 1], topic)
      + if f.Weight(last.channel) == 0.0 then [] else TraceIn(f, last, |last.candidates|, topic)
  }

  /** What the first `n` candidates of `list` with `topic` and `span` are worth together. */
  ghost function BehindIn(f: Weighing, list: List, n: nat, topic: Topic, span: Span): real
    requires f.Sane() && n <= |list.candidates|
  {
    if n == 0 then 0.0
    else
      BehindIn(f, list, n - 1, topic, span)
      + if list.candidates[n - 1].topic == topic && list.candidates[n - 1].span == span then Worth(f, list, n - 1)
          else 0.0
  }

  /**
   The weight behind a span: what every candidate with that topic and span is worth, in every list but the graph's.
   */
  ghost function Behind(f: Weighing, lists: seq<List>, topic: Topic, span: Span): real
    requires f.Sane()
  {
    if lists == [] then 0.0
    else
      var last := lists[|lists| - 1];
      Behind(f, lists[..|lists| - 1], topic, span)
      + if last.channel.Graph? || f.Weight(last.channel) == 0.0 then 0.0
        else BehindIn(f, last, |last.candidates|, topic, span)
  }

  /** Some list worth something, not the graph's, has a candidate with that topic and span. */
  ghost predicate Listed(f: Weighing, lists: seq<List>, topic: Topic, span: Span) {
    exists list, i ::
      && list in lists && !list.channel.Graph? && f.Weight(list.channel) != 0.0
      && 0 <= i < |list.candidates| && list.candidates[i].topic == topic && list.candidates[i].span == span
  }

  // --- The votes are the candidates' -----------------------------------------------------------

  lemma {:induction false} WhyOfTwo(a: seq<Vote>, b: seq<Vote>, topic: Topic)
    ensures TallyOf(a + b, topic).why == TallyOf(a, topic).why + TallyOf(b, topic).why
  {
    if b == [] {
      assert a + b == a;
      assert TallyOf(a, topic).why + [] == TallyOf(a, topic).why;
    } else {
      assert (a + b)[..|a + b| - 1] == a + b[..|b| - 1];
      WhyOfTwo(a, b[..|b| - 1], topic);
    }
  }

  lemma VoteTells(f: Weighing, list: List, i: nat)
    requires f.Sane() && i < |list.candidates|
    ensures VoteAt(f, list, i).topic == list.candidates[i].topic
    ensures VoteAt(f, list, i).span == list.candidates[i].span
    ensures VoteAt(f, list, i).why == WhyOf(f, list, i)
  {
    hide Share, Rescale;
  }

  lemma VotesUpToLast(f: Weighing, list: List, n: nat)
    requires f.Sane() && 0 < n <= |list.candidates|
    ensures var votes := VotesUpTo(f, list, n);
            |votes| == n && votes[..n - 1] == VotesUpTo(f, list, n - 1) && votes[n - 1] == VoteAt(f, list, n - 1)
  {
    hide VoteAt;
  }

  lemma {:induction false} VotesUpToTrace(f: Weighing, list: List, n: nat, topic: Topic)
    requires f.Sane() && n <= |list.candidates|
    ensures TallyOf(VotesUpTo(f, list, n), topic).why == TraceIn(f, list, n, topic)
  {
    if n > 0 {
      VotesUpToTrace(f, list, n - 1, topic);
      VoteTells(f, list, n - 1);
      VotesUpToLast(f, list, n);
      hide VotesUpTo, VoteAt, WhyOf;
      var why := TallyOf(VotesUpTo(f, list, n - 1), topic).why;
      assert why + [] == why;
    } else {
      assert VotesUpTo(f, list, 0) == [];
    }
  }

  lemma {:induction false} VotesUpToSpan(f: Weighing, list: List, n: nat, topic: Topic, span: Span)
    requires f.Sane() && n <= |list.candidates|
    ensures SpanSum(VotesUpTo(f, list, n), topic, span)
         == if list.channel.Graph? then 0.0 else BehindIn(f, list, n, topic, span)
  {
    if n > 0 {
      VotesUpToSpan(f, list, n - 1, topic, span);
      VoteTells(f, list, n - 1);
      VotesUpToLast(f, list, n);
      hide VotesUpTo, VoteAt, Worth;
    } else {
      assert VotesUpTo(f, list, 0) == [];
    }
  }

  lemma {:induction false} VotesTell(f: Weighing, lists: seq<List>, topic: Topic, span: Span)
    requires f.Sane()
    ensures TallyOf(Votes(f, lists), topic).why == Trace(f, lists, topic)
    ensures SpanSum(Votes(f, lists), topic, span) == Behind(f, lists, topic, span)
  {
    hide VotesUpTo, TraceIn, BehindIn;
    if lists != [] {
      var rest, last := lists[..|lists| - 1], lists[|lists| - 1];
      VotesTell(f, rest, topic, span);
      VotesUpToTrace(f, last, |last.candidates|, topic);
      VotesUpToSpan(f, last, |last.candidates|, topic, span);
      WhyOfTwo(Votes(f, rest), VotesIn(f, last), topic);
      SpanOfTwo(Votes(f, rest), VotesIn(f, last), topic, span);
    }
  }

  lemma VotedIsListed(f: Weighing, lists: seq<List>, topic: Topic, span: Span)
    requires f.Sane()
    ensures SpanVoted(Votes(f, lists), topic, span) <==> Listed(f, lists, topic, span)
  {
    hide VoteAt;
    if SpanVoted(Votes(f, lists), topic, span) {
      var v :| v in Votes(f, lists) && ForSpan(v, topic, span);
      VotesFromLists(f, lists, v);
      var list :| list in lists && v in VotesIn(f, list);
      var i :| 0 <= i < |VotesIn(f, list)| && VotesIn(f, list)[i] == v;
      VoteTells(f, list, i);
    }
    if list, i :|
      && list in lists && !list.channel.Graph? && f.Weight(list.channel) != 0.0
      && 0 <= i < |list.candidates| && list.candidates[i].topic == topic && list.candidates[i].span == span
    {
      var v := VotesIn(f, list)[i];
      VoteTells(f, list, i);
      VotesFromLists(f, lists, v);
      assert v in Votes(f, lists) && ForSpan(v, topic, span);
    }
  }

  // --- What a result comes of ------------------------------------------------------------------

  /**
   A result's span is that of a candidate of its topic in a list worth something, not the graph's, and 0 when there is
   none. No other span has more behind it, nor as much and an earlier start.
   */
  lemma SpanIsACandidates(f: Weighing, lists: seq<List>, results: seq<Fused>, x: nat)
    requires f.Sane() && Fuses(Votes(f, lists), results) && x < |results|
    ensures var (topic, span) := (results[x].topic, results[x].span);
            && (Listed(f, lists, topic, span) || (span == 0 && forall s :: !Listed(f, lists, topic, s)))
            && (forall s :: Listed(f, lists, topic, s) ==>
                  || Behind(f, lists, topic, s) < Behind(f, lists, topic, span)
                  || (Behind(f, lists, topic, s) == Behind(f, lists, topic, span) && span <= s))
  {
    hide Fuses, SpanVoted, SpanSum, Listed, Behind, Votes, Trace;
    var topic := results[x].topic;
    ChosenSpanHasMost(Votes(f, lists), results, x);
    forall s ensures SpanVoted(Votes(f, lists), topic, s) <==> Listed(f, lists, topic, s)
             ensures SpanSum(Votes(f, lists), topic, s) == Behind(f, lists, topic, s)
    {
      VotedIsListed(f, lists, topic, s);
      VotesTell(f, lists, topic, s);
    }
  }

  /**
   A result's trace is that of the candidates with its topic, list by list and place by place, and it scores their
   sum.
   */
  lemma TraceIsTheCandidates(f: Weighing, lists: seq<List>, results: seq<Fused>, x: nat)
    requires f.Sane() && Fuses(Votes(f, lists), results) && x < |results|
    ensures results[x].why == Trace(f, lists, results[x].topic)
    ensures results[x].score == Sum(results[x].why)
  {
    assert Tells(Votes(f, lists), results[x]);
    VotesTell(f, lists, results[x].topic, 0);
    ScoreIsSumOfTrace(Votes(f, lists), results[x].topic);
  }

  lemma {:induction false} TracedIn(f: Weighing, list: List, n: nat, topic: Topic, w: Why)
    requires f.Sane() && n <= |list.candidates|
    ensures w in TraceIn(f, list, n, topic) <==>
            exists i :: 0 <= i < n && list.candidates[i].topic == topic && w == WhyOf(f, list, i)
  {
    hide WhyOf;
    if n > 0 {
      TracedIn(f, list, n - 1, topic, w);
    }
  }

  /** Each of them tells a candidate's own channel, rank and score, and each candidate with the topic is there. */
  lemma {:induction false} TracedExactly(f: Weighing, lists: seq<List>, topic: Topic, w: Why)
    requires f.Sane()
    ensures w in Trace(f, lists, topic) <==>
            exists list, i ::
              && list in lists && f.Weight(list.channel) != 0.0
              && 0 <= i < |list.candidates| && list.candidates[i].topic == topic && w == WhyOf(f, list, i)
  {
    hide WhyOf, TraceIn;
    if lists != [] {
      var rest, last := lists[..|lists| - 1], lists[|lists| - 1];
      TracedExactly(f, rest, topic, w);
      TracedIn(f, last, |last.candidates|, topic, w);
      assert lists == rest + [last];
      if list, i :|
        && list in lists && f.Weight(list.channel) != 0.0
        && 0 <= i < |list.candidates| && list.candidates[i].topic == topic && w == WhyOf(f, list, i)
      {
        assert list in rest || list == last;
      }
    }
  }

  /** A topic of one list only, at one place in it, comes with that candidate's span. */
  lemma OnlyCandidateIsSpan(f: Weighing, lists: seq<List>, results: seq<Fused>, x: nat, list: List, i: nat)
    requires f.Sane() && Fuses(Votes(f, lists), results) && x < |results|
    requires list in lists && !list.channel.Graph? && f.Weight(list.channel) != 0.0
    requires i < |list.candidates| && list.candidates[i].topic == results[x].topic
    requires forall other, j ::
        other in lists && 0 <= j < |other.candidates| && other.candidates[j].topic == results[x].topic ==>
          other == list && j == i
    ensures results[x].span == list.candidates[i].span
  {
    SpanIsACandidates(f, lists, results, x);
    assert Listed(f, lists, results[x].topic, list.candidates[i].span);
  }
}
