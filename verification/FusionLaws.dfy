/**
 What fusing promises (`Fusion::fuse` in `crates/core/src/fusion.rs`): a score is the sum of its trace, the chosen
 span has the most behind it, and what comes of it depends on the votes and not on how the lists that cast them were
 ordered.
 */
module FusionLaws {
  import opened Fusion

  // --- Scores and spans ------------------------------------------------------------------------

  ghost function Sum(trace: seq<Why>): real {
    if trace == [] then 0.0 else Sum(trace[..|trace| - 1]) + trace[|trace| - 1].contribution
  }

  /** The weight behind a span: its votes from every channel but the graph. */
  ghost function SpanSum(votes: seq<Vote>, topic: Topic, span: Span): real {
    if votes == [] then 0.0
    else
      var last := votes[|votes| - 1];
      SpanSum(votes[..|votes| - 1], topic, span) + if ForSpan(last, topic, span) then last.why.contribution else 0.0
  }

  predicate ForSpan(vote: Vote, topic: Topic, span: Span) {
    vote.topic == topic && vote.span == span && !vote.why.channel.Graph?
  }

  ghost predicate SpanVoted(votes: seq<Vote>, topic: Topic, span: Span) {
    exists v :: v in votes && ForSpan(v, topic, span)
  }

  /** A score is the sum of what its trace shows. */
  lemma {:induction false} ScoreIsSumOfTrace(votes: seq<Vote>, topic: Topic)
    ensures TallyOf(votes, topic).score == Sum(TallyOf(votes, topic).why)
    ensures forall w :: w in TallyOf(votes, topic).why <==> exists v :: v in votes && v.topic == topic && v.why == w
  {
    if votes != [] {
      var rest, last := votes[..|votes| - 1], votes[|votes| - 1];
      ScoreIsSumOfTrace(rest, topic);
      assert votes == rest + [last];
      var why := TallyOf(rest, topic).why;
      assert (why + [last.why])[..|why|] == why;
      if last.topic == topic {
        forall w ensures w in why + [last.why] <==> exists v :: v in votes && v.topic == topic && v.why == w {
          if w in why {
            var v :| v in rest && v.topic == topic && v.why == w;
            assert v in votes;
          }
          assert last in votes;
        }
      } else {
        forall w ensures w in why <==> exists v :: v in votes && v.topic == topic && v.why == w {
          if w in why {
            var v :| v in rest && v.topic == topic && v.why == w;
            assert v in votes;
          }
        }
      }
    }
  }

  lemma SpanVotedLonger(votes: seq<Vote>, last: Vote, topic: Topic, span: Span)
    ensures SpanVoted(votes + [last], topic, span) <==> SpanVoted(votes, topic, span) || ForSpan(last, topic, span)
  {
  }

  lemma {:induction false} SpansAreSums(votes: seq<Vote>, topic: Topic)
    ensures forall s :: s in TallyOf(votes, topic).spans <==> SpanVoted(votes, topic, s)
    ensures forall s :: s in TallyOf(votes, topic).spans ==> TallyOf(votes, topic).spans[s] == SpanSum(votes, topic, s)
    ensures forall s :: !SpanVoted(votes, topic, s) ==> SpanSum(votes, topic, s) == 0.0
  {
    if votes != [] {
      var rest, last := votes[..|votes| - 1], votes[|votes| - 1];
      SpansAreSums(rest, topic);
      assert votes == rest + [last];
      forall s ensures SpanVoted(votes, topic, s) <==> SpanVoted(rest, topic, s) || ForSpan(last, topic, s) {
        SpanVotedLonger(rest, last, topic, s);
      }
    }
  }

  /** The span chosen for a topic has the most weight behind it, and of as much the earliest. */
  lemma ChosenSpanHasMost(votes: seq<Vote>, results: seq<Fused>, i: nat)
    requires Fuses(votes, results) && i < |results|
    ensures var (topic, span) := (results[i].topic, results[i].span);
            && (forall s :: SpanVoted(votes, topic, s) ==>
                  || SpanSum(votes, topic, s) < SpanSum(votes, topic, span)
                  || (SpanSum(votes, topic, s) == SpanSum(votes, topic, span) && span <= s))
            && (SpanVoted(votes, topic, span) || (span == 0 && forall s :: !SpanVoted(votes, topic, s)))
  {
    var topic := results[i].topic;
    assert Tells(votes, results[i]);
    SpansAreSums(votes, topic);
    var spans := TallyOf(votes, topic).spans;
    if spans == map[] {
      forall s ensures !SpanVoted(votes, topic, s) {
        assert s !in spans;
      }
    }
  }

  // --- The order is the votes' alone -----------------------------------------------------------

  predicate Alike(a: Fused, b: Fused) {
    a.topic == b.topic && a.score == b.score && a.span == b.span
  }

  ghost predicate AllMatched(a: seq<Fused>, b: seq<Fused>) {
    forall i :: 0 <= i < |a| ==> Matched(a[i], b)
  }

  ghost predicate Matched(r: Fused, others: seq<Fused>) {
    exists j :: 0 <= j < |others| && Alike(r, others[j])
  }

  /** Results alike are ordered alike: the order leaves no choice when topics are distinct. */
  lemma {:induction false} OneOrder(a: seq<Fused>, b: seq<Fused>)
    requires DistinctTopics(a) && DistinctTopics(b) && Ordered(a) && Ordered(b)
    requires AllMatched(a, b) && AllMatched(b, a)
    ensures |a| == |b| && forall i :: 0 <= i < |a| ==> Alike(a[i], b[i])
    decreases |a|
  {
    SomeMatched(a, b);
    SomeMatched(b, a);
    if a != [] {
      SameFirst(a, b);
      RestMatched(a, b);
      RestMatched(b, a);
      OneOrder(a[1..], b[1..]);
      forall i | 0 <= i < |a| ensures Alike(a[i], b[i]) {
        if i > 0 {
          assert Alike(a[1..][i - 1], b[1..][i - 1]);
        }
      }
    }
  }

  lemma SameFirst(a: seq<Fused>, b: seq<Fused>)
    requires a != [] && b != [] && Ordered(a) && Ordered(b) && AllMatched(a, b) && AllMatched(b, a)
    requires DistinctTopics(a) && DistinctTopics(b)
    ensures Alike(a[0], b[0])
  {
  }

  lemma SomeMatched(a: seq<Fused>, b: seq<Fused>)
    requires AllMatched(a, b)
    ensures a != [] ==> b != []
  {
    if a != [] {
      assert Matched(a[0], b);
    }
  }

  lemma RestMatched(a: seq<Fused>, b: seq<Fused>)
    requires a != [] && b != [] && Alike(a[0], b[0]) && AllMatched(a, b) && DistinctTopics(a)
    ensures AllMatched(a[1..], b[1..])
  {
  }

  /** Sorting distinct topics gives one sequence, whatever order they came in. */
  lemma SortIsUnique(a: seq<Fused>, b: seq<Fused>)
    requires multiset(a) == multiset(b) && DistinctTopics(a) && Ordered(a) && Ordered(b)
    ensures a == b
  {
    hide Before, Ordered, AllMatched;
    DistinctInAnyOrder(a, b);
    ElementsMatched(a, b);
    ElementsMatched(b, a);
    OneOrder(a, b);
    forall i | 0 <= i < |a| ensures a[i] == b[i] {
      AlikeIsSame(a, b, i);
    }
  }

  lemma AlikeIsSame(a: seq<Fused>, b: seq<Fused>, i: nat)
    requires multiset(a) == multiset(b) && DistinctTopics(b) && i < |a| == |b| && Alike(a[i], b[i])
    ensures a[i] == b[i]
  {
    assert a[i] in multiset(b);
    var j :| 0 <= j < |b| && b[j] == a[i];
    assert b[j].topic == b[i].topic;
  }

  lemma ElementsMatched(a: seq<Fused>, b: seq<Fused>)
    requires multiset(a) == multiset(b)
    ensures AllMatched(a, b)
  {
    forall i | 0 <= i < |a| ensures Matched(a[i], b) {
      assert a[i] in multiset(b);
      var j :| 0 <= j < |b| && b[j] == a[i];
      assert Alike(a[i], b[j]);
    }
  }

  /** The same topics with as much for each and for each of its spans. */
  ghost predicate SameStanding(a: seq<Vote>, b: seq<Vote>) {
    && (forall t :: Voted(a, t) <==> Voted(b, t))
    && (forall t :: TallyOf(a, t).score == TallyOf(b, t).score)
    && (forall t, s :: SpanVoted(a, t, s) <==> SpanVoted(b, t, s))
    && (forall t, s :: SpanSum(a, t, s) == SpanSum(b, t, s))
  }

  lemma SameStandingFusesAlike(a: seq<Vote>, b: seq<Vote>, fromA: seq<Fused>, fromB: seq<Fused>)
    requires SameStanding(a, b) && Fuses(a, fromA) && Fuses(b, fromB)
    ensures |fromA| == |fromB| && forall i :: 0 <= i < |fromA| ==> Alike(fromA[i], fromB[i])
  {
    StandingMatched(a, b, fromA, fromB);
    StandingMatched(b, a, fromB, fromA);
    OneOrder(fromA, fromB);
  }

  lemma SameSpans(a: seq<Vote>, b: seq<Vote>, t: Topic)
    requires SameStanding(a, b)
    ensures TallyOf(a, t).spans == TallyOf(b, t).spans
  {
    SpansAreSums(a, t);
    SpansAreSums(b, t);
    var inA, inB := TallyOf(a, t).spans, TallyOf(b, t).spans;
    forall s ensures s in inA <==> s in inB {
      assert SpanVoted(a, t, s) <==> SpanVoted(b, t, s);
    }
    forall s | s in inA ensures inA[s] == inB[s] {
      assert SpanSum(a, t, s) == SpanSum(b, t, s);
    }
  }

  lemma StandingMatched(a: seq<Vote>, b: seq<Vote>, fromA: seq<Fused>, fromB: seq<Fused>)
    requires SameStanding(a, b) && Fuses(a, fromA) && Fuses(b, fromB)
    ensures AllMatched(fromA, fromB)
  {
    forall i | 0 <= i < |fromA| ensures Matched(fromA[i], fromB) {
      var t := fromA[i].topic;
      assert Tells(a, fromA[i]);
      assert Voted(b, t);
      var j :| 0 <= j < |fromB| && fromB[j].topic == t;
      assert Tells(b, fromB[j]);
      SameSpans(a, b, t);
      assert TallyOf(a, t).score == TallyOf(b, t).score;
      assert Alike(fromA[i], fromB[j]);
    }
  }

  // --- The lists in any order ------------------------------------------------------------------

  ghost function Over(lists: seq<List>, g: List -> real): real {
    if lists == [] then 0.0 else Over(lists[..|lists| - 1], g) + g(lists[|lists| - 1])
  }

  lemma {:induction false} OverTwo(a: seq<List>, b: seq<List>, g: List -> real)
    ensures Over(a + b, g) == Over(a, g) + Over(b, g)
  {
    if b == [] {
      assert a + b == a;
    } else {
      assert (a + b)[..|a + b| - 1] == a + b[..|b| - 1];
      OverTwo(a, b[..|b| - 1], g);
    }
  }

  lemma OverWithout(lists: seq<List>, p: nat, g: List -> real)
    requires p < |lists|
    ensures Over(lists, g) == Over(lists[..p] + lists[p + 1..], g) + g(lists[p])
  {
    hide Over;
    var before, x, after := lists[..p], lists[p], lists[p + 1..];
    assert lists == before + ([x] + after);
    OverTwo(before, after, g);
    OverTwo(before, [x] + after, g);
    OverTwo([x], after, g);
    OverOne(x, g);
  }

  lemma OverOne(x: List, g: List -> real)
    ensures Over([x], g) == g(x)
  {
  }

  lemma ListsWithout(lists: seq<List>, p: nat)
    requires p < |lists|
    ensures multiset(lists[..p] + lists[p + 1..]) == multiset(lists) - multiset{lists[p]}
  {
    assert lists == lists[..p] + ([lists[p]] + lists[p + 1..]);
  }

  lemma {:induction false} OverAnyOrder(a: seq<List>, b: seq<List>, g: List -> real)
    requires multiset(a) == multiset(b)
    ensures Over(a, g) == Over(b, g)
    decreases |a|
  {
    hide Over;
    assert |b| == |multiset(b)| == |multiset(a)| == |a|;
    if a == [] {
      assert b == a;
    } else {
      var n := |a| - 1;
      assert a[n] in multiset(b);
      var p :| 0 <= p < |b| && b[p] == a[n];
      OverWithout(a, n, g);
      OverWithout(b, p, g);
      ListsWithout(a, n);
      ListsWithout(b, p);
      OverAnyOrder(a[..n] + a[n + 1..], b[..p] + b[p + 1..], g);
    }
  }

  ghost function ScoreIn(f: Weighing, topic: Topic): List -> real {
    (list: List) => if f.Sane() then TallyOf(VotesIn(f, list), topic).score else 0.0
  }

  ghost function SpanIn(f: Weighing, topic: Topic, span: Span): List -> real {
    (list: List) => if f.Sane() then SpanSum(VotesIn(f, list), topic, span) else 0.0
  }

  lemma {:induction false} ScoreOfTwo(a: seq<Vote>, b: seq<Vote>, topic: Topic)
    ensures TallyOf(a + b, topic).score == TallyOf(a, topic).score + TallyOf(b, topic).score
  {
    if b == [] {
      assert a + b == a;
    } else {
      assert (a + b)[..|a + b| - 1] == a + b[..|b| - 1];
      ScoreOfTwo(a, b[..|b| - 1], topic);
    }
  }

  lemma {:induction false} SpanOfTwo(a: seq<Vote>, b: seq<Vote>, topic: Topic, span: Span)
    ensures SpanSum(a + b, topic, span) == SpanSum(a, topic, span) + SpanSum(b, topic, span)
  {
    if b == [] {
      assert a + b == a;
    } else {
      assert (a + b)[..|a + b| - 1] == a + b[..|b| - 1];
      SpanOfTwo(a, b[..|b| - 1], topic, span);
    }
  }

  lemma {:induction false} ScoreOverLists(f: Weighing, lists: seq<List>, topic: Topic)
    requires f.Sane()
    ensures TallyOf(Votes(f, lists), topic).score == Over(lists, ScoreIn(f, topic))
  {
    if lists != [] {
      ScoreOverLists(f, lists[..|lists| - 1], topic);
      ScoreOfTwo(Votes(f, lists[..|lists| - 1]), VotesIn(f, lists[|lists| - 1]), topic);
    }
  }

  lemma {:induction false} SpanOverLists(f: Weighing, lists: seq<List>, topic: Topic, span: Span)
    requires f.Sane()
    ensures SpanSum(Votes(f, lists), topic, span) == Over(lists, SpanIn(f, topic, span))
  {
    if lists != [] {
      SpanOverLists(f, lists[..|lists| - 1], topic, span);
      SpanOfTwo(Votes(f, lists[..|lists| - 1]), VotesIn(f, lists[|lists| - 1]), topic, span);
    }
  }

  lemma {:induction false} VotesFromLists(f: Weighing, lists: seq<List>, v: Vote)
    requires f.Sane()
    ensures v in Votes(f, lists) <==> exists list :: list in lists && v in VotesIn(f, list)
  {
    hide VotesIn;
    if lists != [] {
      var rest, last := lists[..|lists| - 1], lists[|lists| - 1];
      VotesFromLists(f, rest, v);
      assert lists == rest + [last];
      if list :| list in rest && v in VotesIn(f, list) {
        assert list in lists;
      }
      if list :| list in lists && v in VotesIn(f, list) {
        assert list in rest || list == last;
      }
    }
  }

  lemma SameListsSameVotes(f: Weighing, a: seq<List>, b: seq<List>, v: Vote)
    requires f.Sane() && multiset(a) == multiset(b)
    ensures v in Votes(f, a) <==> v in Votes(f, b)
  {
    VotesFromLists(f, a, v);
    VotesFromLists(f, b, v);
    if list :| list in a && v in VotesIn(f, list) {
      assert list in multiset(b);
    }
    if list :| list in b && v in VotesIn(f, list) {
      assert list in multiset(a);
    }
  }

  lemma SameListsSameStanding(f: Weighing, a: seq<List>, b: seq<List>)
    requires f.Sane() && multiset(a) == multiset(b)
    ensures SameStanding(Votes(f, a), Votes(f, b))
  {
    hide VotesIn, Votes, TallyOf, SpanSum, ScoreIn, SpanIn, Over;
    var inA, inB := Votes(f, a), Votes(f, b);
    forall v ensures v in inA <==> v in inB {
      SameListsSameVotes(f, a, b, v);
    }
    forall t ensures TallyOf(inA, t).score == TallyOf(inB, t).score {
      ScoreOverLists(f, a, t);
      ScoreOverLists(f, b, t);
      OverAnyOrder(a, b, ScoreIn(f, t));
    }
    forall t, s ensures SpanSum(inA, t, s) == SpanSum(inB, t, s) {
      SpanOverLists(f, a, t, s);
      SpanOverLists(f, b, t, s);
      OverAnyOrder(a, b, SpanIn(f, t, s));
    }
  }

  /** The channels may be listed in any order: the same topics, scores and spans come out, in the same order. */
  lemma {:induction false} ListsInAnyOrder(f: Weighing, a: seq<List>, b: seq<List>, fromA: seq<Fused>,
      fromB: seq<Fused>)
    requires f.Sane() && multiset(a) == multiset(b)
    requires Fuses(Votes(f, a), fromA) && Fuses(Votes(f, b), fromB)
    ensures |fromA| == |fromB| && forall i :: 0 <= i < |fromA| ==> Alike(fromA[i], fromB[i])
  {
    SameListsSameStanding(f, a, b);
    SameStandingFusesAlike(Votes(f, a), Votes(f, b), fromA, fromB);
  }

  /** The lists of channels worth something. */
  ghost function Worthwhile(f: Weighing, lists: seq<List>): seq<List> {
    if lists == [] then []
    else
      var last := lists[|lists| - 1];
      Worthwhile(f, lists[..|lists| - 1]) + if f.Weight(last.channel) == 0.0 then [] else [last]
  }

  /** A channel worth nothing might as well not be asked: not a vote is different without it. */
  lemma {:induction false} WorthlessListsDoNothing(f: Weighing, lists: seq<List>)
    requires f.Sane()
    ensures Votes(f, Worthwhile(f, lists)) == Votes(f, lists)
  {
    if lists != [] {
      var rest, last := lists[..|lists| - 1], lists[|lists| - 1];
      WorthlessListsDoNothing(f, rest);
      if f.Weight(last.channel) == 0.0 {
        assert Worthwhile(f, lists) == Worthwhile(f, rest);
        assert Votes(f, rest) + [] == Votes(f, rest);
      } else {
        assert (Worthwhile(f, rest) + [last])[..|Worthwhile(f, rest)|] == Worthwhile(f, rest);
      }
    }
  }

  /** A topic is in the results exactly when a channel worth something lists it. */
  lemma {:induction false} NamedByWorthwhile(f: Weighing, lists: seq<List>, results: seq<Fused>, topic: Topic)
    requires f.Sane() && Fuses(Votes(f, lists), results)
    ensures Named(results, topic) <==>
            exists list, i :: list in lists && f.Weight(list.channel) != 0.0 && 0 <= i < |list.candidates|
                && list.candidates[i].topic == topic
  {
    var votes := Votes(f, lists);
    if Named(results, topic) {
      var i :| 0 <= i < |results| && results[i].topic == topic;
      assert Tells(votes, results[i]);
      var v :| v in votes && v.topic == topic;
      VotesFromLists(f, lists, v);
      var list :| list in lists && v in VotesIn(f, list);
      var j :| 0 <= j < |VotesIn(f, list)| && VotesIn(f, list)[j] == v;
      assert list.candidates[j].topic == topic;
    }
    if list, i :|
      && list in lists && f.Weight(list.channel) != 0.0
      && 0 <= i < |list.candidates| && list.candidates[i].topic == topic
    {
      var v := VoteAt(f, list, i);
      assert v == VotesIn(f, list)[i];
      VotesFromLists(f, lists, v);
      assert Voted(votes, topic);
    }
  }
}
