/**
 The sensory filter (`crates/core/src/filter.rs`): what is written is judged by its words, so the
 same words spaced otherwise are judged alike.
 */
module Filter {
  import opened Wrappers

  /** Unicode white space. */
  predicate White(c: char) {
    || '\U{9}' <= c <= '\U{D}' || c == ' ' || c == '\U{85}' || c == '\U{A0}' || c == '\U{1680}'
        || '\U{2000}' <= c <= '\U{200A}'
    || c == '\U{2028}' || c == '\U{2029}' || c == '\U{202F}' || c == '\U{205F}' || c == '\U{3000}'
  }

  /** A word: something, and no white space in it. */
  ghost predicate Word(w: string) {
    w != [] && forall i :: 0 <= i < |w| ==> !White(w[i])
  }

  ghost predicate AllWords(ws: seq<string>) {
    forall i :: 0 <= i < |ws| ==> Word(ws[i])
  }

  /** `split_whitespace`, `word` being the letters read since the last white space. */
  function SplitFrom(s: string, word: string): seq<string> {
    if s == [] then if word == [] then [] else [word]
    else if !White(s[0]) then SplitFrom(s[1..], word + [s[0]])
    else (if word == [] then [] else [word]) + SplitFrom(s[1..], [])
  }

  function Words(s: string): seq<string> {
    SplitFrom(s, [])
  }

  /** `join(" ")`. */
  function Join(ws: seq<string>): string {
    if ws == [] then []
    else if |ws| == 1 then ws[0]
    else ws[0] + [' '] + Join(ws[1..])
  }

  function Normalize(content: string): string {
    Join(Words(content))
  }

  datatype Rejection = Empty | TooShort | Restatement

  datatype Verdict = Promoted | Rejected(rejection: Rejection)

  /** `judge`: whether content is promoted, beside what its topic says now. */
  function Judge(minChars: nat, content: string, current: Option<string>): Verdict {
    var normalized := Normalize(content);
    if normalized == [] then Rejected(Empty)
    else if |normalized| < minChars then Rejected(TooShort)
    else if current.Some? && Normalize(current.value) == normalized then Rejected(Restatement)
    else Promoted
  }

  // --- Splitting and joining -------------------------------------------------------------------

  lemma {:induction false} SplitGivesWords(s: string, word: string)
    requires word == [] || Word(word)
    ensures AllWords(SplitFrom(s, word))
    decreases |s|
  {
    if s != [] {
      if !White(s[0]) {
        assert Word(word + [s[0]]);
        SplitGivesWords(s[1..], word + [s[0]]);
      } else {
        SplitGivesWords(s[1..], []);
      }
    }
  }

  /** What has no white space in it is read whole. */
  lemma {:induction false} SplitReadsOn(letters: string, rest: string, word: string)
    requires forall i :: 0 <= i < |letters| ==> !White(letters[i])
    ensures SplitFrom(letters + rest, word) == SplitFrom(rest, word + letters)
    decreases |letters|
  {
    if letters == [] {
      assert letters + rest == rest && word + letters == word;
    } else {
      assert (letters + rest)[1..] == letters[1..] + rest;
      SplitReadsOn(letters[1..], rest, word + [letters[0]]);
      assert word + [letters[0]] + letters[1..] == word + letters;
    }
  }

  /** White space, and any amount of it, only ends words: what is on either side is split on its own. */
  lemma {:induction false} WhiteSeparates(a: string, c: char, b: string, word: string)
    requires White(c)
    ensures SplitFrom(a + [c] + b, word) == SplitFrom(a, word) + Words(b)
    decreases |a|
  {
    if a == [] {
      assert a + [c] + b == [c] + b;
      assert ([c] + b)[1..] == b;
    } else {
      assert (a + [c] + b)[1..] == a[1..] + [c] + b;
      if !White(a[0]) {
        WhiteSeparates(a[1..], c, b, word + [a[0]]);
      } else {
        WhiteSeparates(a[1..], c, b, []);
      }
    }
  }

  /** Words joined by single spaces split into the same words. */
  lemma {:induction false} JoinedSplitsBack(ws: seq<string>)
    requires AllWords(ws)
    ensures Words(Join(ws)) == ws
    decreases |ws|
  {
    if ws != [] {
      assert Word(ws[0]);
      SplitReadsOn(ws[0], [], []);
      assert ws[0] + [] == ws[0] && [] + ws[0] == ws[0];
      if |ws| > 1 {
        JoinedSplitsBack(ws[1..]);
        WhiteSeparates(ws[0], ' ', Join(ws[1..]), []);
      }
    }
  }

  lemma WordsAreWords(s: string)
    ensures AllWords(Words(s))
  {
    SplitGivesWords(s, []);
  }

  /** Normalizing keeps the words, so doing it again does nothing. */
  lemma NormalizeTwice(s: string)
    ensures Words(Normalize(s)) == Words(s)
    ensures Normalize(Normalize(s)) == Normalize(s)
  {
    WordsAreWords(s);
    JoinedSplitsBack(Words(s));
  }

  /** Two texts normalize to one exactly when they have the same words. */
  lemma SameNormalExactly(a: string, b: string)
    ensures Normalize(a) == Normalize(b) <==> Words(a) == Words(b)
  {
    NormalizeTwice(a);
    NormalizeTwice(b);
  }

  // --- Judging ---------------------------------------------------------------------------------

  /** Each verdict, by the words alone: a restatement is exactly the same words, once they are enough. */
  lemma JudgedByWords(minChars: nat, content: string, current: Option<string>)
    ensures Judge(minChars, content, current) == Rejected(Empty) <==> Words(content) == []
    ensures Judge(minChars, content, current) == Rejected(TooShort) <==>
              Words(content) != [] && |Join(Words(content))| < minChars
    ensures Judge(minChars, content, current) == Rejected(Restatement) <==>
              Words(content) != [] && |Join(Words(content))| >= minChars && current.Some?
                  && Words(current.value) == Words(content)
  {
    WordsAreWords(content);
    JoinIsEmptyExactly(Words(content));
    if current.Some? {
      SameNormalExactly(content, current.value);
    }
  }

  lemma JoinIsEmptyExactly(ws: seq<string>)
    requires AllWords(ws)
    ensures Join(ws) == [] <==> ws == []
  {
  }

  /** However content and what is there now are spaced, the verdict is the same. */
  lemma SpacingIsNoMatter(minChars: nat, content: string, respaced: string, current: Option<string>,
      other: Option<string>)
    requires Words(content) == Words(respaced)
    requires current.Some? <==> other.Some?
    requires current.Some? ==> Words(current.value) == Words(other.value)
    ensures Judge(minChars, content, current) == Judge(minChars, respaced, other)
    ensures Judge(minChars, content, current) ==
            Judge(minChars, Normalize(content), if current.None? then None else Some(Normalize(current.value)))
  {
    NormalizeTwice(content);
    if current.Some? {
      NormalizeTwice(current.value);
    }
  }

  /** More white space at either end, or where there is some already, spaces the same words otherwise. */
  lemma MoreSpaceSameWords(a: string, c: char, d: char, b: string)
    requires White(c) && White(d)
    ensures Words(a + [c] + b) == Words(a) + Words(b)
    ensures Words(a + [c] + ([d] + b)) == Words(a + [c] + b)
    ensures Words([c] + b) == Words(b) && Words(a + [c]) == Words(a)
  {
    WhiteSeparates(a, c, b, []);
    WhiteSeparates(a, c, [d] + b, []);
    assert [] + [d] + b == [d] + b && [] + [c] + b == [c] + b && a + [c] + [] == a + [c];
    WhiteSeparates([], d, b, []);
    WhiteSeparates([], c, b, []);
    WhiteSeparates(a, c, [], []);
  }
}
