/** The web UI's fuzzy search (internal/webui/ui/src/lib/fuzzy.ts): a
    pattern matches a text when its lower-cased characters occur in the
    lower-cased text in order; a match is scored by tier (exact, prefix,
    word start, anywhere) plus a bonus for short texts, and a search keeps
    the matching items ordered by descending score. */
module Fuzzy {
  import opened Strs

  // -----------------------------------------------------------------------
  // Subsequences

  /** `p` occurs in `t` in order, matched greedily from the left. */
  predicate Subseq(p: string, t: string)
    decreases |t|
  {
    if p == [] then true
    else if t == [] then false
    else if p[0] == t[0] then Subseq(p[1..], t[1..])
    else Subseq(p, t[1..])
  }

  /** `idx` picks, in increasing order, a position of `t` for each
      character of `p`. */
  ghost predicate Embedding(p: string, t: string, idx: seq<nat>) {
    && |idx| == |p|
    && (forall k :: 0 <= k < |idx| ==> idx[k] < |t| && t[idx[k]] == p[k])
    && (forall j, k :: 0 <= j < k < |idx| ==> idx[j] < idx[k])
  }

  /** `p` is a subsequence of `t`: some embedding exists. */
  ghost predicate IsSubsequence(p: string, t: string) {
    exists idx :: Embedding(p, t, idx)
  }

  function Shift(idx: seq<nat>, d: int): (r: seq<nat>)
    requires forall k :: 0 <= k < |idx| ==> idx[k] + d >= 0
    ensures |r| == |idx| && forall k :: 0 <= k < |idx| ==> r[k] == idx[k] + d
  {
    seq(|idx|, k requires 0 <= k < |idx| => (idx[k] + d) as nat)
  }

  /** The greedy match finds an embedding whenever it succeeds. */
  lemma {:induction false} GreedyWitness(p: string, t: string) returns (idx: seq<nat>)
    requires Subseq(p, t)
    decreases |t|
    ensures Embedding(p, t, idx)
  {
    if p == [] {
      idx := [];
    } else if p[0] == t[0] {
      var rest := GreedyWitness(p[1..], t[1..]);
      idx := [0] + Shift(rest, 1);
    } else {
      var rest := GreedyWitness(p, t[1..]);
      idx := Shift(rest, 1);
    }
  }

  /** ... and succeeds whenever there is an embedding. */
  lemma {:induction false} EmbeddingGreedy(p: string, t: string, idx: seq<nat>)
    requires Embedding(p, t, idx)
    decreases |t|
    ensures Subseq(p, t)
  {
    if p != [] {
      if idx[0] == 0 {
        var rest := Shift(idx[1..], -1);
        assert Embedding(p[1..], t[1..], rest);
        EmbeddingGreedy(p[1..], t[1..], rest);
      } else if p[0] == t[0] {
        var rest := Shift(idx[1..], -1);
        assert Embedding(p[1..], t[1..], rest);
        EmbeddingGreedy(p[1..], t[1..], rest);
      } else {
        var rest := Shift(idx, -1);
        assert Embedding(p, t[1..], rest);
        EmbeddingGreedy(p, t[1..], rest);
      }
    }
  }

  /** Greedy matching decides the subsequence relation. */
  lemma SubseqIffEmbedding(p: string, t: string)
    ensures Subseq(p, t) <==> IsSubsequence(p, t)
  {
    if Subseq(p, t) {
      var idx := GreedyWitness(p, t);
    }
    if IsSubsequence(p, t) {
      var idx :| Embedding(p, t, idx);
      EmbeddingGreedy(p, t, idx);
    }
  }

  /** A substring is a subsequence. */
  lemma SubstringIsSubseq(p: string, t: string, j: nat)
    requires OccursAt(t, p, j)
    ensures Subseq(p, t)
  {
    var idx := seq(|p|, k requires 0 <= k < |p| => (j + k) as nat);
    assert forall k :: 0 <= k < |p| ==> t[idx[k]] == t[j..j + |p|][k];
    EmbeddingGreedy(p, t, idx);
  }

  // -----------------------------------------------------------------------
  // Words

  /** The separators of the word split, the class [_\-/.]. */
  predicate IsSep(c: char) {
    c == '_' || c == '-' || c == '/' || c == '.'
  }

  predicate SepFree(s: string) {
    forall i :: 0 <= i < |s| ==> !IsSep(s[i])
  }

  /** The length of the longest separator-free prefix. */
  function WordLen(s: string): (n: nat)
    ensures n <= |s| && (forall i :: 0 <= i < n ==> !IsSep(s[i])) && (n < |s| ==> IsSep(s[n]))
  {
    if s == [] || IsSep(s[0]) then 0 else 1 + WordLen(s[1..])
  }

  /** split(/[_\-/.]/): the pieces between separators, left to right. */
  function Parts(s: string): (r: seq<string>)
    decreases |s|
    ensures |r| >= 1
  {
    var n := WordLen(s);
    if n == |s| then [s] else [s[..n]] + Parts(s[n + 1..])
  }

  /** Some word of `s` starts with `p`. */
  predicate WordMatch(s: string, p: string) {
    AnyPrefixed(Parts(s), p)
  }

  /** Some string of `ws` starts with `p`. */
  predicate AnyPrefixed(ws: seq<string>, p: string) {
    exists i :: 0 <= i < |ws| && HasPrefix(ws[i], p)
  }

  lemma AnyPrefixedCons(w: string, ws: seq<string>, p: string)
    ensures AnyPrefixed([w] + ws, p) <==> HasPrefix(w, p) || AnyPrefixed(ws, p)
  {
    var all := [w] + ws;
    if AnyPrefixed(all, p) {
      var i :| 0 <= i < |all| && HasPrefix(all[i], p);
      if i > 0 {
        assert ws[i - 1] == all[i];
      }
    }
    if HasPrefix(w, p) {
      assert all[0] == w;
    }
    if AnyPrefixed(ws, p) {
      var i :| 0 <= i < |ws| && HasPrefix(ws[i], p);
      assert all[i + 1] == ws[i];
    }
  }

  /** Position j begins a word: the start, or just after a separator. */
  predicate WordStart(s: string, j: nat) {
    j == 0 || (j <= |s| && IsSep(s[j - 1]))
  }

  /** p has no separator and occurs in s at a word start. */
  predicate AtWordStart(s: string, p: string) {
    SepFree(p) && exists j: nat :: j <= |s| && WordStart(s, j) && OccursAt(s, p, j)
  }

  /** The first word starts with p iff p is a separator-free prefix. */
  lemma FirstWordPrefix(s: string, p: string)
    ensures HasPrefix(s[..WordLen(s)], p) <==> SepFree(p) && OccursAt(s, p, 0)
  {
    var n := WordLen(s);
    var first := s[..n];
    if HasPrefix(first, p) {
      assert forall i :: 0 <= i < |p| ==> p[i] == first[i];
    }
    if SepFree(p) && OccursAt(s, p, 0) {
      assert first[..|p|] == s[..|p|];
    }
  }

  /** Occurrences in a suffix are occurrences in the whole, shifted. */
  lemma OccursInSuffix(s: string, p: string, j: nat, d: nat)
    requires d <= j <= |s|
    ensures OccursAt(s[d..], p, j - d) <==> OccursAt(s, p, j)
  {
    var rest := s[d..];
    if j - d + |p| <= |rest| {
      assert rest[j - d..j - d + |p|] == s[j..j + |p|];
    }
  }

  /** Word starts of a suffix that follows a separator are word starts of
      the whole, shifted. */
  lemma WordStartInSuffix(s: string, j: nat, d: nat)
    requires 0 < d <= j <= |s| && IsSep(s[d - 1])
    ensures WordStart(s[d..], j - d) <==> WordStart(s, j)
  {
    if j > d {
      assert s[d..][j - d - 1] == s[j - 1];
    }
  }

  /** A word starts with p exactly when p has no separator and occurs in s
      at a word start. */
  lemma {:induction false} WordMatchAtWordStart(s: string, p: string)
    decreases |s|
    ensures WordMatch(s, p) <==> AtWordStart(s, p)
  {
    var n := WordLen(s);
    FirstWordPrefix(s, p);
    if n == |s| {
      assert Parts(s) == [s];
      assert s[..n] == s;
      if AtWordStart(s, p) {
        var j: nat :| j <= |s| && WordStart(s, j) && OccursAt(s, p, j);
        assert j == 0;
      }
    } else {
      assert Parts(s) == [s[..n]] + Parts(s[n + 1..]);
      AnyPrefixedCons(s[..n], Parts(s[n + 1..]), p);
      AtWordStartSplit(s, p, n + 1);
      WordMatchAtWordStart(s[n + 1..], p);
    }
  }

  /** After the first separator, at d - 1, a word start is the start of s
      or a word start of the rest. */
  lemma AtWordStartSplit(s: string, p: string, d: nat)
    requires 0 < d <= |s| && IsSep(s[d - 1])
    requires forall i :: 0 <= i < d - 1 ==> !IsSep(s[i])
    ensures AtWordStart(s, p) <==> (SepFree(p) && OccursAt(s, p, 0)) || AtWordStart(s[d..], p)
  {
    if AtWordStart(s, p) {
      var j: nat :| j <= |s| && WordStart(s, j) && OccursAt(s, p, j);
      if j > 0 {
        ShiftOut(s, p, d, j);
      }
    }
    if SepFree(p) && OccursAt(s, p, 0) {
      assert WordStart(s, 0);
    }
    if AtWordStart(s[d..], p) {
      var j: nat :| j <= |s[d..]| && WordStart(s[d..], j) && OccursAt(s[d..], p, j);
      ShiftIn(s, p, d, j);
    }
  }

  /** A later word-start occurrence is one in the rest. */
  lemma ShiftOut(s: string, p: string, d: nat, j: nat)
    requires 0 < d <= |s| && IsSep(s[d - 1])
    requires forall i :: 0 <= i < d - 1 ==> !IsSep(s[i])
    requires 0 < j <= |s| && WordStart(s, j) && OccursAt(s, p, j)
    ensures d <= j && WordStart(s[d..], j - d) && OccursAt(s[d..], p, j - d)
  {
    assert IsSep(s[j - 1]);
    OccursInSuffix(s, p, j, d);
    WordStartInSuffix(s, j, d);
  }

  /** A word-start occurrence in the rest is one in s. */
  lemma ShiftIn(s: string, p: string, d: nat, j: nat)
    requires 0 < d <= |s| && IsSep(s[d - 1])
    requires j <= |s| - d && WordStart(s[d..], j) && OccursAt(s[d..], p, j)
    ensures WordStart(s, j + d) && OccursAt(s, p, j + d)
  {
    OccursInSuffix(s, p, j + d, d);
    WordStartInSuffix(s, j + d, d);
  }

  // -----------------------------------------------------------------------
  // Scores

  /** The quality of a match of the lower-cased pattern pl in the
      lower-cased text tl. */
  function Tier(pl: string, tl: string): (t: int)
    ensures t == 1000 || t == 500 || t == 250 || t == 100
  {
    if tl == pl then 1000
    else if HasPrefix(tl, pl) then 500
    else if WordMatch(tl, pl) then 250
    else 100
  }

  /** max(0, 100 - text.length). */
  function Bonus(text: string): (b: int)
    ensures 0 <= b <= 100
  {
    if 100 - |text| > 0 then 100 - |text| else 0
  }

  /** The score fuzzyMatch returns: 0 for an empty pattern, -1 for no
      match, otherwise the tier plus the length bonus. */
  function MatchScore(pattern: string, text: string): (score: int)
    ensures pattern == [] ==> score == 0
    ensures score == -1 || 0 <= score <= 1100
  {
    var pl := ToLower(pattern);
    var tl := ToLower(text);
    if |pl| == 0 then 0
    else if !Matches(pl, tl) then -1
    else Tier(pl, tl) + Bonus(text)
  }

  /** The match test of fuzzyMatch: a substring, or failing that a
      character-by-character match. */
  predicate Matches(pl: string, tl: string) {
    Contains(tl, pl) || Subseq(pl, tl)
  }

  /** The substring test is only a shortcut. */
  lemma MatchesIffSubseq(pl: string, tl: string)
    ensures Matches(pl, tl) <==> Subseq(pl, tl)
  {
    if Contains(tl, pl) {
      var j: nat :| j <= |tl| && OccursAt(tl, pl, j);
      SubstringIsSubseq(pl, tl, j);
    }
  }

  /** fuzzyMatch. The character-by-character loop runs only when the text
      does not contain the pattern. */
  method FuzzyMatch(pattern: string, text: string) returns (score: int)
    ensures score == MatchScore(pattern, text)
  {
    var pl := ToLower(pattern);
    var tl := ToLower(text);
    if |pl| == 0 {
      return 0;
    }
    if !Contains(tl, pl) {
      var pi := 0;
      var ti := 0;
      while ti < |tl| && pi < |pl|
        invariant pi <= |pl| && ti <= |tl|
        invariant Subseq(pl, tl) <==> Subseq(pl[pi..], tl[ti..])
        decreases |tl| - ti
      {
        if tl[ti] == pl[pi] {
          pi := pi + 1;
        }
        ti := ti + 1;
      }
      if pi != |pl| {
        return -1;
      }
    }
    score := Tier(pl, tl) + Bonus(text);
  }

  // -----------------------------------------------------------------------
  // Properties of the score

  /** An empty pattern matches everything with score 0. */
  lemma EmptyPatternScoresZero(text: string)
    ensures MatchScore("", text) == 0
  {
  }

  /** Only the lower-cased pattern and text, and the text's length,
      matter. */
  lemma ScoreIgnoresCase(p1: string, p2: string, t1: string, t2: string)
    requires ToLower(p1) == ToLower(p2) && ToLower(t1) == ToLower(t2)
    ensures MatchScore(p1, t1) == MatchScore(p2, t2)
  {
  }

  /** No match exactly when the lower-cased pattern is not spread, in
      order, over the lower-cased text; a substring always matches. */
  lemma NoMatchIffNotSubsequence(pattern: string, text: string)
    ensures MatchScore(pattern, text) == -1 <==> pattern != [] && !IsSubsequence(ToLower(pattern), ToLower(text))
  {
    var pl := ToLower(pattern);
    var tl := ToLower(text);
    assert MatchScore(pattern, text) == -1 <==> pattern != [] && !Matches(pl, tl) by {
      assert |pl| == |pattern|;
    }
    MatchesIffSubseq(pl, tl);
    SubseqIffEmbedding(pl, tl);
  }

  /** A non-empty pattern that matches scores between 100 and 1100. */
  lemma MatchScoreRange(pattern: string, text: string)
    requires pattern != [] && MatchScore(pattern, text) != -1
    ensures 100 <= MatchScore(pattern, text) <= 1100
  {
  }

  /** The tiers are far enough apart that the length bonus never
      reorders them: a better tier always scores higher. */
  lemma TierDominatesLength(pattern: string, t1: string, t2: string)
    requires pattern != []
    requires MatchScore(pattern, t1) != -1 && MatchScore(pattern, t2) != -1
    requires Tier(ToLower(pattern), ToLower(t1)) > Tier(ToLower(pattern), ToLower(t2))
    ensures MatchScore(pattern, t1) > MatchScore(pattern, t2)
  {
    var pl := ToLower(pattern);
    var a, b := Tier(pl, ToLower(t1)), Tier(pl, ToLower(t2));
    assert MatchScore(pattern, t1) == a + Bonus(t1);
    assert MatchScore(pattern, t2) == b + Bonus(t2);
    assert a >= b + 150;
  }

  /** A word-start match is exactly an occurrence at a word start of a
      pattern without separators. */
  lemma WordTier(pattern: string, text: string)
    requires pattern != [] && MatchScore(pattern, text) != -1
    requires ToLower(text) != ToLower(pattern) && !HasPrefix(ToLower(text), ToLower(pattern))
    ensures var pl := ToLower(pattern); var tl := ToLower(text);
      Tier(pl, tl) == 250 <==> AtWordStart(tl, pl)
  {
    WordMatchAtWordStart(ToLower(text), ToLower(pattern));
  }

  // -----------------------------------------------------------------------
  // Search

  /** An item's position and score. */
  datatype Hit = Hit(index: nat, score: int)

  /** The `.map` step: each item's score. */
  function Scores<T>(items: seq<T>, pattern: string, getText: T -> string): (r: seq<int>)
    ensures |r| == |items|
  {
    seq(|items|, i requires 0 <= i < |items| => MatchScore(pattern, getText(items[i])))
  }

  /** The `.filter` step: the positions with a non-negative score, with
      their scores, in input order. */
  function Hits(scores: seq<int>): seq<Hit> {
    if scores == [] then []
    else
      var n := |scores| - 1;
      var before := Hits(scores[..n]);
      if scores[n] >= 0 then before + [Hit(n, scores[n])] else before
  }

  /** Hits is the filter: each non-negative score once, in input order,
      and nothing else. */
  lemma {:induction false} HitsAreMatches(scores: seq<int>)
    ensures forall k :: 0 <= k < |Hits(scores)| ==>
      Hits(scores)[k].index < |scores| && Hits(scores)[k].score == scores[Hits(scores)[k].index] >= 0
    ensures forall j, k :: 0 <= j < k < |Hits(scores)| ==> Hits(scores)[j].index < Hits(scores)[k].index
    ensures forall i :: 0 <= i < |scores| && scores[i] >= 0 ==>
      exists k :: 0 <= k < |Hits(scores)| && Hits(scores)[k].index == i
  {
    if scores != [] {
      var n := |scores| - 1;
      var init := scores[..n];
      HitsAreMatches(init);
      var before := Hits(init);
      var h := Hits(scores);
      forall i | 0 <= i < |scores| && scores[i] >= 0
        ensures exists k :: 0 <= k < |h| && h[k].index == i
      {
        if i < n {
          assert init[i] >= 0;
          var k :| 0 <= k < |before| && before[k].index == i;
          assert h[k] == before[k];
        } else {
          assert h[|h| - 1].index == i;
        }
      }
    }
  }

  /** The comparator (a, b) => b.score - a.score of a stable sort: higher
      scores first, equal scores in input order. */
  predicate Before(a: Hit, b: Hit) {
    a.score > b.score || (a.score == b.score && a.index < b.index)
  }

  predicate Ranked(s: seq<Hit>) {
    forall i, j :: 0 <= i < j < |s| ==> Before(s[i], s[j])
  }

  function Insert(h: Hit, s: seq<Hit>): (r: seq<Hit>)
    ensures multiset(r) == multiset(s) + multiset{h}
  {
    if s == [] || Before(h, s[0]) then [h] + s
    else
      assert s == [s[0]] + s[1..];
      [s[0]] + Insert(h, s[1..])
  }

  function Rank(s: seq<Hit>): (r: seq<Hit>)
    ensures multiset(r) == multiset(s)
  {
    if s == [] then []
    else
      assert s == [s[0]] + s[1..];
      Insert(s[0], Rank(s[1..]))
  }

  lemma {:induction false} InsertRanked(h: Hit, s: seq<Hit>)
    requires Ranked(s) && forall k :: 0 <= k < |s| ==> s[k].index != h.index
    ensures Ranked(Insert(h, s))
  {
    if s != [] && !Before(h, s[0]) {
      InsertRanked(h, s[1..]);
      var r := Insert(h, s[1..]);
      forall j | 0 <= j < |r| ensures Before(s[0], r[j]) {
        assert r[j] in multiset(r);
        if r[j] != h {
          assert r[j] in s[1..];
        }
      }
    }
  }

  lemma {:induction false} RankRanked(s: seq<Hit>)
    requires forall j, k :: 0 <= j < k < |s| ==> s[j].index != s[k].index
    ensures Ranked(Rank(s))
  {
    if s != [] {
      RankRanked(s[1..]);
      var r := Rank(s[1..]);
      forall k | 0 <= k < |r| ensures r[k].index != s[0].index {
        assert r[k] in multiset(s[1..]);
        var m :| 0 <= m < |s[1..]| && s[1..][m] == r[k];
      }
      InsertRanked(s[0], r);
    }
  }

  /** The ranked hits: every element comes from the hits. */
  lemma RankedFrom(h: seq<Hit>, k: nat)
    requires k < |Rank(h)|
    ensures Rank(h)[k] in h
  {
    assert Rank(h)[k] in multiset(Rank(h));
  }

  /** The ranked hits name positions of the list with their scores. */
  lemma RankedScores(scores: seq<int>)
    ensures forall k :: 0 <= k < |Rank(Hits(scores))| ==>
      Rank(Hits(scores))[k].index < |scores| && Rank(Hits(scores))[k].score == scores[Rank(Hits(scores))[k].index] >= 0
  {
    var h := Hits(scores);
    HitsAreMatches(scores);
    forall k | 0 <= k < |Rank(h)|
      ensures Rank(h)[k].index < |scores| && Rank(h)[k].score == scores[Rank(h)[k].index] >= 0
    {
      RankedFrom(h, k);
      var m :| 0 <= m < |h| && h[m] == Rank(h)[k];
    }
  }

  /** Every non-negative score's position is among `r`. */
  predicate Covers(scores: seq<int>, r: seq<Hit>) {
    forall i :: 0 <= i < |scores| && scores[i] >= 0 ==> exists k :: 0 <= k < |r| && r[k].index == i
  }

  lemma RankedCovers(scores: seq<int>)
    ensures Covers(scores, Rank(Hits(scores)))
  {
    var h := Hits(scores);
    var r := Rank(h);
    HitsAreMatches(scores);
    forall i | 0 <= i < |scores| && scores[i] >= 0
      ensures exists k :: 0 <= k < |r| && r[k].index == i
    {
      var m :| 0 <= m < |h| && h[m].index == i;
      RankedHas(h, m);
      var k :| 0 <= k < |r| && r[k] == h[m];
      assert r[k].index == i;
    }
  }

  /** Each hit is somewhere in the ranking. */
  lemma RankedHas(h: seq<Hit>, m: nat)
    requires m < |h|
    ensures exists k :: 0 <= k < |Rank(h)| && Rank(h)[k] == h[m]
  {
    assert h[m] in multiset(Rank(h));
  }

  /** fuzzySearch: all items for an empty pattern, otherwise the matching
      items by descending score. */
  function FuzzySearch<T>(items: seq<T>, pattern: string, getText: T -> string): (found: seq<T>)
    ensures pattern == "" ==> found == items
    ensures forall k :: 0 <= k < |found| ==> found[k] in items
  {
    if pattern == "" then items
    else
      var scores := Scores(items, pattern, getText);
      var r := Rank(Hits(scores));
      RankedScores(scores);
      seq(|r|, k requires 0 <= k < |r| => items[r[k].index])
  }

  /** The ranked hits: ordered by Before, each non-negative score's
      position exactly once, nothing else. */
  lemma RankedHits(scores: seq<int>)
    ensures var r := Rank(Hits(scores));
      && Ranked(r)
      && (forall k :: 0 <= k < |r| ==> r[k].index < |scores| && r[k].score == scores[r[k].index] >= 0)
      && (forall i :: 0 <= i < |scores| && scores[i] >= 0 ==> exists k :: 0 <= k < |r| && r[k].index == i)
      && (forall j, k :: 0 <= j < k < |r| ==> r[j].index != r[k].index)
  {
    var r := Rank(Hits(scores));
    HitsAreMatches(scores);
    RankRanked(Hits(scores));
    RankedScores(scores);
    RankedCovers(scores);
    // A position determines its hit, and no hit comes before itself.
    forall j, k | 0 <= j < k < |r|
      ensures r[j].index != r[k].index
    {
      assert Before(r[j], r[k]);
    }
  }

  /** The search result: for an empty pattern the items unchanged;
      otherwise each matching item exactly once, ordered by descending
      score and by input order among equal scores. */
  lemma SearchOrder<T>(items: seq<T>, pattern: string, getText: T -> string)
    ensures pattern == "" ==> FuzzySearch(items, pattern, getText) == items
    ensures pattern != "" ==>
      var r := Rank(Hits(Scores(items, pattern, getText)));
      var out := FuzzySearch(items, pattern, getText);
      && |out| == |r|
      && Ranked(r)
      && (forall k :: 0 <= k < |r| ==>
            r[k].index < |items| && out[k] == items[r[k].index]
            && r[k].score == MatchScore(pattern, getText(items[r[k].index])) >= 0)
      && (forall i :: 0 <= i < |items| && MatchScore(pattern, getText(items[i])) >= 0 ==>
            exists k :: 0 <= k < |r| && r[k].index == i)
      && (forall j, k :: 0 <= j < k < |r| ==> r[j].index != r[k].index)
  {
    if pattern != "" {
      var scores := Scores(items, pattern, getText);
      RankedHits(scores);
      assert forall i :: 0 <= i < |items| ==> scores[i] == MatchScore(pattern, getText(items[i]));
    }
  }
}
