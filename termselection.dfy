/** The selection step of the trainer's `term_selection`: `heapq.nlargest(TOP_K, terms, key=score)`,
    which returns the same list as a stable sort by decreasing score cut to its first TOP_K
    entries. The TF-IDF score is a parameter. */
module TermSelection {
  import opened Common

  /** `keys` lists the keys of a dict built over `terms`: each term exactly once, in an order the
      dict's hashing decides (the score is looked up per key, so repeats in the list collapse). */
  ghost predicate KeyOrder(keys: seq<string>, terms: seq<string>) {
    Distinct(keys) && forall t :: t in keys <==> t in terms
  }

  /** One order of those keys: first occurrence first. */
  function Keys(terms: seq<string>): (r: seq<string>)
    ensures Distinct(r)
    ensures forall t :: t in r <==> t in terms
    ensures |r| <= |terms|
  {
    if terms == [] then []
    else
      var init := Keys(terms[..|terms| - 1]);
      var last := terms[|terms| - 1];
      assert terms == terms[..|terms| - 1] + [last];
      if last in init then init else init + [last]
  }

  /** Scores do not increase from left to right. */
  ghost predicate NonIncreasing(s: seq<string>, score: string -> real) {
    forall i, j :: 0 <= i < j < |s| ==> score(s[i]) >= score(s[j])
  }

  /** Puts `x` after every entry scoring at least as high, so equal scores keep their order. */
  function InsertByScore(x: string, sorted: seq<string>, score: string -> real): (r: seq<string>)
    ensures multiset(r) == multiset(sorted) + multiset{x}
  {
    if sorted == [] then [x]
    else if score(sorted[0]) >= score(x) then
      assert sorted == [sorted[0]] + sorted[1..];
      [sorted[0]] + InsertByScore(x, sorted[1..], score)
    else [x] + sorted
  }

  lemma {:induction false} InsertKeepsOrder(x: string, sorted: seq<string>, score: string -> real)
    requires NonIncreasing(sorted, score)
    ensures NonIncreasing(InsertByScore(x, sorted, score), score)
  {
    if sorted != [] && score(sorted[0]) >= score(x) {
      var rest := InsertByScore(x, sorted[1..], score);
      InsertKeepsOrder(x, sorted[1..], score);
      var r := [sorted[0]] + rest;
      forall j | 0 < j < |r| ensures score(r[0]) >= score(r[j]) {
        var y := r[j];
        assert y in rest;
        assert y in multiset(rest);
        assert y in multiset(sorted[1..]) || y == x;
        if y != x {
          var k :| 0 <= k < |sorted[1..]| && sorted[1..][k] == y;
          assert sorted[k + 1] == y;
        }
      }
      forall i, j | 0 <= i < j < |r| ensures score(r[i]) >= score(r[j]) {
        if i > 0 {
          assert r[i] == rest[i - 1] && r[j] == rest[j - 1];
        }
      }
    }
  }

  /** The terms ordered by decreasing score, stably. */
  function SortByScore(terms: seq<string>, score: string -> real): (r: seq<string>)
    ensures multiset(r) == multiset(terms)
    ensures NonIncreasing(r, score)
  {
    if terms == [] then []
    else
      assert terms == terms[..|terms| - 1] + [terms[|terms| - 1]];
      var init := SortByScore(terms[..|terms| - 1], score);
      InsertKeepsOrder(terms[|terms| - 1], init, score);
      InsertByScore(terms[|terms| - 1], init, score)
  }

  /** At most `k` of the terms, highest score first; no term left out scores strictly higher
      than a term returned. */
  function TopK(terms: seq<string>, score: string -> real, k: nat): (r: seq<string>)
    ensures |r| == if k < |terms| then k else |terms|
    ensures multiset(r) <= multiset(terms)
    ensures NonIncreasing(r, score)
    ensures forall x, y :: x in r && y in terms && y !in r ==> score(y) <= score(x)
  {
    var sorted := SortByScore(terms, score);
    var n := if k < |terms| then k else |terms|;
    SameElements(sorted, terms);
    PrefixFacts(sorted, score, n);
    sorted[..n]
  }

  lemma SameElements(a: seq<string>, b: seq<string>)
    requires multiset(a) == multiset(b)
    ensures |a| == |b|
    ensures forall y :: y in b ==> y in a
  {
    assert |multiset(a)| == |multiset(b)|;
    forall y | y in b ensures y in a {
      assert y in multiset(b);
    }
  }

  lemma PrefixFacts(sorted: seq<string>, score: string -> real, n: nat)
    requires n <= |sorted|
    requires NonIncreasing(sorted, score)
    ensures multiset(sorted[..n]) <= multiset(sorted)
    ensures NonIncreasing(sorted[..n], score)
    ensures forall x, y :: x in sorted[..n] && y in sorted && y !in sorted[..n] ==> score(y) <= score(x)
  {
    assert sorted == sorted[..n] + sorted[n..];
    forall x, y | x in sorted[..n] && y in sorted && y !in sorted[..n]
      ensures score(y) <= score(x)
    {
      var i :| 0 <= i < n && sorted[i] == x;
      var j :| 0 <= j < |sorted| && sorted[j] == y;
      if j < n {
        assert sorted[..n][j] == y;
      }
    }
  }

  /** A distinct sequence holds each element at most once. */
  lemma {:induction false} DistinctCounts(s: seq<string>)
    requires Distinct(s)
    ensures forall x :: multiset(s)[x] <= 1
  {
    if s != [] {
      var init := s[..|s| - 1];
      DistinctCounts(init);
      assert s == init + [s[|s| - 1]];
      assert s[|s| - 1] !in init;
    }
  }

  /** Any two orders of the same dict's keys hold the same keys, each once: they differ only in
      order, so that order is all that can change the top-K selection. */
  lemma KeyOrdersArePermutations(a: seq<string>, b: seq<string>, terms: seq<string>)
    requires KeyOrder(a, terms) && KeyOrder(b, terms)
    ensures multiset(a) == multiset(b)
  {
    DistinctCounts(a);
    DistinctCounts(b);
    forall x ensures multiset(a)[x] == multiset(b)[x] {
      assert x in a <==> x in multiset(a);
      assert x in b <==> x in multiset(b);
    }
  }

  /** An element found at two positions occurs at least twice. */
  lemma RepeatCount(r: seq<string>, i: nat, j: nat)
    requires i < j < |r|
    ensures r[i] == r[j] ==> multiset(r)[r[i]] >= 2
  {
    assert r == r[..j] + r[j..];
    assert r[..j][i] == r[i];
    assert r[j..][0] == r[j];
    assert multiset(r) == multiset(r[..j]) + multiset(r[j..]);
  }

  /** Whatever is drawn from a distinct sequence without repeating its elements is distinct. */
  lemma SubMultisetDistinct(r: seq<string>, terms: seq<string>)
    requires Distinct(terms) && multiset(r) <= multiset(terms)
    ensures Distinct(r)
  {
    DistinctCounts(terms);
    forall i, j | 0 <= i < j < |r| ensures r[i] != r[j] {
      RepeatCount(r, i, j);
      assert multiset(r)[r[i]] <= multiset(terms)[r[i]] <= 1;
    }
  }

  /** Selected from distinct keys, the top terms are distinct too: no slot goes to a repeat. */
  lemma TopKOfDistinct(terms: seq<string>, score: string -> real, k: nat)
    requires Distinct(terms)
    ensures Distinct(TopK(terms, score, k))
  {
    SubMultisetDistinct(TopK(terms, score, k), terms);
  }
}
