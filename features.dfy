/** The trainer's `get_feature_vector`, as the code computes it: one indicator per non-stop-word
    token, one indicator per CHARACTER of the comma-joined mention string, then the share of
    tokens that are keywords. Tokens and stop-words are inputs (the tokenizer and the stop-word
    corpus are not part of this model). */
module Features {
  import opened Common
  import Util

  /** The tokens that are not stop-words, in order (the `filtered_text` loop). */
  function Filtered(tokens: seq<string>, stopWords: seq<string>): (r: seq<string>)
    ensures |r| <= |tokens|
  {
    if tokens == [] then []
    else
      var init := Filtered(tokens[..|tokens| - 1], stopWords);
      if tokens[|tokens| - 1] in stopWords then init else init + [tokens[|tokens| - 1]]
  }

  /** `[1.0 if x in members else 0 for x in xs]`; the int 0 is written as the real 0.0,
      which Python's `sum` and `==` treat alike. */
  function Indicators(xs: seq<string>, members: seq<string>): seq<real> {
    seq(|xs|, i requires 0 <= i < |xs| => if xs[i] in members then 1.0 else 0.0)
  }

  /** Iterating over a str yields its characters, each as a one-character str. */
  function Chars(s: string): seq<string> {
    seq(|s|, i requires 0 <= i < |s| => [s[i]])
  }

  /** The mention string the encoder iterates over: the second string of `extract_entity`. */
  function MentionString(tw: Tweet): string {
    Util.ExtractEntity(tw).1
  }

  function Sum(xs: seq<real>): real {
    if xs == [] then 0.0 else Sum(xs[..|xs| - 1]) + xs[|xs| - 1]
  }

  /** How many of `xs` are in `members` (counted with repetition). */
  function Hits(xs: seq<string>, members: seq<string>): nat {
    if xs == [] then 0
    else Hits(xs[..|xs| - 1], members) + (if xs[|xs| - 1] in members then 1 else 0)
  }

  /** `get_feature_vector(tweet)` under the trainer's stop-words and `query_set`
      (`None` while that dict is still empty). The keyword and user lists are looked up once per
      element of the comprehensions, so an empty dict raises KeyError only when one of them has
      an element; an all-stop-word tweet raises ZeroDivisionError at the ratio. */
  function FeatureVector(tw: Tweet, stopWords: seq<string>, querySet: Option<QuerySet>): Result<seq<real>> {
    var filtered := Filtered(tw.tokens, stopWords);
    var mentionChars := Chars(MentionString(tw));
    if querySet.None? && (filtered != [] || mentionChars != []) then Fail(KeyError)
    else if filtered == [] then Fail(ZeroDivisionError)
    else
      var termFeatures := Indicators(filtered, querySet.value.keyword);
      var userFeatures := Indicators(mentionChars, querySet.value.user);
      Ok(termFeatures + userFeatures + [Sum(termFeatures) / (|filtered| as real)])
  }

  /** When the encoder returns a vector and which exception it raises otherwise. */
  lemma FeatureVectorOutcome(tw: Tweet, stopWords: seq<string>, querySet: Option<QuerySet>)
    ensures FeatureVector(tw, stopWords, querySet).Ok?
      <==> querySet.Some? && Filtered(tw.tokens, stopWords) != []
    ensures FeatureVector(tw, stopWords, querySet) == Fail(KeyError)
      <==> querySet.None? && (Filtered(tw.tokens, stopWords) != [] || MentionString(tw) != [])
    ensures FeatureVector(tw, stopWords, querySet) == Fail(ZeroDivisionError)
      <==> Filtered(tw.tokens, stopWords) == [] && (querySet.Some? || MentionString(tw) == [])
  {
  }

  /** The token filter keeps exactly the tokens that are not stop-words, in order. */
  lemma {:induction false} FilteredMembers(tokens: seq<string>, stopWords: seq<string>, t: string)
    ensures t in Filtered(tokens, stopWords) <==> t in tokens && t !in stopWords
  {
    if tokens != [] {
      FilteredMembers(tokens[..|tokens| - 1], stopWords, t);
      assert tokens == tokens[..|tokens| - 1] + [tokens[|tokens| - 1]];
    }
  }

  function NotStopMask(tokens: seq<string>, stopWords: seq<string>): (mask: seq<bool>)
    ensures |mask| == |tokens|
  {
    seq(|tokens|, i requires 0 <= i < |tokens| => tokens[i] !in stopWords)
  }

  /** The token filter is the input with the stop-words masked out: every other token is kept,
      repeats included, in its order. */
  lemma {:induction false} FilteredIsSubsequence(tokens: seq<string>, stopWords: seq<string>)
    ensures Select(tokens, NotStopMask(tokens, stopWords)) == Filtered(tokens, stopWords)
    ensures SubsequenceOf(Filtered(tokens, stopWords), tokens)
  {
    if tokens != [] {
      var init := tokens[..|tokens| - 1];
      FilteredIsSubsequence(init, stopWords);
      assert NotStopMask(tokens, stopWords)[..|tokens| - 1] == NotStopMask(init, stopWords);
    }
  }

  lemma {:induction false} SumIndicators(xs: seq<string>, members: seq<string>)
    ensures Sum(Indicators(xs, members)) == Hits(xs, members) as real
  {
    if xs != [] {
      var init := xs[..|xs| - 1];
      SumIndicators(init, members);
      assert Indicators(xs, members)[..|xs| - 1] == Indicators(init, members);
    }
  }

  lemma {:induction false} HitsBounds(xs: seq<string>, members: seq<string>)
    ensures Hits(xs, members) <= |xs|
    ensures Hits(xs, members) == |xs| <==> forall i :: 0 <= i < |xs| ==> xs[i] in members
    ensures Hits(xs, members) == 0 <==> forall i :: 0 <= i < |xs| ==> xs[i] !in members
  {
    if xs != [] {
      var init := xs[..|xs| - 1];
      HitsBounds(init, members);
      assert forall i :: 0 <= i < |xs| - 1 ==> xs[i] == init[i];
    }
  }

  /** The layout of an encoded vector: one value per filtered token, one per character of the
      mention string, then one ratio, which is the number of filtered tokens in the keyword list
      over the number of filtered tokens. */
  lemma FeatureVectorLayout(tw: Tweet, stopWords: seq<string>, querySet: Option<QuerySet>)
    requires FeatureVector(tw, stopWords, querySet).Ok?
    ensures var v := FeatureVector(tw, stopWords, querySet).value;
            var f := Filtered(tw.tokens, stopWords);
            && |v| == |f| + |MentionString(tw)| + 1
            && v[|v| - 1] == Hits(f, querySet.value.keyword) as real / |f| as real
  {
    SumIndicators(Filtered(tw.tokens, stopWords), querySet.value.keyword);
  }

  /** The first values flag, token by token and in order, whether a filtered token is a keyword. */
  lemma TermIndicators(tw: Tweet, stopWords: seq<string>, querySet: Option<QuerySet>)
    requires FeatureVector(tw, stopWords, querySet).Ok?
    ensures var v := FeatureVector(tw, stopWords, querySet).value;
            var f := Filtered(tw.tokens, stopWords);
            && |f| < |v|
            && (forall i :: 0 <= i < |f| ==> (v[i] == 1.0 <==> f[i] in querySet.value.keyword))
            && (forall i :: 0 <= i < |f| ==> (v[i] == 0.0 <==> f[i] !in querySet.value.keyword))
  {
  }

  /** The next values flag, character by character, whether that one-character string is a user. */
  lemma UserIndicators(tw: Tweet, stopWords: seq<string>, querySet: Option<QuerySet>)
    requires FeatureVector(tw, stopWords, querySet).Ok?
    ensures var v := FeatureVector(tw, stopWords, querySet).value;
            var n := |Filtered(tw.tokens, stopWords)|;
            var m := MentionString(tw);
            && n + |m| < |v|
            && (forall j :: 0 <= j < |m| ==> (v[n + j] == 1.0 <==> [m[j]] in querySet.value.user))
            && (forall j :: 0 <= j < |m| ==> (v[n + j] == 0.0 <==> [m[j]] !in querySet.value.user))
  {
  }

  /** The trailing value is a hit ratio in [0, 1]: it is 1 exactly when every filtered token is a
      keyword and 0 exactly when none is (the doc comment's "missed" share would be the reverse). */
  lemma HitRatio(tw: Tweet, stopWords: seq<string>, querySet: Option<QuerySet>)
    requires FeatureVector(tw, stopWords, querySet).Ok?
    ensures var v := FeatureVector(tw, stopWords, querySet).value;
            var f := Filtered(tw.tokens, stopWords);
            && 0.0 <= v[|v| - 1] <= 1.0
            && (v[|v| - 1] == 1.0 <==> forall i :: 0 <= i < |f| ==> f[i] in querySet.value.keyword)
            && (v[|v| - 1] == 0.0 <==> forall i :: 0 <= i < |f| ==> f[i] !in querySet.value.keyword)
  {
    var f := Filtered(tw.tokens, stopWords);
    var kw := querySet.value.keyword;
    FeatureVectorLayout(tw, stopWords, querySet);
    HitsBounds(f, kw);
    RatioBounds(Hits(f, kw) as real, |f| as real);
  }

  lemma RatioBounds(h: real, n: real)
    requires 0.0 <= h <= n && n > 0.0
    ensures 0.0 <= h / n <= 1.0
    ensures h / n == 1.0 <==> h == n
    ensures h / n == 0.0 <==> h == 0.0
  {
    var r := h / n;
    assert r * n == h;
  }

  /** Because the mention string is iterated character by character, a user id of more than one
      character in the query set can never be flagged: every user indicator is then 0. */
  lemma LongUserIdsNeverMatch(tw: Tweet, stopWords: seq<string>, querySet: Option<QuerySet>)
    requires FeatureVector(tw, stopWords, querySet).Ok?
    requires forall k :: 0 <= k < |querySet.value.user| ==> |querySet.value.user[k]| != 1
    ensures var v := FeatureVector(tw, stopWords, querySet).value;
            var n := |Filtered(tw.tokens, stopWords)|;
            forall j :: n <= j < |v| - 1 ==> v[j] == 0.0
  {
    var v := FeatureVector(tw, stopWords, querySet).value;
    var n := |Filtered(tw.tokens, stopWords)|;
    var m := MentionString(tw);
    FeatureVectorLayout(tw, stopWords, querySet);
    UserIndicators(tw, stopWords, querySet);
    forall j | n <= j < |v| - 1 ensures v[j] == 0.0 {
      assert |[m[j - n]]| == 1;
    }
  }

  /** Two mentions 1111 and 2222 against the users "2222" and "3333": the encoder sees the nine
      characters of "1111,2222" and flags none of them. */
  lemma MentionCharactersExample(tokens: seq<string>)
    requires tokens != []
    ensures var tw := Tweet("t", tokens, [], [1111, 2222], "1");
            var qs := Some(QuerySet([], ["2222", "3333"]));
            var v := FeatureVector(tw, [], qs).value;
            && MentionString(tw) == "1111,2222"
            && |v| == |tokens| + 10
            && (forall j :: |tokens| <= j < |tokens| + 9 ==> v[j] == 0.0)
  {
    var tw := Tweet("t", tokens, [], [1111, 2222], "1");
    var qs := Some(QuerySet([], ["2222", "3333"]));
    var ms := Util.MentionStrings(tw.mentionIds);
    DigitStrings();
    assert ms == ["1111", "2222"];
    assert Util.Join(ms[1..]) == "2222";
    assert MentionString(tw) == "1111,2222";
    FilteredOfNoStopWords(tokens);
    assert FeatureVector(tw, [], qs).Ok?;
    assert forall k :: 0 <= k < |qs.value.user| ==> |qs.value.user[k]| == 4;
    LongUserIdsNeverMatch(tw, [], qs);
    FeatureVectorLayout(tw, [], qs);
  }

  lemma DigitStrings()
    ensures Util.NatToString(1111) == "1111" && Util.NatToString(2222) == "2222"
  {
    assert Util.DigitChar(1) == '1' && Util.DigitChar(2) == '2';
    assert Util.NatToString(1) == "1" && Util.NatToString(2) == "2";
    assert Util.NatToString(11) == "11" && Util.NatToString(22) == "22";
    assert Util.NatToString(111) == "111" && Util.NatToString(222) == "222";
  }

  lemma {:induction false} FilteredOfNoStopWords(tokens: seq<string>)
    ensures Filtered(tokens, []) == tokens
  {
    if tokens != [] {
      FilteredOfNoStopWords(tokens[..|tokens| - 1]);
    }
  }
}
