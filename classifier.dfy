/** The classifier module: the listener that collects a random sample, and the trainer that
    labels the two corpora, selects the query set and hands it to the ingestion loop. */
module Classifier {
  import opened Common
  import Util
  import Features
  import TermSelection
  import TermCount

  /** Listens to the unfiltered sample stream and keeps every status it receives. */
  class SampleStreamListener {
    var requiredSize: int
    var sample: seq<Tweet>

    constructor (requiredSize: int)
      ensures this.requiredSize == requiredSize && sample == []
    {
      this.requiredSize := requiredSize;
      sample := [];
    }

    /** Returning false stops the stream. The size is only compared, never counted down, so a
        positive size keeps the stream running and the sample growing without bound. */
    method OnStatus(status: Tweet) returns (keepStreaming: bool)
      modifies this
      ensures requiredSize == old(requiredSize)
      ensures keepStreaming <==> requiredSize > 0
      ensures sample == if keepStreaming then old(sample) + [status] else old(sample)
    {
      if requiredSize <= 0 {
        return false;
      } else {
        sample := sample + [status];
        return true;
      }
    }

    function GetSample(): seq<Tweet>
      reads this
    {
      sample
    }
  }

  /** A stream delivering `statuses` to a new listener until it asks to stop, then reading the
      sample: a positive size collects every status, however many, and any other size none. */
  method CollectSample(requiredSize: int, statuses: seq<Tweet>) returns (sample: seq<Tweet>)
    ensures requiredSize > 0 ==> sample == statuses
    ensures requiredSize <= 0 ==> sample == []
  {
    var listener := new SampleStreamListener(requiredSize);
    var i := 0;
    var streaming := true;
    while i < |statuses| && streaming
      invariant 0 <= i <= |statuses|
      invariant listener.requiredSize == requiredSize
      invariant requiredSize > 0 ==> streaming && listener.sample == statuses[..i]
      invariant requiredSize <= 0 ==> listener.sample == []
    {
      streaming := listener.OnStatus(statuses[i]);
      i := i + 1;
    }
    assert statuses[..|statuses|] == statuses;
    sample := listener.GetSample();
  }

  /** A labelled corpus: the feature vectors and their class labels. */
  datatype Labelled = Labelled(features: seq<seq<real>>, target: seq<int>)

  /** The feature vectors of a labelled result, or its exception. */
  function FeaturesOf(res: Result<Labelled>): Result<seq<seq<real>>> {
    match res
    case Ok(l) => Ok(l.features)
    case Fail(e) => Fail(e)
  }

  /** `features` is the outcome of encoding `tweets` in order: every vector when no tweet
      raises, otherwise the exception of the first tweet that does. */
  ghost predicate EncodesAs(tweets: seq<Tweet>, stopWords: seq<string>, querySet: Option<QuerySet>,
                            features: Result<seq<seq<real>>>)
  {
    && (features.Ok? <==> forall i :: 0 <= i < |tweets| ==> Features.FeatureVector(tweets[i], stopWords, querySet).Ok?)
    && (features.Ok? ==>
         && |features.value| == |tweets|
         && forall i :: 0 <= i < |tweets| ==>
              features.value[i] == Features.FeatureVector(tweets[i], stopWords, querySet).value)
    && (features.Fail? ==>
         exists k :: 0 <= k < |tweets|
           && Features.FeatureVector(tweets[k], stopWords, querySet) == Fail(features.error)
           && forall j :: 0 <= j < k ==> Features.FeatureVector(tweets[j], stopWords, querySet).Ok?)
  }

  /** Some token of the tweet is one of `terms`: `set(tokens).intersection(terms)` is non-empty. */
  predicate SharesTerm(tw: Tweet, terms: seq<string>) {
    exists t :: t in tw.tokens && t in terms
  }

  /** The tweets of `sample` that share a term with `terms`, in order. */
  function Intersecting(sample: seq<Tweet>, terms: seq<string>): seq<Tweet> {
    if sample == [] then []
    else
      var init := Intersecting(sample[..|sample| - 1], terms);
      if SharesTerm(sample[|sample| - 1], terms) then init + [sample[|sample| - 1]] else init
  }

  function SharesTermMask(sample: seq<Tweet>, terms: seq<string>): (mask: seq<bool>)
    ensures |mask| == |sample|
  {
    seq(|sample|, i requires 0 <= i < |sample| => SharesTerm(sample[i], terms))
  }

  /** The kept tweets are exactly the sampled tweets that share a term, in their sampled order:
      tweets with a possibly relevant term are kept, not excluded. */
  lemma {:induction false} IntersectingKeeps(sample: seq<Tweet>, terms: seq<string>)
    ensures Select(sample, SharesTermMask(sample, terms)) == Intersecting(sample, terms)
    ensures SubsequenceOf(Intersecting(sample, terms), sample)
    ensures forall tw :: tw in Intersecting(sample, terms) <==> tw in sample && SharesTerm(tw, terms)
  {
    if sample != [] {
      var init := sample[..|sample| - 1];
      IntersectingKeeps(init, terms);
      assert SharesTermMask(sample, terms)[..|sample| - 1] == SharesTermMask(init, terms);
      assert sample == init + [sample[|sample| - 1]];
    }
  }

  /** Builds feature vectors and labels for both corpora and selects the expanded query set. */
  class AdaptiveTweetClassifierTrainer {
    const stopWords: seq<string>
    /** `None` while the `query_set` dict is still empty. */
    var querySet: Option<QuerySet>

    /** The stop-word list is the English list once per configured language (the loop asks for
        'english' whatever the language); the query set starts empty. */
    constructor (languages: seq<string>, englishStopWords: seq<string>)
      ensures |stopWords| == |languages| * |englishStopWords|
      ensures forall w :: w in stopWords <==> languages != [] && w in englishStopWords
      ensures querySet == None
    {
      var words: seq<string> := [];
      for i := 0 to |languages|
        invariant |words| == i * |englishStopWords|
        invariant forall w :: w in words <==> i > 0 && w in englishStopWords
      {
        words := words + englishStopWords;
      }
      stopWords := words;
      querySet := None;
    }

    /** Replaces the query set by the terms of the positive corpus that occur more than ten
        times: as keywords the non-stop-word text terms and hashtags, as users the mentioned
        and authoring ids, which are not checked against the stop-words. */
    method PosTermSelection(posTweets: seq<Tweet>)
      requires forall k :: 0 <= k < |posTweets| ==> TokensNonEmpty(posTweets[k])
      modifies this
      ensures querySet.Some?
      ensures Distinct(querySet.value.keyword) && Distinct(querySet.value.user)
      ensures forall t :: t in querySet.value.keyword
                <==> t !in stopWords && TermCount.WordOccurrences(t, posTweets) > TermCount.FrequencyThreshold
      ensures forall t :: t in querySet.value.user
                <==> TermCount.UserOccurrences(t, posTweets) > TermCount.FrequencyThreshold
    {
      var wordCount, userCount := TermCount.CountTerms(posTweets, stopWords);
      forall t | true
        ensures t in wordCount <==> t !in stopWords && TermCount.WordOccurrences(t, posTweets) > 0
        ensures t in wordCount ==> wordCount[t].frequency == TermCount.WordOccurrences(t, posTweets)
        ensures t in userCount <==> TermCount.UserOccurrences(t, posTweets) > 0
        ensures t in userCount ==> userCount[t].frequency == TermCount.UserOccurrences(t, posTweets)
      {
        TermCount.CorpusCounts(posTweets, stopWords, t);
      }
      var keyword := TermCount.SelectFrequent(wordCount);
      var user := TermCount.SelectFrequent(userCount);
      querySet := Some(QuerySet(keyword, user));
    }

    /** The feature-vector loop shared by both corpora. */
    method EncodeAll(tweets: seq<Tweet>) returns (features: Result<seq<seq<real>>>)
      ensures EncodesAs(tweets, stopWords, querySet, features)
    {
      var vectors: seq<seq<real>> := [];
      for i := 0 to |tweets|
        invariant |vectors| == i
        invariant forall j :: 0 <= j < i ==> Features.FeatureVector(tweets[j], stopWords, querySet).Ok?
        invariant forall j :: 0 <= j < i ==> vectors[j] == Features.FeatureVector(tweets[j], stopWords, querySet).value
      {
        var v := Features.FeatureVector(tweets[i], stopWords, querySet);
        if v.Fail? {
          return Fail(v.error);
        }
        vectors := vectors + [v.value];
      }
      features := Ok(vectors);
    }

    /** The negative corpus: the sampled tweets that share a token with the top-`topK` keywords
        (chosen among the distinct keys of the score dict, iterated in some order of those keys,
        which decides ties at the K-th score), each encoded and labelled 0. Reading the keywords
        raises KeyError while the query set is empty. */
    method FilterNegative(sample: seq<Tweet>, score: string -> real, topK: nat) returns (res: Result<Labelled>)
      ensures querySet.None? ==> res == Fail(KeyError)
      ensures querySet.Some? ==>
        exists keys ::
          && TermSelection.KeyOrder(keys, querySet.value.keyword)
          && var kept := Intersecting(sample, TermSelection.TopK(keys, score, topK));
             && EncodesAs(kept, stopWords, querySet, FeaturesOf(res))
             && (res.Ok? ==> |res.value.target| == |kept| && forall i :: 0 <= i < |kept| ==> res.value.target[i] == 0)
    {
      if querySet.None? {
        return Fail(KeyError);
      }
      var tfIdf := TermSelection.Keys(querySet.value.keyword);
      assert TermSelection.KeyOrder(tfIdf, querySet.value.keyword);
      var pRelTerms := TermSelection.TopK(tfIdf, score, topK);
      var sampleTweets: seq<Tweet> := [];
      for i := 0 to |sample|
        invariant sampleTweets == Intersecting(sample[..i], pRelTerms)
      {
        assert sample[..i + 1][..i] == sample[..i];
        if SharesTerm(sample[i], pRelTerms) {
          sampleTweets := sampleTweets + [sample[i]];
        }
      }
      assert sample[..|sample|] == sample;
      var features := EncodeAll(sampleTweets);
      if features.Fail? {
        return Fail(features.error);
      }
      var target := seq(|features.value|, _ => 0);
      res := Ok(Labelled(features.value, target));
    }

    /** The positive corpus: every tweet encoded in order and labelled 1. */
    method FilterPositive(sample: seq<Tweet>) returns (res: Result<Labelled>)
      ensures EncodesAs(sample, stopWords, querySet, FeaturesOf(res))
      ensures res.Ok? ==> |res.value.target| == |sample| && forall i :: 0 <= i < |sample| ==> res.value.target[i] == 1
    {
      var features := EncodeAll(sample);
      if features.Fail? {
        return Fail(features.error);
      }
      var target := seq(|sample|, _ => 1);
      res := Ok(Labelled(features.value, target));
    }

    /** Extends the keyword list in place by the user list and returns that same list, so the
        stored keywords become keywords ++ users while the users stay as they were. */
    method GetQuerySet() returns (res: Result<seq<string>>)
      modifies this
      ensures old(querySet).None? ==> res == Fail(KeyError) && querySet == old(querySet)
      ensures old(querySet).Some? ==>
        var q := old(querySet).value;
        && res == Ok(q.keyword + q.user)
        && querySet == Some(QuerySet(q.keyword + q.user, q.user))
    {
      if querySet.None? {
        return Fail(KeyError);
      }
      var keywords := querySet.value.keyword;
      var users := querySet.value.user;
      keywords := keywords + users;
      querySet := Some(QuerySet(keywords, users));
      res := Ok(keywords);
    }
  }
}
