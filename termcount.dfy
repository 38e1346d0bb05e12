/** The counting done by the trainer's `pos_term_selection`, in its evident meaning: per positive
    tweet, the frequency of every non-stop-word text term and hashtag, the frequency of every
    mentioned user and of the author, and once per tweet the document frequency of each of the
    tweet's distinct terms that has a word entry. */
module TermCount {
  import opened Common
  import Util

  /** A `TweetCount` record. */
  datatype TermStats = TermStats(frequency: nat, docFrequency: nat)

  type Counts = map<string, TermStats>

  /** A term is selected for the query set when its frequency is above this. */
  const FrequencyThreshold: nat := 10

  /** `_add_term(term, index, stopwords)`: a stop-word is skipped, a known term counted once more,
      a new term entered with frequency 1 and document frequency 0. */
  function AddTerm(c: Counts, term: string, stopWords: seq<string>): Counts {
    if term in stopWords then c
    else if term in c then c[term := c[term].(frequency := c[term].frequency + 1)]
    else c[term := TermStats(1, 0)]
  }

  /** `_add_term` applied to each term in turn. */
  function AddTerms(c: Counts, terms: seq<string>, stopWords: seq<string>): Counts {
    if terms == [] then c
    else AddTerm(AddTerms(c, terms[..|terms| - 1], stopWords), terms[|terms| - 1], stopWords)
  }

  /** `map(_doc_freq, set(terms))`: one more document for each distinct term with an entry. */
  function MarkDocument(c: Counts, terms: set<string>): Counts {
    map t | t in c :: if t in terms then c[t].(docFrequency := c[t].docFrequency + 1) else c[t]
  }

  /** The terms counted as words: the cleaned text terms, then the hashtags. */
  function WordTerms(tw: Tweet): seq<string> {
    Util.Untagged(tw.tokens) + tw.hashtags
  }

  /** The terms counted as users: the mentioned ids, then the author's id. */
  function UserTerms(tw: Tweet): seq<string> {
    Util.MentionStrings(tw.mentionIds) + [tw.authorId]
  }

  /** Every term of a tweet, in the order the source concatenates them. */
  function AllTerms(tw: Tweet): seq<string> {
    WordTerms(tw) + UserTerms(tw)
  }

  /** One iteration of the loop over the positive tweets. */
  function CountTweet(wordCount: Counts, userCount: Counts, tw: Tweet, stopWords: seq<string>): (Counts, Counts) {
    var words := AddTerms(wordCount, WordTerms(tw), stopWords);
    (MarkDocument(words, set t | t in AllTerms(tw)), AddTerms(userCount, UserTerms(tw), []))
  }

  /** The two dicts after the loop over `tweets`, starting from empty dicts. */
  function CountCorpus(tweets: seq<Tweet>, stopWords: seq<string>): (Counts, Counts) {
    if tweets == [] then (map[], map[])
    else
      var prev := CountCorpus(tweets[..|tweets| - 1], stopWords);
      CountTweet(prev.0, prev.1, tweets[|tweets| - 1], stopWords)
  }

  // Reference counts, defined on the corpus without any dict.

  function Occurrences(t: string, s: seq<string>): nat {
    if s == [] then 0 else Occurrences(t, s[..|s| - 1]) + (if s[|s| - 1] == t then 1 else 0)
  }

  /** How often `t` occurs among the word terms of all tweets. */
  function WordOccurrences(t: string, tweets: seq<Tweet>): nat {
    if tweets == [] then 0
    else WordOccurrences(t, tweets[..|tweets| - 1]) + Occurrences(t, WordTerms(tweets[|tweets| - 1]))
  }

  /** How often `t` occurs among the user terms of all tweets. */
  function UserOccurrences(t: string, tweets: seq<Tweet>): nat {
    if tweets == [] then 0
    else UserOccurrences(t, tweets[..|tweets| - 1]) + Occurrences(t, UserTerms(tweets[|tweets| - 1]))
  }

  /** How many tweets have `t` among their word terms. */
  function WordDocuments(t: string, tweets: seq<Tweet>): nat {
    if tweets == [] then 0
    else WordDocuments(t, tweets[..|tweets| - 1]) + (if t in WordTerms(tweets[|tweets| - 1]) then 1 else 0)
  }

  /** How many tweets have `t` among any of their terms. */
  function AllDocuments(t: string, tweets: seq<Tweet>): (n: nat)
    ensures n <= |tweets|
  {
    if tweets == [] then 0
    else AllDocuments(t, tweets[..|tweets| - 1]) + (if t in AllTerms(tweets[|tweets| - 1]) then 1 else 0)
  }

  lemma {:induction false} OccurrencesPositive(t: string, s: seq<string>)
    ensures Occurrences(t, s) > 0 <==> t in s
  {
    if s != [] {
      OccurrencesPositive(t, s[..|s| - 1]);
      assert s == s[..|s| - 1] + [s[|s| - 1]];
    }
  }

  lemma {:induction false} AddTermsConcat(c: Counts, a: seq<string>, b: seq<string>, stopWords: seq<string>)
    ensures AddTerms(c, a + b, stopWords) == AddTerms(AddTerms(c, a, stopWords), b, stopWords)
  {
    if b != [] {
      AddTermsConcat(c, a, b[..|b| - 1], stopWords);
      assert (a + b)[..|a + b| - 1] == a + b[..|b| - 1];
    } else {
      assert a + b == a;
    }
  }

  /** What adding a list of terms does to one entry. */
  lemma {:induction false} AddTermsEntry(c: Counts, terms: seq<string>, stopWords: seq<string>, t: string)
    ensures var r := AddTerms(c, terms, stopWords);
            && (t in stopWords ==> (t in r <==> t in c) && (t in c ==> r[t] == c[t]))
            && (t !in stopWords ==> (t in r <==> t in c || Occurrences(t, terms) > 0))
            && (t !in stopWords && t in r ==>
                 r[t].frequency == (if t in c then c[t].frequency else 0) + Occurrences(t, terms))
            && (t in r ==> r[t].docFrequency == (if t in c then c[t].docFrequency else 0))
  {
    if terms != [] {
      AddTermsEntry(c, terms[..|terms| - 1], stopWords, t);
    }
  }

  /** The counts after the loop, against the reference counts: the word dict holds exactly the
      non-stop-word word terms, with their number of occurrences; the user dict exactly the user
      terms with theirs; and a word's document frequency lies between the number of tweets that
      have it as a word and the number of tweets that have it at all, so it counts a tweet at
      most once and is never 0. */
  lemma {:induction false} CorpusCounts(tweets: seq<Tweet>, stopWords: seq<string>, t: string)
    ensures var (wc, uc) := CountCorpus(tweets, stopWords);
            && (t in wc <==> t !in stopWords && WordOccurrences(t, tweets) > 0)
            && (t in wc ==> wc[t].frequency == WordOccurrences(t, tweets))
            && (t in uc <==> UserOccurrences(t, tweets) > 0)
            && (t in uc ==> uc[t].frequency == UserOccurrences(t, tweets))
            && (t in wc ==> WordDocuments(t, tweets) <= wc[t].docFrequency <= AllDocuments(t, tweets))
            && (t in wc ==> 1 <= wc[t].docFrequency <= |tweets|)
            && (t !in wc && t !in stopWords ==> WordDocuments(t, tweets) == 0)
  {
    if tweets != [] {
      var init := tweets[..|tweets| - 1];
      var tw := tweets[|tweets| - 1];
      CorpusCounts(init, stopWords, t);
      var prev := CountCorpus(init, stopWords);
      var words := AddTerms(prev.0, WordTerms(tw), stopWords);
      AddTermsEntry(prev.0, WordTerms(tw), stopWords, t);
      AddTermsEntry(prev.1, UserTerms(tw), [], t);
      OccurrencesPositive(t, WordTerms(tw));
      OccurrencesPositive(t, UserTerms(tw));
      assert t in WordTerms(tw) ==> t in AllTerms(tw);
    }
  }

  lemma MarkDocumentStep(c: Counts, done: set<string>, t: string)
    requires t !in done
    ensures var m := MarkDocument(c, done);
            MarkDocument(c, done + {t})
              == if t in m then m[t := m[t].(docFrequency := m[t].docFrequency + 1)] else m
  {
  }

  /** The loop of `pos_term_selection` over the positive tweets, with the two counting dicts. */
  method CountTerms(posTweets: seq<Tweet>, stopWords: seq<string>) returns (wordCount: Counts, userCount: Counts)
    requires forall k :: 0 <= k < |posTweets| ==> TokensNonEmpty(posTweets[k])
    ensures (wordCount, userCount) == CountCorpus(posTweets, stopWords)
  {
    wordCount, userCount := map[], map[];
    for k := 0 to |posTweets|
      invariant (wordCount, userCount) == CountCorpus(posTweets[..k], stopWords)
    {
      assert posTweets[..k + 1][..k] == posTweets[..k];
      wordCount, userCount := CountOneTweet(wordCount, userCount, posTweets[k], stopWords);
    }
    assert posTweets[..|posTweets|] == posTweets;
  }

  /** The body of that loop for one tweet. */
  method CountOneTweet(wordCount: Counts, userCount: Counts, tweet: Tweet, stopWords: seq<string>)
    returns (words: Counts, users: Counts)
    requires TokensNonEmpty(tweet)
    ensures (words, users) == CountTweet(wordCount, userCount, tweet, stopWords)
  {
    var textCleaned := Util.CleanEntity(tweet.tokens);
    words := AddEach(wordCount, textCleaned, stopWords);
    var hashtags := tweet.hashtags;
    var userMentions := UserTerms(tweet);
    words := AddEach(words, hashtags, stopWords);
    AddTermsConcat(wordCount, textCleaned, hashtags, stopWords);
    users := AddEach(userCount, userMentions, []);
    var terms := textCleaned + hashtags + userMentions;
    assert terms == AllTerms(tweet);
    words := MarkEach(words, set t | t in terms);
  }

  /** `for term in terms: _add_term(term, counts, stopWords)`. */
  method AddEach(counts: Counts, terms: seq<string>, stopWords: seq<string>) returns (r: Counts)
    ensures r == AddTerms(counts, terms, stopWords)
  {
    r := counts;
    for j := 0 to |terms|
      invariant r == AddTerms(counts, terms[..j], stopWords)
    {
      assert terms[..j + 1][..j] == terms[..j];
      r := AddTerm(r, terms[j], stopWords);
    }
    assert terms[..|terms|] == terms;
  }

  /** `map(_doc_freq, distinct)`, for the terms that have an entry. */
  method MarkEach(counts: Counts, distinct: set<string>) returns (r: Counts)
    ensures r == MarkDocument(counts, distinct)
  {
    r := counts;
    var pending := distinct;
    while pending != {}
      invariant pending <= distinct
      invariant r == MarkDocument(counts, distinct - pending)
      decreases pending
    {
      var t :| t in pending;
      MarkDocumentStep(counts, distinct - pending, t);
      assert (distinct - pending) + {t} == distinct - (pending - {t});
      if t in r {
        r := r[t := r[t].(docFrequency := r[t].docFrequency + 1)];
      }
      pending := pending - {t};
    }
    assert distinct - pending == distinct;
  }

  /** `[x for x in counts if counts[x]['frequency'] > 10]`, in the dict's iteration order. */
  method SelectFrequent(counts: Counts) returns (terms: seq<string>)
    ensures Distinct(terms)
    ensures forall t :: t in terms <==> t in counts && counts[t].frequency > FrequencyThreshold
  {
    terms := [];
    var rest := counts.Keys;
    while rest != {}
      invariant rest <= counts.Keys
      invariant Distinct(terms)
      invariant forall t :: t in terms <==> t in counts.Keys - rest && counts[t].frequency > FrequencyThreshold
      decreases rest
    {
      var x :| x in rest;
      if counts[x].frequency > FrequencyThreshold {
        terms := terms + [x];
      }
      rest := rest - {x};
    }
  }
}
