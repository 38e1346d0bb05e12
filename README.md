# Adaptive tweet filtering: a Dafny model of its bookkeeping

This project models the core of an adaptive tweet collector. A live ingestion listener stores
tweets that a classifier accepts. A trainer labels a positive and a negative corpus. It selects an
expanded query set of keywords and user ids and hands new classifiers to the listener through a
shared queue. The model covers the parts of that core that are plain computation and object
state:

- `util.dfy`: the entity helpers. `ExtractEntity` is the comma-join of hashtag texts and
  mention ids, with `Split` and a proved round trip. `CleanEntity` drops `@`/`#` terms.
- `features.dfy`: the feature encoder `FeatureVector`, as the code computes it.
- `termselection.dfy`: the top-K selection (`heapq.nlargest`) over an abstract score.
- `termcount.dfy`: the term and document-frequency counting of `pos_term_selection`, written as
  a fold (`CountCorpus`). It is proved against reference counts defined on the corpus.
- `classifier.dfy`: the sample listener and the trainer, as classes. The trainer builds the
  positive and negative corpora, replaces its query set and extends it in place.
- `tweethandling.dfy`: the ingestion listener, as a class. It holds the active classifier, the
  FIFO queue it shares with the trainer, and a log of store attempts.
- `common.dfy`: the shared values: tweets, query sets, results with Python's exceptions, and
  subsequences.

The collaborators the core calls are parameters of the model:

- the word tokenizer: `Tweet.tokens`;
- the stop-word corpus: a constructor argument;
- the positive tweets read from the database and the random stream sample: method arguments;
- the TF-IDF score: a function `string -> real`;
- the classifier's prediction: a function `(C, seq<real>) -> bool`;
- whether a store insert commits: a `bool`.

## Behaviour as written

Where the source's doc comments and its code disagree, the model follows the code:

- The encoder iterates the comma-joined mention string, so it makes one indicator per
  character, commas included. A user id of more than one character therefore never matches
  (`Features.LongUserIdsNeverMatch`, `Features.MentionCharactersExample`).
- The trailing value is the share of filtered tokens that ARE keywords, not the share that are
  missed (`Features.HitRatio`).
- An all-stop-word tweet raises ZeroDivisionError. While the trainer's `query_set` is still the
  empty dict, the encoder raises KeyError as soon as one of its comprehensions has an element.
- The negative filter KEEPS the sampled tweets that share a token with the selected terms
  (`Classifier.IntersectingKeeps`). Its doc comment speaks of "filtering with the exclusion
  terms" (`dynhashtag/classifier.py:142-143`), and `term_selection`'s says tweets containing those
  terms "should not be included" in the negative corpus (`dynhashtag/classifier.py:183-184`).
- The sample listener never counts down its size. With a positive size it keeps every status
  (`Classifier.CollectSample`).
- The handoff is a FIFO `Queue.Queue`. After two puts the listener first takes the OLDER
  classifier (`TweetHandling.FifoHandoff`).
- The stop-word list is the English list once per configured language.
- `get_query_set` extends the stored keyword list with the users every time it is called, so
  the list can hold repeats. The score dict of `term_selection` collapses them
  (`TermSelection.Keys`), so the top-K picks among distinct keywords.

## Model

| member | source | states |
|---|---|---|
| `Util.NatToString` | dynhashtag/util.py:9 | `str` of an id is a non-empty string of decimal digits (so it holds no comma) |
| `Util.JoinSplitRoundTrip` | dynhashtag/util.py:4-11 | splitting the `,`-join of a non-empty list of comma-free pieces gives back the pieces, in order |
| `Util.ExtractEntityContents` | dynhashtag/util.py:3-13 | each string of `extract_entity` is "" for no entities and the entity itself for one; otherwise it splits back into the hashtag texts (if comma-free) and into `str` of each mention id, in entity order |
| `Util.CleanEntity` | dynhashtag/util.py:15-21 | the loop returns `Untagged(tweet)`; it requires non-empty terms because the source reads `term[0]` |
| `Util.UntaggedIsSubsequence` | dynhashtag/util.py:15-21 | the cleaned list is the input with the tagged terms masked out, an order-preserving subsequence no longer than the input |
| `Util.UntaggedMembers` | dynhashtag/util.py:18-19 | a term is in the output iff it is an input term not starting with `@` or `#` |
| `Util.UntaggedIdempotent` | dynhashtag/util.py:15-21 | cleaning twice gives the same list as cleaning once |
| `Features.FeatureVectorOutcome` | dynhashtag/classifier.py:247-262 | the encoder returns a vector iff a query set exists and some token is not a stop-word; KeyError iff there is no query set and a comprehension has an element; ZeroDivisionError in the remaining cases |
| `Features.FilteredMembers` | dynhashtag/classifier.py:250-256 | the filtered tokens are exactly the tokens that are not stop-words |
| `Features.FilteredIsSubsequence` | dynhashtag/classifier.py:250-256 | the filtered tokens are the tokens with the stop-words masked out: every other token is kept, repeats included, in its order |
| `Features.FeatureVectorLayout` | dynhashtag/classifier.py:258-265 | a vector has one value per filtered token, one per mention character and one more; the last value is keyword hits / filtered tokens |
| `Features.TermIndicators` | dynhashtag/classifier.py:258 | the value at each filtered token's position is 1.0 iff that token is a keyword, else 0 |
| `Features.UserIndicators` | dynhashtag/classifier.py:248-259 | the value at each mention character's position is 1.0 iff that one-character string is a user, else 0 |
| `Features.HitRatio` | dynhashtag/classifier.py:260 | the trailing value lies in [0, 1]; it is 1 iff every filtered token is a keyword and 0 iff none is |
| `Features.LongUserIdsNeverMatch` | dynhashtag/classifier.py:248-259 | when no user id in the query set has exactly one character, every user indicator is 0 |
| `Features.MentionCharactersExample` | dynhashtag/classifier.py:248-259 | mentions 1111 and 2222 give the string "1111,2222" and nine 0 indicators under the users "2222" and "3333" |
| `TermSelection.Keys` | dynhashtag/classifier.py:195-197 | the keys of the score dict built over the keyword list: each keyword exactly once, and nothing else |
| `TermSelection.KeyOrdersArePermutations` | dynhashtag/classifier.py:195-199 | any two iteration orders of the score dict's keys are permutations of each other |
| `TermSelection.SortByScore` | dynhashtag/classifier.py:199 | the ordering is a permutation of the terms with non-increasing scores |
| `TermSelection.TopK` | dynhashtag/classifier.py:181-199 | returns min(K, number of terms) of the terms, a sub-multiset, in non-increasing score order; no term left out scores strictly higher than a term returned |
| `TermSelection.TopKOfDistinct` | dynhashtag/classifier.py:199 | chosen from distinct keys, the selected terms are distinct |
| `TermCount.AddTermsEntry` | dynhashtag/classifier.py:107-113 | adding terms skips stop-words, enters a new term with frequency 1 and document frequency 0, and adds one per occurrence to a known term |
| `TermCount.CorpusCounts` | dynhashtag/classifier.py:100-135 | the word dict holds exactly the non-stop-word text and hashtag terms, with their occurrence counts; the user dict holds exactly the mention and author ids, with theirs; a word's document frequency lies between the number of tweets having it as a word and the number having it at all, hence in [1, number of tweets] |
| `TermCount.CountTerms` | dynhashtag/classifier.py:115-135 | the loop over the positive tweets computes `CountCorpus` |
| `TermCount.CountOneTweet` | dynhashtag/classifier.py:116-135 | one iteration adds the cleaned terms, then the hashtags, then the users, then marks the tweet's distinct terms once |
| `TermCount.AddEach` | dynhashtag/classifier.py:120-130 | a loop of `_add_term` calls computes `AddTerms` |
| `TermCount.MarkEach` | dynhashtag/classifier.py:135 | applying `_doc_freq` to a set of terms raises the document frequency of each of them that has an entry by exactly one |
| `TermCount.SelectFrequent` | dynhashtag/classifier.py:137-138 | the selected list has no repeats and holds exactly the keys whose frequency is above 10 |
| `Classifier.SampleStreamListener.constructor` | dynhashtag/classifier.py:34-37 | a new listener has the given size and an empty sample |
| `Classifier.SampleStreamListener.OnStatus` | dynhashtag/classifier.py:39-44 | with size <= 0 it returns false and leaves the sample; otherwise it appends the status and returns true; the size never changes |
| `Classifier.CollectSample` | dynhashtag/classifier.py:39-47 | delivering statuses until the listener says stop: a positive size collects ALL of them, however many; any other size collects none |
| `Classifier.IntersectingKeeps` | dynhashtag/classifier.py:153-157 | the kept tweets are a subsequence of the sample holding exactly the sampled tweets that share a token with the selected terms |
| `Classifier.AdaptiveTweetClassifierTrainer.constructor` | dynhashtag/classifier.py:59-71 | the stop-words are the English list once per language (a word is a stop-word iff some language is configured and it is English); the query set starts empty |
| `Classifier.AdaptiveTweetClassifierTrainer.PosTermSelection` | dynhashtag/classifier.py:91-138 | replaces the query set: the keywords are exactly the non-stop-word text and hashtag terms occurring more than 10 times; the users are exactly the mention and author ids occurring more than 10 times, with no stop-word filter; neither list repeats |
| `Classifier.AdaptiveTweetClassifierTrainer.EncodeAll` | dynhashtag/classifier.py:160-163 | returns the feature vector of every tweet in order, or the exception of the first tweet that raises |
| `Classifier.AdaptiveTweetClassifierTrainer.FilterNegative` | dynhashtag/classifier.py:140-167 | KeyError without a query set; otherwise, for some iteration order of the distinct keywords, it takes their top-K, encodes exactly the sampled tweets sharing a token with them, in sample order, and labels each 0, with one label per vector |
| `Classifier.AdaptiveTweetClassifierTrainer.FilterPositive` | dynhashtag/classifier.py:170-179 | one feature vector per input tweet in order, and as many labels, all 1; or the first tweet's exception |
| `Classifier.AdaptiveTweetClassifierTrainer.GetQuerySet` | dynhashtag/classifier.py:232-236 | returns keywords ++ users, and the stored keyword list becomes that same list while the users are unchanged; KeyError without a query set |
| `TweetHandling.ClassifierQueue.Put` | dynhashtag/classifier.py:215 | appends at the back and keeps the history invariant: taken ++ waiting == everything put |
| `TweetHandling.ClassifierQueue.Get` | dynhashtag/tweethandling.py:120 | removes and returns the front element, recording it as taken |
| `TweetHandling.TweetStreamListener.constructor` | dynhashtag/tweethandling.py:40-49 | a new listener shares the given queue, has no classifier (so it accepts every tweet with text) and an empty store log |
| `TweetHandling.TweetStreamListener.OnStatus` | dynhashtag/tweethandling.py:75-123 | empty text or a negative prediction: returns None and changes nothing; otherwise exactly one insert attempt is logged, a failed insert included; then a non-empty queue loses its front, which becomes the classifier, and False forces a restart; an empty queue gives True and keeps the classifier |
| `TweetHandling.FifoHandoff` | dynhashtag/tweethandling.py:119-121 | two classifiers put in order are installed in that order by two accepted tweets, each take answering False |

## Left out

- Database access: reading the positive tweets and the SQL inserts. The positive tweets are a
  method argument. The store is the listener's `storeLog`, with the outcome of each insert given
  as `storeOk`.
- `join_entity` is imported by the listener (`dynhashtag/tweethandling.py:17`) but not defined in
  the utility module, so as written the module fails to load. Its call at
  `dynhashtag/tweethandling.py:91` comes before the `try` at line 98. The model records the whole
  tweet in each store attempt rather than the joined entity columns. The failures inside the
  `try` (including a connection that only exists after `on_connect`) are swallowed, and they
  appear only as `storeOk`.
- The feature vector that `on_status` passes to the classifier at
  `dynhashtag/tweethandling.py:86` is never computed: the line that would compute it (line 85) is
  commented out, so as written every status reaching an installed classifier raises NameError.
  `TweetHandling.TweetStreamListener.OnStatus` takes the vector as its `features` input.
- The streaming client and its authentication: `get_random_sample`, `on_connect`,
  `connect_db`, `on_event`, `on_error` and the main loop. They are network I/O. The sample
  stream's delivery loop appears only as `Classifier.CollectSample`'s argument sequence.
- `Classifier.SampleStreamListener.constructor`: as written, `super(StreamListener).__init__()`
  at `dynhashtag/classifier.py:35` raises TypeError under Python 2: the one-argument `super` is
  unbound, and its own initializer is called with no arguments. So `get_random_sample` and with
  it `filter_negative` always fail there. The model takes the evident meaning,
  `StreamListener.__init__(self)`, and `Classifier.CollectSample` relies on it.
- The retraining `Timer` and training `Thread`. This is concurrency, and the timer fires once.
- `train_classifier`: `list.extend` returns None, so as written `fit(None, None)` raises and
  the `put` at `dynhashtag/classifier.py:215` is never reached. The SVM itself is opaque.
  `TweetHandling.ClassifierQueue.Put` stands for the intended path, which ends with that `put`
  on the shared queue.
- The internals of `Queue.Queue` (locking, blocking). `TweetHandling.ClassifierQueue.Get`
  requires a non-empty queue because the listener only calls it after finding the queue
  non-empty.
- The word tokenizer and the stop-word corpus are inputs.
- `Features.FeatureVector`: the trailing ratio is an exact `real` quotient, not the rounded
  Python `float` of `dynhashtag/classifier.py:260`.
- The TF-IDF formula (`log`, floating point, integer division) is an abstract score function.
  `term_selection` as written reads the keyword list as a dict of counts. The model selects
  over the distinct keywords with the given scores. Python 2 iterates a dict in hash order,
  which decides ties at the K-th score. The model does not compute hashes, so
  `Classifier.AdaptiveTweetClassifierTrainer.FilterNegative` promises its result for SOME order
  of the distinct keys (`TermSelection.KeyOrder`), not for the one hashing would give.
- `TermSelection.TopK`: how equal scores are ordered is not stated in its contract, although
  the stable insertion keeps them in input order, as `nlargest` does.
- `TermCount.CorpusCounts` and `Classifier.AdaptiveTweetClassifierTrainer.PosTermSelection`
  model the evident meaning of `pos_term_selection`, not its literal text. As written it would
  fail: `dict(TweetCount)` raises, a namedtuple is incremented, and `append` is called on the
  joined entity strings. A document-frequency update for a term without a word entry (a user
  id, a stop-word) is skipped instead of raising KeyError.
- `Classifier.AdaptiveTweetClassifierTrainer.FilterNegative`: the labels use `len` of the
  vector list; the source passes the list itself to `range`, which raises TypeError.
- Prints, the `print` of the statuses, and the listener's stored `trainer` (used only by the
  retraining timer).
- The legacy `dynamic-hashtag/` copies of the trainer and listener are not part of this model:
  their constructor, counting and encoder cannot run as written.
