/** Values shared by the trainer, the feature encoder and the ingestion listener. */
module Common {

  datatype Option<T> = None | Some(value: T)

  /** The Python exceptions the modelled code can raise on its own inputs. */
  datatype Error =
    | KeyError           // a lookup in the trainer's still-empty `query_set` dict
    | ZeroDivisionError  // the trailing ratio of a tweet whose tokens are all stop-words

  /** A value, or the exception that was raised instead of returning it. */
  datatype Result<T> = Ok(value: T) | Fail(error: Error)

  /** A status as the trainer and the listener see it.
      `tokens` stands for what the word tokenizer makes of `text` (the tokenizer is not part of
      this model); `hashtags` are the texts of the hashtag entities, `mentionIds` the numeric ids
      of the mentioned users, and `authorId` the author's `id_str`. */
  datatype Tweet = Tweet(
    text: string,
    tokens: seq<string>,
    hashtags: seq<string>,
    mentionIds: seq<nat>,
    authorId: string)

  /** The tokenizer never produces an empty token; the source reads the first character of each. */
  predicate TokensNonEmpty(tw: Tweet) {
    forall i :: 0 <= i < |tw.tokens| ==> |tw.tokens[i]| > 0
  }

  /** The trainer's `query_set` dict once both of its keys are set. */
  datatype QuerySet = QuerySet(keyword: seq<string>, user: seq<string>)

  /** The elements of `s` whose `mask` entry is true, in their order in `s`. */
  function Select<T>(s: seq<T>, mask: seq<bool>): (r: seq<T>)
    requires |mask| == |s|
    ensures |r| <= |s|
  {
    if s == [] then []
    else
      var init := Select(s[..|s| - 1], mask[..|s| - 1]);
      if mask[|s| - 1] then init + [s[|s| - 1]] else init
  }

  /** `a` is `b` with some of its elements left out and the others kept in order. */
  ghost predicate SubsequenceOf<T>(a: seq<T>, b: seq<T>) {
    exists mask: seq<bool> :: |mask| == |b| && Select(b, mask) == a
  }

  /** No element occurs twice. */
  predicate Distinct<T(==)>(s: seq<T>) {
    forall i, j :: 0 <= i < j < |s| ==> s[i] != s[j]
  }
}
