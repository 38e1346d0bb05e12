/** The entity helpers of the utility module: joining entity lists into strings and
    dropping `@`/`#`-prefixed terms. */
module Util {
  import opened Common

  predicate IsDigit(c: char) {
    '0' <= c <= '9'
  }

  function DigitChar(d: nat): (c: char)
    requires d < 10
    ensures IsDigit(c)
  {
    ('0' as int + d) as char
  }

  /** Python's `str` of a non-negative int: its decimal digits. */
  function NatToString(n: nat): (s: string)
    ensures |s| > 0
    ensures forall i :: 0 <= i < |s| ==> IsDigit(s[i])
  {
    if n < 10 then [DigitChar(n)] else NatToString(n / 10) + [DigitChar(n % 10)]
  }

  /** `",".join(xs)`. */
  function Join(xs: seq<string>): string {
    if xs == [] then ""
    else if |xs| == 1 then xs[0]
    else xs[0] + "," + Join(xs[1..])
  }

  /** `s.split(",")`: the pieces between commas; always at least one piece. */
  function Split(s: string): (parts: seq<string>)
    ensures |parts| > 0
  {
    if s == [] then [""]
    else
      var rest := Split(s[1..]);
      if s[0] == ',' then [""] + rest else [[s[0]] + rest[0]] + rest[1..]
  }

  predicate CommaFree(x: string) {
    ',' !in x
  }

  /** `str(user['id'])` for each mention, in order. */
  function MentionStrings(ids: seq<nat>): (r: seq<string>)
    ensures |r| == |ids|
    ensures forall i :: 0 <= i < |ids| ==> r[i] == NatToString(ids[i])
  {
    seq(|ids|, i requires 0 <= i < |ids| => NatToString(ids[i]))
  }

  /** `extract_entity`: the hashtag texts and the mention ids, each list joined by ','. */
  function ExtractEntity(tw: Tweet): (string, string) {
    (Join(tw.hashtags), Join(MentionStrings(tw.mentionIds)))
  }

  lemma {:induction false} SplitCommaFree(x: string)
    requires CommaFree(x)
    ensures Split(x) == [x]
  {
    if x != [] {
      assert x[0] in x;
      SplitCommaFree(x[1..]);
      assert [x[0]] + x[1..] == x;
    }
  }

  lemma {:induction false} SplitAfterPiece(x: string, rest: string)
    requires CommaFree(x)
    ensures Split(x + "," + rest) == [x] + Split(rest)
  {
    if x == [] {
      assert x + "," + rest == [','] + rest;
      assert ([','] + rest)[1..] == rest;
    } else {
      SplitAfterPiece(x[1..], rest);
      assert (x + "," + rest)[1..] == x[1..] + "," + rest;
      assert [x[0]] + x[1..] == x;
    }
  }

  /** Joining comma-free pieces and splitting the result gives the pieces back,
      so the joined string keeps every piece and their order. */
  lemma {:induction false} JoinSplitRoundTrip(xs: seq<string>)
    requires xs != []
    requires forall i :: 0 <= i < |xs| ==> CommaFree(xs[i])
    ensures Split(Join(xs)) == xs
  {
    if |xs| == 1 {
      SplitCommaFree(xs[0]);
    } else {
      JoinSplitRoundTrip(xs[1..]);
      SplitAfterPiece(xs[0], Join(xs[1..]));
      assert [xs[0]] + xs[1..] == xs;
    }
  }

  /** What each of the two strings of `extract_entity` holds: "" for no entities, the entity
      itself for one, and otherwise pieces that split back into the entities in order
      (the mention ids as decimal strings, which never contain a comma). */
  lemma ExtractEntityContents(tw: Tweet)
    ensures tw.hashtags == [] ==> ExtractEntity(tw).0 == ""
    ensures |tw.hashtags| == 1 ==> ExtractEntity(tw).0 == tw.hashtags[0]
    ensures tw.hashtags != [] && (forall i :: 0 <= i < |tw.hashtags| ==> CommaFree(tw.hashtags[i]))
      ==> Split(ExtractEntity(tw).0) == tw.hashtags
    ensures tw.mentionIds == [] ==> ExtractEntity(tw).1 == ""
    ensures |tw.mentionIds| == 1 ==> ExtractEntity(tw).1 == NatToString(tw.mentionIds[0])
    ensures tw.mentionIds != [] ==> Split(ExtractEntity(tw).1) == MentionStrings(tw.mentionIds)
  {
    if tw.hashtags != [] && (forall i :: 0 <= i < |tw.hashtags| ==> CommaFree(tw.hashtags[i])) {
      JoinSplitRoundTrip(tw.hashtags);
    }
    var ms := MentionStrings(tw.mentionIds);
    if ms != [] {
      forall i | 0 <= i < |ms| ensures CommaFree(ms[i]) {
        var s := NatToString(tw.mentionIds[i]);
        assert forall k :: 0 <= k < |s| ==> s[k] != ',';
      }
      JoinSplitRoundTrip(ms);
    }
  }

  /** `term[0] in ('@', '#')`, for a non-empty term. */
  predicate Tagged(term: string) {
    |term| > 0 && (term[0] == '@' || term[0] == '#')
  }

  /** The terms that do not start with '@' or '#', in order: what `clean_entity` returns. */
  function Untagged(terms: seq<string>): seq<string> {
    if terms == [] then []
    else
      var init := Untagged(terms[..|terms| - 1]);
      if Tagged(terms[|terms| - 1]) then init else init + [terms[|terms| - 1]]
  }

  /** `clean_entity`: copies the terms that are neither mentions nor hashtags into a new list.
      Every term must be non-empty, since the source reads its first character. */
  method CleanEntity(tweet: seq<string>) returns (tweetTerms: seq<string>)
    requires forall i :: 0 <= i < |tweet| ==> |tweet[i]| > 0
    ensures tweetTerms == Untagged(tweet)
  {
    tweetTerms := [];
    for i := 0 to |tweet|
      invariant tweetTerms == Untagged(tweet[..i])
    {
      assert tweet[..i + 1][..i] == tweet[..i];
      var term := tweet[i];
      if term[0] != '@' && term[0] != '#' {
        tweetTerms := tweetTerms + [term];
      }
    }
    assert tweet[..|tweet|] == tweet;
  }

  function UntaggedMask(terms: seq<string>): (mask: seq<bool>)
    ensures |mask| == |terms|
  {
    seq(|terms|, i requires 0 <= i < |terms| => !Tagged(terms[i]))
  }

  /** The cleaned terms are the input with the tagged terms left out, order kept. */
  lemma {:induction false} UntaggedIsSubsequence(terms: seq<string>)
    ensures Select(terms, UntaggedMask(terms)) == Untagged(terms)
    ensures SubsequenceOf(Untagged(terms), terms)
    ensures |Untagged(terms)| <= |terms|
  {
    if terms != [] {
      var init := terms[..|terms| - 1];
      UntaggedIsSubsequence(init);
      assert UntaggedMask(terms)[..|terms| - 1] == UntaggedMask(init);
    }
  }

  /** A term is kept exactly when it is an input term that is not tagged. */
  lemma {:induction false} UntaggedMembers(terms: seq<string>, t: string)
    ensures t in Untagged(terms) <==> t in terms && !Tagged(t)
  {
    if terms != [] {
      var init := terms[..|terms| - 1];
      UntaggedMembers(init, t);
      assert terms == init + [terms[|terms| - 1]];
    }
  }

  lemma {:induction false} UntaggedOfPlain(terms: seq<string>)
    requires forall i :: 0 <= i < |terms| ==> !Tagged(terms[i])
    ensures Untagged(terms) == terms
  {
    if terms != [] {
      UntaggedOfPlain(terms[..|terms| - 1]);
    }
  }

  /** Cleaning twice is cleaning once. */
  lemma UntaggedIdempotent(terms: seq<string>)
    ensures Untagged(Untagged(terms)) == Untagged(terms)
  {
    var u := Untagged(terms);
    forall i | 0 <= i < |u| ensures !Tagged(u[i]) {
      UntaggedMembers(terms, u[i]);
    }
    UntaggedOfPlain(u);
  }
}
