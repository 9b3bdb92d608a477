/**
 * Sentiment of the news (`sentiment_score`) and the text of one article
 * (`get_news`).  The transformer classifier is opaque: it is the parameter
 * `analyse`, which gives the first `(label, score)` pair it returns for a text.
 */
module Sentiment {
  import opened Wrappers
  import opened Stats

  /** The first result of the sentiment pipeline for one text: a label (`tag`) and the probability of that label. */
  datatype Classification = Classification(tag: string, score: real)

  /** The label the pipeline gives to positive texts. */
  const PositiveLabel: string := "POSITIVE"

  /** One article as the text `title + ". " + description`, an absent or empty description adding nothing. */
  function NewsText(title: string, description: Option<string>): (text: string)
    ensures |text| >= |title| + 2
    ensures text[..|title|] == title && text[|title|..|title| + 2] == ". "
    ensures text[|title| + 2..] == if description.Some? then description.value else ""
  {
    title + ". " + (if description.Some? then description.value else "")
  }

  /** The signed value of one result: `+score` for POSITIVE, `-score` for any other label. */
  function Signed(c: Classification): real
  {
    if c.tag == PositiveLabel then c.score else -c.score
  }

  /** The signed values of the texts, in their order. */
  function SignedScores(texts: seq<string>, analyse: string -> Classification): (scores: seq<real>)
    ensures |scores| == |texts|
  {
    seq(|texts|, i requires 0 <= i < |texts| => Signed(analyse(texts[i])))
  }

  /**
   * The sentiment of a batch of texts: 0 for no texts, otherwise the mean of
   * their signed values; when every classifier score lies in [0, 1] it lies in
   * [-1, 1].
   */
  function AverageSentiment(texts: seq<string>, analyse: string -> Classification): (average: real)
    ensures texts == [] ==> average == 0.0
    ensures (forall i :: 0 <= i < |texts| ==> 0.0 <= analyse(texts[i]).score <= 1.0) ==>
            -1.0 <= average <= 1.0
  {
    if texts == [] then 0.0
    else
      var scores := SignedScores(texts, analyse);
      MeanBoundedBy(scores, -1.0, 1.0);
      Mean(scores)
  }

  /** `sentiment_score(texts)`: classify each text in turn, collect the signed values, return their mean. */
  method SentimentScore(texts: seq<string>, analyse: string -> Classification) returns (average: real)
    ensures average == AverageSentiment(texts, analyse)
    ensures texts == [] ==> average == 0.0
  {
    if texts == [] {
      return 0.0;
    }
    var scores: seq<real> := [];
    for i := 0 to |texts|
      invariant scores == SignedScores(texts[..i], analyse)
    {
      var result := analyse(texts[i]);
      var score := if result.tag == PositiveLabel then result.score else -result.score;
      scores := scores + [score];
    }
    assert texts[..|texts|] == texts;
    average := Sum(scores) / (|scores| as real);
  }

  /** When every text is classified POSITIVE, the sentiment is not negative; when none is, it is not positive. */
  lemma UnanimousSentiment(texts: seq<string>, analyse: string -> Classification)
    requires forall i :: 0 <= i < |texts| ==> 0.0 <= analyse(texts[i]).score
    ensures (forall i :: 0 <= i < |texts| ==> analyse(texts[i]).tag == PositiveLabel) ==>
            AverageSentiment(texts, analyse) >= 0.0
    ensures (forall i :: 0 <= i < |texts| ==> analyse(texts[i]).tag != PositiveLabel) ==>
            AverageSentiment(texts, analyse) <= 0.0
  {
    if texts != [] {
      var scores := SignedScores(texts, analyse);
      if forall i :: 0 <= i < |texts| ==> analyse(texts[i]).tag == PositiveLabel {
        MeanAtLeast(scores, 0.0);
      }
      if forall i :: 0 <= i < |texts| ==> analyse(texts[i]).tag != PositiveLabel {
        MeanAtMost(scores, 0.0);
      }
    }
  }

  /** The signed values of a concatenation are the concatenation of the signed values. */
  lemma SignedScoresAppend(a: seq<string>, b: seq<string>, analyse: string -> Classification)
    ensures SignedScores(a + b, analyse) == SignedScores(a, analyse) + SignedScores(b, analyse)
  {
  }

  /** The sentiment does not depend on the order of the texts: any permutation gives the same value. */
  lemma {:induction false} SentimentOrderFree(a: seq<string>, b: seq<string>, analyse: string -> Classification)
    requires multiset(a) == multiset(b)
    ensures AverageSentiment(a, analyse) == AverageSentiment(b, analyse)
  {
    assert |a| == |multiset(a)| == |multiset(b)| == |b|;
    SignedSumOrderFree(a, b, analyse);
  }

  /** The sum of the signed values is the same for any permutation of the texts. */
  lemma {:induction false} SignedSumOrderFree(a: seq<string>, b: seq<string>, analyse: string -> Classification)
    requires multiset(a) == multiset(b)
    ensures Sum(SignedScores(a, analyse)) == Sum(SignedScores(b, analyse))
    decreases |a|
  {
    if a == [] {
      assert |b| == |multiset(b)| == 0;
    } else {
      assert a[0] in multiset(b);
      var j :| 0 <= j < |b| && b[j] == a[0];
      RemoveOne(a, b, j);
      SignedSumOrderFree(a[1..], b[..j] + b[j + 1..], analyse);
      SignedSumWithout(a, 0, analyse);
      SignedSumWithout(b, j, analyse);
      assert a[..0] + a[1..] == a[1..];
    }
  }

  /** Taking the same text out of two permutations of each other leaves two permutations of each other. */
  lemma RemoveOne(a: seq<string>, b: seq<string>, j: nat)
    requires multiset(a) == multiset(b) && |a| > 0
    requires j < |b| && b[j] == a[0]
    ensures multiset(a[1..]) == multiset(b[..j] + b[j + 1..])
  {
    var x := a[0];
    assert a == [x] + a[1..];
    assert b == b[..j] + [x] + b[j + 1..];
    calc {
      multiset(a[1..]);
      multiset(a) - multiset{x};
      multiset(b) - multiset{x};
      multiset(b[..j] + b[j + 1..]);
    }
  }

  /** The signed sum is the signed value of text `j` plus the signed sum of the other texts. */
  lemma SignedSumWithout(texts: seq<string>, j: nat, analyse: string -> Classification)
    requires j < |texts|
    ensures Sum(SignedScores(texts, analyse)) ==
            Signed(analyse(texts[j])) + Sum(SignedScores(texts[..j] + texts[j + 1..], analyse))
  {
    var front, back := texts[..j], texts[j + 1..];
    assert texts == front + ([texts[j]] + back);
    SignedScoresAppend(front, [texts[j]] + back, analyse);
    SignedScoresAppend([texts[j]], back, analyse);
    SignedScoresAppend(front, back, analyse);
    var sf, sx, sb := SignedScores(front, analyse), SignedScores([texts[j]], analyse), SignedScores(back, analyse);
    SumAppend(sf, sx + sb);
    SumAppend(sx, sb);
    SumAppend(sf, sb);
  }
}
