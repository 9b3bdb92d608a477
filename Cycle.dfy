/**
 * One pass of the polling loop, reduced to its decisions: no price data means
 * no signal and a short wait; a frame too short to train on fails the cycle;
 * `generate_signal` may still fail on the predicted class; otherwise the
 * report is sent with the sentiment shown as positive or
 * negative, and the bot waits for the full interval.  Fetching, sending and
 * sleeping are not modelled: the prices and the texts are parameters and the
 * wait is returned as a number of seconds.
 */
module Cycle {
  import opened Wrappers
  import opened Features
  import opened Sentiment
  import opened Decision

  /** Seconds to wait after a cycle that produced no report. */
  const RetryDelay: nat := 60
  /** Seconds to wait after a report (`SLEEP_TIME`). */
  const SleepTime: nat := 3600

  /** How the message shows the sentiment ("Positif" or "Négatif"). */
  datatype Mood = Positive | Negative

  /** What a cycle ends with. */
  datatype Outcome =
    | NoPriceData                     // the price frame is empty
    | TrainingFailed                  // `model.fit` on an empty feature matrix raises
    | SignalFailed(reason: Failure)   // `generate_signal` raises
    | Notified(report: Report, mood: Mood)

  /** The sentiment shown in the message: positive exactly when strictly above 0, so 0 shows as negative. */
  function MoodOf(sentiment: real): (m: Mood)
    ensures m == Positive <==> sentiment > 0.0
    ensures m == Negative <==> sentiment <= 0.0
  {
    if sentiment > 0.0 then Positive else Negative
  }

  /** The wait before the next cycle. */
  function Delay(o: Outcome): nat
  {
    if o.Notified? then SleepTime else RetryDelay
  }

  /**
   * One cycle on the close prices of the fetched frame, the fetched news texts,
   * the sentiment classifier and the model trained on this frame: no signal for
   * an empty frame, a training failure for one to nine closes, and otherwise
   * exactly what `generate_signal` gives for the sentiment of the news: its
   * failure, or its report, sent with that sentiment shown.
   */
  function RunCycle(closes: seq<real>, texts: seq<string>, analyse: string -> Classification,
                    predict: FeatureRow -> Prediction): (o: Outcome)
    ensures o == NoPriceData <==> closes == []
    ensures o == TrainingFailed <==> 0 < |closes| < LongWindow
    ensures o != SignalFailed(NoFeatureRow)
    ensures o.Notified? ==> o.report.price == closes[|closes| - 1]
    ensures o.Notified? ==> GenerateSignal(predict, closes, AverageSentiment(texts, analyse)) == Ok(o.report)
    ensures o.SignalFailed? ==> GenerateSignal(predict, closes, AverageSentiment(texts, analyse)) == Err(o.reason)
    ensures o.Notified? ==> (o.mood == Positive <==> AverageSentiment(texts, analyse) > 0.0)
  {
    FeatureRows(closes);
    if closes == [] then NoPriceData
    else
      var sentiment := AverageSentiment(texts, analyse);
      if |PrepareFeatures(closes).x| == 0 then TrainingFailed
      else
        match GenerateSignal(predict, closes, sentiment)
        case Err(e) => SignalFailed(e)
        case Ok(r) => Notified(r, MoodOf(sentiment))
  }

  /**
   * A report is sent exactly when there are ten closes or more and the
   * predicted class has a probability, and only then does the bot wait the
   * full interval; every other outcome waits one minute.
   */
  lemma CycleCases(closes: seq<real>, texts: seq<string>, analyse: string -> Classification,
                   predict: FeatureRow -> Prediction)
    ensures var o := RunCycle(closes, texts, analyse, predict);
      && (o.Notified? <==> |closes| >= LongWindow && Confidence(predict(LastRow(closes))).Some?)
      && (Delay(o) == SleepTime <==> o.Notified?)
      && (Delay(o) == RetryDelay <==> !o.Notified?)
  {
    FeatureRows(closes);
    if |closes| >= LongWindow {
      GenerateSignalCases(predict, closes, AverageSentiment(texts, analyse));
    }
  }

  /**
   * With classifier scores in [0, 1] and a calibrated prediction, a sent score
   * lies in [0.25, 1], and SELL is sent only when the news sentiment is below
   * -0.4 and is then shown as negative.
   */
  lemma NotifiedScoreBounds(closes: seq<real>, texts: seq<string>, analyse: string -> Classification,
                            predict: FeatureRow -> Prediction)
    requires forall i :: 0 <= i < |texts| ==> 0.0 <= analyse(texts[i]).score <= 1.0
    requires |closes| >= LongWindow ==> Calibrated(predict(LastRow(closes)))
    ensures var o := RunCycle(closes, texts, analyse, predict);
      o.Notified? ==>
        && 0.25 <= o.report.score <= 1.0
        && (o.report.signal == Sell ==> AverageSentiment(texts, analyse) < -0.4 && o.mood == Negative)
  {
    var sentiment := AverageSentiment(texts, analyse);
    FeatureRows(closes);
    if |closes| >= LongWindow {
      var p := predict(LastRow(closes));
      ConfidenceAtLeastHalf(p);
      SellNeedsBadNews(p, sentiment);
      GenerateSignalCases(predict, closes, sentiment);
    }
  }
}
