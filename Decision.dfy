/**
 * Signal fusion and risk levels (`generate_signal`).  The trained random
 * forest is opaque: it is the parameter `predict`, which gives the predicted
 * class and the probability vector for one feature row.
 */
module Decision {
  import opened Wrappers
  import opened Stats
  import opened Features

  /** The three recommendations. */
  datatype Signal = Buy | Sell | Hold

  /** What the trained model says about one feature row: `predict(row)[0]` and `predict_proba(row)[0]`. */
  datatype Prediction = Prediction(cls: nat, proba: seq<real>)

  /** Why `generate_signal` raises instead of returning. */
  datatype Failure =
    | NoFeatureRow     // `X[-1]` on an empty feature matrix
    | ClassNotInProba  // the predicted class is not an index of the probability vector

  /** The tuple `(signal, score_final, last_price, tp, sl)`. */
  datatype Report = Report(signal: Signal, score: real, price: real, takeProfit: real, stopLoss: real)

  /** Take-profit and stop-loss prices. */
  datatype Levels = Levels(takeProfit: real, stopLoss: real)

  /** A final score strictly above this is a BUY. */
  const BuyThreshold: real := 0.6
  /** A final score strictly below this is a SELL. */
  const SellThreshold: real := 0.4
  /** Price factor of the upper band (+0.3%). */
  const UpFactor: real := 1.003
  /** Price factor of the lower band (-0.3%). */
  const DownFactor: real := 0.997

  /**
   * `predict_proba(row)[0][market_pred]`: the probability the model gives to
   * the class it predicts, absent (an IndexError) when that class is not an
   * index of the probability vector.
   */
  function Confidence(p: Prediction): (c: Option<real>)
    ensures c.Some? <==> p.cls < |p.proba|
    ensures c.Some? ==> c.value == p.proba[p.cls]
    ensures c.Some? ==> c.value in p.proba
    ensures Calibrated(p) ==> c.Some? && forall j :: 0 <= j < |p.proba| ==> p.proba[j] <= c.value
  {
    if p.cls < |p.proba| then Some(p.proba[p.cls]) else None
  }

  /**
   * The shape of a random forest's answer for labels drawn from {0, 1}: one
   * probability per class seen in training, the probabilities adding up to 1,
   * and the predicted class the most probable one.
   */
  predicate Calibrated(p: Prediction)
  {
    && 1 <= |p.proba| <= 2
    && p.cls < |p.proba|
    && (forall j :: 0 <= j < |p.proba| ==> 0.0 <= p.proba[j] <= p.proba[p.cls])
    && Sum(p.proba) == 1.0
  }

  /** The confidence of a calibrated prediction is the probability of its most likely class, hence at least 1/2. */
  lemma ConfidenceAtLeastHalf(p: Prediction)
    requires Calibrated(p)
    ensures Confidence(p).Some?
    ensures 0.5 <= Confidence(p).value <= 1.0
  {
    var q := p.proba;
    assert Sum(q) == q[0] + Sum(q[1..]);
    if |q| == 2 {
      assert Sum(q[1..]) == q[1] + Sum(q[2..]);
    }
  }

  /** The final score: the mean of the confidence and the sentiment moved from [-1, 1] onto [0, 1]. */
  function ScoreFinal(confidence: real, sentiment: real): (score: real)
    ensures 0.0 <= confidence <= 1.0 && -1.0 <= sentiment <= 1.0 ==> 0.0 <= score <= 1.0
    ensures 0.5 <= confidence && -1.0 <= sentiment ==> score >= 0.25
  {
    (confidence + (0.5 + sentiment / 2.0)) / 2.0
  }

  /** The final score never decreases when the confidence or the sentiment grows. */
  lemma ScoreFinalMonotone(c1: real, s1: real, c2: real, s2: real)
    requires c1 <= c2 && s1 <= s2
    ensures ScoreFinal(c1, s1) <= ScoreFinal(c2, s2)
  {
  }

  /** The strict thresholds: BUY above 0.6, SELL below 0.4, HOLD on [0.4, 0.6] including both ends. */
  function Classify(score: real): (signal: Signal)
    ensures signal == Buy <==> score > BuyThreshold
    ensures signal == Sell <==> score < SellThreshold
    ensures signal == Hold <==> SellThreshold <= score <= BuyThreshold
  {
    if score > BuyThreshold then Buy
    else if score < SellThreshold then Sell
    else Hold
  }

  /** The order SELL < HOLD < BUY. */
  function Rank(signal: Signal): int
  {
    match signal
    case Sell => 0
    case Hold => 1
    case Buy => 2
  }

  /** A higher score never gives a lower signal. */
  lemma ClassifyMonotone(a: real, b: real)
    requires a <= b
    ensures Rank(Classify(a)) <= Rank(Classify(b))
  {
  }

  /** Take-profit and stop-loss: ±0.3% bands around the price, their direction following the signal. */
  function RiskLevels(signal: Signal, price: real): (lv: Levels)
    ensures price > 0.0 && signal == Buy ==> lv.stopLoss < price < lv.takeProfit
    ensures price > 0.0 && signal == Sell ==> lv.takeProfit < price < lv.stopLoss
    ensures signal == Hold ==> lv.takeProfit == price == lv.stopLoss
  {
    match signal
    case Buy => Levels(price * UpFactor, price * DownFactor)
    case Sell => Levels(price * DownFactor, price * UpFactor)
    case Hold => Levels(price, price)
  }

  /** The SELL levels are the BUY levels swapped, and both bands are symmetric around the price. */
  lemma RiskBandsSymmetric(price: real)
    ensures RiskLevels(Sell, price) ==
            Levels(RiskLevels(Buy, price).stopLoss, RiskLevels(Buy, price).takeProfit)
    ensures RiskLevels(Buy, price).takeProfit - price == price - RiskLevels(Buy, price).stopLoss
    ensures RiskLevels(Buy, price).takeProfit - price == 3.0 * price / 1000.0
  {
  }

  /**
   * `generate_signal(model, df, sentiment)`: raises on an empty feature matrix
   * (fewer than ten closes) or a class index outside the probabilities;
   * otherwise reports the last close, the threshold signal of the final score
   * and the bands of that signal.
   */
  function GenerateSignal(predict: FeatureRow -> Prediction, closes: seq<real>, sentiment: real)
    : (r: Result<Report, Failure>)
    ensures |closes| < LongWindow <==> r == Err(NoFeatureRow)
    ensures r.Ok? ==> r.value.price == closes[|closes| - 1]
    ensures r.Ok? ==> (r.value.signal == Buy <==> r.value.score > BuyThreshold)
    ensures r.Ok? ==> (r.value.signal == Sell <==> r.value.score < SellThreshold)
    ensures r.Ok? ==> Levels(r.value.takeProfit, r.value.stopLoss) == RiskLevels(r.value.signal, r.value.price)
  {
    FeatureRows(closes);
    var x := PrepareFeatures(closes).x;
    if |x| == 0 then Err(NoFeatureRow)
    else
      var p := predict(x[|x| - 1]);
      match Confidence(p)
      case None => Err(ClassNotInProba)
      case Some(confidence) =>
        var score := ScoreFinal(confidence, sentiment);
        var signal := Classify(score);
        var price := closes[|closes| - 1];
        var lv := RiskLevels(signal, price);
        Ok(Report(signal, score, price, lv.takeProfit, lv.stopLoss))
  }

  /** The last feature row, on which the prediction is made. */
  function LastRow(closes: seq<real>): FeatureRow
    requires |closes| >= LongWindow
  {
    FeatureRows(closes);
    var x := PrepareFeatures(closes).x;
    x[|x| - 1]
  }

  /**
   * With ten closes or more, `generate_signal` fails exactly when the class
   * predicted for the last feature row has no probability; otherwise it
   * reports the final score of that probability and the sentiment.
   */
  lemma GenerateSignalCases(predict: FeatureRow -> Prediction, closes: seq<real>, sentiment: real)
    requires |closes| >= LongWindow
    ensures Confidence(predict(LastRow(closes))).None? <==>
            GenerateSignal(predict, closes, sentiment) == Err(ClassNotInProba)
    ensures Confidence(predict(LastRow(closes))).Some? ==>
            var r := GenerateSignal(predict, closes, sentiment);
            var conf := Confidence(predict(LastRow(closes))).value;
            r.Ok? && r.value.score == (conf + (0.5 + sentiment / 2.0)) / 2.0
  {
    FeatureRows(closes);
  }

  /**
   * The prediction enters the result only through its confidence: two models
   * that give the predicted class of the last feature row the same
   * probability give the same result, whichever class each predicts.
   */
  lemma OnlyConfidenceMatters(p: FeatureRow -> Prediction, q: FeatureRow -> Prediction,
                              closes: seq<real>, sentiment: real)
    requires |closes| >= LongWindow
    requires Confidence(p(LastRow(closes))) == Confidence(q(LastRow(closes)))
    ensures GenerateSignal(p, closes, sentiment) == GenerateSignal(q, closes, sentiment)
  {
    FeatureRows(closes);
  }

  /**
   * The recommendation depends on the prices only through the last ten closes:
   * the prediction is made on the last feature row alone, and the reference
   * price is the last close.
   */
  lemma LastTenClosesDecide(predict: FeatureRow -> Prediction, a: seq<real>, b: seq<real>, sentiment: real)
    requires |a| >= LongWindow && |b| >= LongWindow
    requires a[|a| - LongWindow..] == b[|b| - LongWindow..]
    ensures GenerateSignal(predict, a, sentiment) == GenerateSignal(predict, b, sentiment)
  {
    FeatureRows(a);
    FeatureRows(b);
    var ta, tb := a[|a| - LongWindow..], b[|b| - LongWindow..];
    var ka, kb := |a| - LongWindow, |b| - LongWindow;
    assert a[ka + LongWindow - ShortWindow .. ka + LongWindow] == ta[LongWindow - ShortWindow..];
    assert b[kb + LongWindow - ShortWindow .. kb + LongWindow] == tb[LongWindow - ShortWindow..];
    assert a[ka .. ka + LongWindow] == ta;
    assert b[kb .. kb + LongWindow] == tb;
    assert LastRow(a) == LastRow(b);
    assert a[|a| - 1] == ta[LongWindow - 1] == b[|b| - 1];
  }

  /**
   * With a calibrated prediction the score only reaches SELL when the
   * sentiment is below -0.4: the confidence of whichever class is predicted
   * pulls the score up, so neutral news never gives SELL.
   */
  lemma SellNeedsBadNews(p: Prediction, sentiment: real)
    requires Calibrated(p)
    ensures Classify(ScoreFinal(Confidence(p).value, sentiment)) == Sell ==> sentiment < -0.4
  {
    ConfidenceAtLeastHalf(p);
  }

  /**
   * A model certain that the difference will not be positive (class 0 with
   * probability 1) together with neutral news gives BUY: the fusion uses the
   * confidence of the predicted class, not its direction.
   */
  lemma CertainFallStillBuys(closes: seq<real>)
    requires |closes| >= LongWindow
    ensures var r := GenerateSignal(_ => Prediction(0, [1.0, 0.0]), closes, 0.0);
            r.Ok? && r.value.signal == Buy && r.value.score == 0.75
  {
    FeatureRows(closes);
  }
}
