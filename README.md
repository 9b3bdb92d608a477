# Forex signal bot: decision logic in Dafny

A model of the decision logic of a Forex signal bot (`forex_ai_full.py`).
Each hour the bot does the following:

- It fetches hourly EUR/USD quotes.
- It derives moving-average features from the close prices.
- It trains a random forest on those features and asks it about the last row.
- It scores recent news with a transformer sentiment classifier.
- It fuses the two scores into one, maps that score to BUY, SELL or HOLD, and sends the signal with take-profit and stop-loss levels.

The model covers the parts that decide something:

- `Features`: `prepare_features`, modelled the way pandas computes it. `rolling(w).mean()` writes NaN (here `None`) in the warm-up rows. `dropna` filters the rows. `shift(-1) > 0` builds the label, and a NaN compares false. The lemmas restate all of this in terms of the close prices alone.
- `Sentiment`: `sentiment_score`, as a method whose loop collects the signed per-text values. It is proved equal to the mean defined in `AverageSentiment`. The text of one article (`get_news`, line 67) is modelled too.
- `Decision`: `generate_signal`. This covers the confidence of the predicted class, the fusion `(confidence + (0.5 + sentiment/2)) / 2`, the strict thresholds 0.6 and 0.4, and the ±0.3% take-profit and stop-loss bands. The exceptions it can raise are modelled as `Err` values.
- `Cycle`: the decisions of one loop pass. An empty frame gives no signal and a 60-second wait. A frame too short to train on fails the cycle. A predicted class with no probability makes `generate_signal` fail. Otherwise the bot sends the report `generate_signal` computes from the news sentiment, labels the sentiment "Positif" exactly when it is > 0, and waits the full interval.
- `Stats`: sums and means of reals with their bound lemmas. `Wrappers`: `Option` and `Result`.

The two machine-learning components are opaque, so each is a function parameter:

- `analyse: string -> Classification` is the first `(label, score)` pair the sentiment pipeline returns for a text.
- `predict: FeatureRow -> Prediction` is the trained forest's predicted class and probability vector for one row.

Prices are exact reals, an idealisation of IEEE doubles.

The fusion uses the probability of the *predicted* class, whichever class that is. So a confident prediction that the moving-average difference will not be positive still raises the score towards BUY. `Decision.CertainFallStillBuys` and `Decision.SellNeedsBadNews` state this: with a calibrated forest, only news sentiment below -0.4 can produce SELL.

The code trains the forest on every feature row, including the last one, whose label is always 0 (`Features.LabelRule`). Training fails only when no row is left, that is with fewer than ten closes (`Cycle.RunCycle`).

## Model

| member | source | states |
|---|---|---|
| `Features.PrepareFeatures` | forex_ai_full.py:86-94 | `y` has exactly as many labels as `X` has rows |
| `Features.DropNa` | forex_ai_full.py:91 | every row `dropna` keeps has no NaN, and it keeps at most as many rows as it is given |
| `Features.DropNaMembers` | forex_ai_full.py:91 | a row is kept if and only if it is a row of the input and has no NaN |
| `Features.DropNaKeepsOrder` | forex_ai_full.py:91 | `dropna` of a concatenation is the concatenation of the `dropna`s, so the kept rows stay in their input order |
| `Features.DropNaSingle` | forex_ai_full.py:91 | a single row is kept exactly when it has no NaN |
| `Features.WarmUpRows` | forex_ai_full.py:88-90 | a row of the frame holds a NaN exactly when it is one of the first nine (the 10-point window is not yet full) |
| `Features.DropNaDropsPrefix` | forex_ai_full.py:91 | when the NaN rows form a prefix, `dropna` keeps exactly the rows after it, in order |
| `Features.KeptRows` | forex_ai_full.py:88-91 | the rows that survive `dropna` are the rows from index 9 on, or none when there are fewer than ten closes |
| `Features.FeatureRows` | forex_ai_full.py:88-92 | n closes give max(0, n - 9) feature rows. Row k is (mean of the 5 closes ending at close k+9, mean of the 10 closes ending there, their difference) |
| `Features.LabelRule` | forex_ai_full.py:93 | label k is 1 if and only if row k+1 exists and its diff is strictly positive, and 0 otherwise. The last label is always 0 |
| `Features.RisingSeriesLabels` | forex_ai_full.py:88-93 | on strictly rising closes every diff is positive, so every label but the last is 1 |
| `Features.RisingWindow` | forex_ai_full.py:88-90 | in a rising window of ten closes, the 5-point mean exceeds the 10-point mean |
| `Sentiment.NewsText` | forex_ai_full.py:67 | an article's text is its title, then ". ", then its description, or nothing when the description is absent |
| `Sentiment.AverageSentiment` | forex_ai_full.py:73-83 | the reference value of the sentiment is 0 for no texts. If every classifier score is in [0, 1], it is in [-1, 1] |
| `Sentiment.SentimentScore` | forex_ai_full.py:73-83 | returns 0 for no texts. Otherwise it returns the mean of the per-text values, +score for POSITIVE and -score for any other label |
| `Sentiment.UnanimousSentiment` | forex_ai_full.py:80-82 | if every text is POSITIVE the sentiment is >= 0, and if none is it is <= 0 |
| `Sentiment.SentimentOrderFree` | forex_ai_full.py:77-82 | any permutation of the texts gives the same sentiment |
| `Sentiment.SignedSumOrderFree` | forex_ai_full.py:81-82 | any permutation of the texts gives the same sum of signed values |
| `Sentiment.SignedSumWithout` | forex_ai_full.py:82 | the sum of signed values splits into one text's value plus the sum over the other texts |
| `Decision.Confidence` | forex_ai_full.py:109 | the confidence exists if and only if the predicted class indexes the probability vector (otherwise an IndexError). It is then the probability of the predicted class, and for a calibrated answer it is the largest one |
| `Decision.ConfidenceAtLeastHalf` | forex_ai_full.py:108-109 | the probability of the predicted class is in [0.5, 1] when the forest's answer is calibrated (probabilities add up to 1 and the predicted class is the most probable) |
| `Decision.ScoreFinal` | forex_ai_full.py:112 | with confidence in [0, 1] and sentiment in [-1, 1] the final score is in [0, 1]. With confidence >= 0.5 it is >= 0.25 |
| `Decision.ScoreFinalMonotone` | forex_ai_full.py:112 | the final score never decreases in the confidence or in the sentiment |
| `Decision.Classify` | forex_ai_full.py:114-119 | BUY if and only if score > 0.6. SELL if and only if score < 0.4. HOLD if and only if 0.4 <= score <= 0.6, so both boundaries give HOLD |
| `Decision.ClassifyMonotone` | forex_ai_full.py:114-119 | a higher score never gives a lower signal in the order SELL < HOLD < BUY |
| `Decision.RiskLevels` | forex_ai_full.py:121-130 | for a positive price, BUY has sl < price < tp and SELL has tp < price < sl. HOLD has tp = sl = price |
| `Decision.RiskBandsSymmetric` | forex_ai_full.py:123-130 | SELL's levels are BUY's levels swapped. The bands are symmetric, each 0.3% of the price away from it |
| `Decision.GenerateSignal` | forex_ai_full.py:104-132 | fails with `NoFeatureRow` if and only if there are fewer than ten closes. A report holds the last close, the signal is BUY iff its score > 0.6 and SELL iff its score < 0.4, and the levels are that signal's bands around the last close |
| `Decision.GenerateSignalCases` | forex_ai_full.py:106-112 | with ten closes or more, fails with `ClassNotInProba` if and only if the class predicted for the last feature row has no probability. Otherwise the score is (confidence + (0.5 + sentiment/2)) / 2 |
| `Decision.OnlyConfidenceMatters` | forex_ai_full.py:107-112 | two models giving the same confidence for the last feature row give the same result, whichever class each predicts |
| `Decision.LastTenClosesDecide` | forex_ai_full.py:104-121 | for the same trained model and sentiment, two price series that end in the same ten closes give the same result, because only `X[-1]` and the last close are used |
| `Decision.SellNeedsBadNews` | forex_ai_full.py:109-119 | with a calibrated prediction, SELL is reached only when the sentiment is below -0.4 |
| `Decision.CertainFallStillBuys` | forex_ai_full.py:108-119 | an instance of `OnlyConfidenceMatters`: a model certain of class 0, together with neutral news, gives BUY with score 0.75 |
| `Cycle.MoodOf` | forex_ai_full.py:158 | the sentiment is shown as positive if and only if it is > 0, so a sentiment of exactly 0 is shown as negative |
| `Cycle.RunCycle` | forex_ai_full.py:139-148 | the cycle ends with `NoPriceData` if and only if the frame is empty, and with a training failure if and only if it has one to nine closes, so `generate_signal` never sees an empty feature matrix. Otherwise the outcome is exactly `generate_signal`'s result for the news sentiment: its failure, or its report, sent. A sent report is priced at the last close, and its sentiment is shown as positive iff the news sentiment is > 0 |
| `Cycle.CycleCases` | forex_ai_full.py:139-167 | a report is sent exactly when there are ten or more closes and the predicted class has a probability. The full interval follows a report, and the one-minute wait follows every other outcome |
| `Cycle.NotifiedScoreBounds` | forex_ai_full.py:145-158 | with classifier scores in [0, 1] and a calibrated forest, a sent score is in [0.25, 1]. A SELL is sent only with sentiment below -0.4, shown as negative |

## Left out

- HTTP fetching (`get_forex_data`, `get_news`) and JSON parsing: network I/O. A failed price fetch returns an empty frame, modelled as an empty close sequence. Only the joining of title and description (line 67) is modelled.
- Missing quote values: the model assumes the quote service never sends a null or missing open, high, low or close. In the code, `astype(float)` would turn one into NaN, and `dropna` would then also drop that row.
- The caller's frame receiving the MA_5, MA_10 and diff columns in place: nothing else reads these columns, and the second call of `prepare_features` writes the same values again.
- Training the random forest (`train_market_model`) and `predict`/`predict_proba`: a foreign library. The trained model is the `predict` parameter, and training fails only on an empty feature matrix. `Calibrated` describes a forest's answer but is not derived from the library.
- The transformer sentiment pipeline (lines 71 and 79, and the unreachable second pipeline at lines 170-176): a foreign library, represented by the `analyse` parameter.
- Telegram sending (`envoyer_telegram`), printing, and the message text with its rounding (lines 150-157): output only. Only the sentiment label of line 158 is modelled.
- The infinite loop, its sleeps and its catch-all exception handler: one pass is the function `RunCycle`, and the wait it ends with is a number of seconds. Exceptions from the news fetch or the classifier are not modelled.
- IEEE floating point: prices, means and bands are exact reals. NaN appears only as the `None` of the warm-up rows and of the shifted last row.
- Row order of the fetched frame: the rows are not sorted, and the model takes the closes in the order given.
