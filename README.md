# Stock analysis page: verified model of its decision logic

The analysis page (`analysis.py`) fetches news headlines and a quote for a ticker, labels
each headline's sentiment, derives a few quote figures, picks a generative model and asks it
for a report. This project models the parts of that page that are logic rather than I/O or
UI, and proves what they promise:

- `Sentiment` — the polarity score of a headline (empty title scores 0) and the
  Bullish / Bearish / Neutral label with strict thresholds at ±0.1.
- `StockQuote` — the current-price fallback chain (`currentPrice or regularMarketPrice or 0`,
  with Python's truthiness: None and 0 fall through), the previous close, the guarded percent
  change, and the business summary cut to 300 characters plus `"..."`.
- `AiAnalysis` — listing the models, the flash → pro → any selection passes, the early
  exits (listing failed, nothing usable) and the single generation attempt, with the four
  report messages the request returns. Exceptions the request does not catch (from
  configuring the client or constructing the model object) are not modelled.
- `Wrappers` — `Option` and `Result`.

Prices are `real`: IEEE rounding is not modelled. The listing of models and the generation
call are inputs: the listing is a `Result` (the list, or the exception text) and generation
is a function from the model name to a `Result` (the text, or the exception text), the
prompt being fixed by the caller. "No generation is attempted" is stated as: the report does
not depend on that function.

Only the logic of `analysis.py` is modelled. The page uses one key and makes a single
generation attempt (`analysis.py:104-179`), and the model does the same.

## Model

| member | source | states |
|---|---|---|
| Sentiment.LabelOf | analysis.py:29-35 | Bullish iff score > 0.1, Bearish iff score < -0.1, Neutral iff the score is in the closed band [-0.1, 0.1]; exactly one label |
| Sentiment.LabelText | analysis.py:31-35 | each label's text is 12 characters and begins with the label's name: Bullish, Bearish or Neutral |
| Sentiment.LabelTextInjective | analysis.py:29-35 | the three label texts are distinct, so a shown text identifies its label |
| Sentiment.LabelMonotone | analysis.py:29-35 | a higher score never gets a lower-ranked label |
| Sentiment.Score | analysis.py:23-26 | an empty title scores 0 whatever the analyser |
| Sentiment.EmptyTitleIsNeutral | analysis.py:23-35 | a headline with an empty title is labelled Neutral |
| StockQuote.Get | analysis.py:80-81 | `info.get(key)` is None both for a missing key and for a key holding None, else the stored value |
| StockQuote.PyOr | analysis.py:80-81 | a chain of `or` ending in 0 yields 0 or the value of one of its operands |
| StockQuote.PyOrIsFirstTruthy | analysis.py:80-81 | a chain of `or` ending in 0 yields the value of its first operand that is present and non-zero, and 0 when none is |
| StockQuote.CurrentPrice | analysis.py:80 | the current price is 0 or the value of `currentPrice` or of `regularMarketPrice` |
| StockQuote.CurrentPriceFallback | analysis.py:80 | current price is `currentPrice` if present and non-zero, else `regularMarketPrice` if present and non-zero; it is 0 iff neither is |
| StockQuote.PrevClose | analysis.py:81 | the previous close is 0 or the value of `previousClose` |
| StockQuote.PrevCloseFallback | analysis.py:81 | previous close is `previousClose` if present and non-zero, else 0 |
| StockQuote.ChangeRate | analysis.py:83-85 | the change is 0 when either price is not positive, and above -100 percent when both are |
| StockQuote.ChangeRateSign | analysis.py:84-85 | with both prices positive the change is positive iff the price rose, zero iff unchanged, negative iff it fell |
| StockQuote.ChangeRateRoundTrip | analysis.py:85 | applying the change in percent to the previous close gives back the current price |
| StockQuote.NoPriceNoChange | analysis.py:80-85 | with no usable price field, both the price and the change are 0 |
| StockQuote.Shorten | analysis.py:95 | the result is the first min(300, n) characters of the text followed by `"..."`: a prefix of the text, at most 303 long |
| StockQuote.ShortenKeepsShortText | analysis.py:95 | removing the ellipsis gives back the text exactly when it is at most 300 characters |
| StockQuote.BusinessSummary | analysis.py:95 | a missing key gives the default text plus `"..."`; a key holding None raises; a present summary gives exactly its first min(300, n) characters followed by `"..."`, at most 303 long |
| StockQuote.Derive | analysis.py:80-95 | the record raises at the recommendation when that key holds None, else at the summary slice when that key holds None; otherwise it carries the fallback price, the guarded change and the summary |
| AiAnalysis.Contains | analysis.py:118-125 | the name test holds when the name starts with the word, and only when the word is no longer than the name |
| AiAnalysis.ContainsIsSubstring | analysis.py:118-125 | the name test `'flash' in name` holds iff the word occurs at some position of the name |
| AiAnalysis.FirstIn | analysis.py:116-135 | one pass returns the first position whose model passes that pass's test, or nothing when no model does |
| AiAnalysis.Select | analysis.py:115-135 | the selected model is capable, and nothing is selected iff no listed model is capable |
| AiAnalysis.SelectSpec | analysis.py:115-135 | a model is selected iff some listed model supports `generateContent`; it does; it is the first flash model if any, else the first pro model if any, else the first capable model |
| AiAnalysis.PlainModelOnlyAsLastResort | analysis.py:130-135 | a model named with neither flash nor pro is selected only when no capable model is named with either |
| AiAnalysis.SelectModel | analysis.py:107-135 | the three passes with their early stops select exactly the model the selection rule names |
| AiAnalysis.ListingFailed | analysis.py:113 | the listing-failure report ends with the exception's text, and its first character marks it as a listing failure |
| AiAnalysis.NoUsableModel | analysis.py:137-138 | the no-model report is not empty and starts with its cross mark, which no other report starts with |
| AiAnalysis.Generated | analysis.py:177 | the success report names the model used and ends with the generated text |
| AiAnalysis.GenerationFailed | analysis.py:178-179 | the failure report names the model tried and ends with the exception's text |
| AiAnalysis.Report | analysis.py:104-179 | a listing failure gives its message; otherwise the no-model message comes exactly when no listed model is capable, and any other report names the selected model |
| AiAnalysis.AnalyzeWithAi | analysis.py:104-179 | the request returns the listing error, the no-model message, or the outcome of one attempt with the selected model, as the report function says |
| AiAnalysis.NoAttemptWithoutModel | analysis.py:110-138 | when listing fails or no model can generate, the report is that error message and does not depend on the generation attempt |
| AiAnalysis.AttemptUsesSelectedModel | analysis.py:175-179 | with a usable model, generation is attempted with the selected model's name and the report names that model on success and on failure |

## Left out

- Streamlit page setup, styles, widgets, metrics and footer (`analysis.py:185-317`): user interface.
- Loading the API key from the secrets store and stopping the page when it is missing (`analysis.py:10-17`): environment plumbing.
- `validate_ticker` (`analysis.py:39-49`): a network probe.
- The news feed fetch, the first-ten-entries slice, the publication date fallback and the table building (`analysis.py:56-74`): network I/O and a data-frame library.
- The quote fetch (`analysis.py:77-78`): network I/O; the model starts from the fetched fields.
- `fiftyTwoWeekHigh`, `trailingPE` and `targetMeanPrice` (`analysis.py:91-94`): copied through with defaults and no logic.
- The recommendation text (`analysis.py:93`): `.upper().replace('_', ' ')` depends on Unicode case tables, so only whether it raises (a key holding None) is modelled, in `StockQuote.Derive`.
- The sentiment analyser's polarity (`analysis.py:25-26`): a foreign library; it is a parameter of `Sentiment.Score`.
- Listing the models and generating content (`analysis.py:111, 176`): foreign service calls; their outcomes are inputs of `AiAnalysis.Report`.
- Configuring the client with the key (`analysis.py:105`): a foreign call with no result; it is dropped, and an exception it raises (outside any `try`) ends the request uncaught, which the model does not capture.
- Constructing the model object (`analysis.py:119, 126, 133`): a foreign call outside any `try`; an exception it raises ends the request uncaught, which the model does not capture. The model keeps only the selected index and name.
- Prompt construction (`analysis.py:140-173`): string formatting; the prompt is folded into the generation parameter.
- Quote fields that hold a value of another type (a price that is not a number, a summary or recommendation that is not a string): the model types them, so the errors such values would raise are not modelled.
- Sentiment.LabelOf: the score is an exact real and the thresholds are the decimal values 0.1 and -0.1, not the nearest doubles the program compares against; IEEE rounding is not modelled, so a score equal to the double nearest 0.1 (or -0.1) is Neutral in the program but Bullish (or Bearish) here.
- StockQuote.ChangeRate: computed over exact reals, not IEEE doubles, so rounding is not modelled.
- News-to-trading-day alignment, a sentiment/return correlation, a buy/sell outlook and a multi-credential retry cascade: not present in the code.
