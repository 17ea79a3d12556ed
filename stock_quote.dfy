/**
 * The values derived from a quote's fields once they have been fetched: the current price,
 * the change against the previous close, and the shortened business summary.
 */
module StockQuote {
  import opened Wrappers

  /**
   * One entry of the quote dictionary: the key is absent, present with the value None, or
   * present with a value.
   */
  datatype Field<+T> = Missing | Null | Present(value: T)

  /** The fields of the quote dictionary that the derivations read. */
  datatype Info = Info(
    currentPrice: Field<real>,
    regularMarketPrice: Field<real>,
    previousClose: Field<real>,
    recommendationKey: Field<string>,
    longBusinessSummary: Field<string>)

  /** `info.get(key)`: None for a missing key as for a key holding None. */
  function Get<T>(f: Field<T>): (r: Option<T>)
    ensures r.Some? <==> f.Present?
    ensures r.Some? ==> r.value == f.value
  {
    if f.Present? then Some(f.value) else None
  }

  /** Python truthiness of a number that may be None: None and zero are false. */
  predicate Truthy(v: Option<real>) {
    v.Some? && v.value != 0.0
  }

  /** `v0 or v1 or ... or 0`: the first truthy operand, else the final literal 0. */
  function PyOr(vs: seq<Option<real>>): (r: real)
    ensures r == 0.0 || Some(r) in vs
  {
    if vs == [] then 0.0
    else if Truthy(vs[0]) then vs[0].value
    else PyOr(vs[1..])
  }

  /** `i` is the first operand of `vs` that is truthy. */
  ghost predicate FirstTruthy(vs: seq<Option<real>>, i: int) {
    0 <= i < |vs| && Truthy(vs[i]) && forall j :: 0 <= j < i ==> !Truthy(vs[j])
  }

  /**
   * A chain of `or` ending in 0 yields the value of its first truthy operand, and 0 when
   * there is none.
   */
  lemma {:induction false} PyOrIsFirstTruthy(vs: seq<Option<real>>)
    ensures (exists i :: FirstTruthy(vs, i)) || PyOr(vs) == 0.0
    ensures forall i :: FirstTruthy(vs, i) ==> PyOr(vs) == vs[i].value
    ensures (forall i :: 0 <= i < |vs| ==> !Truthy(vs[i])) ==> PyOr(vs) == 0.0
  {
    if vs != [] {
      PyOrIsFirstTruthy(vs[1..]);
      if Truthy(vs[0]) {
        assert FirstTruthy(vs, 0);
      } else {
        forall i | FirstTruthy(vs, i) ensures PyOr(vs) == vs[i].value {
          assert FirstTruthy(vs[1..], i - 1);
        }
        if exists i :: FirstTruthy(vs[1..], i) {
          var i :| FirstTruthy(vs[1..], i);
          assert FirstTruthy(vs, i + 1);
        }
        if forall i :: 0 <= i < |vs| ==> !Truthy(vs[i]) {
          assert forall i :: 0 <= i < |vs| - 1 ==> !Truthy(vs[1..][i]);
        }
      }
    }
  }

  /** `info.get('currentPrice') or info.get('regularMarketPrice') or 0`. */
  function CurrentPrice(info: Info): (r: real)
    ensures r == 0.0 || Some(r) == Get(info.currentPrice) || Some(r) == Get(info.regularMarketPrice)
  {
    PyOr([Get(info.currentPrice), Get(info.regularMarketPrice)])
  }

  /** `info.get('previousClose') or 0`. */
  function PrevClose(info: Info): (r: real)
    ensures r == 0.0 || Some(r) == Get(info.previousClose)
  {
    PyOr([Get(info.previousClose)])
  }

  /**
   * The current price is `currentPrice` when that is present and non-zero, otherwise
   * `regularMarketPrice` when that is present and non-zero, otherwise 0. A negative price
   * is truthy and passes through.
   */
  lemma CurrentPriceFallback(info: Info)
    ensures info.currentPrice.Present? && info.currentPrice.value != 0.0 ==>
      CurrentPrice(info) == info.currentPrice.value
    ensures !(info.currentPrice.Present? && info.currentPrice.value != 0.0) &&
            info.regularMarketPrice.Present? && info.regularMarketPrice.value != 0.0 ==>
      CurrentPrice(info) == info.regularMarketPrice.value
    ensures CurrentPrice(info) == 0.0 <==>
      !(info.currentPrice.Present? && info.currentPrice.value != 0.0) &&
      !(info.regularMarketPrice.Present? && info.regularMarketPrice.value != 0.0)
  {
    var vs := [Get(info.currentPrice), Get(info.regularMarketPrice)];
    PyOrIsFirstTruthy(vs);
    if Truthy(vs[0]) {
      assert FirstTruthy(vs, 0);
    } else if Truthy(vs[1]) {
      assert FirstTruthy(vs, 1);
    }
  }

  /** The previous close is `previousClose` when present and non-zero, otherwise 0. */
  lemma PrevCloseFallback(info: Info)
    ensures info.previousClose.Present? && info.previousClose.value != 0.0 ==>
      PrevClose(info) == info.previousClose.value
    ensures !(info.previousClose.Present? && info.previousClose.value != 0.0) ==>
      PrevClose(info) == 0.0
  {
  }

  /**
   * The percent change from the previous close to the current price; 0 unless both are
   * strictly positive.
   */
  function ChangeRate(current: real, prev: real): (r: real)
    ensures prev <= 0.0 || current <= 0.0 ==> r == 0.0
    ensures prev > 0.0 && current > 0.0 ==> r > -100.0
  {
    if prev > 0.0 && current > 0.0 then (current - prev) / prev * 100.0 else 0.0
  }

  /**
   * With both prices positive the change is positive exactly when the price rose, zero
   * exactly when it is unchanged, and negative exactly when it fell.
   */
  lemma ChangeRateSign(current: real, prev: real)
    requires prev > 0.0 && current > 0.0
    ensures ChangeRate(current, prev) > 0.0 <==> current > prev
    ensures ChangeRate(current, prev) == 0.0 <==> current == prev
    ensures ChangeRate(current, prev) < 0.0 <==> current < prev
  {
  }

  /** Applying the change rate to the previous close gives back the current price. */
  lemma ChangeRateRoundTrip(current: real, prev: real)
    requires prev > 0.0 && current > 0.0
    ensures prev * (1.0 + ChangeRate(current, prev) / 100.0) == current
  {
  }

  /** The length of the kept prefix of the summary. */
  const SummaryLimit: nat := 300

  /** The text used when the quote has no summary key. */
  const NoSummary: string := "정보 없음"

  /** `s[:300] + "..."`: at most 300 characters of `s`, then an ellipsis. */
  function Shorten(s: string): (r: string)
    ensures |r| == (if |s| < SummaryLimit then |s| else SummaryLimit) + 3
    ensures |r| <= SummaryLimit + 3
    ensures r[..|r| - 3] <= s
    ensures r[|r| - 3..] == "..."
  {
    (if |s| <= SummaryLimit then s else s[..SummaryLimit]) + "..."
  }

  /**
   * Dropping the ellipsis recovers the original text exactly when it was at most 300
   * characters long.
   */
  lemma ShortenKeepsShortText(s: string)
    ensures Shorten(s)[..|Shorten(s)| - 3] == s <==> |s| <= SummaryLimit
  {
  }

  /**
   * `info.get('longBusinessSummary', '정보 없음')[:300] + "..."`. A key holding None makes
   * the slice raise, which is the None result here.
   */
  function BusinessSummary(info: Info): (r: Option<string>)
    ensures r.None? <==> info.longBusinessSummary.Null?
    ensures info.longBusinessSummary.Missing? ==> r == Some(NoSummary + "...")
    ensures r.Some? ==> 3 <= |r.value| <= SummaryLimit + 3 && r.value[|r.value| - 3..] == "..."
    ensures info.longBusinessSummary.Present? ==>
      r.Some? && r.value[..|r.value| - 3] <= info.longBusinessSummary.value
    ensures info.longBusinessSummary.Present? ==> r == Some(Shorten(info.longBusinessSummary.value))
  {
    match info.longBusinessSummary
    case Missing => Some(Shorten(NoSummary))
    case Null => None
    case Present(s) => Some(Shorten(s))
  }

  /** The derived part of the stock summary record. */
  datatype Quote = Quote(currentPrice: real, changeRate: real, businessSummary: string)

  /**
   * The two ways assembling the record can raise: `.upper()` on a recommendation key that
   * holds None, and the slice of a summary key that holds None.
   */
  datatype QuoteError = RecommendationRaises | SummaryRaises

  /**
   * The derivations of one quote, in the order they run: prices, change, recommendation,
   * summary. The recommendation text itself is not modelled; only whether it raises.
   */
  function Derive(info: Info): (q: Result<Quote, QuoteError>)
    ensures q == Failure(RecommendationRaises) <==> info.recommendationKey.Null?
    ensures q == Failure(SummaryRaises) <==>
      !info.recommendationKey.Null? && info.longBusinessSummary.Null?
    ensures q.Success? ==> q.value.currentPrice == CurrentPrice(info)
    ensures q.Success? ==> q.value.changeRate == ChangeRate(CurrentPrice(info), PrevClose(info))
    ensures q.Success? ==> Some(q.value.businessSummary) == BusinessSummary(info)
  {
    var current := CurrentPrice(info);
    var change := ChangeRate(current, PrevClose(info));
    if info.recommendationKey.Null? then Failure(RecommendationRaises)
    else match BusinessSummary(info)
      case None => Failure(SummaryRaises)
      case Some(summary) => Success(Quote(current, change, summary))
  }

  /** A quote with neither price field usable reports price 0 and change 0. */
  lemma NoPriceNoChange(info: Info)
    requires !(info.currentPrice.Present? && info.currentPrice.value != 0.0)
    requires !(info.regularMarketPrice.Present? && info.regularMarketPrice.value != 0.0)
    ensures CurrentPrice(info) == 0.0
    ensures ChangeRate(CurrentPrice(info), PrevClose(info)) == 0.0
  {
  }
}
