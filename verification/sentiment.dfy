/** The forward-return rule of the sentiment store (KOLSentiment.py):
    the returns 1, 3 and 10 rows after a prediction, read from the price
    history the fetcher supplies, and the None-absorbing price lookup. */
module KolSentiment {
  import opened Wrappers
  import opened Prices
  import opened YFinance

  /** Calendar days of history requested after the prediction date. */
  const WindowDays: int := 20

  /** The triple `(return_1d, return_3d, return_10d)`. */
  datatype Returns = Returns(r1d: Option<real>, r3d: Option<real>, r10d: Option<real>)

  const NoReturns := Returns(None, None, None)

  /** The return at row offset `h`, present when the history has more than
      `h` rows. */
  function HorizonReturn(closes: seq<real>, initialPrice: real, h: nat): (r: Option<real>)
    requires initialPrice != 0.0
    ensures r.Some? <==> |closes| > h
    ensures r.Some? ==> initialPrice * (1.0 + r.value) == closes[h]
  {
    if |closes| > h then Some((closes[h] - initialPrice) / initialPrice) else None
  }

  /** calculate_returns once the history is in hand: nothing for a missing
      or empty history, otherwise the three horizons. */
  function CalculateReturns(hist: Option<Series>, initialPrice: real): (r: Returns)
    requires initialPrice != 0.0
    ensures r.r1d.Some? <==> hist.Some? && |hist.value| > 1
    ensures r.r3d.Some? <==> hist.Some? && |hist.value| > 3
    ensures r.r10d.Some? <==> hist.Some? && |hist.value| > 10
  {
    if hist.None? || |hist.value| == 0 then NoReturns
    else
      var closes := Closes(hist.value);
      Returns(HorizonReturn(closes, initialPrice, 1),
              HorizonReturn(closes, initialPrice, 3),
              HorizonReturn(closes, initialPrice, 10))
  }

  /** Horizon `h` is present exactly when the history has more than `h`
      rows, and then it recovers the close at row `h` from the initial
      price. */
  lemma ReturnsPresence(hist: Option<Series>, initialPrice: real)
    requires initialPrice != 0.0
    ensures var r := CalculateReturns(hist, initialPrice);
      var n := if hist.Some? then |hist.value| else 0;
      && (r.r1d.Some? <==> n > 1)
      && (r.r3d.Some? <==> n > 3)
      && (r.r10d.Some? <==> n > 10)
      && (r.r1d.Some? ==> initialPrice * (1.0 + r.r1d.value) == hist.value[1].close)
      && (r.r3d.Some? ==> initialPrice * (1.0 + r.r3d.value) == hist.value[3].close)
      && (r.r10d.Some? ==> initialPrice * (1.0 + r.r10d.value) == hist.value[10].close)
  {
  }

  /** Availability is nested: a 10-day return implies a 3-day return, which
      implies a 1-day return. */
  lemma ReturnsNested(hist: Option<Series>, initialPrice: real)
    requires initialPrice != 0.0
    ensures var r := CalculateReturns(hist, initialPrice);
      (r.r10d.Some? ==> r.r3d.Some?) && (r.r3d.Some? ==> r.r1d.Some?)
  {
    ReturnsPresence(hist, initialPrice);
  }

  /** A missing history, or one with fewer than two rows, gives no return
      at all. */
  lemma ShortHistoryHasNoReturns(hist: Option<Series>, initialPrice: real)
    requires initialPrice != 0.0
    requires hist.None? || |hist.value| <= 1
    ensures CalculateReturns(hist, initialPrice) == NoReturns
  {
  }

  /** calculate_returns: fetch the history from the prediction day to 20
      days later through the fetcher, then apply the horizon rule. */
  method FetchReturns(helper: YFinanceHelper, ticker: string, initialDay: int, initialPrice: real)
    returns (r: Returns)
    requires helper.Valid() && initialPrice != 0.0
    modifies helper
    ensures helper.Valid()
    ensures |helper.fetches| == |old(helper.fetches)| + 1
    ensures helper.fetches[|old(helper.fetches)|].ticker == ticker
    ensures r == CalculateReturns(helper.fetches[|old(helper.fetches)|].data, initialPrice)
    ensures r == CalculateReturns(helper.LoadFromCache(ticker, initialDay, initialDay + WindowDays), initialPrice)
    ensures old(helper.now) <= helper.now && Waits(helper.pauses) == Waits(old(helper.pauses))
    ensures var hi := initialDay + WindowDays;
      old(helper.LoadFromCache(ticker, initialDay, hi)).Some? ==>
        helper.fetches[|old(helper.fetches)|].data == old(helper.LoadFromCache(ticker, initialDay, hi))
        && helper.calls == old(helper.calls) && helper.files == old(helper.files)
        && helper.pauses == old(helper.pauses) && helper.now == old(helper.now)
    ensures var hi := initialDay + WindowDays;
      var replies := Replies(helper.upstream, ticker, initialDay, hi, old(helper.requestCount), DefaultMaxRetries);
      old(helper.LoadFromCache(ticker, initialDay, hi)).None? ==>
        && helper.fetches[|old(helper.fetches)|].data == RetryResult(replies)
        && (RetryResult(replies).Some? ==>
              helper.files == Store(old(helper.files), helper.now, ticker, initialDay, hi, RetryResult(replies).value))
        && (RetryResult(replies).None? ==> helper.files == old(helper.files))
    ensures var hi := initialDay + WindowDays;
      var replies := Replies(helper.upstream, ticker, initialDay, hi, old(helper.requestCount), DefaultMaxRetries);
      old(helper.LoadFromCache(ticker, initialDay, hi)).None? ==>
        helper.calls == old(helper.calls) + Repeat(helper.SingleCall(ticker, initialDay, hi), AttemptsUsed(replies))
    ensures var hi := initialDay + WindowDays;
      var replies := Replies(helper.upstream, ticker, initialDay, hi, old(helper.requestCount), DefaultMaxRetries);
      old(helper.LoadFromCache(ticker, initialDay, hi)).None? ==>
        helper.pauses == old(helper.pauses) + RetryPauses(replies, AttemptsUsed(replies), DefaultMaxRetries)
  {
    var hist := helper.GetStockData(ticker, initialDay, initialDay + WindowDays);
    r := CalculateReturns(hist, initialPrice);
  }

  /** get_stock_price: the fetcher's price for the day, or None. */
  method GetStockPrice(helper: YFinanceHelper, ticker: string, date: Moment) returns (price: Option<real>)
    requires helper.Valid()
    modifies helper
    ensures helper.Valid()
    ensures price == PriceOnDate(helper.LoadFromCache(ticker, date.day - DefaultDaysBuffer, date.day + DefaultDaysBuffer), date)
    ensures |helper.fetches| == |old(helper.fetches)| + 1
    ensures helper.fetches[|old(helper.fetches)|].ticker == ticker
    ensures price == PriceOnDate(helper.fetches[|old(helper.fetches)|].data, date)
    ensures old(helper.now) <= helper.now && Waits(helper.pauses) == Waits(old(helper.pauses))
    ensures var lo, hi := date.day - DefaultDaysBuffer, date.day + DefaultDaysBuffer;
      old(helper.LoadFromCache(ticker, lo, hi)).Some? ==>
        helper.fetches[|old(helper.fetches)|].data == old(helper.LoadFromCache(ticker, lo, hi))
        && helper.calls == old(helper.calls) && helper.files == old(helper.files)
        && helper.pauses == old(helper.pauses) && helper.now == old(helper.now)
    ensures var lo, hi := date.day - DefaultDaysBuffer, date.day + DefaultDaysBuffer;
      var replies := Replies(helper.upstream, ticker, lo, hi, old(helper.requestCount), DefaultMaxRetries);
      old(helper.LoadFromCache(ticker, lo, hi)).None? ==>
        && helper.fetches[|old(helper.fetches)|].data == RetryResult(replies)
        && (RetryResult(replies).Some? ==>
              helper.files == Store(old(helper.files), helper.now, ticker, lo, hi, RetryResult(replies).value))
        && (RetryResult(replies).None? ==> helper.files == old(helper.files))
    ensures var lo, hi := date.day - DefaultDaysBuffer, date.day + DefaultDaysBuffer;
      var replies := Replies(helper.upstream, ticker, lo, hi, old(helper.requestCount), DefaultMaxRetries);
      old(helper.LoadFromCache(ticker, lo, hi)).None? ==>
        helper.calls == old(helper.calls) + Repeat(helper.SingleCall(ticker, lo, hi), AttemptsUsed(replies))
    ensures var lo, hi := date.day - DefaultDaysBuffer, date.day + DefaultDaysBuffer;
      var replies := Replies(helper.upstream, ticker, lo, hi, old(helper.requestCount), DefaultMaxRetries);
      old(helper.LoadFromCache(ticker, lo, hi)).None? ==>
        helper.pauses == old(helper.pauses) + RetryPauses(replies, AttemptsUsed(replies), DefaultMaxRetries)
  {
    price := helper.GetStockPriceOnDate(ticker, date);
  }
}
