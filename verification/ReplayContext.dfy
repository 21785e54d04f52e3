/** The market context of a replay: candles and quotes as of the clock, never later. */
module ReplayContext {
  import opened Market
  import opened Sorting
  import opened Replay

  predicate Asked(c: Candle, ticker: Ticker, timeframe: Option<string>)
  {
    c.ticker == ticker && (timeframe.Some? ==> c.timeframe == timeframe.value)
  }

  /** The stored rows a query selects: one ticker, one timeframe if given, at or before now. */
  function Selected(store: seq<Candle>, now: int, ticker: Ticker, timeframe: Option<string>): seq<Candle>
  {
    if |store| == 0 then [] else
    var rest, c := Selected(store[..|store| - 1], now, ticker, timeframe), store[|store| - 1];
    if Asked(c, ticker, timeframe) && c.ts <= now then rest + [c] else rest
  }

  predicate Newer(a: Candle, b: Candle)
  {
    a.ts >= b.ts
  }

  function NewestFirst(rows: seq<Candle>): seq<Candle>
  {
    Sort(Newer, rows)
  }

  function Reversed(rows: seq<Candle>): seq<Candle>
  {
    if |rows| == 0 then [] else Reversed(rows[1..]) + [rows[0]]
  }

  /** The most recent `limit` candles, oldest first. */
  function Candles(store: seq<Candle>, now: int, ticker: Ticker, timeframe: string, limit: nat): seq<Candle>
  {
    var rows := NewestFirst(Selected(store, now, ticker, Some(timeframe)));
    Reversed(if limit <= |rows| then rows[..limit] else rows)
  }

  /** The close of the most recent candle of any timeframe. */
  function LatestQuote(store: seq<Candle>, now: int, ticker: Ticker): Option<Quote>
  {
    var rows := NewestFirst(Selected(store, now, ticker, None));
    if |rows| == 0 then None
    else Some(Quote(ticker, Some(rows[0].close), Some(rows[0].close), Some(rows[0].close), rows[0].ts))
  }

  // ---- Point in time --------------------------------------------------------------------

  lemma {:induction false} SelectedVisible(store: seq<Candle>, now: int, ticker: Ticker, timeframe: Option<string>)
    ensures Selected(store, now, ticker, timeframe) == Selected(Visible(store, now), now, ticker, timeframe)
  {
    if |store| > 0 {
      var rest, c := store[..|store| - 1], store[|store| - 1];
      SelectedVisible(rest, now, ticker, timeframe);
      assert (Visible(rest, now) + [c])[..|Visible(rest, now)|] == Visible(rest, now);
    }
  }

  /** Every answer of the context is a function of the candles visible at its time. */
  lemma ContextSeesVisibleOnly(a: seq<Candle>, b: seq<Candle>, now: int, ticker: Ticker, timeframe: string, limit: nat)
    requires Visible(a, now) == Visible(b, now)
    ensures Candles(a, now, ticker, timeframe, limit) == Candles(b, now, ticker, timeframe, limit)
    ensures LatestQuote(a, now, ticker) == LatestQuote(b, now, ticker)
  {
    SelectedVisible(a, now, ticker, Some(timeframe));
    SelectedVisible(b, now, ticker, Some(timeframe));
    SelectedVisible(a, now, ticker, None);
    SelectedVisible(b, now, ticker, None);
  }

  lemma NewerOrder()
    ensures TotalPreorder(Newer)
  {
  }

  lemma {:induction false} SelectedMembers(store: seq<Candle>, now: int, ticker: Ticker, timeframe: Option<string>)
    ensures forall c :: (c in multiset(Selected(store, now, ticker, timeframe))
                         <==> c in multiset(store) && Asked(c, ticker, timeframe) && c.ts <= now)
  {
    if |store| > 0 {
      SelectedMembers(store[..|store| - 1], now, ticker, timeframe);
      assert store == store[..|store| - 1] + [store[|store| - 1]];
    }
  }

  lemma {:induction false} ReversedAt(rows: seq<Candle>, k: nat)
    requires k < |rows|
    ensures |Reversed(rows)| == |rows| && Reversed(rows)[k] == rows[|rows| - 1 - k]
  {
    if |rows| > 1 {
      ReversedAt(rows[1..], if k < |rows| - 1 then k else 0);
    }
  }

  /** The rows of a query, newest first: all of them, none from the future. */
  lemma RowsNewestFirst(store: seq<Candle>, now: int, ticker: Ticker, timeframe: Option<string>)
    ensures var rows := NewestFirst(Selected(store, now, ticker, timeframe));
      (forall i, j :: 0 <= i < j < |rows| ==> rows[i].ts >= rows[j].ts) &&
      (forall c :: c in multiset(rows) <==> c in multiset(store) && Asked(c, ticker, timeframe) && c.ts <= now)
  {
    var some := Selected(store, now, ticker, timeframe);
    NewerOrder();
    SortSorted(Newer, some);
    SortPermutes(Newer, some);
    SelectedMembers(store, now, ticker, timeframe);
    var rows := NewestFirst(some);
    forall i, j | 0 <= i < j < |rows| ensures rows[i].ts >= rows[j].ts {
      assert Newer(rows[i], rows[j]);
    }
  }

  /** The answer is the newest rows, turned round. */
  lemma CandlesShape(store: seq<Candle>, now: int, ticker: Ticker, timeframe: string, limit: nat)
    ensures var rows, cs := NewestFirst(Selected(store, now, ticker, Some(timeframe))), Candles(store, now, ticker, timeframe, limit);
      |cs| == (if limit <= |rows| then limit else |rows|) &&
      (forall k :: 0 <= k < |cs| ==> cs[k] == rows[|cs| - 1 - k])
  {
    var rows := NewestFirst(Selected(store, now, ticker, Some(timeframe)));
    var shown := if limit <= |rows| then rows[..limit] else rows;
    forall k | 0 <= k < |shown| ensures |Reversed(shown)| == |shown| && Reversed(shown)[k] == shown[|shown| - 1 - k] {
      ReversedAt(shown, k);
    }
    assert |shown| == 0 ==> Reversed(shown) == [];
    assert |shown| > 0 ==> |Reversed(shown)| == |shown| by {
      if |shown| > 0 { ReversedAt(shown, 0); }
    }
  }

  /** The candles handed to a strategy run oldest to newest, none later than now. */
  lemma CandlesPointInTime(store: seq<Candle>, now: int, ticker: Ticker, timeframe: string, limit: nat, i: nat, j: nat)
    requires i <= j < |Candles(store, now, ticker, timeframe, limit)|
    ensures var cs := Candles(store, now, ticker, timeframe, limit);
      |cs| <= limit && cs[i].ts <= cs[j].ts <= now && Asked(cs[j], ticker, Some(timeframe))
  {
    var rows, cs := NewestFirst(Selected(store, now, ticker, Some(timeframe))), Candles(store, now, ticker, timeframe, limit);
    RowsNewestFirst(store, now, ticker, Some(timeframe));
    CandlesShape(store, now, ticker, timeframe, limit);
    assert rows[|cs| - 1 - j] in multiset(rows);
  }

  /** A visible candle that is left out is no newer than every one that is shown. */
  lemma CandlesNewest(store: seq<Candle>, now: int, ticker: Ticker, timeframe: string, limit: nat, i: nat, c: Candle)
    requires i < |Candles(store, now, ticker, timeframe, limit)|
    requires c in multiset(store) && Asked(c, ticker, Some(timeframe)) && c.ts <= now
    requires c !in Candles(store, now, ticker, timeframe, limit)
    ensures c.ts <= Candles(store, now, ticker, timeframe, limit)[i].ts
  {
    var rows, cs := NewestFirst(Selected(store, now, ticker, Some(timeframe))), Candles(store, now, ticker, timeframe, limit);
    RowsNewestFirst(store, now, ticker, Some(timeframe));
    CandlesShape(store, now, ticker, timeframe, limit);
    var k :| 0 <= k < |rows| && rows[k] == c;
    if k < |cs| {
      TurnedRound(rows, cs, k);
    }
  }

  lemma TurnedRound(rows: seq<Candle>, cs: seq<Candle>, k: nat)
    requires k < |cs| <= |rows| && forall l :: 0 <= l < |cs| ==> cs[l] == rows[|cs| - 1 - l]
    ensures rows[k] in cs
  {
    assert cs[|cs| - 1 - k] == rows[k];
  }

  ghost predicate VisibleCandle(store: seq<Candle>, now: int, ticker: Ticker, c: Candle)
  {
    c in multiset(store) && c.ticker == ticker && c.ts <= now
  }

  /** The quote of a candle: its close on both sides, at its time. */
  function CloseQuote(c: Candle): Quote
  {
    Quote(c.ticker, Some(c.close), Some(c.close), Some(c.close), c.ts)
  }

  /** The quote is that of a newest visible candle, and there is none exactly when no candle is visible. */
  lemma LatestQuoteNewest(store: seq<Candle>, now: int, ticker: Ticker)
    ensures match LatestQuote(store, now, ticker)
            case None => forall c :: !VisibleCandle(store, now, ticker, c)
            case Some(q) =>
              exists c :: VisibleCandle(store, now, ticker, c) && q == CloseQuote(c) &&
                forall d :: VisibleCandle(store, now, ticker, d) ==> d.ts <= c.ts
  {
    var rows := NewestFirst(Selected(store, now, ticker, None));
    RowsNewestFirst(store, now, ticker, None);
    if |rows| > 0 {
      assert rows[0] in multiset(rows);
      assert VisibleCandle(store, now, ticker, rows[0]);
      forall d | VisibleCandle(store, now, ticker, d) ensures d.ts <= rows[0].ts {
        assert d in multiset(rows);
        var k :| 0 <= k < |rows| && rows[k] == d;
      }
    } else {
      forall c ensures !VisibleCandle(store, now, ticker, c) {
        assert c !in multiset(rows);
      }
    }
  }
}
