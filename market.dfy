/**
 * The market side of the ingestion: `fetch_market_data`, which projects the
 * provider's `info` dictionary onto four fundamentals and passes the price
 * history through, and the `tail().to_dict(orient="list")` summary that the
 * market stage attaches to each filing.
 */
module Market {
  import opened Wrappers
  import opened Dicts
  import opened Records

  /** The fundamentals kept from `info`, in the order of the dictionary literal. */
  const FundamentalKeys: seq<string> := ["trailingPE", "forwardPE", "returnOnEquity", "debtToEquity"]

  /** `info.get(k)`: the stored value, or `None` when the key is missing. */
  function InfoGet(info: Dict<Scalar>, k: string): (v: Scalar)
  {
    match Get(info, k)
    case Some(x) => x
    case None => Null
  }

  /** The fundamentals dictionary literal: each of the four keys, in order, with `info.get` of it. */
  function Fundamentals(info: Dict<Scalar>): Dict<Scalar> {
    seq(|FundamentalKeys|, i requires 0 <= i < |FundamentalKeys| => (FundamentalKeys[i], InfoGet(info, FundamentalKeys[i])))
  }

  /**
   * All four keys are always present, in the order of the literal, each
   * holding `info[k]` when `info` has that key and null otherwise, and nothing
   * else is kept from `info`.
   */
  lemma FundamentalsLookup(info: Dict<Scalar>, k: string)
    ensures Keys(Fundamentals(info)) == FundamentalKeys
    ensures k in FundamentalKeys ==> Get(Fundamentals(info), k) == Some(InfoGet(info, k))
    ensures k !in FundamentalKeys ==> Get(Fundamentals(info), k) == None
  {
    var f := Fundamentals(info);
    assert Keys(f) == FundamentalKeys;
    if k in FundamentalKeys {
      assert Distinct(Keys(f));
      var i :| 0 <= i < 4 && FundamentalKeys[i] == k;
      GetAt(f, i);
    }
  }

  /** What yfinance knows about one ticker: a history per (period, interval), and `info`. */
  datatype Quote = Quote(histories: map<(string, string), Frame>, info: Dict<Scalar>)

  /** yfinance, as the map from ticker to what it would return. */
  type Feed = map<string, Quote>

  /**
   * `fetch_market_data(ticker, period, interval)`; a ticker yfinance cannot
   * serve raises, naming that ticker.
   */
  function FetchMarketData(feed: Feed, ticker: string, period: string, interval: string)
    : (r: Result<MarketData, FetchError>)
    ensures r.Err? ==> r.error == NoMarketData(ticker)
  {
    if ticker !in feed || (period, interval) !in feed[ticker].histories then Err(NoMarketData(ticker))
    else
      var q := feed[ticker];
      Ok(MarketData(q.histories[(period, interval)], Fundamentals(q.info)))
  }

  /**
   * A ticker yfinance cannot serve for `(period, interval)` raises; otherwise
   * the history passes through unchanged and the fundamentals have exactly
   * the four keys.
   */
  lemma FetchMarketDataCases(feed: Feed, ticker: string, period: string, interval: string)
    ensures var r := FetchMarketData(feed, ticker, period, interval);
      (r.Err? <==> ticker !in feed || (period, interval) !in feed[ticker].histories) &&
      (r.Err? ==> r.error == NoMarketData(ticker)) &&
      (r.Ok? ==> r.value.history == feed[ticker].histories[(period, interval)] &&
                 Keys(r.value.fundamentals) == FundamentalKeys)
  {
    if ticker in feed {
      FundamentalsLookup(feed[ticker].info, "");
    }
  }

  /** The default `n` of `DataFrame.tail`. */
  const TailRows: nat := 5

  /** The last `n` elements of `s`, or all of them when there are fewer. */
  function Last<T>(s: seq<T>, n: nat): (r: seq<T>)
  {
    if n < |s| then s[|s| - n..] else s
  }

  /** `frame.tail(n)`: the last `n` rows of the index and of every column. */
  function Tail(frame: Frame, n: nat): (t: Frame)
  {
    Frame(Last(frame.index, n),
          seq(|frame.columns|, j requires 0 <= j < |frame.columns| =>
            Column(frame.columns[j].name, Last(frame.columns[j].values, n))))
  }

  /** A rectangular frame keeps its shape under `tail`, with `min(n, rows)` rows. */
  lemma TailRectangular(frame: Frame, n: nat)
    requires frame.Rectangular()
    ensures Tail(frame, n).Rectangular()
    ensures Tail(frame, n).RowCount() == if n < frame.RowCount() then n else frame.RowCount()
  {
  }

  /**
   * `to_dict(orient="list")`: column name to that column's values. A repeated
   * column name keeps its first position and the later column's values.
   */
  function ToDictList(columns: seq<Column>): Dict<seq<Scalar>>
    decreases |columns|
  {
    if columns == [] then []
    else Put(ToDictList(columns[..|columns| - 1]), columns[|columns| - 1].name, columns[|columns| - 1].values)
  }

  /** Dropping the last column keeps the names distinct and the last name new. */
  lemma NamesSplit(columns: seq<Column>)
    requires columns != [] && Distinct(Names(columns))
    ensures Names(columns) == Names(columns[..|columns| - 1]) + [columns[|columns| - 1].name]
    ensures Distinct(Names(columns[..|columns| - 1]))
    ensures columns[|columns| - 1].name !in Names(columns[..|columns| - 1])
  {
    var n := |columns| - 1;
    assert Names(columns)[..n] == Names(columns[..n]);
    forall a | 0 <= a < n ensures Names(columns[..n])[a] != columns[n].name {
      assert Names(columns)[a] != Names(columns)[n];
    }
  }

  /** With distinct column names, the dictionary lists every column, in order, with its values. */
  lemma {:induction false} ToDictListColumns(columns: seq<Column>)
    requires Distinct(Names(columns))
    ensures Keys(ToDictList(columns)) == Names(columns)
    ensures forall j :: 0 <= j < |columns| ==> Get(ToDictList(columns), columns[j].name) == Some(columns[j].values)
    decreases |columns|
  {
    if columns != [] {
      var n := |columns| - 1;
      var init, last := columns[..n], columns[n];
      NamesSplit(columns);
      ToDictListColumns(init);
      var d := ToDictList(init);
      assert ToDictList(columns) == Put(d, last.name, last.values);
      forall j | 0 <= j < n ensures Get(Put(d, last.name, last.values), columns[j].name) == Some(columns[j].values) {
        assert init[j] == columns[j];
        assert Names(init)[j] != last.name;
      }
    }
  }

  /** `history.tail().to_dict(orient="list")`. */
  function RecentHistory(history: Frame): Dict<seq<Scalar>> {
    ToDictList(Tail(history, TailRows).columns)
  }

  /**
   * `recent_history` maps each column of the history, in column order, to its
   * last `min(5, rows)` values.
   */
  lemma RecentHistoryColumns(history: Frame)
    requires history.Rectangular()
    requires Distinct(history.ColumnNames())
    ensures Keys(RecentHistory(history)) == history.ColumnNames()
    ensures forall j :: 0 <= j < |history.columns| ==>
      Get(RecentHistory(history), history.columns[j].name) == Some(Last(history.columns[j].values, TailRows))
    ensures forall j :: 0 <= j < |history.columns| ==>
      |Last(history.columns[j].values, TailRows)| == if TailRows < history.RowCount() then TailRows else history.RowCount()
  {
    var t := Tail(history, TailRows);
    ToDictListColumns(t.columns);
    forall j | 0 <= j < |history.columns|
      ensures Get(RecentHistory(history), history.columns[j].name) == Some(Last(history.columns[j].values, TailRows))
    {
      assert t.columns[j].name == history.columns[j].name;
    }
  }

  /** The summary stored under `market_data`: fundamentals and the recent history. */
  function Summary(m: MarketData): (s: MarketSummary)
  {
    MarketSummary(m.fundamentals, RecentHistory(m.history))
  }
}
