/**
 * The pipeline's data model: the values that flow between the fetchers, the
 * storage layer and the pipeline stages.
 */
module Records {
  import opened Wrappers
  import opened Dicts

  /** A cell value as the providers hand it over (`None` becomes `Null`). */
  datatype Scalar = Null | Number(x: real) | Text(s: string) | Flag(b: bool)

  /** One column of a pandas DataFrame. */
  datatype Column = Column(name: string, values: seq<Scalar>)

  /** The names of `columns`, in order. */
  function Names(columns: seq<Column>): (names: seq<string>)
    ensures |names| == |columns|
    ensures forall j :: 0 <= j < |columns| ==> names[j] == columns[j].name
  {
    seq(|columns|, j requires 0 <= j < |columns| => columns[j].name)
  }

  /** A pandas DataFrame: its row index (rendered as text) and its columns in order. */
  datatype Frame = Frame(index: seq<string>, columns: seq<Column>)
  {
    /** Every column has one value per row, as in any DataFrame. */
    predicate Rectangular() {
      forall j :: 0 <= j < |columns| ==> |columns[j].values| == |index|
    }

    function RowCount(): nat { |index| }

    function ColumnNames(): (names: seq<string>)
      ensures |names| == |columns|
      ensures forall j :: 0 <= j < |columns| ==> names[j] == columns[j].name
    {
      Names(columns)
    }
  }

  /** The provider-side fundamentals dictionary and the price history of one ticker. */
  datatype MarketData = MarketData(history: Frame, fundamentals: Dict<Scalar>)

  /** The value of `doc["market_data"]`: the keys `fundamentals` and `recent_history`. */
  datatype MarketSummary = MarketSummary(fundamentals: Dict<Scalar>, recentHistory: Dict<seq<Scalar>>)

  /**
   * A filing record. `filingDate` is the date in its `str()` form, which is how
   * `json.dumps(..., default=str)` and the storage key render it. `marketData`
   * is the `market_data` key that the market stage adds in place.
   */
  datatype Filing = Filing(
    ticker: string,
    filingDate: string,
    sourceUrl: string,
    sections: Dict<string>,
    xbrlFacts: seq<Dict<Scalar>>,
    marketData: Option<MarketSummary>)
  {
    /** The record's dictionary keys, in insertion order. */
    function Keys(): seq<string> {
      ["ticker", "filing_date", "source_url", "sections", "xbrl_facts"]
        + (if marketData.Some? then ["market_data"] else [])
    }
  }

  /** The exceptions the foreign providers raise, each naming the ticker. */
  datatype FetchError =
    | UnknownCompany(ticker: string)
    | NoFiling(ticker: string, form: string)
    | InvalidCik(ticker: string, cik: string)
    | NoMarketData(ticker: string)
}
