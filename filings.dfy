/**
 * `fetch_edgar_filings`: for each of the top tickers, the latest filing of a
 * form type is looked up, its text is cut into sections, the SEC
 * filing-index URL is built from its CIK and accession number, and one record
 * is appended. EdgarTools is modelled as a map from ticker to what it would
 * return; an exception from it, or from `int()`, ends the whole call.
 */
module Filings {
  import opened Wrappers
  import opened Dicts
  import opened Records
  import opened Sections
  import opened Tickers
  import opened Strings

  // ---------------------------------------------------------------------------
  // `str(int(cik_str))`
  // ---------------------------------------------------------------------------

  /** `str(n)` for a non-negative integer. */
  function ShowDecimal(n: nat): (s: string)
    ensures s != [] && AllDigits(s)
    ensures s[0] != '0' || s == "0"
    decreases n
  {
    if n < 10 then [DigitChar(n)] else ShowDecimal(n / 10) + [DigitChar(n % 10)]
  }

  /** Reading back what `str` printed gives the number: `int(str(n)) == n`. */
  lemma {:induction false} ParseShow(n: nat)
    ensures DecimalValue(ShowDecimal(n)) == n
    decreases n
  {
    if n >= 10 {
      var s := ShowDecimal(n);
      assert s[..|s| - 1] == ShowDecimal(n / 10);
      ParseShow(n / 10);
    }
  }

  /** A digit string is canonical when it has no leading zero, or is exactly "0". */
  predicate Canonical(s: string) {
    s != [] && AllDigits(s) && (s[0] != '0' || s == "0")
  }

  lemma {:induction false} ParsePositive(s: string)
    requires Canonical(s) && s != "0"
    ensures DecimalValue(s) >= 1
    decreases |s|
  {
    if |s| > 1 {
      assert s[..|s| - 1][0] == s[0];
      ParsePositive(s[..|s| - 1]);
    }
  }

  /** Printing what was read from a canonical string gives it back: `str(int(s)) == s`. */
  lemma {:induction false} ShowParse(s: string)
    requires Canonical(s)
    ensures ShowDecimal(DecimalValue(s)) == s
    decreases |s|
  {
    if |s| > 1 {
      var init := s[..|s| - 1];
      assert init[0] == s[0];
      assert init != "0" by { assert s[0] != '0' || s == "0"; assert |s| != 1; }
      ParsePositive(init);
      ShowParse(init);
      var n := DecimalValue(s);
      assert n / 10 == DecimalValue(init) && n % 10 == (s[|s| - 1] - '0') as nat;
      assert s == init + [s[|s| - 1]];
    }
  }

  /** Leading zeros do not change the number. */
  lemma {:induction false} ParseLeadingZeros(z: string, t: string)
    requires forall i :: 0 <= i < |z| ==> z[i] == '0'
    requires AllDigits(t)
    ensures AllDigits(z + t)
    ensures DecimalValue(z + t) == DecimalValue(t)
    decreases |t|
  {
    if t == [] {
      assert z + t == z;
      ParseZeros(z);
    } else {
      var n := |t| - 1;
      assert (z + t)[..|z + t| - 1] == z + t[..n];
      ParseLeadingZeros(z, t[..n]);
    }
  }

  lemma {:induction false} ParseZeros(z: string)
    requires forall i :: 0 <= i < |z| ==> z[i] == '0'
    ensures DecimalValue(z) == 0
    decreases |z|
  {
    if z != [] {
      ParseZeros(z[..|z| - 1]);
    }
  }

  /** The number of leading `0` characters of `s`. */
  function LeadingZeros(s: string): (k: nat)
    ensures k <= |s|
    ensures forall i :: 0 <= i < k ==> s[i] == '0'
    ensures k < |s| ==> s[k] != '0'
    decreases |s|
  {
    if s != [] && s[0] == '0' then 1 + LeadingZeros(s[1..]) else 0
  }

  /** The CIK with its leading zeros dropped, or "0" when nothing else is left. */
  function DropLeadingZeros(s: string): string {
    if LeadingZeros(s) == |s| then "0" else s[LeadingZeros(s)..]
  }

  /**
   * The EDGAR folder number, `str(int(cik))`. Python's `int` refuses the
   * empty string and anything with a character that is not a digit.
   */
  function CikNumber(cik: string): (r: Option<string>)
    ensures r.Some? <==> cik != [] && AllDigits(cik)
    ensures r.Some? ==> Canonical(r.value)
  {
    if cik != [] && AllDigits(cik) then Some(ShowDecimal(DecimalValue(cik))) else None
  }

  /** "0000320193" gives "320193", and a CIK of zeros only gives "0". */
  lemma CikNumberDropsZeros(cik: string)
    requires cik != [] && AllDigits(cik)
    ensures CikNumber(cik) == Some(DropLeadingZeros(cik))
  {
    var k := LeadingZeros(cik);
    var z, t := cik[..k], cik[k..];
    assert cik == z + t;
    ParseLeadingZeros(z, t);
    if k == |cik| {
      assert t == [];
    } else {
      assert t[0] == cik[k];
      ShowParse(t);
    }
  }

  // ---------------------------------------------------------------------------
  // `accession.replace("-", "")`
  // ---------------------------------------------------------------------------

  /** `s.replace(c, "")`. */
  function RemoveAll(s: string, c: char): string
    decreases |s|
  {
    if s == [] then []
    else
      var rest := RemoveAll(s[1..], c);
      if s[0] == c then rest else [s[0]] + rest
  }

  /**
   * Every occurrence of `c` is dropped and every other character is kept as
   * often as it occurs.
   */
  lemma {:induction false} RemoveAllCounts(s: string, c: char)
    ensures c !in RemoveAll(s, c)
    ensures |RemoveAll(s, c)| == |s| - multiset(s)[c]
    ensures forall x :: x != c ==> multiset(RemoveAll(s, c))[x] == multiset(s)[x]
    decreases |s|
  {
    if s != [] {
      RemoveAllCounts(s[1..], c);
      assert s == [s[0]] + s[1..];
    }
  }

  /** The kept characters keep their order: removal works piece by piece. */
  lemma {:induction false} RemoveAllAppend(a: string, b: string, c: char)
    ensures RemoveAll(a + b, c) == RemoveAll(a, c) + RemoveAll(b, c)
    decreases |a|
  {
    if a != [] {
      assert (a + b)[1..] == a[1..] + b;
      RemoveAllAppend(a[1..], b, c);
    } else {
      assert a + b == b;
    }
  }

  /** A string without the character is left as it is. */
  lemma {:induction false} RemoveAllAbsent(s: string, c: char)
    requires c !in s
    ensures RemoveAll(s, c) == s
    decreases |s|
  {
    if s != [] {
      assert c !in s[1..] by { forall i | 0 <= i < |s[1..]| ensures s[1..][i] != c { assert s[1..][i] == s[i + 1]; } }
      RemoveAllAbsent(s[1..], c);
    }
  }

  // ---------------------------------------------------------------------------
  // The filing-index URL
  // ---------------------------------------------------------------------------

  const ArchivesPrefix: string := "https://www.sec.gov/Archives/edgar/data/"
  const IndexSuffix: string := "-index.html"

  function FilingIndexUrl(cikNum: string, accNoDashes: string): string {
    ArchivesPrefix + cikNum + "/" + accNoDashes + "/" + accNoDashes + IndexSuffix
  }

  /** The CIK folder and accession folder read back from a filing-index URL. */
  function ParseFilingIndexUrl(url: string): Option<(string, string)> {
    if !(ArchivesPrefix <= url) then None
    else match SplitOnce(url[|ArchivesPrefix|..], '/')
      case None => None
      case Some((cikNum, rest)) =>
        match SplitOnce(rest, '/')
        case None => None
        case Some((acc, page)) => if page == acc + IndexSuffix then Some((cikNum, acc)) else None
  }

  /** The URL names its CIK folder and its accession folder unambiguously. */
  lemma ParseFilingIndexUrlInverts(cikNum: string, accNoDashes: string)
    requires '/' !in cikNum && '/' !in accNoDashes
    ensures ParseFilingIndexUrl(FilingIndexUrl(cikNum, accNoDashes)) == Some((cikNum, accNoDashes))
  {
    var page := accNoDashes + IndexSuffix;
    var rest := accNoDashes + ['/'] + page;
    var tail := cikNum + ['/'] + rest;
    assert FilingIndexUrl(cikNum, accNoDashes) == ArchivesPrefix + tail;
    PrefixOf(ArchivesPrefix, tail);
    SplitOnceOf(cikNum, '/', rest);
    SplitOnceOf(accNoDashes, '/', page);
  }

  // ---------------------------------------------------------------------------
  // EdgarTools and the record of one ticker
  // ---------------------------------------------------------------------------

  /** `filings.latest()`: the text left after HTML stripping, and its identifiers. */
  datatype LatestFiling = LatestFiling(text: string, cik: string, accessionNo: string, filingDate: string)

  /** `Company(ticker)`: its latest filing per form type and its XBRL facts as records. */
  datatype Company = Company(latest: map<string, LatestFiling>, facts: seq<Dict<Scalar>>)

  /** EdgarTools, as the companies it knows by ticker. */
  type Edgar = map<string, Company>

  /** The `source_url` built from a filing, when its CIK is a number. */
  function SourceUrl(f: LatestFiling): Option<string> {
    match CikNumber(f.cik)
    case None => None
    case Some(cikNum) => Some(FilingIndexUrl(cikNum, RemoveAll(f.accessionNo, '-')))
  }

  /** The record for one ticker, or the exception the loop body raises. */
  function RecordFor(edgar: Edgar, formType: string, ticker: string): Result<Filing, FetchError>
  {
    if ticker !in edgar then Err(UnknownCompany(ticker))
    else if formType !in edgar[ticker].latest then Err(NoFiling(ticker, formType))
    else
      var f := edgar[ticker].latest[formType];
      match SourceUrl(f)
      case None => Err(InvalidCik(ticker, f.cik))
      case Some(url) => Ok(Filing(ticker, f.filingDate, url, SectionsOf(f.text), edgar[ticker].facts, None))
  }

  /** A record has exactly the keys ticker, filing_date, source_url, sections and xbrl_facts. */
  lemma RecordKeys(edgar: Edgar, formType: string, ticker: string)
    requires RecordFor(edgar, formType, ticker).Ok?
    ensures RecordFor(edgar, formType, ticker).value.Keys() == ["ticker", "filing_date", "source_url", "sections", "xbrl_facts"]
    ensures RecordFor(edgar, formType, ticker).value.ticker == ticker
  {
  }

  /**
   * A record's `source_url` names the CIK folder with its leading zeros
   * dropped and the accession number with its dashes removed, and its
   * `sections` are those extracted from the filing's text.
   */
  lemma RecordUrl(edgar: Edgar, formType: string, ticker: string)
    requires RecordFor(edgar, formType, ticker).Ok?
    requires '/' !in edgar[ticker].latest[formType].accessionNo
    ensures var f := edgar[ticker].latest[formType];
      var d := RecordFor(edgar, formType, ticker).value;
      && ParseFilingIndexUrl(d.sourceUrl) == Some((DropLeadingZeros(f.cik), RemoveAll(f.accessionNo, '-')))
      && d.filingDate == f.filingDate && d.sections == SectionsOf(f.text)
  {
    var f := edgar[ticker].latest[formType];
    CikNumberDropsZeros(f.cik);
    var cikNum := DropLeadingZeros(f.cik);
    assert '/' !in cikNum by {
      forall i | 0 <= i < |cikNum| ensures cikNum[i] != '/' { assert IsDigit(cikNum[i]); }
    }
    RemoveAllCounts(f.accessionNo, '-');
    assert multiset(RemoveAll(f.accessionNo, '-'))['/'] == 0;
    ParseFilingIndexUrlInverts(cikNum, RemoveAll(f.accessionNo, '-'));
  }

  /** The records of `tickers` in order, or the first exception. */
  function EdgarFilings(edgar: Edgar, formType: string, tickers: seq<string>): Result<seq<Filing>, FetchError>
    decreases |tickers|
  {
    if tickers == [] then Ok([])
    else match EdgarFilings(edgar, formType, tickers[..|tickers| - 1])
      case Err(e) => Err(e)
      case Ok(docs) =>
        match RecordFor(edgar, formType, tickers[|tickers| - 1])
        case Err(e) => Err(e)
        case Ok(d) => Ok(docs + [d])
  }

  /** One record per ticker, in ticker order, each the record of its ticker. */
  lemma {:induction false} EdgarFilingsRecords(edgar: Edgar, formType: string, tickers: seq<string>)
    requires EdgarFilings(edgar, formType, tickers).Ok?
    ensures |EdgarFilings(edgar, formType, tickers).value| == |tickers|
    ensures forall i :: 0 <= i < |tickers| ==>
      RecordFor(edgar, formType, tickers[i]) == Ok(EdgarFilings(edgar, formType, tickers).value[i])
    decreases |tickers|
  {
    if tickers != [] {
      var init := tickers[..|tickers| - 1];
      EdgarFilingsRecords(edgar, formType, init);
      forall i | 0 <= i < |tickers| - 1 ensures
        RecordFor(edgar, formType, tickers[i]) == Ok(EdgarFilings(edgar, formType, tickers).value[i])
      {
        assert init[i] == tickers[i];
      }
    }
  }

  /** Every ticker has a record exactly when the whole call succeeds. */
  lemma {:induction false} EdgarFilingsSucceeds(edgar: Edgar, formType: string, tickers: seq<string>)
    requires forall i :: 0 <= i < |tickers| ==> RecordFor(edgar, formType, tickers[i]).Ok?
    ensures EdgarFilings(edgar, formType, tickers).Ok?
    decreases |tickers|
  {
    if tickers != [] {
      var init := tickers[..|tickers| - 1];
      assert forall i :: 0 <= i < |init| ==> init[i] == tickers[i];
      EdgarFilingsSucceeds(edgar, formType, init);
    }
  }

  /** The exception is that of the first ticker whose record fails. */
  lemma {:induction false} EdgarFilingsFirstError(edgar: Edgar, formType: string, tickers: seq<string>, k: nat)
    requires k < |tickers| && RecordFor(edgar, formType, tickers[k]).Err?
    requires forall i :: 0 <= i < k ==> RecordFor(edgar, formType, tickers[i]).Ok?
    ensures EdgarFilings(edgar, formType, tickers) == Err(RecordFor(edgar, formType, tickers[k]).error)
    decreases |tickers|
  {
    var init := tickers[..|tickers| - 1];
    if k == |tickers| - 1 {
      assert forall i :: 0 <= i < |init| ==> init[i] == tickers[i];
      EdgarFilingsSucceeds(edgar, formType, init);
    } else {
      assert init[k] == tickers[k];
      assert forall i :: 0 <= i < k ==> init[i] == tickers[i];
      EdgarFilingsFirstError(edgar, formType, init, k);
    }
  }

  /** A ticker whose record is built extends the list built so far. */
  lemma EdgarFilingsExtend(edgar: Edgar, formType: string, tickers: seq<string>, n: nat, docs: seq<Filing>)
    requires n < |tickers| && EdgarFilings(edgar, formType, tickers[..n]) == Ok(docs)
    requires RecordFor(edgar, formType, tickers[n]).Ok?
    ensures EdgarFilings(edgar, formType, tickers[..n + 1]) == Ok(docs + [RecordFor(edgar, formType, tickers[n]).value])
  {
    assert tickers[..n + 1][..n] == tickers[..n];
  }

  /** A ticker whose record fails ends the call with that exception. */
  lemma EdgarFilingsStop(edgar: Edgar, formType: string, tickers: seq<string>, n: nat, docs: seq<Filing>)
    requires n < |tickers| && EdgarFilings(edgar, formType, tickers[..n]) == Ok(docs)
    requires RecordFor(edgar, formType, tickers[n]).Err?
    ensures EdgarFilings(edgar, formType, tickers) == Err(RecordFor(edgar, formType, tickers[n]).error)
  {
    assert tickers[..n + 1][..n] == tickers[..n];
    ErrorPersists(edgar, formType, tickers, n + 1);
  }

  /** Once an exception is raised, later tickers do not matter. */
  lemma ErrorPersists(edgar: Edgar, formType: string, tickers: seq<string>, n: nat)
    requires n <= |tickers|
    requires EdgarFilings(edgar, formType, tickers[..n]).Err?
    ensures EdgarFilings(edgar, formType, tickers) == EdgarFilings(edgar, formType, tickers[..n])
    decreases |tickers| - n
  {
    if n < |tickers| {
      assert tickers[..n + 1][..n] == tickers[..n];
      ErrorPersists(edgar, formType, tickers, n + 1);
    } else {
      assert tickers[..n] == tickers;
    }
  }

  /** The body of the loop of `fetch_edgar_filings` for one ticker. */
  method FetchRecord(edgar: Edgar, formType: string, ticker: string) returns (r: Result<Filing, FetchError>)
    ensures r == RecordFor(edgar, formType, ticker)
  {
    if ticker !in edgar {
      return Err(UnknownCompany(ticker));
    }
    var comp := edgar[ticker];
    if formType !in comp.latest {
      return Err(NoFiling(ticker, formType));
    }
    var latest := comp.latest[formType];
    var sections := ExtractSections(latest.text);
    var cikNum := CikNumber(latest.cik);
    if cikNum.None? {
      return Err(InvalidCik(ticker, latest.cik));
    }
    var accNoDashes := RemoveAll(latest.accessionNo, '-');
    var secUrl := FilingIndexUrl(cikNum.value, accNoDashes);
    r := Ok(Filing(ticker, latest.filingDate, secUrl, sections, comp.facts, None));
  }

  /**
   * `fetch_edgar_filings(form_type, top_n)` over the scraped symbol list: the
   * loop appends one record per ticker of `get_sp500_tickers(top_n)`.
   */
  method FetchEdgarFilings(edgar: Edgar, symbols: seq<string>, formType: string, topN: int)
    returns (r: Result<seq<Filing>, FetchError>)
    ensures r == EdgarFilings(edgar, formType, SpTickers(symbols, topN))
  {
    var tickers := SpTickers(symbols, topN);
    var docs: seq<Filing> := [];
    for i := 0 to |tickers|
      invariant EdgarFilings(edgar, formType, tickers[..i]) == Ok(docs)
    {
      var d := FetchRecord(edgar, formType, tickers[i]);
      if d.Err? {
        EdgarFilingsStop(edgar, formType, tickers, i, docs);
        return Err(d.error);
      }
      EdgarFilingsExtend(edgar, formType, tickers, i, docs);
      docs := docs + [d.value];
    }
    assert tickers[..|tickers|] == tickers;
    r := Ok(docs);
  }
}
