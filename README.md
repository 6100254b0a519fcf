# MarketScope ingestion core, in Dafny

This project models the deterministic core of the MarketScope ingestion
pipeline. The pipeline is an Airflow DAG `market_scope_ingest`: it pulls the
latest 10-K filings of the top S&P 500 tickers from EDGAR, enriches each
record with yfinance fundamentals and recent prices, and stores everything in
S3. Every foreign service is replaced by a value of the input:

- Wikipedia's symbol list is a `seq<string>`.
- EdgarTools is a map from ticker to the company's latest filings and XBRL facts.
- yfinance is a map from ticker to histories and an `info` dictionary.
- AWS Secrets Manager is a map from (region, secret id) to its response.
- S3 is a map from (bucket, key) to the value serialised into the object.

What is left is modelled in the source's own form.

| module | file | models |
|---|---|---|
| `Wrappers`, `Dicts`, `Records`, `Strings` | `wrappers.dfy`, `dicts.dfy`, `records.dfy`, `strings.dfy` | `Option`/`Result`, insertion-ordered Python dictionaries, the records that flow between stages, small string facts |
| `Sections` | `sections.dfy` | `_PATTERNS` and `extract_sections` (a method with a loop over the three rules) |
| `Tickers` | `tickers.dfy` | the `replace('.', '-')` and `[:top_n]` of `get_sp500_tickers` |
| `Secrets` | `secrets.dfy` | `get_secret` behind `lru_cache`, as a function on the cache state and as the class `SecretCache` |
| `Filings` | `filings.dfy` | `fetch_edgar_filings` (a method with a loop), `str(int(cik))`, `replace("-", "")`, the filing-index URL |
| `Market` | `market.dfy` | the fundamentals projection of `fetch_market_data`, and `tail().to_dict(orient="list")` |
| `Storage` | `storage.dfy` | `_key`, `_get_bucket`, the three save functions and the two load functions, as functions on a `StoreState` and as the classes `ObjectStore` (S3) and `Store` (the module's state in one process) |
| `Pipeline` | `pipeline.dfy` | the tasks `ingest_filings`, `ingest_market` (in-place enrichment of an `array<Filing>`) and `finalize`, each in a process of its own, and the DAG order |

Each imperative operation is a `method` proved against a reference function.
Examples: `Sections.ExtractSections` against `Sections.SectionsOf`,
`Filings.FetchEdgarFilings` against `Filings.EdgarFilings`,
`Storage.Store.SaveFilings` against `Storage.SaveStep`,
`Pipeline.IngestMarket` against `Pipeline.MarketStage`, and `Pipeline.Run`
against `Pipeline.RunSpec`. The lemmas listed below then state what the source
promises about those functions.

Behaviour worth knowing, as the code has it:

- A matched rule whose captured group is only whitespace yields the key with the value `""`, because `if m:` tests the match, not the group.
- The combined snapshot key has one-second resolution. `Storage.CombinedKeysDistinct` proves that different seconds give different keys; two runs in the same second overwrite one object.
- `storage.py` imports `get_secret` from `utils/secrets_utils.py`, which is not part of this model. It is taken to be the `get_secret` of `utils.py`.

## Model

| member | source | states |
|---|---|---|
| Dicts.Put | ingestion/edgar_ingestor/utils.py:26 | `d[k] = v` sets `k` to `v`; a new key goes last; every other key keeps its value |
| Dicts.Get | ingestion/edgar_ingestor/fetch_filings.py:90-93 | `d.get(k)` is absent exactly when `k` is not a key |
| Sections.SpaceRunEnd | ingestion/edgar_ingestor/utils.py:12-14 | the end of a `\s+` run: everything before it is whitespace and the next character is not |
| Sections.SpaceRunStart | ingestion/edgar_ingestor/utils.py:26 | the start of the trailing whitespace run that `strip()` removes |
| Sections.Strip | ingestion/edgar_ingestor/utils.py:26 | `strip()` returns one contiguous piece with no whitespace at either end, and everything outside it is whitespace |
| Sections.StripOfPadded | ingestion/edgar_ingestor/utils.py:26 | stripping whitespace padding around a trimmed text gives that text back |
| Sections.StripIdempotent | ingestion/edgar_ingestor/utils.py:26 | stripping twice is stripping once |
| Sections.MatchAt | ingestion/edgar_ingestor/utils.py:12-14 | a marker match starting at `i` ends at or after `i`, inside the text |
| Sections.Find | ingestion/edgar_ingestor/utils.py:12-14 | the search finds the first position where the marker matches, no match exists before it, and none at all when there is no result |
| Sections.FindIsFirst | ingestion/edgar_ingestor/utils.py:24 | any match with no match before it is the one `search` finds |
| Sections.AfterAnchors | ingestion/edgar_ingestor/utils.py:14 | the position after the last anchor lies between the search start and the end of the text (the left-to-right order of the anchors is stated by `SearchTwoAnchors` and `MdnaBetween`) |
| Sections.Search | ingestion/edgar_ingestor/utils.py:24 | the span of group 1 lies inside the text |
| Sections.CollectKeysFrom | ingestion/edgar_ingestor/utils.py:22-26 | every key of the dictionary is the key of some finding |
| Sections.CollectKeepsTrimmed | ingestion/edgar_ingestor/utils.py:26 | the dictionary keeps only the found values, so they stay trimmed |
| Sections.CollectThreeKeys | ingestion/edgar_ingestor/utils.py:22-26 | with three distinct keys, the result's keys are those of the matching rules, in rule order |
| Sections.CollectValueAt | ingestion/edgar_ingestor/utils.py:22-26 | with three distinct keys, the `i`-th key holds the `i`-th finding |
| Sections.CollectThreeValues | ingestion/edgar_ingestor/utils.py:22-26 | with three distinct keys, each key holds its own finding |
| Sections.CollectThreeOthers | ingestion/edgar_ingestor/utils.py:22-26 | no key outside the three rules is ever present |
| Sections.ExtractSections | ingestion/edgar_ingestor/utils.py:17-27 | the loop over `_PATTERNS` returns exactly `SectionsOf(text)` |
| Sections.SectionKeys | ingestion/edgar_ingestor/utils.py:11-26 | the keys are those of the matching rules, in the fixed order business, risk_factors, mdna |
| Sections.SectionValues | ingestion/edgar_ingestor/utils.py:22-26 | each key holds its rule's stripped section and is absent exactly when the rule does not match; no other key exists |
| Sections.SectionsTrimmed | ingestion/edgar_ingestor/utils.py:26 | no extracted value starts or ends with whitespace |
| Sections.BusinessBetween | ingestion/edgar_ingestor/utils.py:12-26 | `business` is the stripped text from the end of the first "Item 1. Business" marker up to the first "Item 1A." after it |
| Sections.BusinessWithoutStart | ingestion/edgar_ingestor/utils.py:12-26 | with no "Item 1. Business" marker there is no `business` key |
| Sections.BusinessWithoutStop | ingestion/edgar_ingestor/utils.py:12-26 | with no "Item 1A." after the first start marker there is no `business` key |
| Sections.RiskFactorsBetween | ingestion/edgar_ingestor/utils.py:13-26 | `risk_factors` is the stripped text from the first "Item 1A. Risk Factors" up to the first "Item 1B." after it |
| Sections.RiskFactorsWithoutStart | ingestion/edgar_ingestor/utils.py:13-26 | with no start marker there is no `risk_factors` key |
| Sections.RiskFactorsWithoutStop | ingestion/edgar_ingestor/utils.py:13-26 | with no "Item 1B." after the start marker there is no `risk_factors` key |
| Sections.MdnaBetween | ingestion/edgar_ingestor/utils.py:14-26 | `mdna` is the stripped text from the end of the first "Discussion" after "Item 7. Management" up to the first "Item 7A." after it |
| Sections.MdnaWithoutStart | ingestion/edgar_ingestor/utils.py:14-26 | with no "Item 7. Management" marker there is no `mdna` key |
| Sections.MdnaWithoutDiscussion | ingestion/edgar_ingestor/utils.py:14-26 | with no "Discussion" after the start marker there is no `mdna` key |
| Sections.MdnaWithoutStop | ingestion/edgar_ingestor/utils.py:14-26 | with no "Item 7A." after that "Discussion" there is no `mdna` key |
| Tickers.Normalize | ingestion/edgar_ingestor/utils.py:40 | `replace('.', '-')` keeps the length, leaves no `.`, turns each `.` into `-` and keeps every other character |
| Tickers.RestoreNormalize | ingestion/edgar_ingestor/utils.py:40 | a symbol without `-` is recovered from its normalised form |
| Tickers.NormalizeInjective | ingestion/edgar_ingestor/utils.py:40 | two symbols without `-` never normalise to the same ticker |
| Tickers.NormalizeIdempotent | ingestion/edgar_ingestor/utils.py:40 | normalising twice is normalising once |
| Tickers.SpTickers | ingestion/edgar_ingestor/utils.py:40-41 | the result has the sliced length and element `i` is `symbols[i]` normalised |
| Tickers.SpTickersCount | ingestion/edgar_ingestor/utils.py:41 | `[:top_n]` keeps `top_n` tickers when there are that many and all of them when there are fewer; a negative `top_n` drops the last `-top_n`, leaving none when that is more than there are |
| Tickers.SpTickersPrefix | ingestion/edgar_ingestor/utils.py:41 | a larger `top_n` only extends the list |
| Secrets.Fetch | ingestion/edgar_ingestor/utils.py:65-78 | the request raises `ClientError` exactly when Secrets Manager does not know the id, and the call raises at all exactly when, besides that, the response has neither `SecretString` nor `SecretBinary` |
| Secrets.FetchPrefersString | ingestion/edgar_ingestor/utils.py:72-78 | a response with a `SecretString` yields that text |
| Secrets.FetchFallsBackToBinary | ingestion/edgar_ingestor/utils.py:72-78 | without a `SecretString`, the `SecretBinary` bytes are returned, and with neither field the call raises `KeyError` |
| Secrets.Call | ingestion/edgar_ingestor/utils.py:45-78 | a remembered value is answered with no request and no change to the cache; otherwise exactly one request is logged, the answer is `Fetch`'s, and it is remembered exactly when it succeeds |
| Secrets.CallKeepsMemo | ingestion/edgar_ingestor/utils.py:45-67 | a call never changes a remembered value, sends at most one request (for its own arguments), keeps every entry backed by a request, and remembers a successful answer |
| Secrets.Run | ingestion/edgar_ingestor/utils.py:45-46 | a run of calls gives one answer per call |
| Secrets.RunAnswers | ingestion/edgar_ingestor/utils.py:45-78 | the `i`-th answer of a run is the decorated call made in the cache state the first `i` calls left |
| Secrets.RememberedIsFinal | ingestion/edgar_ingestor/utils.py:45-67 | once remembered, a value is returned by every later call with the same arguments, with no new request, whatever Secrets Manager holds |
| Secrets.AtMostOneContact | ingestion/edgar_ingestor/utils.py:45-67 | when Secrets Manager answers a key successfully, a whole run sends at most one more request for it |
| Secrets.RepeatedCall | ingestion/edgar_ingestor/utils.py:45-67 | two calls in a row with the same arguments give the same value for one request |
| Secrets.FailureIsRetried | ingestion/edgar_ingestor/utils.py:66-70 | a failed request is not cached: the next call asks Secrets Manager again |
| Secrets.SecretCache.GetSecret | ingestion/edgar_ingestor/utils.py:45-78 | the decorated call updates the cache exactly as `Call` does and returns its answer |
| Filings.ShowDecimal | ingestion/edgar_ingestor/fetch_filings.py:60 | `str(n)` is a non-empty digit string without a leading zero unless it is "0" |
| Filings.ParseShow | ingestion/edgar_ingestor/fetch_filings.py:60 | `int(str(n)) == n` |
| Filings.ShowParse | ingestion/edgar_ingestor/fetch_filings.py:60 | `str(int(s)) == s` for a canonical digit string |
| Filings.LeadingZeros | ingestion/edgar_ingestor/fetch_filings.py:59-60 | the count of leading `0` characters |
| Filings.ParseLeadingZeros | ingestion/edgar_ingestor/fetch_filings.py:60 | leading zeros do not change `int()` |
| Filings.CikNumber | ingestion/edgar_ingestor/fetch_filings.py:57-60 | `str(int(cik))` succeeds exactly for a non-empty ASCII digit string and is canonical |
| Filings.CikNumberDropsZeros | ingestion/edgar_ingestor/fetch_filings.py:57-60 | "0000320193" gives "320193", and a CIK of only zeros gives "0" |
| Filings.RemoveAllCounts | ingestion/edgar_ingestor/fetch_filings.py:61 | `replace("-", "")` leaves no dash, shortens by the number of dashes, and keeps every other character as often as it occurs |
| Filings.RemoveAllAppend | ingestion/edgar_ingestor/fetch_filings.py:61 | removal works piece by piece, so the kept characters keep their order |
| Filings.RemoveAllAbsent | ingestion/edgar_ingestor/fetch_filings.py:61 | a string without dashes is unchanged |
| Filings.ParseFilingIndexUrlInverts | ingestion/edgar_ingestor/fetch_filings.py:62-65 | the filing-index URL has the fixed template and gives back its CIK folder and accession folder |
| Filings.RecordKeys | ingestion/edgar_ingestor/fetch_filings.py:70-76 | a record has exactly the keys ticker, filing_date, source_url, sections, xbrl_facts, and the loop's ticker |
| Filings.RecordUrl | ingestion/edgar_ingestor/fetch_filings.py:52-76 | `source_url` names the CIK without leading zeros and the accession number without dashes; `sections` are those extracted from the filing's text |
| Filings.EdgarFilingsRecords | ingestion/edgar_ingestor/fetch_filings.py:42-79 | one record per ticker, in ticker order, each the record of its ticker |
| Filings.EdgarFilingsSucceeds | ingestion/edgar_ingestor/fetch_filings.py:42-79 | when every ticker has a record, the call succeeds |
| Filings.EdgarFilingsFirstError | ingestion/edgar_ingestor/fetch_filings.py:43-79 | otherwise the call raises the exception of the first failing ticker |
| Filings.ErrorPersists | ingestion/edgar_ingestor/fetch_filings.py:43-79 | after an exception, later tickers do not matter |
| Filings.FetchRecord | ingestion/edgar_ingestor/fetch_filings.py:44-76 | the loop body builds `RecordFor` the ticker, or raises its exception |
| Filings.FetchEdgarFilings | ingestion/edgar_ingestor/fetch_filings.py:35-79 | the loop over `get_sp500_tickers(top_n)` returns exactly `EdgarFilings` of those tickers |
| Market.FundamentalsLookup | ingestion/edgar_ingestor/fetch_filings.py:89-94 | the fundamentals have exactly the four keys in literal order, each `info[k]` when present and null otherwise, and nothing else from `info` |
| Market.FetchMarketData | ingestion/edgar_ingestor/fetch_filings.py:82-95 | a ticker or history yfinance cannot serve raises an error naming that ticker (the full case split is `FetchMarketDataCases`) |
| Market.FetchMarketDataCases | ingestion/edgar_ingestor/fetch_filings.py:82-95 | an unknown ticker or history raises; otherwise the history passes through unchanged and the fundamentals have the four keys |
| Market.TailRectangular | dags/financial_data.py:40 | `tail()` keeps a rectangular frame rectangular, with `min(n, rows)` rows |
| Market.ToDictListColumns | dags/financial_data.py:40 | `to_dict(orient="list")` with distinct column names lists every column, in order, with its values |
| Market.RecentHistoryColumns | dags/financial_data.py:40 | `recent_history` maps each history column, in order, to its last `min(5, rows)` values |
| Storage.Key | ingestion/edgar_ingestor/storage.py:27-28 | a key is the prefix, one `/`, then the file name, so both parts can be read back from it |
| Storage.KeyInjective | ingestion/edgar_ingestor/storage.py:27-28 | under one prefix, different file names give different keys |
| Storage.KeyFamiliesDisjoint | ingestion/edgar_ingestor/storage.py:42-73 | keys written by different save functions never collide |
| Storage.FilingKeyInjective | ingestion/edgar_ingestor/storage.py:42 | filing keys tell tickers and dates apart when a ticker has no `_` |
| Storage.MarketKeysInjective | ingestion/edgar_ingestor/storage.py:57-63 | one history object and one fundamentals object per ticker |
| Storage.PaddedValue | ingestion/edgar_ingestor/storage.py:72 | a zero-padded field is all digits and reads back as its number |
| Storage.StampShape | ingestion/edgar_ingestor/storage.py:72 | the stamp is eight digits, `_`, six digits |
| Storage.StampDate | ingestion/edgar_ingestor/storage.py:72 | the first eight characters are the padded year, month and day |
| Storage.StampTime | ingestion/edgar_ingestor/storage.py:72 | the last six characters are the padded hour, minute and second |
| Storage.ParseStampInverts | ingestion/edgar_ingestor/storage.py:72 | the stamp determines the second it was taken |
| Storage.CombinedKeysDistinct | ingestion/edgar_ingestor/storage.py:72-73 | snapshots taken in different seconds get different keys |
| Storage.ApplyAppend | ingestion/edgar_ingestor/storage.py:39-44 | two batches of writes in a row are their concatenation |
| Storage.ApplyElsewhere | ingestion/edgar_ingestor/storage.py:39-44 | an object no write addresses is unchanged |
| Storage.ApplyWritten | ingestion/edgar_ingestor/storage.py:39-44 | every written key is present afterwards |
| Storage.ApplyLastWins | ingestion/edgar_ingestor/storage.py:39-44 | writes are overwrites: the last write to a key wins |
| Storage.SaveFilingsStores | ingestion/edgar_ingestor/storage.py:39-44 | after `save_filings` every document's key is present, and a key shared by several documents holds the last of them |
| Storage.SaveFilingsElsewhere | ingestion/edgar_ingestor/storage.py:39-44 | no object outside the documents' keys changes; an empty list changes nothing |
| Storage.SaveMarketDataChanges | ingestion/edgar_ingestor/storage.py:51-64 | `save_market_data` writes exactly its history and fundamentals objects, which are distinct |
| Storage.SaveCombinedChanges | ingestion/edgar_ingestor/storage.py:71-75 | `save_combined` writes exactly one object, at `combined/combined_{stamp}.json` |
| Storage.HistoryOf | ingestion/edgar_ingestor/storage.py:82-85 | a missing history object is `NoSuchKey`; the read succeeds exactly on a Parquet object |
| Storage.FundamentalsOf | ingestion/edgar_ingestor/storage.py:92-95 | a missing fundamentals object is `NoSuchKey`; the read succeeds exactly on a JSON object |
| Storage.MarketRoundTrip | ingestion/edgar_ingestor/storage.py:57-95 | loading right after saving reads back the history and fundamentals just written |
| Storage.ResolveBucket | ingestion/edgar_ingestor/storage.py:20-24 | a truthy global is returned with no call; a fetched name is kept in the global; a failed fetch leaves the global as it was |
| Storage.ResolveBucketStable | ingestion/edgar_ingestor/storage.py:20-24 | once `_get_bucket` has succeeded, later calls return the same name with no new request |
| Storage.FalsyBucketRefetches | ingestion/edgar_ingestor/storage.py:20-24 | in every cache state, a falsy global (unset or an empty name) makes `_get_bucket` answer exactly as a fresh `get_secret` call does; when `get_secret` has nothing remembered, that costs one more request |
| Storage.SaveStepFailure | ingestion/edgar_ingestor/storage.py:34-38 | a save that cannot resolve the bucket writes nothing |
| Storage.SaveThenLoad | ingestion/edgar_ingestor/storage.py:47-95 | after a successful `save_market_data(t, m)`, `load_history(t)` and `load_fundamentals(t)` return what was saved and change nothing |
| Storage.ObjectStore.Put | ingestion/edgar_ingestor/storage.py:44 | `put_object` is an unconditional overwrite |
| Storage.Store.constructor | ingestion/edgar_ingestor/storage.py:18 | a process starts with `_s3_bucket = None` |
| Storage.Store.GetBucket | ingestion/edgar_ingestor/storage.py:20-24 | `_get_bucket()` changes the global and the cache exactly as `ResolveBucket` does |
| Storage.Store.SaveFilings | ingestion/edgar_ingestor/storage.py:34-44 | the loop of `put_object` calls leaves exactly the state of `SaveStep` with `FilingWrites` |
| Storage.Store.SaveMarketData | ingestion/edgar_ingestor/storage.py:47-64 | leaves exactly the state of `SaveStep` with `MarketWrites` |
| Storage.Store.SaveCombined | ingestion/edgar_ingestor/storage.py:67-75 | leaves exactly the state of `SaveStep` with `CombinedWrites` under the stamp of `now` |
| Storage.Store.LoadHistory | ingestion/edgar_ingestor/storage.py:78-85 | returns and leaves exactly what `LoadHistoryStep` says |
| Storage.Store.LoadFundamentals | ingestion/edgar_ingestor/storage.py:88-95 | returns and leaves exactly what `LoadFundamentalsStep` says |
| Pipeline.EnrichFields | dags/financial_data.py:38-41 | enriching sets `market_data` to the fundamentals and the recent history and touches no other field; a record without the key gains it last |
| Pipeline.EnrichAllAt | dags/financial_data.py:34-42 | the enriched list has the input's length and order, and record `i` is input record `i` with its own ticker's market data |
| Pipeline.MarketStageEnriches | dags/financial_data.py:34-42 | when the loop of `ingest_market` succeeds, it produces exactly the records of `EnrichAll` |
| Pipeline.MarketStageErrorPersists | dags/financial_data.py:34-41 | once a record raises, the remaining records are never reached |
| Pipeline.MarketStageWrites | dags/financial_data.py:34-37 | `save_market_data` is called once per record, with its ticker, in list order, into the bucket the first call resolved |
| Pipeline.EnrichDoc | dags/financial_data.py:35-41 | one loop iteration takes the stage one record further, or ends it with this record's exception |
| Pipeline.IngestMarket | dags/financial_data.py:32-42 | the in-place loop over the array gives the result and the storage state of `MarketStage`, and on success the array holds the pushed list |
| Pipeline.IngestFilings | dags/financial_data.py:26-30 | gives the result and the storage state of `FilingsStage` |
| Pipeline.Finalize | dags/financial_data.py:44-46 | saves the pulled list as one combined snapshot, as `SaveStep` says |
| Pipeline.FilingsProcess | dags/financial_data.py:26-30 | `ingest_filings` in a fresh process over the shared S3 |
| Pipeline.MarketProcess | dags/financial_data.py:32-42 | `ingest_market` in a fresh process, enriching a fresh list in place |
| Pipeline.FinalizeProcess | dags/financial_data.py:44-46 | `finalize` in a fresh process |
| Pipeline.Run | dags/financial_data.py:26-66 | one run of the DAG gives exactly `RunSpec`: the result, S3 afterwards and the tasks that ran |
| Pipeline.RunAfterFilings | dags/financial_data.py:32-66 | the downstream tasks, once `ingest_filings` has pushed its list |
| Pipeline.RunOrder | dags/financial_data.py:66 | tasks run in DAG order, a failed task stops the run, and a successful run has run all three |
| Pipeline.FreshBucket | ingestion/edgar_ingestor/storage.py:18-24 | each process resolves the bucket with one fresh request |
| Pipeline.RunHandOff | dags/financial_data.py:26-46 | `finalize` saves, under the stamp of `now`, exactly the list `ingest_market` made from the list `ingest_filings` fetched and saved |
| Pipeline.RunRecords | dags/financial_data.py:26-46 | a successful run saves one record per top ticker, in ticker order, each with its ticker and with market data |

## Left out

- HTML to text (`BeautifulSoup(...).get_text()`): the model takes the plain text as input.
- The network: scraping Wikipedia and `pd.read_html`, EdgarTools, yfinance, boto3 and Secrets Manager requests. Their answers are inputs.
- The failures that are modelled: an unknown ticker in EdgarTools (`UnknownCompany`), no filing of the form type (`NoFiling`), a CIK that is not a number (`InvalidCik`), a ticker or history yfinance cannot serve (`NoMarketData`), a failed Secrets Manager request (`ClientError`), a secret response with neither field (`NoSecretBinary`), and a missing or unreadable S3 object (`NoSuchKey`, `Unreadable`).
- The calls that always succeed in the model: fetching and parsing the Wikipedia page (`pd.read_html`), `latest.html()`, `comp.get_facts().to_pandas()`, and `tk.info`. Their failures would propagate as exceptions in the source.
- Failures of `put_object` and `upload_fileobj` themselves: S3 writes always succeed in the model.
- `time.sleep` rate limiting and `pd.Timestamp.now()`: there is no clock, and the moment of `finalize` is a parameter.
- JSON and Parquet encoding (including `default=str` and `index=True`): an object holds the value that was serialised into it, so a load returns exactly what was saved.
- XCom: a pushed list reaches the next task unchanged. Airflow's schedule, retries, `retry_delay` and `catchup` are not modelled.
- The import-time `IDENTITY = get_secret(...)` and `set_identity` of `fetch_filings.py`: identity does not affect what the pipeline computes.
- `utils/secrets_utils.py` is not part of this model: `storage.py`'s `get_secret` is assumed to behave like the one in `utils.py`.
- A general regular-expression engine. Only the three marker rules are modelled, and `\s+` takes the maximal whitespace run. This suffices because every word that follows a `\s+` in those patterns starts with a non-space character.
- Sections.Fold: `re.IGNORECASE` is modelled for ASCII letters and for the four non-ASCII characters that fold to an ASCII letter. These patterns contain no other letters.
- Filings.CikNumber: only ASCII digit strings are accepted. Python's `int()` also accepts surrounding whitespace, a sign, underscores and non-ASCII digits; those CIKs are treated as errors.
- Storage.ValidMoment: years are restricted to 1677–2262, the range of `pandas.Timestamp`, and moments are second-resolution.
- Market.ToDictListColumns: proved only for histories with distinct column names, which is what a yfinance history has. `ToDictList` itself models a repeated name.
- Aliasing between the pushed list and the records saved by `save_filings`: `ingest_market` gets its own copy, as XCom serialisation gives it.
- Per-task Secrets Manager: each task is a process of its own and asks Secrets Manager again. Each task therefore gets its own Secrets Manager snapshot, and requests across tasks are not counted together.
- A yfinance ticker without data is modelled as an exception (`NoMarketData`). In reality yfinance may return an empty frame, which the source would then save.
