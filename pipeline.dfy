/**
 * The daily DAG `market_scope_ingest`: `ingest_filings`, then
 * `ingest_market`, then `finalize`. Each task runs in a process of its own, so
 * each starts with `_s3_bucket = None` and an empty `get_secret` cache; S3 is
 * shared, and each task's input is the list the previous task pushed.
 */
module Pipeline {
  import opened Wrappers
  import opened Dicts
  import opened Records
  import opened Secrets
  import opened Tickers
  import opened Market
  import opened Filings
  import opened Storage

  const FormType: string := "10-K"
  const TopN: int := 10
  const MarketPeriod: string := "5y"
  const MarketInterval: string := "1d"

  datatype StageError =
    | FilingsFailed(fetch: FetchError)
    | MarketFailed(fetch: FetchError)
    | StorageFailed(storage: StorageError)

  // ---------------------------------------------------------------------------
  // `ingest_market`
  // ---------------------------------------------------------------------------

  /** `doc["market_data"] = {"fundamentals": ..., "recent_history": ...}`. */
  function Enrich(doc: Filing, m: MarketData): (d: Filing)
  {
    doc.(marketData := Some(Summary(m)))
  }

  /**
   * Enriching sets the `market_data` key to the summary of `m` and touches no
   * other field: a record without the key gains it at the end of its keys.
   */
  lemma EnrichFields(doc: Filing, m: MarketData)
    ensures var d := Enrich(doc, m);
      && d.ticker == doc.ticker && d.filingDate == doc.filingDate && d.sourceUrl == doc.sourceUrl
      && d.sections == doc.sections && d.xbrlFacts == doc.xbrlFacts
      && d.marketData == Some(MarketSummary(m.fundamentals, RecentHistory(m.history)))
      && d.Keys() == (if doc.marketData.Some? then doc.Keys() else doc.Keys() + ["market_data"])
  {
  }

  /** The outcome of a stage: the list it pushes, or its exception, and the storage state it leaves. */
  datatype StageRun = StageRun(result: Result<seq<Filing>, StageError>, state: StoreState)

  /** `d` is `doc` with the market data of its own ticker attached. */
  predicate EnrichedFrom(d: Filing, doc: Filing, feed: Feed) {
    FetchMarketData(feed, doc.ticker, MarketPeriod, MarketInterval).Ok? &&
    d == Enrich(doc, FetchMarketData(feed, doc.ticker, MarketPeriod, MarketInterval).value)
  }

  /** The outcome of one document: the enriched record, or the exception, and the storage state after it. */
  datatype DocRun = DocRun(result: Result<Filing, StageError>, state: StoreState)

  /** One iteration of the loop of `ingest_market`: fetch the document's market data, save it, enrich the document. */
  function EnrichStep(st: StoreState, doc: Filing, feed: Feed, sm: SecretsManager): DocRun {
    match FetchMarketData(feed, doc.ticker, MarketPeriod, MarketInterval)
    case Err(e) => DocRun(Err(MarketFailed(e)), st)
    case Ok(m) =>
      var saved := SaveStep(st, MarketWrites(doc.ticker, m), sm);
      if saved.outcome.Fail? then DocRun(Err(StorageFailed(saved.outcome.error)), saved.state)
      else DocRun(Ok(Enrich(doc, m)), saved.state)
  }

  /** The loop so far, then one more document; after an exception nothing more happens. */
  function MarketStep(prev: StageRun, doc: Filing, feed: Feed, sm: SecretsManager): StageRun {
    if prev.result.Err? then prev
    else
      var d := EnrichStep(prev.state, doc, feed, sm);
      if d.result.Err? then StageRun(Err(d.result.error), d.state)
      else StageRun(Ok(prev.result.value + [d.result.value]), d.state)
  }

  /**
   * The records the market stage is meant to produce, independently of
   * storage: every record with the market data of its own ticker attached, or
   * nothing when yfinance cannot serve one of the tickers.
   */
  function EnrichAll(docs: seq<Filing>, feed: Feed): Option<seq<Filing>>
    decreases |docs|
  {
    if docs == [] then Some([])
    else
      var init := EnrichAll(docs[..|docs| - 1], feed);
      var doc := docs[|docs| - 1];
      match FetchMarketData(feed, doc.ticker, MarketPeriod, MarketInterval)
      case Err(_) => None
      case Ok(m) => if init.None? then None else Some(init.value + [Enrich(doc, m)])
  }

  /** `EnrichAll` keeps the length and the order, and record `i` is input record `i` enriched. */
  lemma {:induction false} EnrichAllAt(docs: seq<Filing>, feed: Feed)
    requires EnrichAll(docs, feed).Some?
    ensures |EnrichAll(docs, feed).value| == |docs|
    ensures forall i :: 0 <= i < |docs| ==> EnrichedFrom(EnrichAll(docs, feed).value[i], docs[i], feed)
    decreases |docs|
  {
    if docs != [] {
      var init := docs[..|docs| - 1];
      EnrichAllAt(init, feed);
      forall i | 0 <= i < |init| ensures EnrichedFrom(EnrichAll(docs, feed).value[i], docs[i], feed) {
        assert init[i] == docs[i];
      }
    }
  }

  /** The loop of `ingest_market` over `docs`. */
  function MarketStage(docs: seq<Filing>, feed: Feed, st: StoreState, sm: SecretsManager): StageRun
    decreases |docs|
  {
    if docs == [] then StageRun(Ok([]), st)
    else MarketStep(MarketStage(docs[..|docs| - 1], feed, st, sm), docs[|docs| - 1], feed, sm)
  }

  /** When the loop of `ingest_market` succeeds, it has produced exactly the records of `EnrichAll`. */
  lemma {:induction false} MarketStageEnriches(docs: seq<Filing>, feed: Feed, st: StoreState, sm: SecretsManager)
    requires MarketStage(docs, feed, st, sm).result.Ok?
    ensures EnrichAll(docs, feed) == Some(MarketStage(docs, feed, st, sm).result.value)
    decreases |docs|
  {
    if docs != [] {
      MarketStageEnriches(docs[..|docs| - 1], feed, st, sm);
    }
  }

  /** One more document: the stage on `docs[..n + 1]` is one more step after the stage on `docs[..n]`. */
  lemma MarketStageNext(docs: seq<Filing>, feed: Feed, st: StoreState, sm: SecretsManager, n: nat)
    requires n < |docs|
    ensures MarketStage(docs[..n + 1], feed, st, sm) == MarketStep(MarketStage(docs[..n], feed, st, sm), docs[n], feed, sm)
  {
    assert docs[..n + 1][..n] == docs[..n];
  }

  /** Once a document fails, the rest of the list is never reached. */
  lemma MarketStageErrorPersists(docs: seq<Filing>, feed: Feed, st: StoreState, sm: SecretsManager, n: nat)
    requires n <= |docs|
    requires MarketStage(docs[..n], feed, st, sm).result.Err?
    ensures MarketStage(docs, feed, st, sm) == MarketStage(docs[..n], feed, st, sm)
    decreases |docs| - n
  {
    if n < |docs| {
      assert docs[..n + 1][..n] == docs[..n];
      MarketStageErrorPersists(docs, feed, st, sm, n + 1);
    } else {
      assert docs[..n] == docs;
    }
  }

  /** The objects `save_market_data` writes for the documents, in list order. */
  function SavedWrites(docs: seq<Filing>, feed: Feed): seq<Write>
    decreases |docs|
  {
    if docs == [] then []
    else
      var doc := docs[|docs| - 1];
      SavedWrites(docs[..|docs| - 1], feed) +
        match FetchMarketData(feed, doc.ticker, MarketPeriod, MarketInterval)
        case Ok(m) => MarketWrites(doc.ticker, m)
        case Err(_) => []
  }

  /** A document that goes through extends the list the loop has built so far. */
  lemma MarketStageExtend(docs: seq<Filing>, feed: Feed, st: StoreState, sm: SecretsManager, n: nat,
                          built: seq<Filing>, before: StoreState, d: DocRun)
    requires n < |docs|
    requires MarketStage(docs[..n], feed, st, sm) == StageRun(Ok(built), before)
    requires EnrichStep(before, docs[n], feed, sm) == d && d.result.Ok?
    ensures MarketStage(docs[..n + 1], feed, st, sm) == StageRun(Ok(built + [d.result.value]), d.state)
  {
    MarketStageNext(docs, feed, st, sm, n);
  }

  /** A document that fails ends the stage with its exception. */
  lemma MarketStageStop(docs: seq<Filing>, feed: Feed, st: StoreState, sm: SecretsManager, n: nat,
                        built: seq<Filing>, before: StoreState, d: DocRun)
    requires n < |docs|
    requires MarketStage(docs[..n], feed, st, sm) == StageRun(Ok(built), before)
    requires EnrichStep(before, docs[n], feed, sm) == d && d.result.Err?
    ensures MarketStage(docs, feed, st, sm) == StageRun(Err(d.result.error), d.state)
  {
    MarketStageNext(docs, feed, st, sm, n);
    MarketStageErrorPersists(docs, feed, st, sm, n + 1);
  }

  /**
   * `save_market_data` is called once per record, with that record's ticker,
   * in list order, all into the bucket the first call resolved; the bucket
   * global and the secret cache then stay as that first call left them.
   */
  lemma {:induction false} MarketStageWrites(docs: seq<Filing>, feed: Feed, st: StoreState, sm: SecretsManager)
    requires docs != []
    requires MarketStage(docs, feed, st, sm).result.Ok?
    ensures var a := ResolveBucket(st.bucket, st.memo, sm);
      a.result.Ok? &&
      MarketStage(docs, feed, st, sm).state
        == StoreState(a.bucket, a.memo, Apply(st.objects, a.result.value, SavedWrites(docs, feed)))
    decreases |docs|
  {
    var a := ResolveBucket(st.bucket, st.memo, sm);
    var init := docs[..|docs| - 1];
    var doc := docs[|docs| - 1];
    var m := FetchMarketData(feed, doc.ticker, MarketPeriod, MarketInterval).value;
    if init == [] {
      assert SavedWrites(init, feed) == [];
      assert SavedWrites(docs, feed) == MarketWrites(doc.ticker, m);
    } else {
      MarketStageWrites(init, feed, st, sm);
      ResolveBucketStable(st.bucket, st.memo, sm, sm);
      ApplyAppend(st.objects, a.result.value, SavedWrites(init, feed), MarketWrites(doc.ticker, m));
    }
  }

  /**
   * The body of the loop of `ingest_market` for record `i` of `input`, when
   * the records before it have produced `built`: the stage goes one record
   * further, or ends with this record's exception.
   */
  method EnrichDoc(doc: Filing, feed: Feed, store: Store, sm: SecretsManager,
                   ghost input: seq<Filing>, ghost i: nat, ghost start: StoreState, ghost built: seq<Filing>)
    returns (r: Result<Filing, StageError>)
    requires i < |input| && doc == input[i]
    requires MarketStage(input[..i], feed, start, sm) == StageRun(Ok(built), store.State())
    modifies store, store.secrets, store.s3
    ensures r.Ok? ==> MarketStage(input[..i + 1], feed, start, sm) == StageRun(Ok(built + [r.value]), store.State())
    ensures r.Err? ==> MarketStage(input, feed, start, sm) == StageRun(Err(r.error), store.State())
  {
    ghost var before := store.State();
    var mdata := FetchMarketData(feed, doc.ticker, MarketPeriod, MarketInterval);
    if mdata.Err? {
      r := Err(MarketFailed(mdata.error));
      MarketStageStop(input, feed, start, sm, i, built, before, DocRun(r, store.State()));
      return;
    }
    var saved := store.SaveMarketData(doc.ticker, mdata.value, sm);
    if saved.Fail? {
      r := Err(StorageFailed(saved.error));
      MarketStageStop(input, feed, start, sm, i, built, before, DocRun(r, store.State()));
      return;
    }
    r := Ok(Enrich(doc, mdata.value));
    MarketStageExtend(input, feed, start, sm, i, built, before, DocRun(r, store.State()));
  }

  /** `ingest_market`: pull the filings, enrich every record in place, push the list. */
  method IngestMarket(docs: array<Filing>, feed: Feed, store: Store, sm: SecretsManager)
    returns (r: Result<seq<Filing>, StageError>)
    modifies docs, store, store.secrets, store.s3
    ensures var run := MarketStage(old(docs[..]), feed, old(store.State()), sm);
      r == run.result && store.State() == run.state
    ensures r.Ok? ==> docs[..] == r.value
  {
    ghost var input := docs[..];
    ghost var start := store.State();
    for i := 0 to docs.Length
      invariant forall j :: i <= j < docs.Length ==> docs[j] == input[j]
      invariant MarketStage(input[..i], feed, start, sm) == StageRun(Ok(docs[..i]), store.State())
    {
      ghost var built := docs[..i];
      var d := EnrichDoc(docs[i], feed, store, sm, input, i, start, built);
      if d.Err? {
        return Err(d.error);
      }
      ghost var now := store.State();
      docs[i] := d.value;
      assert store.State() == now;
      assert docs[..i + 1] == built + [d.value];
    }
    assert input[..docs.Length] == input;
    assert docs[..] == docs[..docs.Length];
    r := Ok(docs[..]);
  }

  // ---------------------------------------------------------------------------
  // `ingest_filings` and `finalize`
  // ---------------------------------------------------------------------------

  /**
   * What Wikipedia, EdgarTools and yfinance would answer during the run, and
   * what Secrets Manager answers each task: every task is a process of its own
   * that asks Secrets Manager again, so the three answers may differ.
   */
  datatype World = World(symbols: seq<string>, edgar: Edgar, feed: Feed,
                         filingsSecrets: SecretsManager, marketSecrets: SecretsManager, finalizeSecrets: SecretsManager)

  /** `ingest_filings`: fetch the filings, save them, push them. */
  function FilingsStage(w: World, st: StoreState): StageRun {
    match EdgarFilings(w.edgar, FormType, SpTickers(w.symbols, TopN))
    case Err(e) => StageRun(Err(FilingsFailed(e)), st)
    case Ok(filings) =>
      var saved := SaveStep(st, FilingWrites(filings), w.filingsSecrets);
      if saved.outcome.Fail? then StageRun(Err(StorageFailed(saved.outcome.error)), saved.state)
      else StageRun(Ok(filings), saved.state)
  }

  method IngestFilings(w: World, store: Store) returns (r: Result<seq<Filing>, StageError>)
    modifies store, store.secrets, store.s3
    ensures var run := FilingsStage(w, old(store.State()));
      r == run.result && store.State() == run.state
  {
    var filings := FetchEdgarFilings(w.edgar, w.symbols, FormType, TopN);
    if filings.Err? {
      return Err(FilingsFailed(filings.error));
    }
    var saved := store.SaveFilings(filings.value, w.filingsSecrets);
    if saved.Fail? {
      return Err(StorageFailed(saved.error));
    }
    r := Ok(filings.value);
  }

  /** `finalize`: save the pulled list as one combined snapshot. */
  method Finalize(enriched: seq<Filing>, now: Moment, store: Store, sm: SecretsManager) returns (r: Outcome<StageError>)
    requires ValidMoment(now)
    modifies store, store.secrets, store.s3
    ensures var saved := SaveStep(old(store.State()), CombinedWrites(enriched, Stamp(now)), sm);
      store.State() == saved.state &&
      r == if saved.outcome.Pass? then Pass else Fail(StorageFailed(saved.outcome.error))
  {
    var saved := store.SaveCombined(enriched, now, sm);
    if saved.Fail? {
      return Fail(StorageFailed(saved.error));
    }
    r := Pass;
  }

  // ---------------------------------------------------------------------------
  // The DAG run
  // ---------------------------------------------------------------------------

  datatype Task = IngestFilingsTask | IngestMarketTask | FinalizeTask

  /** The outcome of a run: the list `finalize` saved (or the exception), S3 afterwards, and the tasks that ran. */
  datatype PipelineRun = PipelineRun(result: Result<seq<Filing>, StageError>, objects: Objects, ran: seq<Task>)

  /** The state a task's process starts from. */
  function Fresh(objs: Objects): StoreState {
    StoreState(None, EmptyMemo, objs)
  }

  /** `ingest_filings >> ingest_market >> finalize`; a failed task stops the run. */
  function RunSpec(w: World, now: Moment, objs: Objects): PipelineRun
    requires ValidMoment(now)
  {
    var s1 := FilingsStage(w, Fresh(objs));
    AfterFilings(w, now, s1.result, s1.state.objects)
  }

  /** The rest of the run once `ingest_filings` has ended with `filings`, leaving `objs` in S3. */
  function AfterFilings(w: World, now: Moment, filings: Result<seq<Filing>, StageError>, objs: Objects): PipelineRun
    requires ValidMoment(now)
  {
    if filings.Err? then PipelineRun(filings, objs, [IngestFilingsTask])
    else
      var s2 := MarketStage(filings.value, w.feed, Fresh(objs), w.marketSecrets);
      AfterMarket(w, now, s2.result, s2.state.objects)
  }

  /** The rest of the run once `ingest_market` has ended with `enriched`, leaving `objs` in S3. */
  function AfterMarket(w: World, now: Moment, enriched: Result<seq<Filing>, StageError>, objs: Objects): PipelineRun
    requires ValidMoment(now)
  {
    if enriched.Err? then PipelineRun(enriched, objs, [IngestFilingsTask, IngestMarketTask])
    else
      var s3 := SaveStep(Fresh(objs), CombinedWrites(enriched.value, Stamp(now)), w.finalizeSecrets);
      var all := [IngestFilingsTask, IngestMarketTask, FinalizeTask];
      if s3.outcome.Fail? then PipelineRun(Err(StorageFailed(s3.outcome.error)), s3.state.objects, all)
      else PipelineRun(enriched, s3.state.objects, all)
  }

  /** The `ingest_filings` task in a process of its own. */
  method FilingsProcess(w: World, s3: ObjectStore) returns (r: Result<seq<Filing>, StageError>)
    modifies s3
    ensures var run := FilingsStage(w, Fresh(old(s3.objects)));
      r == run.result && s3.objects == run.state.objects
  {
    var secrets := new SecretCache();
    var store := new Store(secrets, s3);
    r := IngestFilings(w, store);
  }

  /** The `ingest_market` task: the pulled list becomes a fresh list that the loop enriches in place. */
  method MarketProcess(w: World, pulled: seq<Filing>, s3: ObjectStore) returns (r: Result<seq<Filing>, StageError>)
    modifies s3
    ensures var run := MarketStage(pulled, w.feed, Fresh(old(s3.objects)), w.marketSecrets);
      r == run.result && s3.objects == run.state.objects
  {
    var secrets := new SecretCache();
    var store := new Store(secrets, s3);
    var docs := new Filing[|pulled|](i requires 0 <= i < |pulled| => pulled[i]);
    assert docs[..] == pulled;
    r := IngestMarket(docs, w.feed, store, w.marketSecrets);
  }

  /** The `finalize` task. */
  method FinalizeProcess(w: World, enriched: seq<Filing>, now: Moment, s3: ObjectStore) returns (r: Outcome<StageError>)
    requires ValidMoment(now)
    modifies s3
    ensures var saved := SaveStep(Fresh(old(s3.objects)), CombinedWrites(enriched, Stamp(now)), w.finalizeSecrets);
      s3.objects == saved.state.objects &&
      r == if saved.outcome.Pass? then Pass else Fail(StorageFailed(saved.outcome.error))
  {
    var secrets := new SecretCache();
    var store := new Store(secrets, s3);
    r := Finalize(enriched, now, store, w.finalizeSecrets);
  }

  /** One scheduled run over the shared S3 `s3`, at the moment `now` when `finalize` runs. */
  method Run(w: World, now: Moment, s3: ObjectStore) returns (r: Result<seq<Filing>, StageError>, ghost ran: seq<Task>)
    requires ValidMoment(now)
    modifies s3
    ensures RunSpec(w, now, old(s3.objects)) == PipelineRun(r, s3.objects, ran)
  {
    var filings := FilingsProcess(w, s3);
    if filings.Err? {
      return filings, [IngestFilingsTask];
    }
    r, ran := RunAfterFilings(w, now, filings.value, s3);
  }

  /** The downstream tasks, once `ingest_filings` has pushed `filings`. */
  method RunAfterFilings(w: World, now: Moment, filings: seq<Filing>, s3: ObjectStore)
    returns (r: Result<seq<Filing>, StageError>, ghost ran: seq<Task>)
    requires ValidMoment(now)
    modifies s3
    ensures AfterFilings(w, now, Ok(filings), old(s3.objects)) == PipelineRun(r, s3.objects, ran)
  {
    var enriched := MarketProcess(w, filings, s3);
    if enriched.Err? {
      return enriched, [IngestFilingsTask, IngestMarketTask];
    }
    ran := [IngestFilingsTask, IngestMarketTask, FinalizeTask];
    var done := FinalizeProcess(w, enriched.value, now, s3);
    if done.Fail? {
      return Err(done.error), ran;
    }
    r := enriched;
  }

  // ---------------------------------------------------------------------------
  // Properties of a run
  // ---------------------------------------------------------------------------

  /** Tasks run strictly in DAG order, and a successful run has run all three. */
  lemma RunOrder(w: World, now: Moment, objs: Objects)
    requires ValidMoment(now)
    ensures var ran := RunSpec(w, now, objs).ran;
      ran in [[IngestFilingsTask], [IngestFilingsTask, IngestMarketTask], [IngestFilingsTask, IngestMarketTask, FinalizeTask]]
    ensures RunSpec(w, now, objs).result.Ok? ==> RunSpec(w, now, objs).ran == [IngestFilingsTask, IngestMarketTask, FinalizeTask]
  {
  }

  /** Each task starts from an empty cache, so it resolves the bucket with one fresh request. */
  lemma FreshBucket(sm: SecretsManager)
    ensures ResolveBucket(None, EmptyMemo, sm).result == Fetch(sm, CallKey(BucketSecretName, None))
    ensures Contacts(ResolveBucket(None, EmptyMemo, sm).memo, CallKey(BucketSecretName, None)) == 1
  {
  }

  /**
   * A successful run hands each task the previous task's output: `finalize`
   * saves, under the stamp of `now` and in the bucket it resolved, exactly the
   * list `ingest_market` made from the list `ingest_filings` fetched and saved.
   */
  lemma RunHandOff(w: World, now: Moment, objs: Objects)
    requires ValidMoment(now)
    requires RunSpec(w, now, objs).result.Ok?
    ensures var filings := EdgarFilings(w.edgar, FormType, SpTickers(w.symbols, TopN));
      var b1 := Fetch(w.filingsSecrets, CallKey(BucketSecretName, None));
      var b3 := Fetch(w.finalizeSecrets, CallKey(BucketSecretName, None));
      filings.Ok? && b1.Ok? && b3.Ok? &&
      var after1 := Apply(objs, b1.value, FilingWrites(filings.value));
      var market := MarketStage(filings.value, w.feed, Fresh(after1), w.marketSecrets);
      market.result.Ok? &&
      RunSpec(w, now, objs).result == market.result &&
      ObjectId(b3.value, CombinedKey(Stamp(now))) in RunSpec(w, now, objs).objects &&
      RunSpec(w, now, objs).objects[ObjectId(b3.value, CombinedKey(Stamp(now)))] == CombinedJson(market.result.value)
  {
    var filings := EdgarFilings(w.edgar, FormType, SpTickers(w.symbols, TopN));
    var b1 := Fetch(w.filingsSecrets, CallKey(BucketSecretName, None));
    var b3 := Fetch(w.finalizeSecrets, CallKey(BucketSecretName, None));
    var s2 := MarketStage(filings.value, w.feed, Fresh(Apply(objs, b1.value, FilingWrites(filings.value))), w.marketSecrets);
    SaveCombinedChanges(s2.state.objects, b3.value, s2.result.value, Stamp(now));
  }

  /**
   * What a successful run saves: one record per top ticker, in ticker order,
   * each with that ticker and with its market data attached.
   */
  lemma RunRecords(w: World, now: Moment, objs: Objects)
    requires ValidMoment(now)
    requires RunSpec(w, now, objs).result.Ok?
    ensures var tickers := SpTickers(w.symbols, TopN);
      var docs := RunSpec(w, now, objs).result.value;
      |docs| == |tickers| &&
      forall i :: 0 <= i < |docs| ==> docs[i].ticker == tickers[i] && docs[i].marketData.Some?
  {
    var tickers := SpTickers(w.symbols, TopN);
    var filings := EdgarFilings(w.edgar, FormType, tickers);
    RunHandOff(w, now, objs);
    var b1 := Fetch(w.filingsSecrets, CallKey(BucketSecretName, None));
    var st := Fresh(Apply(objs, b1.value, FilingWrites(filings.value)));
    MarketStageEnriches(filings.value, w.feed, st, w.marketSecrets);
    EnrichAllAt(filings.value, w.feed);
    EdgarFilingsRecords(w.edgar, FormType, tickers);
    forall i | 0 <= i < |tickers| ensures filings.value[i].ticker == tickers[i] {
      RecordKeys(w.edgar, FormType, tickers[i]);
    }
  }
}
