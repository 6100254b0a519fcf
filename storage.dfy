/**
 * The S3 storage layer. S3 is modelled as a map from (bucket, key) to the
 * object stored there; an object is the value that was serialised into it, so
 * that JSON and Parquet encoding stay uninterpreted. The bucket name comes from
 * Secrets Manager through `get_secret` and is kept in the module global
 * `_s3_bucket`.
 */
module Storage {
  import opened Wrappers
  import opened Dicts
  import opened Records
  import opened Secrets
  import opened Strings

  /** The secret that holds the bucket name. */
  const BucketSecretName: string := "marketscope-BUCKET_NAME"

  // ---------------------------------------------------------------------------
  // Object keys
  // ---------------------------------------------------------------------------

  /** `_key(prefix, filename)`: the prefix, a slash, then the file name. */
  function Key(prefix: string, filename: string): (k: string)
    ensures |k| == |prefix| + 1 + |filename|
    ensures k[..|prefix|] == prefix && k[|prefix|] == '/' && k[|prefix| + 1..] == filename
  {
    prefix + "/" + filename
  }

  /** Under one prefix, different file names give different keys. */
  lemma KeyInjective(prefix: string, f1: string, f2: string)
    requires Key(prefix, f1) == Key(prefix, f2)
    ensures f1 == f2
  {
    assert f1 == Key(prefix, f1)[|prefix| + 1..];
  }

  function FilingKey(ticker: string, date: string): string {
    Key("filings", ticker + "_" + date + ".json")
  }

  function HistoryKey(ticker: string): string {
    Key("market/history", ticker + "_history.parquet")
  }

  function FundamentalsKey(ticker: string): string {
    Key("market/fundamentals", ticker + "_fundamentals.json")
  }

  function CombinedKey(stamp: string): string {
    Key("combined", "combined_" + stamp + ".json")
  }

  /** The leading characters that set the four key families apart. */
  lemma KeyHeads(t: string, d: string, stamp: string)
    ensures FilingKey(t, d)[0] == 'f'
    ensures HistoryKey(t)[0] == 'm' && HistoryKey(t)[7] == 'h'
    ensures FundamentalsKey(t)[0] == 'm' && FundamentalsKey(t)[7] == 'f'
    ensures CombinedKey(stamp)[0] == 'c'
  {
    assert FilingKey(t, d)[..7] == "filings";
    assert HistoryKey(t)[..14] == "market/history";
    assert FundamentalsKey(t)[..19] == "market/fundamentals";
    assert CombinedKey(stamp)[..8] == "combined";
  }

  /**
   * The four save paths never write the same key: "filings/",
   * "market/history/", "market/fundamentals/" and "combined/" already differ
   * in their first or eighth character.
   */
  lemma KeyFamiliesDisjoint(t1: string, d1: string, t2: string, t3: string, stamp: string)
    ensures FilingKey(t1, d1) != HistoryKey(t2)
    ensures FilingKey(t1, d1) != FundamentalsKey(t2)
    ensures FilingKey(t1, d1) != CombinedKey(stamp)
    ensures HistoryKey(t2) != FundamentalsKey(t3)
    ensures HistoryKey(t2) != CombinedKey(stamp)
    ensures FundamentalsKey(t2) != CombinedKey(stamp)
  {
    KeyHeads(t1, d1, stamp);
    KeyHeads(t2, d1, stamp);
    KeyHeads(t3, d1, stamp);
  }

  /** Filing keys tell tickers and dates apart, as long as a ticker has no `_`. */
  lemma FilingKeyInjective(t1: string, d1: string, t2: string, d2: string)
    requires '_' !in t1 && '_' !in t2
    requires FilingKey(t1, d1) == FilingKey(t2, d2)
    ensures t1 == t2 && d1 == d2
  {
    KeyInjective("filings", t1 + "_" + d1 + ".json", t2 + "_" + d2 + ".json");
    assert t1 + "_" + d1 + ".json" == t1 + ['_'] + (d1 + ".json");
    assert t2 + "_" + d2 + ".json" == t2 + ['_'] + (d2 + ".json");
    SplitOnceOf(t1, '_', d1 + ".json");
    SplitOnceOf(t2, '_', d2 + ".json");
    CancelSuffix(d1, d2, ".json");
  }

  /** One history object and one fundamentals object per ticker. */
  lemma MarketKeysInjective(t1: string, t2: string)
    ensures HistoryKey(t1) == HistoryKey(t2) ==> t1 == t2
    ensures FundamentalsKey(t1) == FundamentalsKey(t2) ==> t1 == t2
  {
    if HistoryKey(t1) == HistoryKey(t2) {
      KeyInjective("market/history", t1 + "_history.parquet", t2 + "_history.parquet");
      CancelSuffix(t1, t2, "_history.parquet");
    }
    if FundamentalsKey(t1) == FundamentalsKey(t2) {
      KeyInjective("market/fundamentals", t1 + "_fundamentals.json", t2 + "_fundamentals.json");
      CancelSuffix(t1, t2, "_fundamentals.json");
    }
  }

  // ---------------------------------------------------------------------------
  // The combined snapshot's time stamp, `strftime("%Y%m%d_%H%M%S")`
  // ---------------------------------------------------------------------------

  /** A `pandas.Timestamp` down to the second; pandas only represents years 1677 to 2262. */
  datatype Moment = Moment(year: nat, month: nat, day: nat, hour: nat, minute: nat, second: nat)

  predicate ValidMoment(m: Moment) {
    1677 <= m.year <= 2262 && 1 <= m.month <= 12 && 1 <= m.day <= 31
    && m.hour < 24 && m.minute < 60 && m.second < 60
  }

  /** `n` in exactly `width` decimal digits, with leading zeros. */
  function Padded(n: nat, width: nat): (s: string)
    ensures |s| == width
    decreases width
  {
    if width == 0 then [] else Padded(n / 10, width - 1) + [DigitChar(n % 10)]
  }

  function Pow10(k: nat): (p: nat)
    ensures p >= 1
  {
    if k == 0 then 1 else 10 * Pow10(k - 1)
  }

  /** Padding loses nothing when the number fits in the width. */
  lemma {:induction false} PaddedValue(n: nat, width: nat)
    requires n < Pow10(width)
    ensures AllDigits(Padded(n, width)) && DecimalValue(Padded(n, width)) == n
    decreases width
  {
    if width > 0 {
      var s := Padded(n, width);
      assert s[..|s| - 1] == Padded(n / 10, width - 1);
      PaddedValue(n / 10, width - 1);
    }
  }

  /** The 15-character `YYYYMMDD_HHMMSS` stamp. */
  function Stamp(m: Moment): string
    requires ValidMoment(m)
  {
    Padded(m.year, 4) + Padded(m.month, 2) + Padded(m.day, 2) + "_"
      + Padded(m.hour, 2) + Padded(m.minute, 2) + Padded(m.second, 2)
  }

  /** Eight digits, `_`, six digits. */
  lemma StampShape(m: Moment)
    requires ValidMoment(m)
    ensures |Stamp(m)| == 15 && Stamp(m)[8] == '_'
    ensures forall i :: 0 <= i < 15 && i != 8 ==> IsDigit(Stamp(m)[i])
  {
    StampDate(m);
    StampTime(m);
    assert Pow10(2) == 100 && Pow10(4) == 10000;
    PaddedValue(m.year, 4);
    PaddedValue(m.month, 2);
    PaddedValue(m.day, 2);
    PaddedValue(m.hour, 2);
    PaddedValue(m.minute, 2);
    PaddedValue(m.second, 2);
    var s := Stamp(m);
    forall i | 0 <= i < 15 && i != 8 ensures IsDigit(s[i]) {
      if i < 4 { assert s[i] == s[0..4][i]; }
      else if i < 6 { assert s[i] == s[4..6][i - 4]; }
      else if i < 8 { assert s[i] == s[6..8][i - 6]; }
      else if i < 11 { assert s[i] == s[9..11][i - 9]; }
      else if i < 13 { assert s[i] == s[11..13][i - 11]; }
      else { assert s[i] == s[13..15][i - 13]; }
    }
  }

  /** The moment a well-formed stamp was made from. */
  function ParseStamp(s: string): Option<Moment> {
    if |s| == 15 && s[8] == '_' && (forall i :: 0 <= i < 15 && i != 8 ==> IsDigit(s[i])) then
      Some(Moment(DecimalValue(s[0..4]), DecimalValue(s[4..6]), DecimalValue(s[6..8]),
                  DecimalValue(s[9..11]), DecimalValue(s[11..13]), DecimalValue(s[13..15])))
    else None
  }

  /** The first eight characters of the stamp are the padded year, month and day. */
  lemma StampDate(m: Moment)
    requires ValidMoment(m)
    ensures Stamp(m)[0..4] == Padded(m.year, 4)
    ensures Stamp(m)[4..6] == Padded(m.month, 2)
    ensures Stamp(m)[6..8] == Padded(m.day, 2)
  {
    var s := Stamp(m);
    var date := Padded(m.year, 4) + Padded(m.month, 2) + Padded(m.day, 2);
    assert s == date + ("_" + Padded(m.hour, 2) + Padded(m.minute, 2) + Padded(m.second, 2));
    assert s[..8] == date;
  }

  /** The last six characters of the stamp are the padded hour, minute and second. */
  lemma StampTime(m: Moment)
    requires ValidMoment(m)
    ensures Stamp(m)[9..11] == Padded(m.hour, 2)
    ensures Stamp(m)[11..13] == Padded(m.minute, 2)
    ensures Stamp(m)[13..15] == Padded(m.second, 2)
  {
    var s := Stamp(m);
    var time := Padded(m.hour, 2) + Padded(m.minute, 2) + Padded(m.second, 2);
    assert s == (Padded(m.year, 4) + Padded(m.month, 2) + Padded(m.day, 2) + "_") + time;
    assert s[9..] == time;
  }

  /** The stamp determines the second it was taken. */
  lemma ParseStampInverts(m: Moment)
    requires ValidMoment(m)
    ensures ParseStamp(Stamp(m)) == Some(m)
  {
    StampShape(m);
    StampDate(m);
    StampTime(m);
    assert Pow10(2) == 100 && Pow10(4) == 10000;
    PaddedValue(m.year, 4);
    PaddedValue(m.month, 2);
    PaddedValue(m.day, 2);
    PaddedValue(m.hour, 2);
    PaddedValue(m.minute, 2);
    PaddedValue(m.second, 2);
  }

  /** So snapshots taken in different seconds get different keys. */
  lemma CombinedKeysDistinct(m1: Moment, m2: Moment)
    requires ValidMoment(m1) && ValidMoment(m2) && m1 != m2
    ensures CombinedKey(Stamp(m1)) != CombinedKey(Stamp(m2))
  {
    if CombinedKey(Stamp(m1)) == CombinedKey(Stamp(m2)) {
      KeyInjective("combined", "combined_" + Stamp(m1) + ".json", "combined_" + Stamp(m2) + ".json");
      CancelSuffix("combined_" + Stamp(m1), "combined_" + Stamp(m2), ".json");
      CancelPrefix("combined_", Stamp(m1), Stamp(m2));
      ParseStampInverts(m1);
      ParseStampInverts(m2);
    }
  }

  // ---------------------------------------------------------------------------
  // Objects and writes
  // ---------------------------------------------------------------------------

  /** What was serialised into an object. */
  datatype Blob =
    | FilingJson(doc: Filing)
    | HistoryParquet(history: Frame)
    | FundamentalsJson(fundamentals: Dict<Scalar>)
    | CombinedJson(docs: seq<Filing>)

  /** An S3 object address. The bucket is whatever `get_secret` returned. */
  datatype ObjectId = ObjectId(bucket: SecretValue, key: string)

  type Objects = map<ObjectId, Blob>

  /** One `put_object` or `upload_fileobj`: a key and the body written there. */
  type Write = (string, Blob)

  /** A sequence of writes into one bucket, in order; each one overwrites. */
  function Apply(objs: Objects, bucket: SecretValue, writes: seq<Write>): Objects
    decreases |writes|
  {
    if writes == [] then objs
    else
      var last := writes[|writes| - 1];
      Apply(objs, bucket, writes[..|writes| - 1])[ObjectId(bucket, last.0) := last.1]
  }

  /** Writing two batches one after the other is writing their concatenation. */
  lemma {:induction false} ApplyAppend(objs: Objects, bucket: SecretValue, w1: seq<Write>, w2: seq<Write>)
    ensures Apply(objs, bucket, w1 + w2) == Apply(Apply(objs, bucket, w1), bucket, w2)
    decreases |w2|
  {
    if w2 == [] {
      assert w1 + w2 == w1;
    } else {
      var n := |w2| - 1;
      assert (w1 + w2)[..|w1 + w2| - 1] == w1 + w2[..n];
      ApplyAppend(objs, bucket, w1, w2[..n]);
    }
  }

  /** An object that no write addresses is left as it was. */
  lemma {:induction false} ApplyElsewhere(objs: Objects, bucket: SecretValue, writes: seq<Write>, id: ObjectId)
    requires id.bucket != bucket || forall i :: 0 <= i < |writes| ==> writes[i].0 != id.key
    ensures id in Apply(objs, bucket, writes) <==> id in objs
    ensures id in objs ==> Apply(objs, bucket, writes)[id] == objs[id]
    decreases |writes|
  {
    if writes != [] {
      var init := writes[..|writes| - 1];
      assert forall i :: 0 <= i < |init| ==> init[i] == writes[i];
      ApplyElsewhere(objs, bucket, init, id);
    }
  }

  /** Every written key is present afterwards. */
  lemma {:induction false} ApplyWritten(objs: Objects, bucket: SecretValue, writes: seq<Write>, i: nat)
    requires i < |writes|
    ensures ObjectId(bucket, writes[i].0) in Apply(objs, bucket, writes)
    decreases |writes|
  {
    var init := writes[..|writes| - 1];
    if i < |init| {
      assert init[i] == writes[i];
      ApplyWritten(objs, bucket, init, i);
    }
  }

  /** The last write to a key wins. */
  lemma {:induction false} ApplyLastWins(objs: Objects, bucket: SecretValue, writes: seq<Write>, i: nat)
    requires i < |writes|
    requires forall j :: i < j < |writes| ==> writes[j].0 != writes[i].0
    ensures ObjectId(bucket, writes[i].0) in Apply(objs, bucket, writes)
    ensures Apply(objs, bucket, writes)[ObjectId(bucket, writes[i].0)] == writes[i].1
    decreases |writes|
  {
    ApplyWritten(objs, bucket, writes, i);
    var init := writes[..|writes| - 1];
    if i < |init| {
      assert init[i] == writes[i];
      assert forall j :: i < j < |init| ==> init[j] == writes[j];
      ApplyLastWins(objs, bucket, init, i);
    }
  }

  /** `save_filings`: one JSON object per document, in list order. */
  function FilingWrites(docs: seq<Filing>): (ws: seq<Write>)
    ensures |ws| == |docs|
    ensures forall i :: 0 <= i < |docs| ==> ws[i] == (FilingKey(docs[i].ticker, docs[i].filingDate), FilingJson(docs[i]))
  {
    seq(|docs|, i requires 0 <= i < |docs| => (FilingKey(docs[i].ticker, docs[i].filingDate), FilingJson(docs[i])))
  }

  /**
   * After `save_filings(docs)` every document's key is present, and a key
   * shared by several documents holds the last of them.
   */
  lemma SaveFilingsStores(objs: Objects, bucket: SecretValue, docs: seq<Filing>, i: nat)
    requires i < |docs|
    requires forall j :: i < j < |docs| ==>
      FilingKey(docs[j].ticker, docs[j].filingDate) != FilingKey(docs[i].ticker, docs[i].filingDate)
    ensures ObjectId(bucket, FilingKey(docs[i].ticker, docs[i].filingDate)) in Apply(objs, bucket, FilingWrites(docs))
    ensures Apply(objs, bucket, FilingWrites(docs))[ObjectId(bucket, FilingKey(docs[i].ticker, docs[i].filingDate))]
      == FilingJson(docs[i])
  {
    ApplyWritten(objs, bucket, FilingWrites(docs), i);
    ApplyLastWins(objs, bucket, FilingWrites(docs), i);
  }

  /** ... and no object outside the documents' keys changes. */
  lemma SaveFilingsElsewhere(objs: Objects, bucket: SecretValue, docs: seq<Filing>, id: ObjectId)
    requires forall i :: 0 <= i < |docs| ==> id != ObjectId(bucket, FilingKey(docs[i].ticker, docs[i].filingDate))
    ensures id in Apply(objs, bucket, FilingWrites(docs)) <==> id in objs
    ensures id in objs ==> Apply(objs, bucket, FilingWrites(docs))[id] == objs[id]
  {
    ApplyElsewhere(objs, bucket, FilingWrites(docs), id);
  }

  /** `save_market_data(ticker, m)`: the Parquet history, then the JSON fundamentals. */
  function MarketWrites(ticker: string, m: MarketData): seq<Write> {
    [(HistoryKey(ticker), HistoryParquet(m.history)), (FundamentalsKey(ticker), FundamentalsJson(m.fundamentals))]
  }

  /** `save_combined(docs)` at a given moment: a single JSON object with the whole list. */
  function CombinedWrites(docs: seq<Filing>, stamp: string): seq<Write> {
    [(CombinedKey(stamp), CombinedJson(docs))]
  }

  /** `save_market_data` changes exactly its two objects. */
  lemma SaveMarketDataChanges(objs: Objects, bucket: SecretValue, ticker: string, m: MarketData, id: ObjectId)
    ensures Apply(objs, bucket, MarketWrites(ticker, m))
      == objs[ObjectId(bucket, HistoryKey(ticker)) := HistoryParquet(m.history)]
             [ObjectId(bucket, FundamentalsKey(ticker)) := FundamentalsJson(m.fundamentals)]
    ensures id != ObjectId(bucket, HistoryKey(ticker)) && id != ObjectId(bucket, FundamentalsKey(ticker)) ==>
      (id in Apply(objs, bucket, MarketWrites(ticker, m)) <==> id in objs)
    ensures ObjectId(bucket, HistoryKey(ticker)) != ObjectId(bucket, FundamentalsKey(ticker))
  {
    var ws := MarketWrites(ticker, m);
    assert ws[..1][..0] == [];
    assert Apply(objs, bucket, ws[..1]) == objs[ObjectId(bucket, HistoryKey(ticker)) := HistoryParquet(m.history)];
    KeyFamiliesDisjoint(ticker, "", ticker, ticker, "");
  }

  /** `save_combined` changes exactly one object. */
  lemma SaveCombinedChanges(objs: Objects, bucket: SecretValue, docs: seq<Filing>, stamp: string)
    ensures Apply(objs, bucket, CombinedWrites(docs, stamp)) == objs[ObjectId(bucket, CombinedKey(stamp)) := CombinedJson(docs)]
  {
    assert CombinedWrites(docs, stamp)[..0] == [];
  }

  datatype StorageError =
    /** `_get_bucket` raised: the bucket secret could not be read. */
    | BucketUnavailable(cause: SecretError)
    /** `get_object` on a missing key: S3's `NoSuchKey`. */
    | NoSuchKey(id: ObjectId)
    /** The object exists but is not the Parquet or JSON the reader expects. */
    | Unreadable(id: ObjectId)

  /** What `load_history` reads from the bucket. */
  function HistoryOf(objs: Objects, bucket: SecretValue, ticker: string): (r: Result<Frame, StorageError>)
    ensures ObjectId(bucket, HistoryKey(ticker)) !in objs ==> r == Err(NoSuchKey(ObjectId(bucket, HistoryKey(ticker))))
    ensures r.Ok? <==> ObjectId(bucket, HistoryKey(ticker)) in objs && objs[ObjectId(bucket, HistoryKey(ticker))].HistoryParquet?
  {
    var id := ObjectId(bucket, HistoryKey(ticker));
    if id !in objs then Err(NoSuchKey(id))
    else match objs[id]
      case HistoryParquet(h) => Ok(h)
      case _ => Err(Unreadable(id))
  }

  /** What `load_fundamentals` reads from the bucket. */
  function FundamentalsOf(objs: Objects, bucket: SecretValue, ticker: string): (r: Result<Dict<Scalar>, StorageError>)
    ensures ObjectId(bucket, FundamentalsKey(ticker)) !in objs ==> r == Err(NoSuchKey(ObjectId(bucket, FundamentalsKey(ticker))))
    ensures r.Ok? <==> ObjectId(bucket, FundamentalsKey(ticker)) in objs && objs[ObjectId(bucket, FundamentalsKey(ticker))].FundamentalsJson?
  {
    var id := ObjectId(bucket, FundamentalsKey(ticker));
    if id !in objs then Err(NoSuchKey(id))
    else match objs[id]
      case FundamentalsJson(f) => Ok(f)
      case _ => Err(Unreadable(id))
  }

  /** Loading right after `save_market_data` reads back what was just written. */
  lemma MarketRoundTrip(objs: Objects, bucket: SecretValue, ticker: string, m: MarketData)
    ensures HistoryOf(Apply(objs, bucket, MarketWrites(ticker, m)), bucket, ticker) == Ok(m.history)
    ensures FundamentalsOf(Apply(objs, bucket, MarketWrites(ticker, m)), bucket, ticker) == Ok(m.fundamentals)
  {
    var o := ObjectId(bucket, HistoryKey(ticker));
    SaveMarketDataChanges(objs, bucket, ticker, m, o);
  }

  // ---------------------------------------------------------------------------
  // `_get_bucket`
  // ---------------------------------------------------------------------------

  /** Python truthiness of `_s3_bucket`: `None`, `""` and `b""` are false. */
  predicate Truthy(b: Option<SecretValue>) {
    match b
    case None => false
    case Some(SecretString(text)) => text != []
    case Some(SecretBinary(bytes)) => bytes != []
  }

  /** The outcome of `_get_bucket`: its result, the new `_s3_bucket`, and the new `get_secret` cache. */
  datatype BucketAnswer = BucketAnswer(result: Result<SecretValue, SecretError>, bucket: Option<SecretValue>, memo: Memo)

  /**
   * `_get_bucket()` as a function of the global, the cache and Secrets Manager.
   * A truthy global is returned with no call; a name that was fetched is kept
   * in the global, and a failed fetch leaves the global as it was.
   */
  function ResolveBucket(bucket: Option<SecretValue>, memo: Memo, sm: SecretsManager): (a: BucketAnswer)
    ensures Truthy(bucket) ==> a == BucketAnswer(Ok(bucket.value), bucket, memo)
    ensures a.result.Ok? ==> a.bucket == Some(a.result.value)
    ensures a.result.Err? ==> a.bucket == bucket
  {
    if Truthy(bucket) then BucketAnswer(Ok(bucket.value), bucket, memo)
    else
      var c := Call(memo, CallKey(BucketSecretName, None), sm);
      BucketAnswer(c.result, if c.result.Ok? then Some(c.result.value) else bucket, c.memo)
  }

  /**
   * Once `_get_bucket` has succeeded, every later call returns the same name
   * without a new request, whatever Secrets Manager holds by then. A truthy
   * name is served by the global; an empty one is fetched again, and the
   * `get_secret` cache answers.
   */
  lemma ResolveBucketStable(bucket: Option<SecretValue>, memo: Memo, sm1: SecretsManager, sm2: SecretsManager)
    requires ResolveBucket(bucket, memo, sm1).result.Ok?
    ensures var a := ResolveBucket(bucket, memo, sm1);
      ResolveBucket(a.bucket, a.memo, sm2) == BucketAnswer(a.result, a.bucket, a.memo)
  {
  }

  /**
   * A falsy global (unset, or an empty name) is never served by itself:
   * `_get_bucket` calls `get_secret` again, in whatever state its cache is.
   * An empty name that `get_secret` remembered comes back from the cache; a
   * name it never remembered costs one more request to Secrets Manager.
   */
  lemma FalsyBucketRefetches(bucket: Option<SecretValue>, memo: Memo, sm: SecretsManager)
    requires !Truthy(bucket)
    ensures var a := ResolveBucket(bucket, memo, sm);
      var c := Call(memo, CallKey(BucketSecretName, None), sm);
      a.result == c.result && a.memo == c.memo
    ensures CallKey(BucketSecretName, None) !in memo.entries ==>
      Contacts(ResolveBucket(bucket, memo, sm).memo, CallKey(BucketSecretName, None))
        == Contacts(memo, CallKey(BucketSecretName, None)) + 1
  {
    var k := CallKey(BucketSecretName, None);
    if k !in memo.entries {
      assert Call(memo, k, sm).memo.contacts == memo.contacts + [k];
    }
  }

  // ---------------------------------------------------------------------------
  // The save and load functions over the module state
  // ---------------------------------------------------------------------------

  /** What one process's `storage.py` sees: `_s3_bucket`, `get_secret`'s cache, and S3. */
  datatype StoreState = StoreState(bucket: Option<SecretValue>, memo: Memo, objects: Objects)

  datatype Saved = Saved(outcome: Outcome<StorageError>, state: StoreState)

  /** A save function: `_get_bucket()`, then its writes into that bucket. */
  function SaveStep(st: StoreState, writes: seq<Write>, sm: SecretsManager): Saved {
    var a := ResolveBucket(st.bucket, st.memo, sm);
    match a.result
    case Err(e) => Saved(Fail(BucketUnavailable(e)), StoreState(a.bucket, a.memo, st.objects))
    case Ok(b) => Saved(Pass, StoreState(a.bucket, a.memo, Apply(st.objects, b, writes)))
  }

  datatype Loaded<T> = Loaded(result: Result<T, StorageError>, state: StoreState)

  /** `load_history(ticker)`: `_get_bucket()`, then one read. */
  function LoadHistoryStep(st: StoreState, ticker: string, sm: SecretsManager): Loaded<Frame> {
    var a := ResolveBucket(st.bucket, st.memo, sm);
    var st' := StoreState(a.bucket, a.memo, st.objects);
    match a.result
    case Err(e) => Loaded(Err(BucketUnavailable(e)), st')
    case Ok(b) => Loaded(HistoryOf(st.objects, b, ticker), st')
  }

  /** `load_fundamentals(ticker)`: `_get_bucket()`, then one read. */
  function LoadFundamentalsStep(st: StoreState, ticker: string, sm: SecretsManager): Loaded<Dict<Scalar>> {
    var a := ResolveBucket(st.bucket, st.memo, sm);
    var st' := StoreState(a.bucket, a.memo, st.objects);
    match a.result
    case Err(e) => Loaded(Err(BucketUnavailable(e)), st')
    case Ok(b) => Loaded(FundamentalsOf(st.objects, b, ticker), st')
  }

  /** A save that cannot resolve the bucket writes nothing. */
  lemma SaveStepFailure(st: StoreState, writes: seq<Write>, sm: SecretsManager)
    requires SaveStep(st, writes, sm).outcome.Fail?
    ensures SaveStep(st, writes, sm).state.objects == st.objects
    ensures SaveStep(st, writes, sm).outcome.error.BucketUnavailable?
  {
  }

  /**
   * The round trip: `load_history(t)` and `load_fundamentals(t)`, after a
   * successful `save_market_data(t, m)` with no write in between, return the
   * history and the fundamentals just saved, and change nothing.
   */
  lemma SaveThenLoad(st: StoreState, ticker: string, m: MarketData, sm1: SecretsManager, sm2: SecretsManager, sm3: SecretsManager)
    requires SaveStep(st, MarketWrites(ticker, m), sm1).outcome.Pass?
    ensures var saved := SaveStep(st, MarketWrites(ticker, m), sm1).state;
      LoadHistoryStep(saved, ticker, sm2) == Loaded(Ok(m.history), saved) &&
      LoadFundamentalsStep(saved, ticker, sm3) == Loaded(Ok(m.fundamentals), saved)
  {
    var a := ResolveBucket(st.bucket, st.memo, sm1);
    ResolveBucketStable(st.bucket, st.memo, sm1, sm2);
    ResolveBucketStable(st.bucket, st.memo, sm1, sm3);
    MarketRoundTrip(st.objects, a.result.value, ticker, m);
  }

  // ---------------------------------------------------------------------------
  // The stateful layer
  // ---------------------------------------------------------------------------

  /** S3 itself, shared by every process of the pipeline. */
  class ObjectStore {
    var objects: Objects

    constructor (initial: Objects)
      ensures objects == initial
    {
      objects := initial;
    }

    /** `put_object` / `upload_fileobj`: an unconditional overwrite. */
    method Put(id: ObjectId, body: Blob)
      modifies this
      ensures objects == old(objects)[id := body]
    {
      objects := objects[id := body];
    }
  }

  /** The module state of `storage.py` in one process: `_s3_bucket`, `get_secret`'s cache, and the S3 client. */
  class Store {
    var bucket: Option<SecretValue>
    const secrets: SecretCache
    const s3: ObjectStore

    ghost function State(): StoreState
      reads this, secrets, s3
    {
      StoreState(bucket, secrets.State(), s3.objects)
    }

    /** The module as it is right after import: `_s3_bucket = None`. */
    constructor (secrets: SecretCache, s3: ObjectStore)
      ensures bucket == None && this.secrets == secrets && this.s3 == s3
    {
      bucket := None;
      this.secrets := secrets;
      this.s3 := s3;
    }

    /** `_get_bucket()`. */
    method GetBucket(sm: SecretsManager) returns (r: Result<SecretValue, SecretError>)
      modifies this, secrets
      ensures ResolveBucket(old(bucket), old(secrets.State()), sm) == BucketAnswer(r, bucket, secrets.State())
    {
      if !Truthy(bucket) {
        var name := secrets.GetSecret(BucketSecretName, None, sm);
        if name.Ok? {
          bucket := Some(name.value);
        }
        r := name;
      } else {
        r := Ok(bucket.value);
      }
    }

    /** `save_filings(docs)`. */
    method SaveFilings(docs: seq<Filing>, sm: SecretsManager) returns (r: Outcome<StorageError>)
      modifies this, secrets, s3
      ensures Saved(r, State()) == SaveStep(old(State()), FilingWrites(docs), sm)
    {
      var b := GetBucket(sm);
      if b.Err? {
        return Fail(BucketUnavailable(b.error));
      }
      for i := 0 to |docs|
        modifies s3
        invariant s3.objects == Apply(old(s3.objects), b.value, FilingWrites(docs[..i]))
      {
        var doc := docs[i];
        assert FilingWrites(docs[..i + 1]) == FilingWrites(docs[..i]) + [FilingWrites(docs)[i]];
        s3.Put(ObjectId(b.value, FilingKey(doc.ticker, doc.filingDate)), FilingJson(doc));
      }
      assert docs[..|docs|] == docs;
      r := Pass;
    }

    /** `save_market_data(ticker, m)`. */
    method SaveMarketData(ticker: string, m: MarketData, sm: SecretsManager) returns (r: Outcome<StorageError>)
      modifies this, secrets, s3
      ensures Saved(r, State()) == SaveStep(old(State()), MarketWrites(ticker, m), sm)
    {
      var b := GetBucket(sm);
      if b.Err? {
        return Fail(BucketUnavailable(b.error));
      }
      s3.Put(ObjectId(b.value, HistoryKey(ticker)), HistoryParquet(m.history));
      s3.Put(ObjectId(b.value, FundamentalsKey(ticker)), FundamentalsJson(m.fundamentals));
      SaveMarketDataChanges(old(s3.objects), b.value, ticker, m, ObjectId(b.value, HistoryKey(ticker)));
      r := Pass;
    }

    /** `save_combined(docs)`, with `pd.Timestamp.now()` given as `now`. */
    method SaveCombined(docs: seq<Filing>, now: Moment, sm: SecretsManager) returns (r: Outcome<StorageError>)
      requires ValidMoment(now)
      modifies this, secrets, s3
      ensures Saved(r, State()) == SaveStep(old(State()), CombinedWrites(docs, Stamp(now)), sm)
    {
      var b := GetBucket(sm);
      if b.Err? {
        return Fail(BucketUnavailable(b.error));
      }
      var timestamp := Stamp(now);
      s3.Put(ObjectId(b.value, CombinedKey(timestamp)), CombinedJson(docs));
      SaveCombinedChanges(old(s3.objects), b.value, docs, timestamp);
      r := Pass;
    }

    /** `load_history(ticker)`. */
    method LoadHistory(ticker: string, sm: SecretsManager) returns (r: Result<Frame, StorageError>)
      modifies this, secrets
      ensures Loaded(r, State()) == LoadHistoryStep(old(State()), ticker, sm)
    {
      var b := GetBucket(sm);
      if b.Err? {
        return Err(BucketUnavailable(b.error));
      }
      var id := ObjectId(b.value, HistoryKey(ticker));
      if id !in s3.objects {
        return Err(NoSuchKey(id));
      }
      match s3.objects[id]
      case HistoryParquet(h) => r := Ok(h);
      case _ => r := Err(Unreadable(id));
    }

    /** `load_fundamentals(ticker)`. */
    method LoadFundamentals(ticker: string, sm: SecretsManager) returns (r: Result<Dict<Scalar>, StorageError>)
      modifies this, secrets
      ensures Loaded(r, State()) == LoadFundamentalsStep(old(State()), ticker, sm)
    {
      var b := GetBucket(sm);
      if b.Err? {
        return Err(BucketUnavailable(b.error));
      }
      var id := ObjectId(b.value, FundamentalsKey(ticker));
      if id !in s3.objects {
        return Err(NoSuchKey(id));
      }
      match s3.objects[id]
      case FundamentalsJson(f) => r := Ok(f);
      case _ => r := Err(Unreadable(id));
    }
  }
}
