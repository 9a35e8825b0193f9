/** The scheduled handler: one invocation aggregates the records fetched for
    a time window, skips the window when the watermark already covers it,
    otherwise exports one output record and then advances the watermark. */
module Handler {
  import opened Wrappers
  import opened Aggregation
  import opened Collaborators

  /** The single cache key of the watermark; it does not mention the asset. */
  const WATERMARK_KEY: string := "last_exported_timestamp"
  /** The most records the fetch returns for one window. */
  const MAX_RECORDS: nat := 500
  /** The schema version stamped on every output record. */
  const OUTPUT_VERSION: int := 1

  /** The trigger of one invocation; both bounds are inclusive epoch seconds. */
  datatype Event = Event(companyId: int, assetId: int, startTime: int, endTime: int)

  /** What the fetch guarantees about its result: at most MAX_RECORDS records,
      each inside the window, in ascending timestamp order. */
  ghost predicate FetchedFor(ev: Event, records: seq<Record>) {
    && |records| <= MAX_RECORDS
    && (forall i :: 0 <= i < |records| ==> ev.startTime <= records[i].timestamp <= ev.endTime)
    && (forall i, j :: 0 <= i < j < |records| ==> records[i].timestamp <= records[j].timestamp)
  }

  /** The watermark as the handler reads it: an absent key reads as 0. */
  function LastExported(entries: map<string, int>): int {
    if WATERMARK_KEY in entries then entries[WATERMARK_KEY] else 0
  }

  /** The dataset path the output batch is posted to. */
  function DataPath(provider: string, collection: string): string {
    "api/v1/data/" + provider + "/" + collection + "/"
  }

  /** The timestamp of the last fetched record. */
  function LastTimestamp(records: seq<Record>): int
    requires records != []
  {
    records[|records| - 1].timestamp
  }

  /** The output record for a window whose mean is `rop`. */
  function BuildOutput(ev: Event, records: seq<Record>, rop: real,
                       provider: string, collection: string): OutputRecord
    requires records != []
  {
    OutputRecord(LastTimestamp(records), ev.assetId, ev.companyId, provider, collection,
                 OutputData(rop, ev.startTime, ev.endTime), OUTPUT_VERSION)
  }

  /** The exception the export raises for a given reply, if any: a failed
      connection, or a status that `raise_for_status` rejects. */
  function ExportError(reply: Reply): Option<Error> {
    match reply
    case ConnectionFailed => Some(TransportError)
    case Status(code) => RaiseForStatus(code)
  }

  /** Everything one invocation does: what it returns or raises, the cache
      calls and POST requests it makes, and the cache contents afterwards. */
  datatype Invocation = Invocation(
    result: Result<Option<OutputRecord>, Error>,
    cacheCalls: seq<CacheCall>,
    requests: seq<Request>,
    entries: map<string, int>)

  /** One invocation, in the handler's own order: mean, watermark read,
      dedup check, build, POST, status check, watermark write. */
  function Handle(ev: Event, records: seq<Record>, provider: string, collection: string,
                  entries: map<string, int>, reply: Reply): Invocation
  {
    match MeanRop(records)
    case Failure(e) => Invocation(Failure(e), [], [], entries)
    case Success(rop) =>
      var read := [Read(WATERMARK_KEY)];
      if ev.endTime <= LastExported(entries) then
        Invocation(Success(None), read, [], entries)
      else
        var output := BuildOutput(ev, records, rop, provider, collection);
        var sent := [Request(DataPath(provider, collection), [output])];
        match ExportError(reply)
        case Some(e) => Invocation(Failure(e), read, sent, entries)
        case None =>
          var ts := LastTimestamp(records);
          Invocation(Success(Some(output)), read + [Write(WATERMARK_KEY, ts)], sent,
                     entries[WATERMARK_KEY := ts])
  }

  /** True when the invocation exported an output record. */
  predicate Exported(inv: Invocation) {
    inv.result.Success? && inv.result.value.Some?
  }

  /** The handler. `records` is the fetch result for the event's window; the
      API's reply is whatever the environment has set up. */
  method LambdaHandler(ev: Event, records: seq<Record>, provider: string, collection: string,
                       api: Api, cache: Cache)
    returns (r: Result<Option<OutputRecord>, Error>)
    modifies api`posted, cache
    ensures var inv := Handle(ev, records, provider, collection, old(cache.entries), api.reply);
            && r == inv.result
            && cache.entries == inv.entries
            && cache.calls == old(cache.calls) + inv.cacheCalls
            && api.posted == old(api.posted) + inv.requests
    // An empty fetch raises before the cache is read or anything is posted.
    ensures records == [] ==>
              r == Failure(EmptyMean) && cache.calls == old(cache.calls) && api.posted == old(api.posted)
    // The skip path: returns None without posting or writing the watermark.
    ensures r == Success(None) <==> records != [] && ev.endTime <= LastExported(old(cache.entries))
    ensures r == Success(None) ==> api.posted == old(api.posted) && cache.entries == old(cache.entries)
    // Any exception leaves the watermark as it was.
    ensures r.Failure? ==> cache.entries == old(cache.entries)
    // The export path: the one-element batch was posted and the watermark moved.
    ensures r.Success? && r.value.Some? ==>
              && records != []
              && api.posted == old(api.posted) + [Request(DataPath(provider, collection), [r.value.value])]
              && cache.entries == old(cache.entries)[WATERMARK_KEY := LastTimestamp(records)]
  {
    var mean := MeanRop(records);
    if mean.Failure? {
      return Failure(mean.error);
    }
    var rop := mean.value;
    var stored := cache.Get(WATERMARK_KEY);
    var lastExported := stored.GetOr(0);
    if ev.endTime <= lastExported {
      return Success(None);
    }
    var output := BuildOutput(ev, records, rop, provider, collection);
    var response := api.Post(DataPath(provider, collection), [output]);
    if response.Failure? {
      return Failure(response.error);
    }
    var raised := RaiseForStatus(response.value);
    if raised.Some? {
      return Failure(raised.value);
    }
    cache.Set(WATERMARK_KEY, LastTimestamp(records));
    return Success(Some(output));
  }

  /** An empty fetch fails in the mean: no cache call, no request, no write. */
  lemma EmptyFetchRaises(ev: Event, provider: string, collection: string,
                         entries: map<string, int>, reply: Reply)
    ensures Handle(ev, [], provider, collection, entries, reply)
            == Invocation(Failure(EmptyMean), [], [], entries)
  {
  }

  /** The run is skipped exactly when the fetch is non-empty and the window's
      end is at or below the watermark; a skipped run reads the watermark
      once, posts nothing and writes nothing. */
  lemma SkipExactlyWhenCovered(ev: Event, records: seq<Record>, provider: string,
                               collection: string, entries: map<string, int>, reply: Reply)
    ensures var inv := Handle(ev, records, provider, collection, entries, reply);
            inv.result == Success(None) <==> records != [] && ev.endTime <= LastExported(entries)
    ensures var inv := Handle(ev, records, provider, collection, entries, reply);
            inv.result == Success(None) ==>
              inv.cacheCalls == [Read(WATERMARK_KEY)] && inv.requests == [] && inv.entries == entries
  {
  }

  /** On a run that is not skipped, exactly one request is posted: the
      one-element batch holding the output, stamped with the last record's
      timestamp and carrying the mean, the window bounds and version 1.
      It is also what the handler returns when the export succeeds. */
  lemma ExportedBatch(ev: Event, records: seq<Record>, provider: string,
                      collection: string, entries: map<string, int>, reply: Reply)
    requires records != [] && ev.endTime > LastExported(entries)
    ensures var inv := Handle(ev, records, provider, collection, entries, reply);
            exists o: OutputRecord ::
              && inv.requests == [Request(DataPath(provider, collection), [o])]
              && o.timestamp == records[|records| - 1].timestamp
              && o.assetId == ev.assetId && o.companyId == ev.companyId
              && o.provider == provider && o.collection == collection
              && o.data == OutputData(RopSum(records) / (|records| as real), ev.startTime, ev.endTime)
              && o.version == 1
              && inv.result == (if ExportError(reply).None? then Success(Some(o))
                                else Failure(ExportError(reply).value))
  {
    var o := BuildOutput(ev, records, MeanRop(records).value, provider, collection);
    assert Handle(ev, records, provider, collection, entries, reply).requests
           == [Request(DataPath(provider, collection), [o])];
  }

  /** The watermark is written only by an exporting run, after the request
      was accepted, and then set to the last record's timestamp; every
      other run leaves the cache contents unchanged. */
  lemma WatermarkWrittenOnlyOnSuccess(ev: Event, records: seq<Record>, provider: string,
                                      collection: string, entries: map<string, int>, reply: Reply)
    ensures var inv := Handle(ev, records, provider, collection, entries, reply);
            Exported(inv) <==> records != [] && ev.endTime > LastExported(entries) && ExportError(reply).None?
    ensures var inv := Handle(ev, records, provider, collection, entries, reply);
            Exported(inv) ==>
              && inv.entries == entries[WATERMARK_KEY := LastTimestamp(records)]
              && inv.cacheCalls == [Read(WATERMARK_KEY), Write(WATERMARK_KEY, LastTimestamp(records))]
    ensures var inv := Handle(ev, records, provider, collection, entries, reply);
            !Exported(inv) ==> inv.entries == entries && forall c :: c in inv.cacheCalls ==> c.Read?
  {
  }

  /** A failed export re-raises its error after the request was issued, and
      the watermark is left as it was before the invocation. */
  lemma FailedExportKeepsWatermark(ev: Event, records: seq<Record>, provider: string,
                                   collection: string, entries: map<string, int>, reply: Reply)
    requires records != [] && ev.endTime > LastExported(entries)
    requires ExportError(reply).Some?
    ensures var inv := Handle(ev, records, provider, collection, entries, reply);
            && inv.result == Failure(ExportError(reply).value)
            && |inv.requests| == 1
            && inv.entries == entries
            && LastExported(inv.entries) == LastExported(entries)
  {
  }

  /** The watermark is shared by every asset: after a run for one asset
      exports, any later non-empty run, for any asset, whose window ends at
      or before the stored timestamp is a no-op. */
  lemma WatermarkSharedAcrossAssets(ev1: Event, records1: seq<Record>, ev2: Event, records2: seq<Record>,
                                    provider: string, collection: string,
                                    entries: map<string, int>, reply1: Reply, reply2: Reply)
    requires ev1.assetId != ev2.assetId
    requires records2 != []
    requires Exported(Handle(ev1, records1, provider, collection, entries, reply1))
    requires ev2.endTime <= LastTimestamp(records1)
    ensures var first := Handle(ev1, records1, provider, collection, entries, reply1);
            var second := Handle(ev2, records2, provider, collection, first.entries, reply2);
            second.result == Success(None) && second.requests == [] && second.entries == first.entries
  {
    WatermarkWrittenOnlyOnSuccess(ev1, records1, provider, collection, entries, reply1);
  }

  /** With a well-formed fetch, the exported timestamp lies in the window and
      is the latest fetched timestamp, so the new watermark never exceeds the
      window's end. */
  lemma OutputTimestampInWindow(ev: Event, records: seq<Record>)
    requires records != [] && FetchedFor(ev, records)
    ensures ev.startTime <= LastTimestamp(records) <= ev.endTime
    ensures forall i :: 0 <= i < |records| ==> records[i].timestamp <= LastTimestamp(records)
  {
    forall i | 0 <= i < |records|
      ensures records[i].timestamp <= LastTimestamp(records)
    {
      if i < |records| - 1 {
        assert records[i].timestamp <= records[|records| - 1].timestamp;
      }
    }
  }

  /** Repeating an exported window with the same fetch result is skipped
      exactly when the last record sits on the window's end: the watermark
      is the last record's timestamp, not the window's end. */
  lemma RerunSkippedIffLastRecordAtEnd(ev: Event, records: seq<Record>, provider: string,
                                       collection: string, entries: map<string, int>,
                                       reply1: Reply, reply2: Reply)
    requires FetchedFor(ev, records)
    requires Exported(Handle(ev, records, provider, collection, entries, reply1))
    ensures var first := Handle(ev, records, provider, collection, entries, reply1);
            var second := Handle(ev, records, provider, collection, first.entries, reply2);
            second.result == Success(None) <==> LastTimestamp(records) == ev.endTime
  {
    WatermarkWrittenOnlyOnSuccess(ev, records, provider, collection, entries, reply1);
    OutputTimestampInWindow(ev, records);
    var first := Handle(ev, records, provider, collection, entries, reply1);
    assert LastExported(first.entries) == LastTimestamp(records);
    SkipExactlyWhenCovered(ev, records, provider, collection, first.entries, reply2);
  }

  /** The test's event, window 1578291000 to 1578291300, with three chosen
      records whose rop values 1, 3 and 5 have the expected mean 3, an empty
      cache and an API that answers 200. The run exports rop 3 with the window
      bounds and moves the watermark to the last record's timestamp. The second
      run of the same window is a no-op only because the last record sits on
      the window's end (see RerunSkippedIffLastRecordAtEnd). */
  method ScheduledRunScenario()
  {
    var ev := Event(1, 1234, 1578291000, 1578291300);
    var records := [WithRop(1578291000, 1.0), WithRop(1578291150, 3.0), WithRop(1578291300, 5.0)];
    var cache := new Cache(map[]);
    var api := new Api(Status(200));
    var r := LambdaHandler(ev, records, "provider", "collection", api, cache);
    assert MeanRop(records) == Success(3.0);
    assert r.Success? && r.value.Some?;
    var output := r.value.value;
    assert output.data == OutputData(3.0, 1578291000, 1578291300);
    assert |api.posted| == 1;
    assert LastExported(cache.entries) == 1578291300;
    var again := LambdaHandler(ev, records, "provider", "collection", api, cache);
    assert again == Success(None);
    assert |api.posted| == 1;
  }
}
