/** The two services the handler talks to after the fetch: the key-value
    cache that holds the watermark, and the data API that receives the
    output batch. Both are objects whose state the handler changes. */
module Collaborators {
  import opened Wrappers
  import opened Aggregation

  /** One call made on the cache, in the order it was made. */
  datatype CacheCall = Read(key: string) | Write(key: string, value: int)

  /** A key-value cache. Values are kept as the integers they encode. */
  class Cache {
    var entries: map<string, int>
    ghost var calls: seq<CacheCall>

    constructor (entries: map<string, int>)
      ensures this.entries == entries && calls == []
    {
      this.entries := entries;
      calls := [];
    }

    /** The value under `key`, or None when the key was never set. */
    method Get(key: string) returns (v: Option<int>)
      modifies this`calls
      ensures v == if key in entries then Some(entries[key]) else None
      ensures calls == old(calls) + [Read(key)]
    {
      v := if key in entries then Some(entries[key]) else None;
      calls := calls + [Read(key)];
    }

    /** Stores `value` under `key`, replacing any previous value. */
    method Set(key: string, value: int)
      modifies this
      ensures entries == old(entries)[key := value]
      ensures calls == old(calls) + [Write(key, value)]
    {
      entries := entries[key := value];
      calls := calls + [Write(key, value)];
    }
  }

  /** How the data API answers a POST: with an HTTP status code, or not at
      all because the connection failed. */
  datatype Reply = Status(code: int) | ConnectionFailed

  /** `raise_for_status`: a client (4xx) or server (5xx) status raises. */
  function RaiseForStatus(code: int): (r: Option<Error>)
    ensures r.Some? <==> 400 <= code < 600
  {
    if 400 <= code < 600 then Some(HttpError(code)) else None
  }

  /** One POST request: the dataset path and the JSON array sent as body. */
  datatype Request = Request(path: string, data: seq<OutputRecord>)

  /** The output record appended to the destination dataset. */
  datatype OutputData = OutputData(rop: real, startTime: int, endTime: int)
  datatype OutputRecord = OutputRecord(
    timestamp: int, assetId: int, companyId: int,
    provider: string, collection: string,
    data: OutputData, version: int)

  /** The data API. `reply` is what the server will answer, chosen by the
      environment; `posted` records every request in order. Unlike the
      cache's call log, `posted` is real state: it stands for the batches
      the destination dataset receives. */
  class Api {
    var reply: Reply
    var posted: seq<Request>

    constructor (reply: Reply)
      ensures this.reply == reply && posted == []
    {
      this.reply := reply;
      posted := [];
    }

    /** Sends `data` to `path`; returns the status code, or fails when the
        connection fails. Either way the request was issued. */
    method Post(path: string, data: seq<OutputRecord>) returns (r: Result<int, Error>)
      modifies this`posted
      ensures posted == old(posted) + [Request(path, data)]
      ensures r == match reply
                   case Status(code) => Success(code)
                   case ConnectionFailed => Failure(TransportError)
    {
      posted := posted + [Request(path, data)];
      r := match reply
           case Status(code) => Success(code)
           case ConnectionFailed => Failure(TransportError);
    }
  }
}
