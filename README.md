# Scheduled rop-mean aggregation, modelled in Dafny

This project models the scheduled handler `lambda_handler` of a periodic
aggregation job. A scheduler invokes it with a window of one asset's drilling
data (`start_time` to `end_time`, both inclusive, in epoch seconds). The
handler works on the records fetched for that window. It takes the mean of
their `data.rop` values, where a record without the field counts as 0. It
reads a watermark from the cache under the key `last_exported_timestamp`
(absent reads as 0). It skips the window when `end_time` is at or below the
watermark. Otherwise it posts a one-element batch holding an output record to
the data API. Only when that post succeeds does it set the watermark to the
last record's timestamp.

Files:

- `wrappers.dfy`: `Option` and `Result`.
- `aggregation.dfy`: the fetched `Record`, the missing-as-zero contribution
  `RopOf`, the sum `RopSum`, the mean `MeanRop` and lemmas about it.
- `collaborators.dfy`: the cache (`Cache`, a class over a key-to-integer map
  with a ghost log of its calls), the data API (`Api`, a class whose `reply`
  field is what the server will answer and whose `posted` field logs every
  request), `raise_for_status` and the output record type.
- `handler.dfy`: the event, the fetch guarantee `FetchedFor`, `BuildOutput`,
  the pure description `Handle` of one invocation, the imperative
  `LambdaHandler` proved equal to it with one `ensures` per outcome, lemmas
  about `Handle`, and `ScheduledRunScenario`. The scenario uses the test's
  event (test/app_test.py:12-14) and its expected mean of 3
  (test/app_test.py:22). Its three records are chosen for the model, since
  the test's own records are not part of it, and the API answers 200.

The model follows the code as written:

- An empty fetch is not a no-op. `statistics.mean` raises on it before the
  cache is read (lambda_function.py:54), so `Handle` fails with `EmptyMean`.
- The watermark key is one fixed string, not scoped per asset
  (lambda_function.py:58, 95). `WatermarkSharedAcrossAssets` shows the effect
  on a run for a second asset.
- The watermark is set to the last record's timestamp unconditionally
  (lambda_function.py:95). It can move backwards, so no monotonicity is
  claimed.
- The export fails exactly when the connection fails or `raise_for_status`
  raises, which it does for statuses 400 to 599. Statuses below 400, such as
  3xx, do not raise.

A consequence the proofs make explicit: the watermark is the last record's
timestamp, not `end_time`. So rerunning an exported window with the same
fetch result is skipped only when the last record sits exactly on `end_time`
(`RerunSkippedIffLastRecordAtEnd`). Otherwise the same window is exported
again.

## Model

| member | source | states |
|---|---|---|
| `Aggregation.MeanRop` | lambda_function.py:54 | the mean fails with `EmptyMean` exactly when there are no records; otherwise mean times the record count equals the sum of all contributions |
| `Aggregation.MeanWithinBounds` | lambda_function.py:54 | when every contribution lies in `[lo, hi]`, so does the mean |
| `Aggregation.MissingRopCountsAsZero` | lambda_function.py:54 | appending a record without `rop` leaves the sum unchanged and adds one to the denominator |
| `Aggregation.AllMissingMeanIsZero` | lambda_function.py:54 | a non-empty window where no record carries `rop` has mean 0, unlike an empty window, which fails |
| `Aggregation.ExampleMeans` | lambda_function.py:54 | `[1, 3, 5]` has mean 3; `[3, missing, 3]` has mean 2 |
| `Collaborators.Cache.Get` | lambda_function.py:58 | returns the stored value, or None for an absent key; records the read |
| `Collaborators.Cache.Set` | lambda_function.py:95 | replaces the value under the key and nothing else; records the write |
| `Collaborators.Api.Post` | lambda_function.py:89-91 | logs the request with its exact path and body; returns the status, or fails with `TransportError` when the connection fails |
| `Collaborators.RaiseForStatus` | lambda_function.py:92 | raises exactly for statuses 400 to 599 |
| `Handler.LambdaHandler` | lambda_function.py:54-101 | result, cache contents, cache calls and posted requests equal `Handle` of the old state. Per outcome: an empty fetch raises with no cache call and no post. It returns None exactly when the window is covered, and then posts and writes nothing. Any error leaves the cache unchanged. An export posted `[output]` and set the watermark to the last timestamp |
| `Handler.EmptyFetchRaises` | lambda_function.py:54-58 | an empty fetch raises `EmptyMean` with no cache call, no request and the cache unchanged |
| `Handler.SkipExactlyWhenCovered` | lambda_function.py:58-63 | the run returns None exactly when the fetch is non-empty and `end_time <=` the watermark (absent = 0). It then reads the cache once, posts nothing and writes nothing |
| `Handler.ExportedBatch` | lambda_function.py:67-91 | an uncovered run posts exactly one request. Its path is the dataset path and its body is `[o]`. `o` has the last record's timestamp, the event's asset and company, data `(mean, start_time, end_time)` and version 1. The result is `o` if the export succeeds, else the export's error |
| `Handler.WatermarkWrittenOnlyOnSuccess` | lambda_function.py:87-95 | the run exports exactly when the fetch is non-empty, the window is uncovered and the export succeeds. Then the calls are a read followed by a write of the last timestamp. Otherwise the cache is unchanged and never written |
| `Handler.FailedExportKeepsWatermark` | lambda_function.py:87-99 | a failed export re-raises its error after one request, with the watermark as before |
| `Handler.WatermarkSharedAcrossAssets` | lambda_function.py:58-95 | after an exporting run for one asset, a non-empty run for another asset is a no-op if its window ends at or before the stored timestamp |
| `Handler.OutputTimestampInWindow` | lambda_function.py:22-35 | for a fetch within the window and sorted ascending, the last timestamp lies in the window and is the largest fetched timestamp |
| `Handler.RerunSkippedIffLastRecordAtEnd` | lambda_function.py:58-95 | after an exporting run, rerunning the same window with the same fetch is skipped exactly when the last record is at `end_time` |

## Left out

- The fetch (`api.get_dataset`, lambda_function.py:22-35) is an input sequence. Its guarantees (at most 500 records, inside the window, ascending) are the predicate `FetchedFor`, used only by the lemmas that need them.
- Logging (lambda_function.py:36-49, 62, 82-84, 98) is output only.
- When the post itself raises, the except block fails at lambda_function.py:97 with `UnboundLocalError` on `response`, which escapes instead of the connection error. The model reports `TransportError`. Either way the watermark is unchanged.
- The Corva SDK, the `@scheduled` decorator and the HTTP wire format are foreign code. The API is a class whose reply the environment chooses.
- Whether the SDK scopes the cache object itself per asset is not part of this model. Within one cache the key is global.
- The constants `DATASET_PROVIDER` and `DATASET_NAME` come from service/constants.py, which is not part of this model. They are parameters.
- Redis string encoding and `int(...)` parsing of the cached value are left out. The cache stores integers; an absent key reads as 0.
- Cache failures are left out. A failing `cache.get` would raise before the export. A failing `cache.set` would be re-raised after a successful export.
- Non-numeric `rop` values (such as JSON null) would make `statistics.mean` raise. They are not modelled.
- A record whose `data` is JSON null makes the second `.get` at lambda_function.py:54 raise `AttributeError`. The model cannot express it: an absent `data` contributes 0.
- Floating-point rounding in `statistics.mean` is left out. The mean is exact `real` arithmetic.
- Concurrent invocations are left out: the code holds no lock.
- Watermark monotonicity does not hold in the code and is not claimed.
