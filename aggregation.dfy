/** The aggregation step of the scheduled handler: the arithmetic mean of
    `data.rop` over every fetched record, a missing field counting as zero. */
module Aggregation {
  import opened Wrappers

  /** The projected part of a record's `data` object: only `rop` is fetched. */
  datatype WitsData = WitsData(rop: Option<real>)

  /** One fetched record. `data` is absent when the record has no `data`
      object at all; `rop` inside it is absent when the field is missing. */
  datatype Record = Record(timestamp: int, data: Option<WitsData>)

  /** The exceptions that can escape one invocation of the handler. */
  datatype Error =
    | EmptyMean            // statistics.mean over no data points
    | HttpError(status: int)
    | TransportError       // the POST itself raised before any response

  /** The value a record contributes: `rop` when present, otherwise 0. */
  function RopOf(r: Record): real {
    match r.data
    case None => 0.0
    case Some(d) => d.rop.GetOr(0.0)
  }

  /** Sum of the contributed values of all records. */
  function RopSum(records: seq<Record>): real {
    if records == [] then 0.0 else RopOf(records[0]) + RopSum(records[1..])
  }

  /** The mean over all records; fails exactly when there is no record. */
  function MeanRop(records: seq<Record>): (r: Result<real, Error>)
    ensures r.Failure? <==> records == []
    ensures r.Failure? ==> r.error == EmptyMean
    ensures r.Success? ==> r.value * (|records| as real) == RopSum(records)
  {
    if records == [] then Failure(EmptyMean)
    else Success(RopSum(records) / (|records| as real))
  }

  /** The sum over a concatenation is the sum of the two parts. */
  lemma {:induction false} RopSumAppend(a: seq<Record>, b: seq<Record>)
    ensures RopSum(a + b) == RopSum(a) + RopSum(b)
  {
    if a == [] {
      assert a + b == b;
    } else {
      assert (a + b)[1..] == a[1..] + b;
      RopSumAppend(a[1..], b);
    }
  }

  /** Bounds on every contribution bound the sum by the count. */
  lemma {:induction false} RopSumBounds(records: seq<Record>, lo: real, hi: real)
    requires forall i :: 0 <= i < |records| ==> lo <= RopOf(records[i]) <= hi
    ensures lo * (|records| as real) <= RopSum(records) <= hi * (|records| as real)
  {
    if records != [] {
      var tail := records[1..];
      forall i | 0 <= i < |tail| ensures lo <= RopOf(tail[i]) <= hi {
        assert tail[i] == records[i + 1];
      }
      RopSumBounds(tail, lo, hi);
      assert lo <= RopOf(records[0]) <= hi;
      assert (|records| as real) == (|tail| as real) + 1.0;
    }
  }

  /** The mean lies between the smallest and largest contribution. */
  lemma MeanWithinBounds(records: seq<Record>, lo: real, hi: real)
    requires records != []
    requires forall i :: 0 <= i < |records| ==> lo <= RopOf(records[i]) <= hi
    ensures MeanRop(records).Success?
    ensures lo <= MeanRop(records).value <= hi
  {
    RopSumBounds(records, lo, hi);
    var n := |records| as real;
    var m := MeanRop(records).value;
    assert m * n == RopSum(records);
    assert lo * n <= m * n <= hi * n;
  }

  /** A non-empty window where no record carries `rop` has mean 0, which is
      distinct from an empty window, where the mean fails. */
  lemma AllMissingMeanIsZero(records: seq<Record>)
    requires records != []
    requires forall i :: 0 <= i < |records| ==> records[i].data.None? || records[i].data.value.rop.None?
    ensures MeanRop(records) == Success(0.0)
  {
    MeanWithinBounds(records, 0.0, 0.0);
  }

  /** A record without `rop` still counts in the denominator: appending one
      leaves the sum unchanged and adds one to the count. */
  lemma MissingRopCountsAsZero(records: seq<Record>, m: Record)
    requires m.data.None? || m.data.value.rop.None?
    ensures MeanRop(records + [m]) == Success(RopSum(records) / ((|records| + 1) as real))
  {
    var extended := records + [m];
    RopSumAppend(records, [m]);
    assert RopSum([m]) == 0.0 by {
      assert RopSum([m]) == RopOf(m) + RopSum([]);
    }
    assert RopSum(extended) == RopSum(records);
    assert |extended| == |records| + 1;
  }

  /** A record carrying `rop` with the given value. */
  function WithRop(timestamp: int, rop: real): Record {
    Record(timestamp, Some(WitsData(Some(rop))))
  }

  /** The two worked examples: [1, 3, 5] gives 3, and [3, missing, 3] gives 2. */
  lemma ExampleMeans()
    ensures MeanRop([WithRop(0, 1.0), WithRop(1, 3.0), WithRop(2, 5.0)]) == Success(3.0)
    ensures MeanRop([WithRop(0, 3.0), Record(1, Some(WitsData(None))), WithRop(2, 3.0)]) == Success(2.0)
  {
  }
}
