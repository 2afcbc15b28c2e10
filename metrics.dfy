/**
 * Request counters, a smoothed average duration and per-method counts
 * (src/server/metrics.rs). Durations are `u64` microseconds supplied by the caller.
 */
module ServerMetrics {
  import opened Json

  const TWO_64: nat := 0x1_0000_0000_0000_0000

  /** `AtomicU64::fetch_add(1)`: adds one, wrapping from `u64::MAX` to zero. */
  function WrappingInc(x: u64): (r: u64)
    ensures x < U64_MAX ==> r == x + 1
    ensures x == U64_MAX ==> r == 0
  {
    ((x + 1) % TWO_64) as u64
  }

  /**
   * The average after one more sample: the first sample is taken as is (an
   * average of zero counts as "no sample yet"); later ones get weight 1/10,
   * with integer division. The result lies between the old average and the sample.
   */
  function SmoothedAverage(avg: u64, d: u64): (r: u64)
    requires avg * 9 + d <= U64_MAX
    ensures avg == 0 ==> r == d
    ensures avg != 0 && avg <= d ==> avg <= r <= d
    ensures avg != 0 && d <= avg ==> d <= r <= avg
  {
    if avg == 0 then d else ((avg * 9 + d) / 10) as u64
  }

  /** A constant stream of samples is a fixed point of the average. */
  lemma SmoothedAverageFixedPoint(d: u64)
    requires d * 10 <= U64_MAX
    ensures SmoothedAverage(d, d) == d
  {
  }

  /**
   * An average of 1 followed by a zero-length sample drops to 0, so the next
   * sample is taken as if it were the first.
   */
  lemma SmoothedAverageCanRestart(d: u64)
    requires d <= U64_MAX - 9
    ensures SmoothedAverage(SmoothedAverage(1, 0), d) == d
  {
  }

  /** The per-method counts after one more call of `name`. */
  function Counted(counts: map<string, u64>, name: string): (r: map<string, u64>)
    requires name in counts ==> counts[name] < U64_MAX
    ensures r.Keys == counts.Keys + {name}
    ensures r[name] == (if name in counts then counts[name] else 0) + 1
    ensures forall m :: m in counts && m != name ==> r[m] == counts[m]
  {
    counts[name := if name in counts then counts[name] + 1 else 1]
  }

  datatype MetricsSnapshot = MetricsSnapshot(
    totalRequests: u64,
    totalSuccess: u64,
    totalErrors: u64,
    avgDurationUs: u64,
    methodCounts: map<string, u64>)

  class Metrics {
    var totalRequests: u64
    var totalSuccess: u64
    var totalErrors: u64
    var avgDurationUs: u64
    var methodCounts: map<string, u64>

    constructor ()
      ensures Snapshot() == MetricsSnapshot(0, 0, 0, 0, map[])
    {
      totalRequests, totalSuccess, totalErrors := 0, 0, 0;
      avgDurationUs := 0;
      methodCounts := map[];
    }

    /** `snapshot`: the current values of all counters. */
    function Snapshot(): (s: MetricsSnapshot)
      reads this
      ensures s.totalRequests == totalRequests && s.totalSuccess == totalSuccess && s.totalErrors == totalErrors
      ensures s.avgDurationUs == avgDurationUs && s.methodCounts == methodCounts
    {
      MetricsSnapshot(totalRequests, totalSuccess, totalErrors, avgDurationUs, methodCounts)
    }

    /** Whether one more sample `d` for `name` can be recorded without `u64` overflow. */
    predicate CanRecord(name: string, d: u64)
      reads this
    {
      avgDurationUs * 9 + d <= U64_MAX && (name in methodCounts ==> methodCounts[name] < U64_MAX)
    }

    /** `record_request`. */
    method RecordRequest()
      modifies this
      ensures totalRequests == WrappingInc(old(totalRequests))
      ensures totalSuccess == old(totalSuccess) && totalErrors == old(totalErrors)
      ensures avgDurationUs == old(avgDurationUs) && methodCounts == old(methodCounts)
    {
      totalRequests := WrappingInc(totalRequests);
    }

    /** `record_success`. */
    method RecordSuccess()
      modifies this
      ensures totalSuccess == WrappingInc(old(totalSuccess))
      ensures totalRequests == old(totalRequests) && totalErrors == old(totalErrors)
      ensures avgDurationUs == old(avgDurationUs) && methodCounts == old(methodCounts)
    {
      totalSuccess := WrappingInc(totalSuccess);
    }

    /** `record_error`. */
    method RecordError()
      modifies this
      ensures totalErrors == WrappingInc(old(totalErrors))
      ensures totalRequests == old(totalRequests) && totalSuccess == old(totalSuccess)
      ensures avgDurationUs == old(avgDurationUs) && methodCounts == old(methodCounts)
    {
      totalErrors := WrappingInc(totalErrors);
    }

    /** `record_duration`, with the duration already in microseconds. */
    method RecordDuration(d: u64)
      requires avgDurationUs * 9 + d <= U64_MAX
      modifies this
      ensures avgDurationUs == SmoothedAverage(old(avgDurationUs), d)
      ensures totalRequests == old(totalRequests) && totalSuccess == old(totalSuccess)
      ensures totalErrors == old(totalErrors) && methodCounts == old(methodCounts)
    {
      if avgDurationUs == 0 {
        avgDurationUs := d;
      } else {
        avgDurationUs := ((avgDurationUs * 9 + d) / 10) as u64;
      }
    }

    /** `record_method`: the method's count goes up by one, starting from zero. */
    method RecordMethod(name: string)
      requires name in methodCounts ==> methodCounts[name] < U64_MAX
      modifies this
      ensures methodCounts == Counted(old(methodCounts), name)
      ensures totalRequests == old(totalRequests) && totalSuccess == old(totalSuccess)
      ensures totalErrors == old(totalErrors) && avgDurationUs == old(avgDurationUs)
    {
      var n := if name in methodCounts then methodCounts[name] else 0;
      methodCounts := methodCounts[name := n + 1];
    }

    /** `reset`: every counter and the average back to zero, no method counted. */
    method Reset()
      modifies this
      ensures Snapshot() == MetricsSnapshot(0, 0, 0, 0, map[])
    {
      totalRequests, totalSuccess, totalErrors := 0, 0, 0;
      avgDurationUs := 0;
      methodCounts := map[];
    }
  }

  /** Times one request for one method name and records how it ended. */
  class RequestTracer {
    const name: string
    const metrics: Metrics

    /** `RequestTracer::new`: counts the request as received. */
    constructor (name: string, metrics: Metrics)
      modifies metrics
      ensures this.name == name && this.metrics == metrics
      ensures metrics.totalRequests == WrappingInc(old(metrics.totalRequests))
      ensures metrics.totalSuccess == old(metrics.totalSuccess)
      ensures metrics.totalErrors == old(metrics.totalErrors)
      ensures metrics.avgDurationUs == old(metrics.avgDurationUs)
      ensures metrics.methodCounts == old(metrics.methodCounts)
    {
      this.name := name;
      this.metrics := metrics;
      new;
      metrics.RecordRequest();
    }

    /** `success`: one more success, the sample averaged in, the method counted. */
    method Success(d: u64)
      requires metrics.CanRecord(name, d)
      modifies metrics
      ensures metrics.totalSuccess == WrappingInc(old(metrics.totalSuccess))
      ensures metrics.totalRequests == old(metrics.totalRequests)
      ensures metrics.totalErrors == old(metrics.totalErrors)
      ensures metrics.avgDurationUs == SmoothedAverage(old(metrics.avgDurationUs), d)
      ensures metrics.methodCounts == Counted(old(metrics.methodCounts), name)
    {
      metrics.RecordSuccess();
      metrics.RecordDuration(d);
      metrics.RecordMethod(name);
    }

    /** `error`: one more error, the sample averaged in, the method counted. */
    method Error(d: u64, message: string)
      requires metrics.CanRecord(name, d)
      modifies metrics
      ensures metrics.totalErrors == WrappingInc(old(metrics.totalErrors))
      ensures metrics.totalRequests == old(metrics.totalRequests)
      ensures metrics.totalSuccess == old(metrics.totalSuccess)
      ensures metrics.avgDurationUs == SmoothedAverage(old(metrics.avgDurationUs), d)
      ensures metrics.methodCounts == Counted(old(metrics.methodCounts), name)
    {
      metrics.RecordError();
      metrics.RecordDuration(d);
      metrics.RecordMethod(name);
    }
  }
}
