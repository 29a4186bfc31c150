/** Execution metrics: a buffer of counters by minute and worker, which is added to one Redis
    hash per minute, and the aggregation of such hashes over a range of minutes. */
module Metrics {
  import opened Options
  import opened FieldCodec
  import opened Results

  datatype Metric = Processed | FailedJobs | PanickedJobs | Successes | Failures | Panics | Millis

  function Key(k: Metric): (key: string)
    ensures key in JOB_METRIC_KEYS
  {
    match k
    case Processed => JOB_METRIC_KEYS[0]
    case FailedJobs => JOB_METRIC_KEYS[1]
    case PanickedJobs => JOB_METRIC_KEYS[2]
    case Successes => JOB_METRIC_KEYS[3]
    case Failures => JOB_METRIC_KEYS[4]
    case Panics => JOB_METRIC_KEYS[5]
    case Millis => JOB_METRIC_KEYS[6]
  }

  lemma KeysDiffer(k: Metric, other: Metric)
    requires Key(k) == Key(other)
    ensures k == other
  {
    assert |Key(k)| == |Key(other)| && Key(k)[0] == Key(other)[0] && Key(k)[|Key(k)| - 1] == Key(other)[|Key(other)| - 1];
  }

  /** The seven counters, and the successes derived from them at the end. */
  datatype Counts = Counts(processed: nat, succeeded: nat, failed: nat, panicked: nat,
                           successes: nat, failures: nat, panics: nat, millis: nat)

  function Nothing(): Counts { Counts(0, 0, 0, 0, 0, 0, 0, 0) }

  function Get(c: Counts, k: Metric): nat {
    match k
    case Processed => c.processed
    case FailedJobs => c.failed
    case PanickedJobs => c.panicked
    case Successes => c.successes
    case Failures => c.failures
    case Panics => c.panics
    case Millis => c.millis
  }

  /** `add_metric`: an unknown name changes nothing, and counters stick at their maximum. */
  function AddMetric(c: Counts, metric: string, value: nat): Counts {
    if metric == Key(Processed) then c.(processed := Saturated(c.processed + value, MAX_U64))
    else if metric == Key(FailedJobs) then c.(failed := Saturated(c.failed + value, MAX_U64))
    else if metric == Key(PanickedJobs) then c.(panicked := Saturated(c.panicked + value, MAX_U64))
    else if metric == Key(Successes) then c.(successes := Saturated(c.successes + value, MAX_U64))
    else if metric == Key(Failures) then c.(failures := Saturated(c.failures + value, MAX_U64))
    else if metric == Key(Panics) then c.(panics := Saturated(c.panics + value, MAX_U64))
    else if metric == Key(Millis) then c.(millis := Saturated(c.millis + value, MAX_U64))
    else c
  }

  lemma AddMetricGet(c: Counts, metric: string, value: nat, k: Metric)
    ensures Get(AddMetric(c, metric, value), k) ==
              if metric == Key(k) then Saturated(Get(c, k) + value, MAX_U64) else Get(c, k)
  {
    if metric != Key(k) && metric in JOB_METRIC_KEYS {
      var other :| metric == Key(other);
    }
  }

  // ----- the buffer -------------------------------------------------------------

  /** What one result adds to a counter. Batches count jobs and executions separately. */
  function Amount(r: Result, k: Metric): nat {
    match k
    case Processed => r.jobCount
    case FailedJobs => if r.kind.Success? then 0 else r.jobCount
    case PanickedJobs => if r.kind.Panicked? then r.jobCount else 0
    case Successes => if r.kind.Success? then 1 else 0
    case Failures => if r.kind.Success? then 0 else 1
    case Panics => if r.kind.Panicked? then 1 else 0
    case Millis => if r.kind.Success? then r.executionMs else 0
  }

  datatype Stamped = Stamped(minute: int, result: Result)

  function SumFor(history: seq<Stamped>, minute: int, worker: string, k: Metric): nat {
    if history == [] then 0
    else
      var last := history[|history| - 1];
      SumFor(history[..|history| - 1], minute, worker, k)
      + if last.minute == minute && last.result.worker == worker then Amount(last.result, k) else 0
  }

  lemma SumForSnoc(history: seq<Stamped>, x: Stamped, minute: int, worker: string, k: Metric)
    ensures SumFor(history + [x], minute, worker, k) ==
              SumFor(history, minute, worker, k) + if x.minute == minute && x.result.worker == worker then Amount(x.result, k) else 0
  {
    assert (history + [x])[..|history|] == history;
  }

  function EntryAt(entries: map<(int, string), Counts>, minute: int, worker: string): Counts {
    if (minute, worker) in entries then entries[(minute, worker)] else Nothing()
  }

  function StoredAt(store: map<(int, string), nat>, minute: int, field: string): nat {
    if (minute, field) in store then store[(minute, field)] else 0
  }

  /** A counter of a worker in a minute: what its field holds and what is pending is what was recorded. */
  predicate CounterKept(store: map<(int, string), nat>, entries: map<(int, string), Counts>, history: seq<Stamped>,
                        minute: int, worker: string, k: Metric)
  {
    StoredAt(store, minute, MetricField(worker, Key(k))) + Get(EntryAt(entries, minute, worker), k) ==
      SumFor(history, minute, worker, k)
  }

  /** The counters of one entry after one result. */
  method RecordCounts(c: Counts, r: Result) returns (c': Counts)
    requires forall k :: Get(c, k) <= MAX_U64
    ensures c'.succeeded == c.succeeded && forall k :: Get(c', k) == Saturated(Get(c, k) + Amount(r, k), MAX_U64)
    ensures c'.processed == Saturated(c.processed + r.jobCount, MAX_U64)
    ensures match r.kind
            case Success =>
              && c'.successes == Saturated(c.successes + 1, MAX_U64) && c'.millis == Saturated(c.millis + r.executionMs, MAX_U64)
              && c'.failed == c.failed && c'.panicked == c.panicked && c'.failures == c.failures && c'.panics == c.panics
            case Panicked =>
              && c'.failed == Saturated(c.failed + r.jobCount, MAX_U64) && c'.panicked == Saturated(c.panicked + r.jobCount, MAX_U64)
              && c'.failures == Saturated(c.failures + 1, MAX_U64) && c'.panics == Saturated(c.panics + 1, MAX_U64)
              && c'.successes == c.successes && c'.millis == c.millis
            case Failed =>
              && c'.failed == Saturated(c.failed + r.jobCount, MAX_U64) && c'.failures == Saturated(c.failures + 1, MAX_U64)
              && c'.panicked == c.panicked && c'.panics == c.panics && c'.successes == c.successes && c'.millis == c.millis
  {
    c' := c.(processed := Saturated(c.processed + r.jobCount, MAX_U64));
    match r.kind {
      case Success =>
        c' := c'.(successes := Saturated(c.successes + 1, MAX_U64), millis := Saturated(c.millis + r.executionMs, MAX_U64));
      case Panicked =>
        c' := c'.(failed := Saturated(c.failed + r.jobCount, MAX_U64), panicked := Saturated(c.panicked + r.jobCount, MAX_U64),
                  failures := Saturated(c.failures + 1, MAX_U64), panics := Saturated(c.panics + 1, MAX_U64));
      case Failed =>
        c' := c'.(failed := Saturated(c.failed + r.jobCount, MAX_U64), failures := Saturated(c.failures + 1, MAX_U64));
    }
  }

  function AllMetrics(): seq<Metric> { [Processed, FailedJobs, PanickedJobs, Successes, Failures, Panics, Millis] }

  function Rank(k: Metric): (i: nat)
    ensures i < |AllMetrics()| && AllMetrics()[i] == k
  {
    match k
    case Processed => 0
    case FailedJobs => 1
    case PanickedJobs => 2
    case Successes => 3
    case Failures => 4
    case Panics => 5
    case Millis => 6
  }

  lemma FieldsDiffer(worker: string, k: Metric, other: string, otherMetric: Metric)
    requires |worker| <= MAX_USIZE && |other| <= MAX_USIZE
    ensures MetricField(worker, Key(k)) == MetricField(other, Key(otherMetric)) <==> worker == other && k == otherMetric
  {
    if MetricField(worker, Key(k)) == MetricField(other, Key(otherMetric)) {
      MetricFieldInjective(worker, Key(k), other, Key(otherMetric));
      KeysDiffer(k, otherMetric);
    }
  }

  class JobMetricsBuffer {
    var entries: map<(int, string), Counts>
    var store: map<(int, string), nat>

    constructor ()
      ensures entries == map[] && store == map[] && Conserves([])
    {
      entries, store := map[], map[];
    }

    ghost predicate Conserves(history: seq<Stamped>)
      reads this
    {
      && (forall key <- entries :: |key.1| <= MAX_USIZE)
      && forall minute: int, worker: string, k: Metric ::
           |worker| <= MAX_USIZE ==> CounterKept(store, entries, history, minute, worker, k)
    }

    method Record(ghost history: seq<Stamped>, minute: int, r: Result)
      requires Conserves(history) && |r.worker| <= MAX_USIZE
      requires forall k :: SumFor(history + [Stamped(minute, r)], minute, r.worker, k) <= MAX_I64
      modifies this`entries
      ensures Conserves(history + [Stamped(minute, r)])
    {
      hide SumFor, MetricField, StoredAt, Amount, Get;
      ghost var before, x := entries, Stamped(minute, r);
      forall k: Metric ensures Get(EntryAt(entries, minute, r.worker), k) + Amount(r, k) <= MAX_I64 {
        SumForSnoc(history, x, minute, r.worker, k);
        assert CounterKept(store, entries, history, minute, r.worker, k);
      }
      var counts := RecordCounts(EntryAt(entries, minute, r.worker), r);
      entries := entries[(minute, r.worker) := counts];
      forall m: int, w: string, k: Metric | |w| <= MAX_USIZE
        ensures CounterKept(store, entries, history + [x], m, w, k)
      {
        SumForSnoc(history, x, m, w, k);
        assert CounterKept(store, before, history, m, w, k);
      }
    }

    /** One HINCRBY for each counter of an entry that is not zero. */
    method FlushEntry(minute: int, worker: string, counts: Counts)
      requires |worker| <= MAX_USIZE && forall k :: Get(counts, k) <= MAX_I64
      modifies this`store
      ensures forall m: int, w: string, k: Metric ::
                |w| <= MAX_USIZE ==>
                  StoredAt(store, m, MetricField(w, Key(k))) ==
                    StoredAt(old(store), m, MetricField(w, Key(k))) + if m == minute && w == worker then Get(counts, k) else 0
    {
      hide MetricField, Get, Key;
      var metrics := AllMetrics();
      assert forall k :: Rank(k) >= 0;
      for i := 0 to |metrics|
        invariant forall m: int, w: string, k: Metric ::
                    |w| <= MAX_USIZE ==>
                      StoredAt(store, m, MetricField(w, Key(k))) ==
                        StoredAt(old(store), m, MetricField(w, Key(k)))
                        + if m == minute && w == worker && Rank(k) < i then Get(counts, k) else 0
      {
        ghost var before := store;
        var value, field := Get(counts, metrics[i]), MetricField(worker, Key(metrics[i]));
        if value > 0 { store := store[(minute, field) := StoredAt(store, minute, field) + Saturated(value, MAX_I64)]; }
        forall m: int, w: string, k: Metric | |w| <= MAX_USIZE
          ensures StoredAt(store, m, MetricField(w, Key(k))) ==
                  StoredAt(before, m, MetricField(w, Key(k)))
                  + if m == minute && w == worker && Rank(k) == i then Get(counts, k) else 0
        {
          FieldsDiffer(w, k, worker, metrics[i]);
          assert Rank(k) == i <==> k == metrics[i];
        }
      }
    }

    /** All entries, in any order. */
    method FlushJobMetrics()
      requires forall key <- entries :: |key.1| <= MAX_USIZE && forall k :: Get(entries[key], k) <= MAX_I64
      modifies this`store
      ensures forall m: int, w: string, k: Metric ::
                |w| <= MAX_USIZE ==>
                  StoredAt(store, m, MetricField(w, Key(k))) ==
                    StoredAt(old(store), m, MetricField(w, Key(k))) + Get(EntryAt(entries, m, w), k)
    {
      hide MetricField, StoredAt, Key, Get;
      NothingCounts();
      assert forall m: int, w: string :: (m, w) !in entries ==> EntryAt(entries, m, w) == Nothing();
      var left := entries.Keys;
      while left != {}
        invariant left <= entries.Keys && entries == old(entries)
        invariant forall m: int, w: string, k: Metric ::
                    |w| <= MAX_USIZE ==>
                      StoredAt(store, m, MetricField(w, Key(k))) ==
                        StoredAt(old(store), m, MetricField(w, Key(k)))
                        + if (m, w) in left then 0 else Get(EntryAt(entries, m, w), k)
        decreases |left|
      {
        var key :| key in left;
        left := left - {key};
        FlushEntry(key.0, key.1, entries[key]);
      }
    }

    /** A flush that fails is taken not to have been applied, and everything stays pending. */
    method FlushMetrics(ghost history: seq<Stamped>, answer: Answer) returns (ok: bool)
      requires Conserves(history)
      requires forall minute, worker, k :: SumFor(history, minute, worker, k) <= MAX_I64
      modifies this
      ensures Conserves(history) && (ok <==> answer != Fatal || old(entries) == map[])
      ensures answer == Applied ==>
                && entries == map[]
                && forall minute: int, worker: string, k: Metric ::
                     |worker| <= MAX_USIZE ==> StoredAt(store, minute, MetricField(worker, Key(k))) == SumFor(history, minute, worker, k)
      ensures answer != Applied ==> entries == old(entries) && store == old(store)
    {
      hide MetricField, StoredAt, Key, Get, SumFor;
      NothingCounts();
      if entries == map[] {
        forall minute: int, worker: string, k: Metric | |worker| <= MAX_USIZE
          ensures StoredAt(store, minute, MetricField(worker, Key(k))) == SumFor(history, minute, worker, k)
        {
          assert CounterKept(store, entries, history, minute, worker, k);
        }
        return true;
      }
      if answer == Applied {
        ghost var before, pending := store, entries;
        forall key, k | key in entries ensures Get(entries[key], k) <= MAX_I64 {
          assert CounterKept(store, entries, history, key.0, key.1, k);
        }
        FlushJobMetrics();
        assert entries == pending;
        entries := map[];
        forall minute: int, worker: string, k: Metric | |worker| <= MAX_USIZE
          ensures StoredAt(store, minute, MetricField(worker, Key(k))) == SumFor(history, minute, worker, k)
          ensures CounterKept(store, map[], history, minute, worker, k)
        {
          assert CounterKept(before, pending, history, minute, worker, k);
          assert EntryAt(map[], minute, worker) == Nothing();
        }
      }
      ok := answer != Fatal;
    }
  }

  lemma NothingCounts()
    ensures forall k :: Get(Nothing(), k) == 0
  {}

  // ----- aggregation ------------------------------------------------------------

  /** A negative stored value counts as zero. */
  function Value(raw: int): nat { if raw >= 0 then raw else 0 }

  /** A hash as it is read, in some order of its fields. */
  type Hash = seq<(string, int)>

  /** What one field adds to a metric, of one worker or of all. */
  function Share(field: (string, int), worker: Option<string>, k: Metric): nat {
    match SplitMetricField(field.0)
    case None => 0
    case Some((name, metric)) =>
      if metric == Key(k) && (worker.None? || worker.value == name) then Value(field.1) else 0
  }

  function HashSum(hash: Hash, worker: Option<string>, k: Metric): nat {
    if hash == [] then 0 else HashSum(hash[..|hash| - 1], worker, k) + Share(hash[|hash| - 1], worker, k)
  }

  function Total(hashes: seq<Hash>, worker: Option<string>, k: Metric): nat {
    if hashes == [] then 0 else Total(hashes[..|hashes| - 1], worker, k) + HashSum(hashes[|hashes| - 1], worker, k)
  }

  function Sum(hashes: seq<Hash>, worker: Option<string>, k: Metric): nat {
    Saturated(Total(hashes, worker, k), MAX_U64)
  }

  /** The sums before anything is derived from them. */
  function Sums(hashes: seq<Hash>, worker: Option<string>): Counts {
    Counts(Sum(hashes, worker, Processed), 0, Sum(hashes, worker, FailedJobs), Sum(hashes, worker, PanickedJobs),
           Sum(hashes, worker, Successes), Sum(hashes, worker, Failures), Sum(hashes, worker, Panics),
           Sum(hashes, worker, Millis))
  }

  const WRAP := MAX_U64 + 1

  /** An addition of unsigned numbers that is neither checked nor saturating. */
  function Wrapped(n: nat): nat { n % WRAP }

  /** Successes are what did not fail; without any execution counts, the job counts stand in. */
  function Finalized(c: Counts): Counts {
    var done := c.(succeeded := if c.processed >= c.failed then c.processed - c.failed else 0);
    if Wrapped(done.successes + done.failures + done.panics) == 0 then
      done.(successes := done.succeeded, failures := done.failed, panics := done.panicked)
    else done
  }

  datatype Summary = Summary(totals: Counts, series: seq<Counts>)

  datatype Aggregation = Aggregation(totals: Counts, series: seq<Counts>, workers: map<string, Summary>)

  predicate Wanted(filter: Option<string>, worker: string) { filter.None? || filter.value == worker }

  /** The worker of a field that counts. */
  function WorkerOf(field: (string, int)): Option<string> {
    match SplitMetricField(field.0) case Some((name, _)) => Some(name) case None => None
  }

  predicate Mentions(hashes: seq<Hash>, worker: string) {
    exists hash <- hashes :: exists field <- hash :: WorkerOf(field) == Some(worker)
  }

  function Added(c: Counts, field: (string, int), worker: Option<string>): Counts {
    match SplitMetricField(field.0)
    case None => c
    case Some((name, metric)) => if Wanted(worker, name) then AddMetric(c, metric, Value(field.1)) else c
  }

  lemma SameCounts(a: Counts, b: Counts)
    requires a.succeeded == b.succeeded && forall k :: Get(a, k) == Get(b, k)
    ensures a == b
  {
    assert Get(a, Processed) == Get(b, Processed) && Get(a, FailedJobs) == Get(b, FailedJobs);
    assert Get(a, PanickedJobs) == Get(b, PanickedJobs) && Get(a, Successes) == Get(b, Successes);
    assert Get(a, Failures) == Get(b, Failures) && Get(a, Panics) == Get(b, Panics) && Get(a, Millis) == Get(b, Millis);
  }

  lemma SumsGet(hashes: seq<Hash>, worker: Option<string>, k: Metric)
    ensures Get(Sums(hashes, worker), k) == Sum(hashes, worker, k) && Sums(hashes, worker).succeeded == 0
  {
    hide Sum;
  }

  lemma TotalField(hashes: seq<Hash>, hash: Hash, field: (string, int), worker: Option<string>, k: Metric)
    ensures Total(hashes + [hash + [field]], worker, k) == Total(hashes + [hash], worker, k) + Share(field, worker, k)
    ensures Total(hashes + [[]], worker, k) == Total(hashes, worker, k)
  {
    assert (hash + [field])[..|hash|] == hash;
    assert (hashes + [hash + [field]])[..|hashes|] == hashes && (hashes + [hash])[..|hashes|] == hashes;
    assert (hashes + [[]])[..|hashes|] == hashes;
  }

  lemma AddedGet(c: Counts, field: (string, int), worker: Option<string>, k: Metric)
    requires Get(c, k) <= MAX_U64
    ensures Get(Added(c, field, worker), k) == Saturated(Get(c, k) + Share(field, worker, k), MAX_U64)
    ensures Added(c, field, worker).succeeded == c.succeeded
  {
    hide Get, Key, SplitMetricField;
    match SplitMetricField(field.0) {
      case None =>
      case Some((name, metric)) =>
        AddMetricGet(c, metric, Value(field.1), k);
        AddMetricSucceeded(c, metric, Value(field.1));
    }
  }

  lemma AddMetricSucceeded(c: Counts, metric: string, value: nat)
    ensures AddMetric(c, metric, value).succeeded == c.succeeded
  {}

  lemma SumsField(hashes: seq<Hash>, hash: Hash, field: (string, int), worker: Option<string>)
    ensures Sums(hashes + [hash + [field]], worker) == Added(Sums(hashes + [hash], worker), field, worker)
  {
    hide Sums, Added, Get, Total, Share;
    var before, after := Sums(hashes + [hash], worker), Sums(hashes + [hash + [field]], worker);
    SumsGet(hashes + [hash], worker, Processed);
    SumsGet(hashes + [hash + [field]], worker, Processed);
    AddedGet(before, field, worker, Processed);
    forall k ensures Get(after, k) == Get(Added(before, field, worker), k) {
      SumsGet(hashes + [hash], worker, k);
      SumsGet(hashes + [hash + [field]], worker, k);
      TotalField(hashes, hash, field, worker, k);
      AddedGet(before, field, worker, k);
    }
    SameCounts(after, Added(before, field, worker));
  }

  /** The totals and points of one worker, or of all, after the hashes read so far. */
  predicate Summed(totals: Counts, series: seq<Counts>, hashes: seq<Hash>, count: nat, worker: Option<string>) {
    && totals == Sums(hashes, worker) && |hashes| <= count == |series|
    && forall i :: 0 <= i < count ==> series[i] == if i < |hashes| then Sums([hashes[i]], worker) else Nothing()
  }

  /** A hash that has nothing for the worker. */
  predicate Silent(hash: Hash, worker: string) { forall field <- hash :: WorkerOf(field) != Some(worker) }

  lemma {:induction false} SilentHash(hash: Hash, worker: string, k: Metric)
    requires Silent(hash, worker)
    ensures HashSum(hash, Some(worker), k) == 0
  {
    if hash != [] {
      assert hash[|hash| - 1] in hash && forall field <- hash[..|hash| - 1] :: field in hash;
      SilentHash(hash[..|hash| - 1], worker, k);
    }
  }

  lemma {:induction false} SilentTotal(hashes: seq<Hash>, worker: string, k: Metric)
    requires forall hash <- hashes :: Silent(hash, worker)
    ensures Total(hashes, Some(worker), k) == 0
  {
    if hashes != [] {
      assert hashes[|hashes| - 1] in hashes && forall hash <- hashes[..|hashes| - 1] :: hash in hashes;
      SilentTotal(hashes[..|hashes| - 1], worker, k);
      SilentHash(hashes[|hashes| - 1], worker, k);
    }
  }

  lemma SilentSums(hashes: seq<Hash>, worker: string)
    requires forall hash <- hashes :: Silent(hash, worker)
    ensures Sums(hashes, Some(worker)) == Nothing()
  {
    hide Total, Silent;
    forall k ensures Total(hashes, Some(worker), k) == 0 { SilentTotal(hashes, worker, k); }
  }

  /** A worker that was not mentioned yet starts from nothing. */
  lemma NoneSummed(hashes: seq<Hash>, count: nat, worker: string)
    requires |hashes| <= count && !Mentions(hashes, worker)
    ensures Summed(Nothing(), seq(count, _ => Nothing()), hashes, count, Some(worker))
  {
    forall hash | hash in hashes ensures Silent(hash, worker) {}
    hide Sums, Silent, Mentions;
    SilentSums(hashes, worker);
    forall i | 0 <= i < |hashes| ensures Sums([hashes[i]], Some(worker)) == Nothing() {
      assert hashes[i] in hashes;
      SilentSums([hashes[i]], worker);
    }
  }

  lemma SummedField(totals: Counts, series: seq<Counts>, hashes: seq<Hash>, hash: Hash, field: (string, int), count: nat,
                    worker: Option<string>)
    requires Summed(totals, series, hashes + [hash], count, worker)
    ensures Summed(Added(totals, field, worker), series[|hashes| := Added(series[|hashes|], field, worker)],
                   hashes + [hash + [field]], count, worker)
  {
    hide Sums, Added;
    SumsField(hashes, hash, field, worker);
    SumsField([], hash, field, worker);
    assert [] + [hash] == [hash] && [] + [hash + [field]] == [hash + [field]];
  }

  lemma SummedNext(totals: Counts, series: seq<Counts>, hashes: seq<Hash>, count: nat, worker: Option<string>)
    requires Summed(totals, series, hashes, count, worker) && |hashes| < count
    ensures Summed(totals, series, hashes + [[]], count, worker)
  {
    forall k ensures Total(hashes + [[]], worker, k) == Total(hashes, worker, k) { TotalField(hashes, [], ("", 0), worker, k); }
    hide Total;
    EmptySums(worker);
  }

  lemma EmptySums(worker: Option<string>)
    ensures Sums([[]], worker) == Nothing() && Sums([], worker) == Nothing()
  {
    forall k ensures Total([[]], worker, k) == 0 { TotalField([], [], ("", 0), worker, k); }
    hide SplitMetricField;
  }

  /** The unfinished aggregation of the hashes read so far. */
  ghost predicate Gathered(a: Aggregation, hashes: seq<Hash>, count: nat, filter: Option<string>) {
    && Summed(a.totals, a.series, hashes, count, filter)
    && forall worker :: WorkerGathered(a.workers, hashes, count, filter, worker)
  }

  predicate WorkerGathered(workers: map<string, Summary>, hashes: seq<Hash>, count: nat, filter: Option<string>, worker: string) {
    && (worker in workers <==> Wanted(filter, worker) && Mentions(hashes, worker))
    && (worker in workers ==> Summed(workers[worker].totals, workers[worker].series, hashes, count, Some(worker)))
  }

  method AddField(a: Aggregation, ghost hashes: seq<Hash>, ghost hash: Hash, index: nat, field: (string, int), count: nat,
                  filter: Option<string>)
    returns (a': Aggregation)
    requires Gathered(a, hashes + [hash], count, filter) && index == |hashes|
    ensures Gathered(a', hashes + [hash + [field]], count, filter)
  {
    hide Sums, SplitMetricField, AddMetric, Mentions, Summed;
    InRange(a.totals, a.series, hashes, hash, count, filter);
    SummedField(a.totals, a.series, hashes, hash, field, count, filter);
    forall worker ensures Mentions(hashes + [hash + [field]], worker) <==>
                          Mentions(hashes + [hash], worker) || WorkerOf(field) == Some(worker) {
      MentionsField(hashes, hash, field, worker);
    }
    a' := a;
    var split := SplitMetricField(field.0);
    if split.Some? && Wanted(filter, split.value.0) {
      var (name, metric) := split.value;
      var summary := Summary(Nothing(), seq(count, _ => Nothing()));
      assert WorkerGathered(a.workers, hashes + [hash], count, filter, name);
      if name in a.workers {
        summary := a.workers[name];
      } else {
        NoneSummed(hashes + [hash], count, name);
      }
      InRange(summary.totals, summary.series, hashes, hash, count, Some(name));
      SummedField(summary.totals, summary.series, hashes, hash, field, count, Some(name));
      var value := Value(field.1);
      a' := Aggregation(
        AddMetric(a.totals, metric, value),
        a.series[index := AddMetric(a.series[index], metric, value)],
        a.workers[name := Summary(AddMetric(summary.totals, metric, value),
                                  summary.series[index := AddMetric(summary.series[index], metric, value)])]);
    } else {
      assert a.series[index := a.series[index]] == a.series;
    }
    forall worker ensures WorkerGathered(a'.workers, hashes + [hash + [field]], count, filter, worker) {
      assert WorkerGathered(a.workers, hashes + [hash], count, filter, worker);
      if worker in a.workers && WorkerOf(field) != Some(worker) {
        var summary := a.workers[worker];
        InRange(summary.totals, summary.series, hashes, hash, count, Some(worker));
        SummedField(summary.totals, summary.series, hashes, hash, field, count, Some(worker));
        assert summary.series[index := summary.series[index]] == summary.series;
      }
    }
  }

  lemma InRange(totals: Counts, series: seq<Counts>, hashes: seq<Hash>, hash: Hash, count: nat, worker: Option<string>)
    requires Summed(totals, series, hashes + [hash], count, worker)
    ensures |hashes| < |series| == count
  {}

  lemma MentionsField(hashes: seq<Hash>, hash: Hash, field: (string, int), worker: string)
    ensures Mentions(hashes + [hash + [field]], worker) <==> Mentions(hashes + [hash], worker) || WorkerOf(field) == Some(worker)
    ensures Mentions(hashes + [[]], worker) <==> Mentions(hashes, worker)
  {
    hide WorkerOf;
    assert forall h :: h in hashes + [hash + [field]] <==> h in hashes || h == hash + [field];
    assert forall h :: h in hashes + [hash] <==> h in hashes || h == hash;
    assert forall h :: h in hashes + [[]] <==> h in hashes || h == [];
    assert forall f :: f in hash + [field] <==> f in hash || f == field;
    if WorkerOf(field) == Some(worker) { assert field in hash + [field] && hash + [field] in hashes + [hash + [field]]; }
    if exists f <- hash :: WorkerOf(f) == Some(worker) {
      assert hash + [field] in hashes + [hash + [field]] && hash in hashes + [hash];
    }
  }

  method FinalizeSeries(series: seq<Counts>) returns (r: seq<Counts>)
    ensures |r| == |series| && forall i :: 0 <= i < |r| ==> r[i] == Finalized(series[i])
  {
    hide Finalized;
    r := [];
    for i := 0 to |series|
      invariant |r| == i && forall j :: 0 <= j < i ==> r[j] == Finalized(series[j])
    {
      r := r + [Finalized(series[i])];
    }
  }

  /** The summed points and totals of one worker, or of all, with what is derived from them. */
  predicate Summarized(s: Summary, hashes: seq<Hash>, count: nat, worker: Option<string>) {
    && s.totals == Finalized(Sums(hashes, worker)) && |s.series| == count
    && forall i :: 0 <= i < count ==>
         s.series[i] == Finalized(if i < |hashes| then Sums([hashes[i]], worker) else Nothing())
  }

  method FinalizeSummary(s: Summary, ghost hashes: seq<Hash>, ghost count: nat, ghost worker: Option<string>) returns (r: Summary)
    requires Summed(s.totals, s.series, hashes, count, worker)
    ensures Summarized(r, hashes, count, worker)
  {
    hide Finalized, Sums;
    var series := FinalizeSeries(s.series);
    r := Summary(Finalized(s.totals), series);
  }

  /** The hashes of as many minutes as are asked for: what lies beyond is not counted. */
  method AggregateCounterHashes(count: nat, hashes: seq<Hash>, filter: Option<string>) returns (r: Aggregation)
    ensures var used := hashes[..if |hashes| <= count then |hashes| else count];
            && Summarized(Summary(r.totals, r.series), used, count, filter)
            && forall worker ::
                 && (worker in r.workers <==> Wanted(filter, worker) && Mentions(used, worker))
                 && (worker in r.workers ==> Summarized(r.workers[worker], used, count, Some(worker)))
  {
    hide Summed, Summarized, Mentions, WorkerOf;
    var used := hashes[..if |hashes| <= count then |hashes| else count];
    var a := Aggregation(Nothing(), seq(count, _ => Nothing()), map[]);
    NothingGathered(count, filter);
    for i := 0 to |used|
      invariant Gathered(a, used[..i], count, filter)
    {
      ghost var before := used[..i];
      GatheredNext(a, before, count, filter);
      var hash := used[i];
      for j := 0 to |hash|
        invariant Gathered(a, before + [hash[..j]], count, filter)
      {
        assert hash[..j + 1] == hash[..j] + [hash[j]];
        a := AddField(a, before, hash[..j], i, hash[j], count, filter);
      }
      assert hash[..|hash|] == hash && used[..i + 1] == before + [hash];
    }
    assert used[..|used|] == used;
    var all := FinalizeSummary(Summary(a.totals, a.series), used, count, filter);
    var workers: map<string, Summary> := map[];
    var left := a.workers.Keys;
    while left != {}
      invariant left <= a.workers.Keys && workers.Keys == a.workers.Keys - left
      invariant forall worker <- workers :: Summarized(workers[worker], used, count, Some(worker))
      decreases |left|
    {
      var worker :| worker in left;
      assert WorkerGathered(a.workers, used, count, filter, worker);
      left := left - {worker};
      var summary := FinalizeSummary(a.workers[worker], used, count, Some(worker));
      workers := workers[worker := summary];
    }
    r := Aggregation(all.totals, all.series, workers);
    forall worker ensures worker in r.workers <==> Wanted(filter, worker) && Mentions(used, worker) {
      assert WorkerGathered(a.workers, used, count, filter, worker);
    }
  }

  lemma NothingGathered(count: nat, filter: Option<string>)
    ensures Gathered(Aggregation(Nothing(), seq(count, _ => Nothing()), map[]), [], count, filter)
  {
    EmptySums(filter);
    hide Sums;
  }

  lemma GatheredNext(a: Aggregation, hashes: seq<Hash>, count: nat, filter: Option<string>)
    requires Gathered(a, hashes, count, filter) && |hashes| < count
    ensures Gathered(a, hashes + [[]], count, filter)
  {
    hide Summed, Mentions;
    SummedNext(a.totals, a.series, hashes, count, filter);
    forall worker ensures WorkerGathered(a.workers, hashes + [[]], count, filter, worker) {
      assert WorkerGathered(a.workers, hashes, count, filter, worker);
      MentionsField(hashes, [], ("", 0), worker);
      if worker in a.workers { SummedNext(a.workers[worker].totals, a.workers[worker].series, hashes, count, Some(worker)); }
    }
  }

  // ----- what the sums have to do with each other -------------------------------

  function SumPoints(series: seq<Counts>, k: Metric): nat {
    if series == [] then 0 else SumPoints(series[..|series| - 1], k) + Get(series[|series| - 1], k)
  }

  function SumWorkers(workers: map<string, Summary>, names: seq<string>, k: Metric): nat
    requires forall name <- names :: name in workers
  {
    if names == [] then 0
    else SumWorkers(workers, names[..|names| - 1], k) + Get(workers[names[|names| - 1]].totals, k)
  }

  /** The counters that nothing is ever filled into. */
  predicate Counted(k: Metric) { k.Processed? || k.FailedJobs? || k.PanickedJobs? || k.Millis? }

  lemma FinalizedGet(c: Counts, k: Metric)
    requires Counted(k)
    ensures Get(Finalized(c), k) == Get(c, k)
  {}

  lemma {:induction false} TotalOfMinutes(s: Summary, hashes: seq<Hash>, count: nat, worker: Option<string>, k: Metric, n: nat)
    requires Summarized(s, hashes, count, worker) && Counted(k) && n <= count && Total(hashes, worker, k) <= MAX_U64
    ensures var m := if n <= |hashes| then n else |hashes|;
            SumPoints(s.series[..n], k) == Total(hashes[..m], worker, k) <= Total(hashes, worker, k)
  {
    hide Finalized, Sums, Get, Sum;
    if n > 0 {
      TotalOfMinutes(s, hashes, count, worker, k, n - 1);
      assert s.series[..n][..n - 1] == s.series[..n - 1];
      FinalizedGet(if n - 1 < |hashes| then Sums([hashes[n - 1]], worker) else Nothing(), k);
      if n <= |hashes| {
        SumsGet([hashes[n - 1]], worker, k);
        assert hashes[..n][..n - 1] == hashes[..n - 1];
        TotalPrefix(hashes, n, worker, k);
        SingleTotal(hashes[n - 1], worker, k);
      } else {
        NothingCounts();
      }
    } else {
      TotalPrefix(hashes, 0, worker, k);
    }
  }

  lemma SingleTotal(hash: Hash, worker: Option<string>, k: Metric)
    ensures Total([hash], worker, k) == HashSum(hash, worker, k)
    ensures HashSum(hash, worker, k) <= MAX_U64 ==> Sum([hash], worker, k) == HashSum(hash, worker, k)
  {
    assert [hash][..0] == [];
    assert Total([], worker, k) == 0;
  }

  lemma {:induction false} TotalPrefix(hashes: seq<Hash>, n: nat, worker: Option<string>, k: Metric)
    requires n <= |hashes|
    ensures Total(hashes[..n], worker, k) <= Total(hashes, worker, k)
  {
    if n == |hashes| {
      assert hashes[..n] == hashes;
    } else {
      TotalPrefix(hashes[..|hashes| - 1], n, worker, k);
      assert hashes[..|hashes| - 1][..n] == hashes[..n];
    }
  }

  /** Below saturation the totals of a counter are the sum of its minutes. */
  lemma TotalsAreMinutes(s: Summary, hashes: seq<Hash>, count: nat, worker: Option<string>, k: Metric)
    requires Summarized(s, hashes, count, worker) && |hashes| <= count && Counted(k) && Total(hashes, worker, k) <= MAX_U64
    ensures Get(s.totals, k) == SumPoints(s.series, k)
  {
    hide Finalized, Sums, Get;
    TotalOfMinutes(s, hashes, count, worker, k, count);
    assert s.series[..count] == s.series && hashes[..|hashes|] == hashes;
    FinalizedGet(Sums(hashes, worker), k);
    SumsGet(hashes, worker, k);
  }

  predicate Distinct(names: seq<string>) { forall i, j :: 0 <= i < j < |names| ==> names[i] != names[j] }

  function NamesTotal(hashes: seq<Hash>, names: seq<string>, k: Metric): nat {
    if names == [] then 0
    else NamesTotal(hashes, names[..|names| - 1], k) + Total(hashes, Some(names[|names| - 1]), k)
  }

  function NamesHash(hash: Hash, names: seq<string>, k: Metric): nat {
    if names == [] then 0 else NamesHash(hash, names[..|names| - 1], k) + HashSum(hash, Some(names[|names| - 1]), k)
  }

  function NamesShare(field: (string, int), names: seq<string>, k: Metric): nat {
    if names == [] then 0 else NamesShare(field, names[..|names| - 1], k) + Share(field, Some(names[|names| - 1]), k)
  }

  /** A field counts for one worker only. */
  lemma {:induction false} ShareOfNames(field: (string, int), names: seq<string>, k: Metric)
    requires Distinct(names)
    ensures NamesShare(field, names, k) ==
              if WorkerOf(field).Some? && WorkerOf(field).value in names then Share(field, None, k) else 0
  {
    hide Share, WorkerOf;
    if names != [] {
      var n := |names| - 1;
      ShareOfNames(field, names[..n], k);
      ShareOfOne(field, names[n], k);
      assert forall name :: name in names <==> name in names[..n] || name == names[n];
    }
  }

  lemma ShareOfOne(field: (string, int), name: string, k: Metric)
    ensures Share(field, Some(name), k) == if WorkerOf(field) == Some(name) then Share(field, None, k) else 0
  {
    hide SplitMetricField;
  }

  lemma {:induction false} NamesHashSnoc(hash: Hash, names: seq<string>, k: Metric)
    requires hash != []
    ensures NamesHash(hash, names, k) == NamesHash(hash[..|hash| - 1], names, k) + NamesShare(hash[|hash| - 1], names, k)
  {
    hide Share;
    if names != [] { NamesHashSnoc(hash, names[..|names| - 1], k); }
  }

  lemma {:induction false} NamesTotalSnoc(hashes: seq<Hash>, names: seq<string>, k: Metric)
    requires hashes != []
    ensures NamesTotal(hashes, names, k) ==
              NamesTotal(hashes[..|hashes| - 1], names, k) + NamesHash(hashes[|hashes| - 1], names, k)
  {
    hide HashSum;
    if names != [] { NamesTotalSnoc(hashes, names[..|names| - 1], k); }
  }

  lemma {:induction false} NoneOfNothing(names: seq<string>, k: Metric)
    ensures NamesTotal([], names, k) == 0 && NamesHash([], names, k) == 0
  {
    if names != [] { NoneOfNothing(names[..|names| - 1], k); }
  }

  lemma {:induction false} HashOfNames(hash: Hash, names: seq<string>, k: Metric)
    requires Distinct(names) && forall field <- hash :: WorkerOf(field).Some? ==> WorkerOf(field).value in names
    ensures NamesHash(hash, names, k) == HashSum(hash, None, k)
  {
    if hash == [] {
      NoneOfNothing(names, k);
    } else {
      var n := |hash| - 1;
      assert hash[n] in hash && forall field <- hash[..n] :: field in hash;
      hide NamesHash, NamesShare;
      HashOfNames(hash[..n], names, k);
      NamesHashSnoc(hash, names, k);
      ShareOfNames(hash[n], names, k);
    }
  }

  lemma {:induction false} TotalOfNames(hashes: seq<Hash>, names: seq<string>, k: Metric)
    requires Distinct(names) && forall worker :: Mentions(hashes, worker) ==> worker in names
    ensures NamesTotal(hashes, names, k) == Total(hashes, None, k)
  {
    if hashes == [] {
      NoneOfNothing(names, k);
    } else {
      var n := |hashes| - 1;
      assert hashes[n] in hashes && forall hash <- hashes[..n] :: hash in hashes;
      forall worker | Mentions(hashes[..n], worker) ensures worker in names { assert Mentions(hashes, worker); }
      forall field | field in hashes[n] && WorkerOf(field).Some? ensures WorkerOf(field).value in names {
        assert Mentions(hashes, WorkerOf(field).value);
      }
      hide NamesHash, NamesTotal, Mentions;
      TotalOfNames(hashes[..n], names, k);
      NamesTotalSnoc(hashes, names, k);
      HashOfNames(hashes[n], names, k);
    }
  }

  /** Every part of a sum that does not saturate is exact. */
  lemma {:induction false} WorkersAreNames(workers: map<string, Summary>, hashes: seq<Hash>, count: nat, names: seq<string>, k: Metric)
    requires Counted(k) && NamesTotal(hashes, names, k) <= MAX_U64
    requires forall name <- names :: name in workers && Summarized(workers[name], hashes, count, Some(name))
    ensures SumWorkers(workers, names, k) == NamesTotal(hashes, names, k)
  {
    hide Finalized, Sums, Get, Total;
    if names != [] {
      var last := names[|names| - 1];
      WorkersAreNames(workers, hashes, count, names[..|names| - 1], k);
      assert last in names;
      FinalizedGet(Sums(hashes, Some(last)), k);
      SumsGet(hashes, Some(last), k);
    }
  }

  /** Below saturation the totals over all workers are the sum of their totals, whatever the order
      in which the workers are listed. */
  lemma TotalsAreWorkers(r: Aggregation, hashes: seq<Hash>, count: nat, names: seq<string>, k: Metric)
    requires Summarized(Summary(r.totals, r.series), hashes, count, None) && Counted(k) && Total(hashes, None, k) <= MAX_U64
    requires forall worker ::
               && (worker in r.workers <==> Mentions(hashes, worker))
               && (worker in r.workers ==> Summarized(r.workers[worker], hashes, count, Some(worker)))
    requires Distinct(names) && forall worker :: worker in names <==> worker in r.workers
    ensures Get(r.totals, k) == SumWorkers(r.workers, names, k)
  {
    hide Finalized, Sums, Get, Mentions, Summarized;
    TotalOfNames(hashes, names, k);
    WorkersAreNames(r.workers, hashes, count, names, k);
    TotalsGet(Summary(r.totals, r.series), hashes, count, k);
  }

  lemma TotalsGet(s: Summary, hashes: seq<Hash>, count: nat, k: Metric)
    requires Summarized(s, hashes, count, None) && Counted(k)
    ensures Get(s.totals, k) == Sum(hashes, None, k)
  {
    FinalizedGet(Sums(hashes, None), k);
    SumsGet(hashes, None, k);
  }

  // ----- the derived execution counts -------------------------------------------

  predicate Execution(k: Metric) { k.Successes? || k.Failures? || k.Panics? }

  /** Whether the job counts stand in for missing execution counts. */
  predicate Filled(c: Counts) { c.successes + c.failures + c.panics == 0 }

  /** The job count that stands in for an execution count. */
  function StandIn(c: Counts, k: Metric): nat
    requires Execution(k)
  {
    match k
    case Successes => if c.processed >= c.failed then c.processed - c.failed else 0
    case Failures => c.failed
    case Panics => c.panicked
  }

  /** The counts of each minute before anything is derived from them. */
  function Minutes(hashes: seq<Hash>, worker: Option<string>): seq<Counts> {
    seq(|hashes|, i requires 0 <= i < |hashes| => Sums([hashes[i]], worker))
  }

  /** What minutes without execution counts get from their job counts. */
  function FilledIn(points: seq<Counts>, k: Metric): nat
    requires Execution(k)
  {
    if points == [] then 0
    else
      var p := points[|points| - 1];
      FilledIn(points[..|points| - 1], k) + if Filled(p) then StandIn(p, k) else 0
  }

  predicate Sane(points: seq<Counts>) { forall p <- points :: p.failed <= p.processed }

  /** No counter saturates, and neither does the sum of the execution counts wrap around. */
  predicate Below(hashes: seq<Hash>, worker: Option<string>) {
    && (forall k :: Total(hashes, worker, k) <= MAX_U64)
    && Total(hashes, worker, Successes) + Total(hashes, worker, Failures) + Total(hashes, worker, Panics) <= MAX_U64
  }

  predicate Small(c: Counts) { c.successes + c.failures + c.panics <= MAX_U64 }

  /** For counters of their width, the job counts stand in for execution counts that are there
      exactly when the sum of these is one or two times the range of a counter. */
  lemma StandInExactly(c: Counts)
    requires c.successes <= MAX_U64 && c.failures <= MAX_U64 && c.panics <= MAX_U64
    ensures var sum := c.successes + c.failures + c.panics;
            Wrapped(sum) == 0 <==> Filled(c) || sum == WRAP || sum == 2 * WRAP
  {
    var sum := c.successes + c.failures + c.panics;
    assert sum == WRAP * (sum / WRAP) + Wrapped(sum) && sum / WRAP <= 2;
  }

  lemma {:induction false} PartOfTotal(hashes: seq<Hash>, i: nat, worker: Option<string>, k: Metric)
    requires i < |hashes|
    ensures HashSum(hashes[i], worker, k) <= Total(hashes, worker, k)
  {
    if i < |hashes| - 1 { PartOfTotal(hashes[..|hashes| - 1], i, worker, k); }
  }

  lemma MinuteIsSmall(hashes: seq<Hash>, i: nat, worker: Option<string>)
    requires i < |hashes| && Below(hashes, worker)
    ensures Small(Sums([hashes[i]], worker))
  {
    hide Sums, Total, HashSum, Sum;
    forall k ensures Get(Sums([hashes[i]], worker), k) <= Total(hashes, worker, k) {
      PartOfTotal(hashes, i, worker, k);
      SingleTotal(hashes[i], worker, k);
      SumsGet([hashes[i]], worker, k);
    }
    FilledGet(Sums([hashes[i]], worker));
  }

  lemma FinalizedExecution(c: Counts, k: Metric)
    requires Execution(k) && Small(c)
    ensures Get(Finalized(c), k) == Get(c, k) + if Filled(c) then StandIn(c, k) else 0
    ensures Get(Finalized(Nothing()), k) == 0
  {}

  lemma {:induction false} MinutesTotal(hashes: seq<Hash>, worker: Option<string>, k: Metric)
    requires Total(hashes, worker, k) <= MAX_U64
    ensures SumPoints(Minutes(hashes, worker), k) == Total(hashes, worker, k)
  {
    hide Sums, Get, Sum;
    if hashes != [] {
      var n := |hashes| - 1;
      MinutesTotal(hashes[..n], worker, k);
      assert Minutes(hashes, worker)[..n] == Minutes(hashes[..n], worker);
      SumsGet([hashes[n]], worker, k);
      SingleTotal(hashes[n], worker, k);
    }
  }

  lemma {:induction false} SeriesSplits(s: Summary, hashes: seq<Hash>, count: nat, worker: Option<string>, k: Metric, n: nat)
    requires Summarized(s, hashes, count, worker) && Execution(k) && n <= count && Below(hashes, worker)
    ensures var points := Minutes(hashes, worker)[..if n <= |hashes| then n else |hashes|];
            SumPoints(s.series[..n], k) == SumPoints(points, k) + FilledIn(points, k)
  {
    hide Finalized, Sums, Get, StandIn, Filled, Small, Below;
    if n > 0 {
      SeriesSplits(s, hashes, count, worker, k, n - 1);
      assert s.series[..n][..n - 1] == s.series[..n - 1];
      if n <= |hashes| { MinuteIsSmall(hashes, n - 1, worker); }
      assert Small(Nothing()) by { NothingIsSmall(); }
      FinalizedExecution(if n - 1 < |hashes| then Sums([hashes[n - 1]], worker) else Nothing(), k);
      var minutes := Minutes(hashes, worker);
      if n <= |hashes| { assert minutes[..n][..n - 1] == minutes[..n - 1]; }
    }
  }

  lemma NothingIsSmall()
    ensures Small(Nothing())
  {}

  lemma FilledPoint(p: Counts, k: Metric)
    requires Filled(p) && Execution(k) && (k.Successes? ==> p.failed <= p.processed)
    ensures StandIn(p, k) == match k
                             case Successes => Get(p, Processed) - Get(p, FailedJobs)
                             case Failures => Get(p, FailedJobs)
                             case _ => Get(p, PanickedJobs)
  {}

  /** When no minute has execution counts, the job counts stand in everywhere. */
  lemma {:induction false} AllFilled(points: seq<Counts>, k: Metric)
    requires Execution(k) && (forall p <- points :: Filled(p)) && (k.Successes? ==> Sane(points))
    ensures FilledIn(points, k) == match k
                                   case Successes => SumPoints(points, Processed) - SumPoints(points, FailedJobs)
                                   case Failures => SumPoints(points, FailedJobs)
                                   case _ => SumPoints(points, PanickedJobs)
  {
    hide StandIn, Filled, Get;
    if points != [] {
      assert points[|points| - 1] in points && forall p <- points[..|points| - 1] :: p in points;
      AllFilled(points[..|points| - 1], k);
      FilledPoint(points[|points| - 1], k);
    }
  }

  lemma {:induction false} EachFilled(points: seq<Counts>)
    ensures SumPoints(points, Successes) + SumPoints(points, Failures) + SumPoints(points, Panics) == 0 <==>
              forall p <- points :: Filled(p)
  {
    if points != [] {
      var before, last := points[..|points| - 1], points[|points| - 1];
      EachFilled(before);
      assert (forall p <- points :: Filled(p)) <==> (forall p <- before :: Filled(p)) && Filled(last) by {
        assert forall p :: p in points <==> p in before || p == last;
      }
    }
  }

  lemma FinalTotals(s: Summary, hashes: seq<Hash>, count: nat, worker: Option<string>, k: Metric)
    requires Summarized(s, hashes, count, worker) && Execution(k) && Small(Sums(hashes, worker))
    ensures Get(s.totals, k) == Get(Sums(hashes, worker), k) + if Filled(Sums(hashes, worker)) then StandIn(Sums(hashes, worker), k) else 0
    ensures |s.series| == count && |Minutes(hashes, worker)| == |hashes|
  {
    hide Sums, Finalized;
    FinalizedExecution(Sums(hashes, worker), k);
  }

  lemma TotalGet(hashes: seq<Hash>, worker: Option<string>, k: Metric)
    requires Total(hashes, worker, k) <= MAX_U64
    ensures Get(Sums(hashes, worker), k) == Total(hashes, worker, k)
  {
    hide Sums, Total;
    SumsGet(hashes, worker, k);
  }

  lemma FilledGet(c: Counts)
    ensures Filled(c) <==> Get(c, Successes) + Get(c, Failures) + Get(c, Panics) == 0
    ensures c.successes == Get(c, Successes) && c.failures == Get(c, Failures) && c.panics == Get(c, Panics)
    ensures c.failed == Get(c, FailedJobs) && c.processed == Get(c, Processed)
  {}

  lemma {:induction false} SaneTotals(points: seq<Counts>)
    requires Sane(points)
    ensures SumPoints(points, FailedJobs) <= SumPoints(points, Processed)
  {
    if points != [] {
      assert points[|points| - 1] in points && forall p <- points[..|points| - 1] :: p in points;
      SaneTotals(points[..|points| - 1]);
    }
  }

  /** Below saturation the execution counts of the totals are the sum of those of the minutes
      exactly when no minute has any, or those without any have nothing to stand in for them. */
  lemma FilledCountsAddUp(s: Summary, hashes: seq<Hash>, count: nat, worker: Option<string>, k: Metric)
    requires Summarized(s, hashes, count, worker) && |hashes| <= count && Execution(k) && Below(hashes, worker)
    requires k.Successes? ==> Sane(Minutes(hashes, worker))
    ensures Get(s.totals, k) == SumPoints(s.series, k) <==>
              Filled(Sums(hashes, worker)) || FilledIn(Minutes(hashes, worker), k) == 0
  {
    hide Finalized, Sums, Get, StandIn, FilledIn, SumPoints, Total, Minutes, Sane;
    var points := Minutes(hashes, worker);
    forall m ensures Get(Sums(hashes, worker), m) == Total(hashes, worker, m) { TotalGet(hashes, worker, m); }
    FilledGet(Sums(hashes, worker));
    FinalTotals(s, hashes, count, worker, k);
    SeriesSplits(s, hashes, count, worker, k, count);
    assert s.series[..count] == s.series && points[..|hashes|] == points;
    forall m ensures SumPoints(points, m) == Total(hashes, worker, m) { MinutesTotal(hashes, worker, m); }
    EachFilled(points);
    if Filled(Sums(hashes, worker)) {
      AllFilled(points, k);
      if k.Successes? { SaneTotals(points); }
      FilledPoint(Sums(hashes, worker), k);
    }
  }

  // ----- what was recorded is what is reported ----------------------------------

  /** A field that was written for a counter of a worker counts for that counter of that worker. */
  lemma FieldCounts(worker: string, k: Metric, value: int, filter: Option<string>, other: Metric)
    requires |worker| <= MAX_USIZE
    ensures Share((MetricField(worker, Key(k)), value), filter, other) ==
              if other == k && (filter == None || filter == Some(worker)) && value > 0 then value else 0
    ensures WorkerOf((MetricField(worker, Key(k)), value)) == Some(worker)
  {
    hide MetricField, SplitMetricField, Key;
    MetricFieldRoundTrip(worker, Key(k));
    if Key(other) == Key(k) { KeysDiffer(other, k); }
  }

  ghost predicate IsWritten(field: string) {
    exists worker: string, k: Metric :: |worker| <= MAX_USIZE && field == MetricField(worker, Key(k))
  }

  /** The hash lists what these fields hold, in some order, and each field was written by a flush. */
  ghost predicate Lists(hash: Hash, fields: map<string, nat>) {
    && (forall i, j :: 0 <= i < j < |hash| ==> hash[i].0 != hash[j].0)
    && (forall i :: 0 <= i < |hash| ==> hash[i].0 in fields && fields[hash[i].0] == hash[i].1 && IsWritten(hash[i].0))
    && (forall name <- fields :: Named(hash, name))
  }

  predicate Named(hash: Hash, name: string) { exists field <- hash :: field.0 == name }

  function ValueIn(fields: map<string, nat>, name: string): nat { if name in fields then fields[name] else 0 }

  lemma ListsRest(hash: Hash, fields: map<string, nat>)
    requires Lists(hash, fields) && hash != []
    ensures Lists(hash[..|hash| - 1], fields - {hash[|hash| - 1].0})
  {
    hide IsWritten;
    var last, rest := hash[|hash| - 1].0, fields - {hash[|hash| - 1].0};
    forall name | name in rest ensures Named(hash[..|hash| - 1], name) {
      assert Named(hash, name);
      var field :| field in hash && field.0 == name;
      assert field in hash[..|hash| - 1];
    }
  }

  lemma ShareOfWritten(field: (string, int), worker: string, k: Metric)
    requires IsWritten(field.0) && field.1 >= 0 && |worker| <= MAX_USIZE
    ensures Share(field, Some(worker), k) == if field.0 == MetricField(worker, Key(k)) then field.1 else 0
  {
    hide Share, MetricField, Key;
    var owner: string, m: Metric :| |owner| <= MAX_USIZE && field.0 == MetricField(owner, Key(m));
    assert field == (MetricField(owner, Key(m)), field.1);
    FieldCounts(owner, m, field.1, Some(worker), k);
    FieldsDiffer(owner, m, worker, k);
  }

  /** Whatever the order in which a hash is read, its sum for a counter is what the field of that
      counter holds. */
  lemma {:induction false} HashIsRead(hash: Hash, fields: map<string, nat>, worker: string, k: Metric)
    requires Lists(hash, fields) && |worker| <= MAX_USIZE
    ensures HashSum(hash, Some(worker), k) == ValueIn(fields, MetricField(worker, Key(k)))
  {
    hide Share, MetricField, Key, IsWritten;
    if hash != [] {
      var last := hash[|hash| - 1];
      ListsRest(hash, fields);
      HashIsRead(hash[..|hash| - 1], fields - {last.0}, worker, k);
      ShareOfWritten(last, worker, k);
    }
  }

  /** The jobs of the successful results of a worker in a minute. */
  function SuccessfulJobs(history: seq<Stamped>, minute: int, worker: string): nat {
    if history == [] then 0
    else
      var last := history[|history| - 1];
      SuccessfulJobs(history[..|history| - 1], minute, worker)
      + if last.minute == minute && last.result.worker == worker && last.result.kind.Success? then last.result.jobCount else 0
  }

  lemma {:induction false} JobsSucceedOrFail(history: seq<Stamped>, minute: int, worker: string)
    ensures SumFor(history, minute, worker, Processed) ==
              SuccessfulJobs(history, minute, worker) + SumFor(history, minute, worker, FailedJobs)
  {
    if history != [] { JobsSucceedOrFail(history[..|history| - 1], minute, worker); }
  }

  /** The hash of a minute. */
  function FieldsOf(store: map<(int, string), nat>, minute: int): map<string, nat> {
    map key <- store | key.0 == minute :: key.1 := store[key]
  }

  lemma StoredIsIn(store: map<(int, string), nat>, minute: int, name: string)
    ensures ValueIn(FieldsOf(store, minute), name) == StoredAt(store, minute, name)
  {
    assert (minute, name) in store <==> name in FieldsOf(store, minute);
  }

  /** From the buffer to the report: what a worker did in a minute, once recorded, flushed, read back in
      any order and aggregated, is what the point of that minute says. */
  lemma ReportedAsRecorded(s: Summary, hash: Hash, store: map<(int, string), nat>, history: seq<Stamped>, minute: int, worker: string)
    requires Summarized(s, [hash], 1, Some(worker)) && Lists(hash, FieldsOf(store, minute)) && |worker| <= MAX_USIZE
    requires forall k :: StoredAt(store, minute, MetricField(worker, Key(k))) == SumFor(history, minute, worker, k) <= MAX_U64
    ensures var point := s.series[0];
            && point.processed == SumFor(history, minute, worker, Processed) && point.failed == SumFor(history, minute, worker, FailedJobs)
            && point.succeeded == SuccessfulJobs(history, minute, worker)
            && point.panicked == SumFor(history, minute, worker, PanickedJobs) && point.millis == SumFor(history, minute, worker, Millis)
  {
    hide HashSum, MetricField, Key, Lists, ValueIn, SumFor, SuccessfulJobs, StoredAt, FieldsOf;
    forall k ensures Get(Sums([hash], Some(worker)), k) == SumFor(history, minute, worker, k) {
      HashIsRead(hash, FieldsOf(store, minute), worker, k);
      StoredIsIn(store, minute, MetricField(worker, Key(k)));
      SingleTotal(hash, Some(worker), k);
      SumsGet([hash], Some(worker), k);
      assert SumFor(history, minute, worker, k) <= MAX_U64;
    }
    JobsSucceedOrFail(history, minute, worker);
    PointIs(Sums([hash], Some(worker)), history, minute, worker);
    assert s.series[0] == Finalized(Sums([hash], Some(worker)));
  }

  lemma PointIs(c: Counts, history: seq<Stamped>, minute: int, worker: string)
    requires forall k :: Get(c, k) == SumFor(history, minute, worker, k)
    ensures c.processed == SumFor(history, minute, worker, Processed) && c.failed == SumFor(history, minute, worker, FailedJobs)
    ensures c.panicked == SumFor(history, minute, worker, PanickedJobs) && c.millis == SumFor(history, minute, worker, Millis)
  {
    hide SumFor;
    assert Get(c, Processed) == SumFor(history, minute, worker, Processed);
    assert Get(c, FailedJobs) == SumFor(history, minute, worker, FailedJobs);
    assert Get(c, PanickedJobs) == SumFor(history, minute, worker, PanickedJobs);
    assert Get(c, Millis) == SumFor(history, minute, worker, Millis);
  }
}
