/** The result collector: counts results as they come and adds them to Redis now and then. A
    flush that fails is taken not to have been applied; what it held stays pending. */
module Results {
  import opened Options

  const MAX_I64 := 0x7FFF_FFFF_FFFF_FFFF

  const MAX_U64 := 0xFFFF_FFFF_FFFF_FFFF

  datatype Kind = Success | Panicked | Failed

  datatype Result = Result(kind: Kind, worker: string, queue: string, executionMs: nat, jobCount: nat)

  datatype Tally = Tally(processed: nat, succeeded: nat, panicked: nat, failed: nat)

  function Zero(): Tally { Tally(0, 0, 0, 0) }

  function Saturated(n: nat, max: nat): nat { if n <= max then n else max }

  function Plus(a: Tally, b: Tally): Tally {
    Tally(a.processed + b.processed, a.succeeded + b.succeeded, a.panicked + b.panicked, a.failed + b.failed)
  }

  function Of(r: Result): Tally {
    match r.kind
    case Success => Tally(r.jobCount, r.jobCount, 0, 0)
    case Panicked => Tally(r.jobCount, 0, r.jobCount, r.jobCount)
    case Failed => Tally(r.jobCount, 0, 0, r.jobCount)
  }

  /** What the results of a queue add up to, or all results. */
  function SumOf(history: seq<Result>, queue: Option<string>): Tally {
    if history == [] then Zero()
    else
      var last := history[|history| - 1];
      Plus(SumOf(history[..|history| - 1], queue), if queue.None? || last.queue == queue.value then Of(last) else Zero())
  }

  /** The jobs of the results of one kind. */
  function JobsOf(history: seq<Result>, queue: Option<string>, kind: Kind): nat {
    if history == [] then 0
    else
      var last := history[|history| - 1];
      JobsOf(history[..|history| - 1], queue, kind)
      + if last.kind == kind && (queue.None? || last.queue == queue.value) then last.jobCount else 0
  }

  /** Each counter of a queue is the jobs of the results of its kinds: a panic is a failure as well. */
  lemma {:induction false} SumCountsJobs(history: seq<Result>, queue: Option<string>)
    ensures var t, succeeded, panicked, failed :=
              SumOf(history, queue), JobsOf(history, queue, Success), JobsOf(history, queue, Panicked), JobsOf(history, queue, Failed);
            && t.succeeded == succeeded && t.panicked == panicked && t.failed == failed + panicked
            && t.processed == succeeded + failed + panicked
  {
    if history != [] { SumCountsJobs(history[..|history| - 1], queue); }
  }

  predicate Balanced(t: Tally) { t.processed == t.succeeded + t.failed && t.panicked <= t.failed }

  predicate AtMost(t: Tally, max: nat) {
    t.processed <= max && t.succeeded <= max && t.panicked <= max && t.failed <= max
  }

  lemma {:induction false} SumBalanced(history: seq<Result>, queue: Option<string>)
    ensures Balanced(SumOf(history, queue)) && SumOf(history, queue).processed <= SumOf(history, None).processed
  {
    if history != [] { SumBalanced(history[..|history| - 1], queue); }
  }

  lemma SumSnoc(history: seq<Result>, r: Result, queue: Option<string>)
    ensures SumOf(history + [r], queue) ==
              Plus(SumOf(history, queue), if queue.None? || r.queue == queue.value then Of(r) else Zero())
  {
    assert (history + [r])[..|history|] == history;
  }

  function At(tallies: map<string, Tally>, queue: string): Tally { if queue in tallies then tallies[queue] else Zero() }

  /** What is stored and what is pending of a queue is what was recorded of it. */
  ghost predicate Kept(stored: map<string, Tally>, pending: map<string, Tally>, history: seq<Result>, queue: string) {
    Plus(At(stored, queue), At(pending, queue)) == SumOf(history, Some(queue))
  }

  lemma NothingAt(queue: string)
    ensures At(map[], queue) == Zero()
  {
    var none: map<string, Tally> := map[];
    assert queue !in none;
  }

  lemma NothingRecorded(queue: Option<string>)
    ensures SumOf([], queue) == Zero() && (queue.Some? ==> Kept(map[], map[], [], queue.value))
  {
    hide At;
    if queue.Some? { NothingAt(queue.value); }
  }

  lemma KeptRecord(stored: map<string, Tally>, pending: map<string, Tally>, history: seq<Result>, r: Result, t: Tally, queue: string)
    requires Kept(stored, pending, history, queue) && t == Plus(At(pending, r.queue), Of(r))
    ensures Kept(stored, pending[r.queue := t], history + [r], queue)
  {
    SumSnoc(history, r, Some(queue));
    hide SumOf;
  }

  lemma KeptFlush(stored: map<string, Tally>, pending: map<string, Tally>, stored': map<string, Tally>, history: seq<Result>, queue: string)
    requires Kept(stored, pending, history, queue) && At(stored', queue) == Plus(At(stored, queue), At(pending, queue))
    ensures Kept(stored', map[], history, queue) && At(stored', queue) == SumOf(history, Some(queue))
    ensures Balanced(At(stored', queue))
  {
    SumBalanced(history, Some(queue));
    hide SumOf;
  }

  function Clamped(t: Tally, max: nat): Tally {
    Tally(Saturated(t.processed, max), Saturated(t.succeeded, max), Saturated(t.panicked, max), Saturated(t.failed, max))
  }

  /** A tally that fits before and after a result does not stick. */
  lemma Fits(t: Tally, r: Result, max: nat)
    requires AtMost(Plus(t, Of(r)), max)
    ensures AtMost(t, max) && Clamped(Plus(t, Of(r)), max) == Plus(t, Of(r))
  {}

  /** As long as all results together fit, no counter sticks. */
  lemma NoneSticks(stored: map<string, Tally>, pending: map<string, Tally>, history: seq<Result>, r: Result)
    requires Kept(stored, pending, history, r.queue) && SumOf(history + [r], None).processed <= MAX_I64
    ensures AtMost(Plus(At(pending, r.queue), Of(r)), MAX_I64) && AtMost(Plus(SumOf(history, None), Of(r)), MAX_U64)
    ensures Plus(SumOf(history, None), Of(r)) == SumOf(history + [r], None)
  {
    SumSnoc(history, r, None);
    SumSnoc(history, r, Some(r.queue));
    SumBalanced(history + [r], None);
    SumBalanced(history + [r], Some(r.queue));
    hide SumOf;
  }

  lemma PlusZero()
    ensures forall t: Tally :: Plus(t, Zero()) == t
  {}

  /** Counters of limited width: nothing wraps, they stick at their maximum. */
  method Record(t: Tally, r: Result, max: nat) returns (t': Tally)
    requires AtMost(t, max)
    ensures t' == Clamped(Plus(t, Of(r)), max)
  {
    var count := Saturated(r.jobCount, max);
    t' := t.(processed := Saturated(t.processed + count, max));
    match r.kind {
      case Success => t' := t'.(succeeded := Saturated(t'.succeeded + count, max));
      case Panicked =>
        t' := t'.(panicked := Saturated(t'.panicked + count, max), failed := Saturated(t'.failed + count, max));
      case Failed => t' := t'.(failed := Saturated(t'.failed + count, max));
    }
  }

  /** How a flush goes: applied, failed within the tolerance, or failed once too often. */
  datatype Answer = Applied | Tolerated | Fatal

  /** The lengths that a refresh finds: queues that are empty are no longer active. */
  datatype Event =
    | Came(result: Result)
    | MetricsTick(answer: Answer)
    | StatsTick(answer: Answer)
    | QueueTick(answer: Answer, lengths: map<string, int>)

  function Recorded(events: seq<Event>): seq<Result> {
    if events == [] then []
    else Recorded(events[..|events| - 1]) + match events[|events| - 1] case Came(r) => [r] case _ => []
  }

  class Collector {
    var stats: Tally
    var pendingStats: map<string, Tally>
    var activeQueues: set<string>
    var pendingMetrics: seq<Result>     // what the metrics buffer was made of since its last good flush
    var storedMetrics: seq<Result>
    var stored: map<string, Tally>
    var cancelled: bool

    constructor ()
      ensures Conserves([]) && pendingStats == map[] && stored == map[] && storedMetrics == [] && !cancelled
    {
      stats, pendingStats, activeQueues, stored, cancelled := Zero(), map[], {}, map[], false;
      pendingMetrics, storedMetrics := [], [];
      new;
      hide SumOf, Kept;
      NothingRecorded(None);
      forall queue ensures Kept(map[], map[], [], queue) { NothingRecorded(Some(queue)); }
    }

    /** For every queue, what is stored and what is pending is what was recorded. */
    ghost predicate Conserves(history: seq<Result>)
      reads this
    {
      && stats == SumOf(history, None) && storedMetrics + pendingMetrics == history
      && forall queue :: Kept(stored, pendingStats, history, queue)
    }

    /** Where the metrics of a result go is the business of `Metrics`. */
    method RecordMetrics(r: Result)
      modifies this`pendingMetrics
      ensures pendingMetrics == old(pendingMetrics) + [r]
    {
      pendingMetrics := pendingMetrics + [r];
    }

    method UpdateStats(ghost history: seq<Result>, r: Result, exitWhenProcessed: Option<nat>)
      requires storedMetrics + pendingMetrics == history + [r]
      requires stats == SumOf(history, None) && forall queue :: Kept(stored, pendingStats, history, queue)
      requires SumOf(history + [r], None).processed <= MAX_I64
      modifies this`stats, this`pendingStats, this`activeQueues, this`cancelled
      ensures Conserves(history + [r]) && activeQueues == old(activeQueues) + {r.queue}
      ensures cancelled <==>
                old(cancelled) || (exitWhenProcessed.Some? && SumOf(history + [r], None).processed >= exitWhenProcessed.value)
    {
      hide SumOf, Kept, AtMost, Plus, At, Of, Clamped;
      assert Kept(stored, pendingStats, history, r.queue);
      NoneSticks(stored, pendingStats, history, r);
      Fits(At(pendingStats, r.queue), r, MAX_I64);
      Fits(stats, r, MAX_U64);
      ghost var before := pendingStats;
      var recorded := Record(At(pendingStats, r.queue), r, MAX_I64);
      stats := Record(stats, r, MAX_U64);
      pendingStats := pendingStats[r.queue := recorded];
      activeQueues := activeQueues + {r.queue};
      if exitWhenProcessed.Some? && stats.processed >= exitWhenProcessed.value { cancelled := true; }
      forall queue ensures Kept(stored, pendingStats, history + [r], queue) {
        KeptRecord(stored, before, history, r, recorded, queue);
      }
    }

    /** One HINCRBY for each queue and counter, in any order of the queues. */
    method FlushResultStats()
      modifies this`stored
      ensures forall queue :: At(stored, queue) == Plus(At(old(stored), queue), At(pendingStats, queue))
    {
      hide Plus;
      PlusZero();
      ghost var before := stored;
      var left := pendingStats.Keys;
      while left != {}
        invariant left <= pendingStats.Keys && pendingStats == old(pendingStats)
        invariant forall queue :: queue !in left ==> At(stored, queue) == Plus(At(before, queue), At(pendingStats, queue))
        invariant forall queue <- left :: At(stored, queue) == At(before, queue)
        decreases |left|
      {
        var queue :| queue in left;
        left := left - {queue};
        stored := stored[queue := Plus(At(stored, queue), pendingStats[queue])];
      }
    }

    method FlushPendingStats(ghost history: seq<Result>, answer: Answer) returns (ok: bool)
      requires Conserves(history)
      modifies this`stored, this`pendingStats
      ensures Conserves(history) && (ok <==> answer != Fatal || old(pendingStats) == map[])
      ensures answer == Applied ==>
                && pendingStats == map[]
                && forall queue :: At(stored, queue) == SumOf(history, Some(queue)) && Balanced(At(stored, queue))
      ensures answer != Applied ==> pendingStats == old(pendingStats) && stored == old(stored)
    {
      hide SumOf, Kept, Plus, At, Balanced;
      if pendingStats == map[] {
        NothingPending(stored, history);
        return true;
      }
      if answer == Applied {
        ghost var before, pending := stored, pendingStats;
        FlushResultStats();
        forall queue
          ensures Kept(stored, map[], history, queue) && At(stored, queue) == SumOf(history, Some(queue))
          ensures Balanced(At(stored, queue))
        {
          KeptFlush(before, pending, stored, history, queue);
        }
        pendingStats := map[];
      }
      ok := answer != Fatal;
    }

    method FlushMetrics(answer: Answer) returns (ok: bool)
      modifies this`pendingMetrics, this`storedMetrics
      ensures storedMetrics + pendingMetrics == old(storedMetrics) + old(pendingMetrics)
      ensures ok <==> answer != Fatal || old(pendingMetrics) == []
      ensures if answer == Applied then pendingMetrics == []
              else pendingMetrics == old(pendingMetrics) && storedMetrics == old(storedMetrics)
    {
      if pendingMetrics == [] { return true; }
      if answer == Applied { storedMetrics, pendingMetrics := storedMetrics + pendingMetrics, []; }
      ok := answer != Fatal;
    }

    method RefreshQueueLengths(answer: Answer, lengths: map<string, int>) returns (ok: bool)
      modifies this`activeQueues
      ensures ok <==> answer != Fatal || old(activeQueues) == {}
      ensures activeQueues == if answer == Applied
                              then set queue <- old(activeQueues) | queue in lengths && lengths[queue] > 0
                              else old(activeQueues)
    {
      if activeQueues == {} { return true; }
      if answer == Applied { activeQueues := set queue <- activeQueues | queue in lengths && lengths[queue] > 0; }
      ok := answer != Fatal;
    }

    /** The last flushes: each is tried only if those before it did not end the collector. */
    method FlushBeforeExit(ghost history: seq<Result>, metrics: Answer, stats: Answer, refresh: Answer, lengths: map<string, int>)
      returns (ok: bool)
      requires Conserves(history)
      modifies this`pendingMetrics, this`storedMetrics, this`stored, this`pendingStats, this`activeQueues
      ensures Conserves(history)
      ensures ok ==> (metrics == Applied ==> storedMetrics == history)
      ensures ok && stats == Applied ==> pendingStats == map[] && forall queue :: At(stored, queue) == SumOf(history, Some(queue))
      ensures (forall queue :: Balanced(At(old(stored), queue))) ==> forall queue :: Balanced(At(stored, queue))
      ensures metrics == stats == refresh == Applied ==> ok
    {
      hide SumOf, Kept, Plus, At, Balanced;
      ok := FlushMetrics(metrics);
      if !ok { return; }
      assert metrics == Applied ==> storedMetrics + [] == storedMetrics;
      ok := FlushPendingStats(history, stats);
      if !ok { return; }
      ok := RefreshQueueLengths(refresh, lengths);
    }

    method Take(event: Event, ghost history: seq<Result>, exitWhenProcessed: Option<nat>) returns (ok: bool)
      requires Conserves(history)
      requires event.Came? ==> SumOf(history + [event.result], None).processed <= MAX_I64
      modifies this
      ensures (event.Came? ==> ok) && Conserves(if event.Came? then history + [event.result] else history)
      ensures (forall queue :: Balanced(At(old(stored), queue))) ==> forall queue :: Balanced(At(stored, queue))
    {
      hide SumOf, Kept, Plus, At, Balanced;
      ok := true;
      match event {
        case Came(r) =>
          RecordMetrics(r);
          assert storedMetrics + pendingMetrics == history + [r];
          UpdateStats(history, r, exitWhenProcessed);
        case MetricsTick(answer) =>
          ok := FlushMetrics(answer);
        case StatsTick(answer) =>
          ok := FlushPendingStats(history, answer);
        case QueueTick(answer, lengths) =>
          ok := RefreshQueueLengths(answer, lengths);
      }
    }

    /** The loop of the collector up to the end of its channel, or a fatal error of any of its
        flushes. Below the maximum, whatever fails in between, nothing is lost and nothing counted
        twice, in the tallies of the queues and in the metrics. */
    method Run(events: seq<Event>, metrics: Answer, stats: Answer, refresh: Answer, lengths: map<string, int>,
               exitWhenProcessed: Option<nat>)
      returns (ok: bool, ghost taken: nat)
      requires Conserves([]) && stored == map[] && SumOf(Recorded(events), None).processed <= MAX_I64
      modifies this
      ensures taken <= |events| && Conserves(Recorded(events[..taken]))
      ensures ok ==> taken == |events|
      ensures ok && stats == Applied ==>
                pendingStats == map[] && forall queue :: At(stored, queue) == SumOf(Recorded(events), Some(queue))
      ensures ok && metrics == Applied ==> storedMetrics == Recorded(events)
      ensures forall queue :: Balanced(At(stored, queue))
    {
      ok, taken := true, 0;
      NothingStored();
      hide SumOf, Kept, Plus, At, Balanced;
      for i := 0 to |events|
        invariant ok && taken == i && Conserves(Recorded(events[..i]))
        invariant forall queue :: Balanced(At(stored, queue))
      {
        ghost var history := Recorded(events[..i]);
        ResultsGrow(events, i + 1);
        RecordedNext(events, i);
        ok := Take(events[i], history, exitWhenProcessed);
        if !ok { return; }
        taken := i + 1;
      }
      assert events[..|events|] == events;
      ok := FlushBeforeExit(Recorded(events), metrics, stats, refresh, lengths);
    }
  }

  lemma RecordedNext(events: seq<Event>, i: nat)
    requires i < |events|
    ensures Recorded(events[..i + 1]) ==
              if events[i].Came? then Recorded(events[..i]) + [events[i].result] else Recorded(events[..i])
  {
    assert events[..i + 1][..i] == events[..i];
  }

  lemma NothingStored()
    ensures forall queue :: Balanced(At(map[], queue))
  {}

  lemma AddsNothing(stored: map<string, Tally>, queue: string)
    ensures At(stored, queue) == Plus(At(stored, queue), At(map[], queue))
  {
    hide At;
    NothingAt(queue);
  }

  lemma NothingPending(stored: map<string, Tally>, history: seq<Result>)
    requires forall queue :: Kept(stored, map[], history, queue)
    ensures forall queue :: At(stored, queue) == SumOf(history, Some(queue)) && Balanced(At(stored, queue))
  {
    hide SumOf, Kept, Balanced, Plus, At;
    forall queue ensures At(stored, queue) == SumOf(history, Some(queue)) && Balanced(At(stored, queue)) {
      AddsNothing(stored, queue);
      assert Kept(stored, map[], history, queue);
      KeptFlush(stored, map[], stored, history, queue);
    }
  }

  lemma {:induction false} ResultsGrow(events: seq<Event>, i: nat)
    requires i <= |events|
    ensures SumOf(Recorded(events[..i]), None).processed <= SumOf(Recorded(events), None).processed
  {
    if i == |events| {
      assert events[..i] == events;
    } else {
      var n := |events| - 1;
      ResultsGrow(events[..n], i);
      assert events[..n][..i] == events[..i];
      match events[n] {
        case Came(r) => SumSnoc(Recorded(events[..n]), r, None);
        case _ => assert Recorded(events) == Recorded(events[..n]);
      }
    }
  }
}
