/** What enqueueing means: the envelopes of a request handled one at a time, each against
    the store the previous one left. */
module EnqueueSpec {
  import opened Redis
  import opened Options
  import Snapshot

  /** The key naming scheme. A queue name that already starts with the namespace is a key. */
  datatype Keys = Keys(namespace: string) {
    function Jobs(): string { namespace + ":jobs" }
    function Schedule(): string { namespace + ":schedule" }
    function Retry(): string { namespace + ":retry" }
    function Queue(queue: string): string {
      if namespace <= queue then queue else namespace + ":queue:" + queue
    }
  }

  datatype Destination = ToQueue | ToSchedule

  datatype Conflict = Default | Skip | Replace

  /** `payload` is the envelope's JSON text. */
  datatype Envelope = Envelope(id: string, queue: string, payload: string, unique: bool, onConflictReplace: bool, scheduledAt: int) {
    function Conflict(): Conflict { if !unique then Default else if onConflictReplace then Replace else Skip }
  }

  datatype Outcome = Skipped | Enqueued | Replaced

  /** A job to write; `oldQueue` is the key of the queue it leaves when it replaces another. */
  datatype Write = Write(envelope: Envelope, oldQueue: Option<string>)

  function StoredQueue(payload: string): string {
    match Snapshot.RootQueue(payload) case Ok((_, queue)) => queue case Err(_) => ""
  }

  /** Every stored payload is JSON that names its queue. */
  predicate WellFormed(jobs: map<string, string>) {
    forall id :: id in jobs ==> Snapshot.RootQueue(jobs[id]).Ok?
  }

  /** The stored payloads of these ids name their queues. */
  predicate Readable(jobs: map<string, string>, ids: seq<string>) {
    forall id <- ids :: id in jobs ==> Snapshot.RootQueue(jobs[id]).Ok?
  }

  predicate Serialized(e: Envelope) {
    Snapshot.RootQueue(e.payload).Ok? && StoredQueue(e.payload) == e.queue
  }

  function Decide(jobs: map<string, string>, ks: Keys, e: Envelope): (Option<Write>, Outcome) {
    if e.Conflict() == Skip && e.id in jobs then (None, Skipped)
    else if e.Conflict() == Replace && e.id in jobs then
      (Some(Write(e, Some(ks.Queue(StoredQueue(jobs[e.id]))))), Replaced)
    else (Some(Write(e, None)), Enqueued)
  }

  /** A replaced job leaves the schedule, the retries, its old queue and the new one. */
  function Perform(db: Keyspace, ks: Keys, dest: Destination, w: Write): Keyspace {
    var id, queue := w.envelope.id, ks.Queue(w.envelope.queue);
    var cleaned :=
      if w.oldQueue.Some? then LRem(LRem(ZRem(ZRem(db, ks.Schedule(), id), ks.Retry(), id), w.oldQueue.value, id), queue, id)
      else db;
    var stored := HSet(cleaned, ks.Jobs(), id, w.envelope.payload);
    match dest
    case ToQueue => LPush(stored, queue, id)
    case ToSchedule => ZAdd(stored, ks.Schedule(), w.envelope.scheduledAt, id)
  }

  function ApplyOne(db: Keyspace, ks: Keys, dest: Destination, e: Envelope): (Keyspace, Outcome) {
    var (write, outcome) := Decide(Fields(db, ks.Jobs()), ks, e);
    (if write.Some? then Perform(db, ks, dest, write.value) else db, outcome)
  }

  function ApplyAll(db: Keyspace, ks: Keys, dest: Destination, es: seq<Envelope>): (r: (Keyspace, seq<Outcome>))
    ensures |r.1| == |es|
  {
    if es == [] then (db, [])
    else
      var (before, outcomes) := ApplyAll(db, ks, dest, es[..|es| - 1]);
      var (after, outcome) := ApplyOne(before, ks, dest, es[|es| - 1]);
      (after, outcomes + [outcome])
  }

  // ----- planning before writing ------------------------------------------------

  datatype Plan = Plan(writes: seq<Write>, outcomes: seq<Outcome>, jobs: map<string, string>)

  function PlanAll(jobs: map<string, string>, ks: Keys, es: seq<Envelope>): Plan {
    if es == [] then Plan([], [], jobs)
    else
      var p := PlanAll(jobs, ks, es[..|es| - 1]);
      var e := es[|es| - 1];
      var (write, outcome) := Decide(p.jobs, ks, e);
      Plan(if write.Some? then p.writes + [write.value] else p.writes,
           p.outcomes + [outcome],
           if write.Some? then p.jobs[e.id := e.payload] else p.jobs)
  }

  function PerformAll(db: Keyspace, ks: Keys, dest: Destination, writes: seq<Write>): Keyspace {
    if writes == [] then db
    else Perform(PerformAll(db, ks, dest, writes[..|writes| - 1]), ks, dest, writes[|writes| - 1])
  }

  /** None of the other keys a write touches is the key of the payloads. */
  predicate SparesJobs(ks: Keys, dest: Destination, w: Write) {
    && ks.Schedule() != ks.Jobs() && ks.Retry() != ks.Jobs()
    && (w.oldQueue.Some? ==> w.oldQueue.value != ks.Jobs())
    && (dest == ToQueue || w.oldQueue.Some? ==> ks.Queue(w.envelope.queue) != ks.Jobs())
  }

  lemma PerformJobs(db: Keyspace, ks: Keys, dest: Destination, w: Write)
    requires SparesJobs(ks, dest, w)
    ensures Fields(Perform(db, ks, dest, w), ks.Jobs()) == Fields(db, ks.Jobs())[w.envelope.id := w.envelope.payload]
  {
    hide Store, Fields, Without;
    var jobs, id, queue := ks.Jobs(), w.envelope.id, ks.Queue(w.envelope.queue);
    var cleaned := db;
    if w.oldQueue.Some? {
      var d1 := ZRem(db, ks.Schedule(), id);
      var d2 := ZRem(d1, ks.Retry(), id);
      var d3 := LRem(d2, w.oldQueue.value, id);
      cleaned := LRem(d3, queue, id);
      Elsewhere(db, ks.Schedule(), ZSet(Scores(db, ks.Schedule()) - {id}), jobs);
      Elsewhere(d1, ks.Retry(), ZSet(Scores(d1, ks.Retry()) - {id}), jobs);
      Elsewhere(d2, w.oldQueue.value, List(Without(Items(d2, w.oldQueue.value), id)), jobs);
      Elsewhere(d3, queue, List(Without(Items(d3, queue), id)), jobs);
    }
    var stored := HSet(cleaned, jobs, id, w.envelope.payload);
    HSetFields(cleaned, jobs, id, w.envelope.payload);
    match dest {
      case ToQueue => Elsewhere(stored, queue, List([id] + Items(stored, queue)), jobs);
      case ToSchedule =>
        Elsewhere(stored, ks.Schedule(), ZSet(Scores(stored, ks.Schedule())[id := w.envelope.scheduledAt]), jobs);
    }
  }

  /** Deciding every envelope first and writing afterwards comes to the same. */
  lemma {:induction false} PlanThenPerform(db: Keyspace, ks: Keys, dest: Destination, es: seq<Envelope>)
    requires forall w <- PlanAll(Fields(db, ks.Jobs()), ks, es).writes :: SparesJobs(ks, dest, w)
    ensures var plan := PlanAll(Fields(db, ks.Jobs()), ks, es);
            var (after, outcomes) := ApplyAll(db, ks, dest, es);
            after == PerformAll(db, ks, dest, plan.writes) && outcomes == plan.outcomes
            && Fields(after, ks.Jobs()) == plan.jobs
  {
    hide PlanAll, ApplyAll, PerformAll, SparesJobs, Fields, Keys.Jobs;
    if es != [] {
      var init := es[..|es| - 1];
      PlanGrows(Fields(db, ks.Jobs()), ks, es);
      PlanThenPerform(db, ks, dest, init);
      OneMorePerformed(db, ks, dest, es);
    } else {
      NothingPerformed(db, ks, dest);
    }
  }

  lemma PlanGrows(jobs: map<string, string>, ks: Keys, es: seq<Envelope>)
    requires es != []
    ensures PlanAll(jobs, ks, es[..|es| - 1]).writes <= PlanAll(jobs, ks, es).writes
  {
    hide Decide;
  }

  lemma NothingPerformed(db: Keyspace, ks: Keys, dest: Destination)
    ensures ApplyAll(db, ks, dest, []) == (db, []) && PerformAll(db, ks, dest, []) == db
    ensures PlanAll(Fields(db, ks.Jobs()), ks, []) == Plan([], [], Fields(db, ks.Jobs()))
  {}

  lemma OneMorePerformed(db: Keyspace, ks: Keys, dest: Destination, es: seq<Envelope>)
    requires es != [] && forall w <- PlanAll(Fields(db, ks.Jobs()), ks, es).writes :: SparesJobs(ks, dest, w)
    requires var plan := PlanAll(Fields(db, ks.Jobs()), ks, es[..|es| - 1]);
             var (after, outcomes) := ApplyAll(db, ks, dest, es[..|es| - 1]);
             after == PerformAll(db, ks, dest, plan.writes) && outcomes == plan.outcomes
             && Fields(after, ks.Jobs()) == plan.jobs
    ensures var plan := PlanAll(Fields(db, ks.Jobs()), ks, es);
            var (after, outcomes) := ApplyAll(db, ks, dest, es);
            after == PerformAll(db, ks, dest, plan.writes) && outcomes == plan.outcomes
            && Fields(after, ks.Jobs()) == plan.jobs
  {
    var init, e, jobs := es[..|es| - 1], es[|es| - 1], Fields(db, ks.Jobs());
    hide PlanAll, ApplyAll, PerformAll, Perform, Fields, Decide, SparesJobs, Keys.Jobs;
    PlanLast(jobs, ks, es);
    ApplyLast(db, ks, dest, es);
    var prior := PlanAll(jobs, ks, init);
    var (write, _) := Decide(prior.jobs, ks, e);
    if write.Some? {
      assert write.value in PlanAll(jobs, ks, es).writes;
      DecidedFor(prior.jobs, ks, e);
      PerformLast(db, ks, dest, prior.writes, write.value);
      PerformJobs(ApplyAll(db, ks, dest, init).0, ks, dest, write.value);
    }
  }

  lemma PlanLast(jobs: map<string, string>, ks: Keys, es: seq<Envelope>)
    requires es != []
    ensures var e, before, after := es[|es| - 1], PlanAll(jobs, ks, es[..|es| - 1]), PlanAll(jobs, ks, es);
            var (write, outcome) := Decide(before.jobs, ks, e);
            && after.outcomes == before.outcomes + [outcome]
            && after.writes == (if write.Some? then before.writes + [write.value] else before.writes)
            && after.jobs == if write.Some? then before.jobs[e.id := e.payload] else before.jobs
  {
    hide Decide;
  }

  lemma ApplyLast(db: Keyspace, ks: Keys, dest: Destination, es: seq<Envelope>)
    requires es != []
    ensures var (before, outcomes) := ApplyAll(db, ks, dest, es[..|es| - 1]);
            var (write, outcome) := Decide(Fields(before, ks.Jobs()), ks, es[|es| - 1]);
            ApplyAll(db, ks, dest, es) ==
              (if write.Some? then Perform(before, ks, dest, write.value) else before, outcomes + [outcome])
  {
    hide Decide, Perform, Fields;
  }

  lemma PerformLast(db: Keyspace, ks: Keys, dest: Destination, writes: seq<Write>, w: Write)
    ensures PerformAll(db, ks, dest, writes + [w]) == Perform(PerformAll(db, ks, dest, writes), ks, dest, w)
  {
    assert (writes + [w])[..|writes|] == writes;
  }

  lemma DecidedFor(jobs: map<string, string>, ks: Keys, e: Envelope)
    ensures Decide(jobs, ks, e).0.Some? ==> Decide(jobs, ks, e).0.value.envelope == e
  {
    hide StoredQueue;
  }

  /** Payloads keep naming their queues. */
  lemma {:induction false} PlanKeepsWellFormed(jobs: map<string, string>, ks: Keys, es: seq<Envelope>)
    requires WellFormed(jobs) && forall e <- es :: Serialized(e)
    ensures WellFormed(PlanAll(jobs, ks, es).jobs)
  {
    hide StoredQueue, Snapshot.RootQueue;
    if es != [] {
      var last := es[|es| - 1];
      assert Serialized(last);
      PlanKeepsWellFormed(jobs, ks, es[..|es| - 1]);
    }
  }

  lemma {:induction false} PlanKeepsJobs(jobs: map<string, string>, ks: Keys, es: seq<Envelope>, i: nat)
    requires i <= |es|
    ensures PlanAll(jobs, ks, es[..i]).jobs.Keys <= PlanAll(jobs, ks, es).jobs.Keys
    ensures jobs.Keys <= PlanAll(jobs, ks, es).jobs.Keys
    ensures forall k :: 0 <= k < |es| ==> es[k].id in PlanAll(jobs, ks, es).jobs
  {
    hide StoredQueue, Keys.Queue;
    if i == |es| { assert es[..i] == es; }
    if es != [] {
      var init := es[..|es| - 1];
      PlanKeepsJobs(jobs, ks, init, if i < |es| then i else 0);
      if i < |es| { assert init[..i] == es[..i]; }
    }
  }

  // ----- leaving out what would be skipped --------------------------------------

  function Select(es: seq<Envelope>, keep: seq<bool>): (r: seq<Envelope>)
    requires |keep| == |es|
    ensures forall e <- r :: e in es
  {
    if es == [] then []
    else
      var kept := Select(es[..|es| - 1], keep[..|es| - 1]);
      if keep[|es| - 1] then kept + [es[|es| - 1]] else kept
  }

  /** The outcomes of all envelopes, when those left out are skipped. */
  function Expand(keep: seq<bool>, outcomes: seq<Outcome>): (r: seq<Outcome>)
    ensures |r| == |keep|
    ensures forall i :: 0 <= i < |keep| && !keep[i] ==> r[i] == Skipped
  {
    if keep == [] then []
    else if keep[|keep| - 1] && outcomes != [] then
      Expand(keep[..|keep| - 1], outcomes[..|outcomes| - 1]) + [outcomes[|outcomes| - 1]]
    else Expand(keep[..|keep| - 1], outcomes) + [Skipped]
  }

  /** Envelope `i` is a Skip whose id is stored when its turn comes. */
  predicate WouldSkip(jobs: map<string, string>, ks: Keys, es: seq<Envelope>, i: nat)
    requires i < |es|
  {
    es[i].Conflict() == Skip && es[i].id in PlanAll(jobs, ks, es[..i]).jobs
  }

  lemma {:induction false} LeaveOut(jobs: map<string, string>, ks: Keys, es: seq<Envelope>, keep: seq<bool>)
    requires |keep| == |es| && forall i :: 0 <= i < |es| && !keep[i] ==> WouldSkip(jobs, ks, es, i)
    ensures var all, some := PlanAll(jobs, ks, es), PlanAll(jobs, ks, Select(es, keep));
            all.writes == some.writes && all.jobs == some.jobs && all.outcomes == Expand(keep, some.outcomes)
  {
    hide StoredQueue, Keys.Queue;
    if es != [] {
      var init, flags := es[..|es| - 1], keep[..|es| - 1];
      forall i | 0 <= i < |init| && !flags[i] ensures WouldSkip(jobs, ks, init, i) {
        assert init[..i] == es[..i] && WouldSkip(jobs, ks, es, i);
      }
      LeaveOut(jobs, ks, init, flags);
      if keep[|es| - 1] { LeaveOutKept(jobs, ks, es, keep); } else { LeaveOutSkipped(jobs, ks, es, keep); }
    }
  }

  lemma LeaveOutKept(jobs: map<string, string>, ks: Keys, es: seq<Envelope>, keep: seq<bool>)
    requires |keep| == |es| > 0 && keep[|es| - 1]
    requires var all := PlanAll(jobs, ks, es[..|es| - 1]);
             var some := PlanAll(jobs, ks, Select(es[..|es| - 1], keep[..|es| - 1]));
             all.writes == some.writes && all.jobs == some.jobs && all.outcomes == Expand(keep[..|es| - 1], some.outcomes)
    ensures var all, some := PlanAll(jobs, ks, es), PlanAll(jobs, ks, Select(es, keep));
            all.writes == some.writes && all.jobs == some.jobs && all.outcomes == Expand(keep, some.outcomes)
  {
    hide Decide;
    var kept := Select(es, keep);
    assert kept[..|kept| - 1] == Select(es[..|es| - 1], keep[..|es| - 1]);
    var outcomes := PlanAll(jobs, ks, kept).outcomes;
    assert outcomes[..|outcomes| - 1] == PlanAll(jobs, ks, Select(es[..|es| - 1], keep[..|es| - 1])).outcomes;
  }

  lemma LeaveOutSkipped(jobs: map<string, string>, ks: Keys, es: seq<Envelope>, keep: seq<bool>)
    requires |keep| == |es| > 0 && !keep[|es| - 1] && WouldSkip(jobs, ks, es, |es| - 1)
    requires var all := PlanAll(jobs, ks, es[..|es| - 1]);
             var some := PlanAll(jobs, ks, Select(es[..|es| - 1], keep[..|es| - 1]));
             all.writes == some.writes && all.jobs == some.jobs && all.outcomes == Expand(keep[..|es| - 1], some.outcomes)
    ensures var all, some := PlanAll(jobs, ks, es), PlanAll(jobs, ks, Select(es, keep));
            all.writes == some.writes && all.jobs == some.jobs && all.outcomes == Expand(keep, some.outcomes)
  {
    hide StoredQueue, Keys.Queue;
  }

  lemma {:induction false} ApplyAppend(db: Keyspace, ks: Keys, dest: Destination, a: seq<Envelope>, b: seq<Envelope>)
    ensures var (mid, first) := ApplyAll(db, ks, dest, a);
            var (after, second) := ApplyAll(mid, ks, dest, b);
            ApplyAll(db, ks, dest, a + b) == (after, first + second)
  {
    hide ApplyOne;
    if b == [] {
      var first := ApplyAll(db, ks, dest, a).1;
      assert a + b == a && first + [] == first;
    } else {
      var init := b[..|b| - 1];
      ApplyAppend(db, ks, dest, a, init);
      assert (a + b)[..|a + b| - 1] == a + init;
      var (mid, first) := ApplyAll(db, ks, dest, a);
      var (before, some) := ApplyAll(mid, ks, dest, init);
      var (_, last) := ApplyOne(before, ks, dest, b[|b| - 1]);
      assert first + (some + [last]) == (first + some) + [last];
    }
  }
}
