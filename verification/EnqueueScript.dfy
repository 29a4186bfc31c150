/** The enqueue script, which Redis runs as one atomic step: compare the snapshots, plan,
    check the type of every key, then write. A script that fails half way keeps what it
    wrote, so it must not fail after the first write. */
module EnqueueScript {
  import opened Redis
  import opened Options
  import opened EnqueueSpec
  import opened EnqueuePlaces
  import Snapshot

  /** The snapshot of one replaced job, None when it was absent; `queueKey` is its old queue. */
  datatype Entry = Entry(id: string, snapshot: Option<Snapshot.Snapshot>, queueKey: string)

  datatype Reply =
    | Committed(outcomes: seq<Outcome>)
    | Changed(changed: seq<(string, Option<string>)>)
    | WrongType

  function Lookup(jobs: map<string, string>, id: string): Option<string> {
    if id in jobs then Some(jobs[id]) else None
  }

  predicate Fresh(jobs: map<string, string>, entry: Entry) {
    if entry.snapshot.None? then entry.id !in jobs
    else entry.id in jobs && Snapshot.Matches(jobs[entry.id], entry.snapshot.value)
  }

  ghost predicate Taken(ks: Keys, entry: Entry) {
    entry.snapshot.Some? ==>
      && (exists payload :: Snapshot.Parse(payload) == Snapshot.Ok(entry.snapshot.value))
      && entry.queueKey == ks.Queue(entry.snapshot.value.queue)
  }

  /** The queue of every job that can be replaced is known: from a snapshot, or because
      an earlier envelope writes it unconditionally. */
  predicate Covered(entries: seq<Entry>, inputs: seq<Envelope>) {
    forall i :: 0 <= i < |inputs| && inputs[i].Conflict() == Replace ==> Known(entries, inputs, i, inputs[i].id)
  }

  predicate Known(entries: seq<Entry>, inputs: seq<Envelope>, i: nat, id: string)
    requires i <= |inputs|
  {
    || (exists entry <- entries :: entry.id == id)
    || (exists k :: 0 <= k < i && inputs[k].id == id && inputs[k].Conflict() == Default)
  }

  /** The queue key stored for an id that was compared is the key of its true old queue. */
  lemma EntryQueue(ks: Keys, jobs: map<string, string>, entry: Entry)
    requires Taken(ks, entry) && Fresh(jobs, entry) && entry.snapshot.Some? && Snapshot.RootQueue(jobs[entry.id]).Ok?
    ensures entry.queueKey == ks.Queue(StoredQueue(jobs[entry.id]))
  {
    var payload :| Snapshot.Parse(payload) == Snapshot.Ok(entry.snapshot.value);
    Snapshot.SnapshotSound(payload, entry.snapshot.value, jobs[entry.id]);
  }

  // ----- the tables of the script -----------------------------------------------

  /** What the script knows of each id after planning part of its inputs. */
  ghost predicate Tables(ks: Keys, jobs0: map<string, string>, jobs: map<string, string>,
                   present: map<string, bool>, queueKeys: map<string, string>)
  {
    && (forall id <- present :: present[id] <==> id in jobs)
    && (forall id :: id !in present ==> Lookup(jobs, id) == Lookup(jobs0, id))
    && (forall id <- queueKeys :: id in jobs && id in present)
  }

  /** The queue keys in the table are those of the stored payloads. */
  predicate Named(ks: Keys, jobs: map<string, string>, queueKeys: map<string, string>) {
    forall id <- queueKeys :: id in jobs ==> queueKeys[id] == ks.Queue(StoredQueue(jobs[id]))
  }

  function EntryIds(entries: seq<Entry>): seq<string> { seq(|entries|, i requires 0 <= i < |entries| => entries[i].id) }

  /** A known id has its queue in the table, unless it is known to be absent. */
  predicate Tracked(present: map<string, bool>, queueKeys: map<string, string>, id: string) {
    id in present && (present[id] ==> id in queueKeys)
  }

  method PlanInput(ks: Keys, ghost jobs0: map<string, string>, ghost jobs: map<string, string>, db: Keyspace,
                   present: map<string, bool>, queueKeys: map<string, string>, e: Envelope)
    returns (write: Option<Write>, outcome: Outcome, present': map<string, bool>, queueKeys': map<string, string>)
    requires jobs0 == Fields(db, ks.Jobs()) && Tables(ks, jobs0, jobs, present, queueKeys) && Serialized(e)
    requires e.Conflict() == Replace ==> Tracked(present, queueKeys, e.id)
    ensures var (decided, verdict) := Decide(jobs, ks, e);
            && outcome == verdict && (write.Some? <==> decided.Some?) && (Named(ks, jobs, queueKeys) ==> write == decided)
    ensures Named(ks, jobs, queueKeys) ==> Named(ks, if write.Some? then jobs[e.id := e.payload] else jobs, queueKeys')
    ensures Tables(ks, jobs0, if write.Some? then jobs[e.id := e.payload] else jobs, present', queueKeys')
    ensures write.Some? ==> write.value.envelope == e
    ensures write.Some? && write.value.oldQueue.Some? ==>
              e.id in queueKeys && write.value.oldQueue.value == queueKeys[e.id]
    ensures forall id <- queueKeys' :: (id in queueKeys && queueKeys'[id] == queueKeys[id]) || queueKeys'[id] == ks.Queue(e.queue)
    ensures forall id :: Tracked(present, queueKeys, id) || (id == e.id && e.Conflict() == Default)
                         ==> Tracked(present', queueKeys', id)
  {
    hide StoredQueue, Fields, Snapshot.RootQueue, Keys.Queue, Keys.Jobs, Serialized;
    SerializedQueue(e);
    present', queueKeys' := present, queueKeys;
    if e.id !in present && e.Conflict() != Default {
      present' := present'[e.id := e.id in Fields(db, ks.Jobs())];
      assert Lookup(jobs, e.id) == Lookup(jobs0, e.id);
    }
    var exists' := e.id in present' && present'[e.id];
    if e.Conflict() == Skip && exists' {
      write, outcome := None, Skipped;
    } else {
      var replacing := e.Conflict() == Replace && exists';
      var oldQueue := if replacing then Some(queueKeys'[e.id]) else None;
      write, outcome := Some(Write(e, oldQueue)), if replacing then Replaced else Enqueued;
      present', queueKeys' := present'[e.id := true], queueKeys'[e.id := ks.Queue(e.queue)];
    }
  }

  // ----- the type check ---------------------------------------------------------

  /** Every key the request names has the type it is used with. */
  predicate Compatible(db: Keyspace, ks: Keys, entries: seq<Entry>, inputs: seq<Envelope>) {
    && Fits(db, ks.Jobs(), HashKind) && Fits(db, ks.Schedule(), ZSetKind) && Fits(db, ks.Retry(), ZSetKind)
    && (forall entry <- entries :: entry.snapshot.Some? ==> QueueCompatible(db, ks, entry.queueKey))
    && (forall e <- inputs :: QueueCompatible(db, ks, ks.Queue(e.queue)))
  }

  predicate QueueCompatible(db: Keyspace, ks: Keys, key: string) {
    key != ks.Jobs() && key != ks.Schedule() && key != ks.Retry() && Fits(db, key, ListKind)
  }

  predicate WriteCompatible(db: Keyspace, ks: Keys, w: Write) {
    && Fits(db, ks.Schedule(), ZSetKind) && Fits(db, ks.Retry(), ZSetKind)
    && QueueCompatible(db, ks, ks.Queue(w.envelope.queue))
    && (w.oldQueue.Some? ==> QueueCompatible(db, ks, w.oldQueue.value))
  }

  /** A key keeps the type it is first checked with. */
  predicate Consistent(ks: Keys, types: map<string, Kind>) { forall key <- types :: types[key] == UsedAs(ks, key) }

  function UsedAs(ks: Keys, key: string): Kind {
    if key == ks.Jobs() then HashKind else if key == ks.Schedule() || key == ks.Retry() then ZSetKind else ListKind
  }

  predicate Extends(types: map<string, Kind>, types': map<string, Kind>) {
    forall key <- types :: Typed(types', key, types[key])
  }

  /** The type of a key is read once, and stays the type it was first expected to have. */
  method RequireType(db: Keyspace, ks: Keys, types: map<string, Kind>, key: string, kind: Kind)
    returns (types': map<string, Kind>, ok: bool)
    requires AllFit(db, types)
    ensures ok ==> AllFit(db, types') && Typed(types', key, kind) && Extends(types, types')
    ensures kind == UsedAs(ks, key) && Fits(db, key, kind) && Consistent(ks, types) ==> ok && Consistent(ks, types')
  {
    if key in types { return types, types[key] == kind; }
    return types[key := kind], Fits(db, key, kind);
  }

  lemma FitsAfter(db: Keyspace, types: map<string, Kind>, key: string, v: Value)
    requires AllFit(db, types) && Typed(types, key, KindOf(v))
    ensures AllFit(Store(db, key, v), types)
  {
    forall other | other in types ensures Fits(Store(db, key, v), other, types[other]) {
      if other != key { Elsewhere(db, key, v, other); }
    }
  }

  /** The keys a write needs are checked, in this order, before anything is written. */
  method CheckWrite(db: Keyspace, ks: Keys, dest: Destination, w: Write, types: map<string, Kind>)
    returns (ok: bool, types': map<string, Kind>)
    requires AllFit(db, types) && Typed(types, ks.Jobs(), HashKind)
    ensures ok ==> AllFit(db, types') && WriteTyped(types', ks, dest, w)
    ensures ok ==> Extends(types, types')
    ensures WriteCompatible(db, ks, w) && Consistent(ks, types) ==> ok && Consistent(ks, types')
  {
    hide Keys.Queue, Keys.Jobs, Keys.Schedule, Keys.Retry, Fits;
    KeysDiffer(ks);
    types' := types;
    if dest == ToSchedule {
      types', ok := RequireType(db, ks, types', ks.Schedule(), ZSetKind);
      if !ok { return; }
    } else {
      types', ok := RequireType(db, ks, types', ks.Queue(w.envelope.queue), ListKind);
      if !ok { return; }
    }
    if w.oldQueue.Some? {
      types', ok := RequireType(db, ks, types', ks.Schedule(), ZSetKind);
      if !ok { return; }
      types', ok := RequireType(db, ks, types', ks.Retry(), ZSetKind);
      if !ok { return; }
      types', ok := RequireType(db, ks, types', w.oldQueue.value, ListKind);
      if !ok { return; }
      types', ok := RequireType(db, ks, types', ks.Queue(w.envelope.queue), ListKind);
    }
  }

  lemma LRemTwice(db: Keyspace, key: string, item: string)
    ensures LRem(LRem(db, key, item), key, item) == LRem(db, key, item)
  {
    WithoutTwice(Items(db, key), item);
  }

  /** Every command of a checked write meets a key of its type. */
  method RunWrite(server: Server, ks: Keys, dest: Destination, w: Write, ghost types: map<string, Kind>)
    requires AllFit(server.db, types) && WriteTyped(types, ks, dest, w)
    modifies server`db
    ensures server.db == Perform(old(server.db), ks, dest, w) && AllFit(server.db, types)
    ensures Relocated(old(server.db), server.db, ks, dest, w.envelope, w.oldQueue)
  {
    hide Store, Keys.Queue, Without, Fits, Relocated;
    WriteRelocates(server.db, ks, dest, w) by { assert Ready(server.db, ks, dest, w); }
    var id, queue := w.envelope.id, ks.Queue(w.envelope.queue);
    if w.oldQueue.Some? {
      FitsAfter(server.db, types, ks.Schedule(), ZSet(Scores(server.db, ks.Schedule()) - {id}));
      server.RunZRem(ks.Schedule(), id);
      FitsAfter(server.db, types, ks.Retry(), ZSet(Scores(server.db, ks.Retry()) - {id}));
      server.RunZRem(ks.Retry(), id);
      FitsAfter(server.db, types, w.oldQueue.value, List(Without(Items(server.db, w.oldQueue.value), id)));
      LRemTwice(server.db, queue, id);
      server.RunLRem(w.oldQueue.value, id);
      if w.oldQueue.value != queue {
        FitsAfter(server.db, types, queue, List(Without(Items(server.db, queue), id)));
        server.RunLRem(queue, id);
      }
    }
    FitsAfter(server.db, types, ks.Jobs(), Hash(Fields(server.db, ks.Jobs())[id := w.envelope.payload]));
    server.RunHSet(ks.Jobs(), id, w.envelope.payload);
    if dest == ToSchedule {
      FitsAfter(server.db, types, ks.Schedule(), ZSet(Scores(server.db, ks.Schedule())[id := w.envelope.scheduledAt]));
      server.RunZAdd(ks.Schedule(), w.envelope.scheduledAt, id);
    } else {
      FitsAfter(server.db, types, queue, List([id] + Items(server.db, queue)));
      server.RunLPush(queue, id);
    }
  }

  lemma TypedSparesJobs(types: map<string, Kind>, ks: Keys, dest: Destination, w: Write)
    requires WriteTyped(types, ks, dest, w) && ks.Schedule() != ks.Jobs() && ks.Retry() != ks.Jobs()
    ensures SparesJobs(ks, dest, w)
  {}

  lemma TablesWith(ks: Keys, jobs: map<string, string>, present: map<string, bool>, queueKeys: map<string, string>,
                   id: string, key: string)
    requires Tables(ks, jobs, jobs, present, queueKeys)
    ensures var present' := present[id := id in jobs];
            var queueKeys' := if id in jobs then queueKeys[id := key] else queueKeys;
            && Tables(ks, jobs, jobs, present', queueKeys') && Tracked(present', queueKeys', id)
            && (Named(ks, jobs, queueKeys) && (id in jobs ==> key == ks.Queue(StoredQueue(jobs[id]))) ==> Named(ks, jobs, queueKeys'))
            && forall other :: Tracked(present, queueKeys, other) ==> Tracked(present', queueKeys', other)
  {
    hide StoredQueue, Keys.Queue;
  }

  /** The first loop: which snapshots are stale, and what the others say. */
  method CompareSnapshots(ks: Keys, db: Keyspace, entries: seq<Entry>, ghost inputs: seq<Envelope>)
    returns (changed: seq<(string, Option<string>)>, present: map<string, bool>, queueKeys: map<string, string>)
    requires forall entry <- entries :: Taken(ks, entry)
    ensures forall entry <- entries :: Fresh(Fields(db, ks.Jobs()), entry) || (entry.id, Lookup(Fields(db, ks.Jobs()), entry.id)) in changed
    ensures forall c <- changed :: StaleIn(Fields(db, ks.Jobs()), entries, c)
    ensures changed == [] ==>
              && Tables(ks, Fields(db, ks.Jobs()), Fields(db, ks.Jobs()), present, queueKeys)
              && forall entry <- entries :: Tracked(present, queueKeys, entry.id)
    ensures changed == [] && Readable(Fields(db, ks.Jobs()), EntryIds(entries)) ==> Named(ks, Fields(db, ks.Jobs()), queueKeys)
    ensures Compatible(db, ks, entries, inputs) ==> forall id <- queueKeys :: QueueCompatible(db, ks, queueKeys[id])
  {
    hide Fields, QueueCompatible, StoredQueue, Snapshot.RootQueue, Keys.Queue, Snapshot.Matches, Snapshot.Parse;
    hide Tables, Taken, Fresh, Named;
    var jobs := Fields(db, ks.Jobs());
    changed, present, queueKeys := [], map[], map[];
    ghost var ids := EntryIds(entries);
    assert Tables(ks, jobs, jobs, present, queueKeys) && Named(ks, jobs, queueKeys) by { NoTables(ks, jobs); }
    for i := 0 to |entries|
      invariant forall k :: 0 <= k < i ==> Fresh(jobs, entries[k]) || (entries[k].id, Lookup(jobs, entries[k].id)) in changed
      invariant forall c <- changed :: StaleIn(jobs, entries, c)
      invariant Compatible(db, ks, entries, inputs) ==> forall id <- queueKeys :: QueueCompatible(db, ks, queueKeys[id])
      invariant changed == [] ==> Tables(ks, jobs, jobs, present, queueKeys)
      invariant changed == [] ==> forall k :: 0 <= k < i ==> Tracked(present, queueKeys, entries[k].id)
      invariant changed == [] && Readable(jobs, ids) ==> Named(ks, jobs, queueKeys)
    {
      var entry := entries[i];
      if !Fresh(jobs, entry) {
        var c := (entry.id, Lookup(jobs, entry.id));
        assert StaleIn(jobs, entries, c);
        changed := changed + [c];
      } else if changed == [] {
        assert entry.snapshot.Some? <==> entry.id in jobs by { FreshPresence(jobs, entry); }
        assert ids[i] == entry.id;
        if entry.snapshot.Some? && Readable(jobs, ids) { EntryQueue(ks, jobs, entry); }
        TablesWith(ks, jobs, present, queueKeys, entry.id, entry.queueKey);
      }
      present := present[entry.id := entry.id in jobs];
      if entry.snapshot.Some? { queueKeys := queueKeys[entry.id := entry.queueKey]; }
    }
  }

  /** An id reported with its current payload, which differs from the snapshot. */
  predicate StaleIn(jobs: map<string, string>, entries: seq<Entry>, c: (string, Option<string>)) {
    c.1 == Lookup(jobs, c.0) && exists entry <- entries :: entry.id == c.0 && !Fresh(jobs, entry)
  }

  lemma FreshPresence(jobs: map<string, string>, entry: Entry)
    requires Fresh(jobs, entry)
    ensures entry.snapshot.Some? <==> entry.id in jobs
  {}

  lemma NoTables(ks: Keys, jobs: map<string, string>)
    ensures Tables(ks, jobs, jobs, map[], map[]) && Named(ks, jobs, map[])
  {}

  lemma CompatibleQueues(db: Keyspace, ks: Keys, entries: seq<Entry>, inputs: seq<Envelope>)
    requires Compatible(db, ks, entries, inputs)
    ensures Fits(db, ks.Schedule(), ZSetKind) && Fits(db, ks.Retry(), ZSetKind)
    ensures forall e <- inputs :: QueueCompatible(db, ks, ks.Queue(e.queue))
  {}

  lemma KnownAtFirst(entries: seq<Entry>, inputs: seq<Envelope>, id: string)
    requires Known(entries, inputs, 0, id)
    ensures exists entry <- entries :: entry.id == id
  {}

  lemma KnownBefore(entries: seq<Entry>, inputs: seq<Envelope>, i: nat, id: string)
    requires i < |inputs| && Known(entries, inputs, i + 1, id)
    ensures Known(entries, inputs, i, id) || (inputs[i].id == id && inputs[i].Conflict() == Default)
  {}

  lemma PlanSnoc(jobs: map<string, string>, ks: Keys, inputs: seq<Envelope>, i: nat)
    requires i < |inputs|
    ensures var before, after := PlanAll(jobs, ks, inputs[..i]), PlanAll(jobs, ks, inputs[..i + 1]);
            var (write, outcome) := Decide(before.jobs, ks, inputs[i]);
            && after.outcomes == before.outcomes + [outcome]
            && after.writes == (if write.Some? then before.writes + [write.value] else before.writes)
            && after.jobs == if write.Some? then before.jobs[inputs[i].id := inputs[i].payload] else before.jobs
  {
    hide PlanAll, Decide;
    assert inputs[..i + 1][..i] == inputs[..i];
    PlanLast(jobs, ks, inputs[..i + 1]);
  }

  lemma NothingPlanned(jobs: map<string, string>, ks: Keys)
    ensures PlanAll(jobs, ks, []) == Plan([], [], jobs)
  {}

  method PlanWrites(ks: Keys, db: Keyspace, entries: seq<Entry>, inputs: seq<Envelope>,
                    present: map<string, bool>, queueKeys: map<string, string>)
    returns (writes: seq<Write>, outcomes: seq<Outcome>)
    requires Covered(entries, inputs) && forall e <- inputs :: Serialized(e)
    requires Tables(ks, Fields(db, ks.Jobs()), Fields(db, ks.Jobs()), present, queueKeys)
    requires forall entry <- entries :: Tracked(present, queueKeys, entry.id)
    ensures var plan := PlanAll(Fields(db, ks.Jobs()), ks, inputs);
            plan.outcomes == outcomes && (Named(ks, Fields(db, ks.Jobs()), queueKeys) ==> plan.writes == writes)
    ensures Compatible(db, ks, entries, inputs) && (forall id <- queueKeys :: QueueCompatible(db, ks, queueKeys[id])) ==>
              forall w <- writes :: WriteCompatible(db, ks, w)
  {
    hide StoredQueue, Snapshot.RootQueue, Keys.Queue, Fields, Tables, Decide, QueueCompatible, Known, Tracked, Compatible, Fits, Named;
    hide PlanAll, Serialized, Keys.Schedule, Keys.Retry, Keys.Jobs;
    forall id | Known(entries, inputs, 0, id) ensures Tracked(present, queueKeys, id) { KnownAtFirst(entries, inputs, id); }
    if Compatible(db, ks, entries, inputs) { CompatibleQueues(db, ks, entries, inputs); }
    ghost var compatible := Compatible(db, ks, entries, inputs) && forall id <- queueKeys :: QueueCompatible(db, ks, queueKeys[id]);
    ghost var jobs := Fields(db, ks.Jobs());
    ghost var named := Named(ks, jobs, queueKeys);
    var p, q := present, queueKeys;
    writes, outcomes := [], [];
    NothingPlanned(jobs, ks);
    for i := 0 to |inputs|
      invariant var plan := PlanAll(jobs, ks, inputs[..i]);
                && plan.outcomes == outcomes && Tables(ks, jobs, plan.jobs, p, q)
                && (named ==> plan.writes == writes && Named(ks, plan.jobs, q))
      invariant compatible ==> forall id <- q :: QueueCompatible(db, ks, q[id])
      invariant compatible ==> forall w <- writes :: WriteCompatible(db, ks, w)
      invariant forall id :: Known(entries, inputs, i, id) ==> Tracked(p, q, id)
    {
      ghost var before := PlanAll(jobs, ks, inputs[..i]).jobs;
      PlanSnoc(jobs, ks, inputs, i);
      forall id | Known(entries, inputs, i + 1, id)
        ensures Known(entries, inputs, i, id) || (inputs[i].id == id && inputs[i].Conflict() == Default)
      { KnownBefore(entries, inputs, i, id); }
      var write, outcome;
      write, outcome, p, q := PlanInput(ks, jobs, before, db, p, q, inputs[i]);
      if write.Some? { writes := writes + [write.value]; }
      outcomes := outcomes + [outcome];
    }
    assert inputs[..|inputs|] == inputs;
  }

  /** The keys of all writes are checked before the first of them. */
  method CheckAll(db: Keyspace, ks: Keys, dest: Destination, writes: seq<Write>, checked: map<string, Kind>)
    returns (ok: bool, types: map<string, Kind>)
    requires AllFit(db, checked) && Typed(checked, ks.Jobs(), HashKind)
    ensures ok ==> AllFit(db, types) && forall w <- writes :: WriteTyped(types, ks, dest, w)
    ensures (forall w <- writes :: WriteCompatible(db, ks, w)) && Consistent(ks, checked) ==> ok
  {
    hide WriteTyped, WriteCompatible, Consistent, AllFit, Keys.Jobs;
    ok, types := true, checked;
    for i := 0 to |writes|
      invariant ok && AllFit(db, types) && Typed(types, ks.Jobs(), HashKind)
      invariant forall k :: 0 <= k < i ==> WriteTyped(types, ks, dest, writes[k])
      invariant (forall w <- writes :: WriteCompatible(db, ks, w)) && Consistent(ks, checked) ==> Consistent(ks, types)
    {
      ghost var before := types;
      ok, types := CheckWrite(db, ks, dest, writes[i], types);
      if !ok { return; }
      forall k | 0 <= k < i ensures WriteTyped(types, ks, dest, writes[k]) { StaysTyped(before, types, ks, dest, writes[k]); }
    }
  }

  method RunAll(server: Server, ks: Keys, dest: Destination, writes: seq<Write>, ghost types: map<string, Kind>)
    requires AllFit(server.db, types) && forall w <- writes :: WriteTyped(types, ks, dest, w)
    modifies server`db
    ensures server.db == PerformAll(old(server.db), ks, dest, writes)
  {
    hide WriteTyped, AllFit, Perform;
    for i := 0 to |writes|
      invariant AllFit(server.db, types) && server.db == PerformAll(old(server.db), ks, dest, writes[..i])
    {
      assert writes[..i + 1][..i] == writes[..i];
      RunWrite(server, ks, dest, writes[i], types);
    }
    assert writes[..|writes|] == writes;
  }

  /** A write leaves every key the type it was checked with. */
  lemma PerformFits(db: Keyspace, ks: Keys, dest: Destination, w: Write, types: map<string, Kind>)
    requires AllFit(db, types) && WriteTyped(types, ks, dest, w)
    ensures AllFit(Perform(db, ks, dest, w), types)
  {
    hide Store, Keys.Queue, Without, Fits, Keys.Jobs, Keys.Schedule, Keys.Retry;
    var id, queue := w.envelope.id, ks.Queue(w.envelope.queue);
    var d := db;
    if w.oldQueue.Some? {
      FitsAfter(d, types, ks.Schedule(), ZSet(Scores(d, ks.Schedule()) - {id}));
      d := ZRem(d, ks.Schedule(), id);
      FitsAfter(d, types, ks.Retry(), ZSet(Scores(d, ks.Retry()) - {id}));
      d := ZRem(d, ks.Retry(), id);
      FitsAfter(d, types, w.oldQueue.value, List(Without(Items(d, w.oldQueue.value), id)));
      d := LRem(d, w.oldQueue.value, id);
      FitsAfter(d, types, queue, List(Without(Items(d, queue), id)));
      d := LRem(d, queue, id);
    }
    FitsAfter(d, types, ks.Jobs(), Hash(Fields(d, ks.Jobs())[id := w.envelope.payload]));
    d := HSet(d, ks.Jobs(), id, w.envelope.payload);
    if dest == ToSchedule {
      FitsAfter(d, types, ks.Schedule(), ZSet(Scores(d, ks.Schedule())[id := w.envelope.scheduledAt]));
    } else {
      FitsAfter(d, types, queue, List([id] + Items(d, queue)));
    }
  }

  lemma {:induction false} AllPerformedFit(db: Keyspace, ks: Keys, dest: Destination, writes: seq<Write>, types: map<string, Kind>)
    requires AllFit(db, types) && forall w <- writes :: WriteTyped(types, ks, dest, w)
    ensures AllFit(PerformAll(db, ks, dest, writes), types)
  {
    hide Perform, WriteTyped, AllFit;
    if writes != [] {
      var n := |writes| - 1;
      assert writes[n] in writes && forall w <- writes[..n] :: w in writes;
      AllPerformedFit(db, ks, dest, writes[..n], types);
      PerformFits(PerformAll(db, ks, dest, writes[..n]), ks, dest, writes[n], types);
    }
  }

  /** The types that all planned writes were checked with are there when each gets its turn. */
  lemma {:induction false} CheckedReady(db: Keyspace, ks: Keys, dest: Destination, inputs: seq<Envelope>, types: map<string, Kind>)
    requires AllFit(db, types) && forall w <- PlanAll(Fields(db, ks.Jobs()), ks, inputs).writes :: WriteTyped(types, ks, dest, w)
    ensures AllReady(db, ks, dest, inputs)
  {
    hide PlanAll, ApplyAll, WriteTyped, AllFit, Fields, Decide, Keys.Jobs, SparesJobs;
    if inputs != [] {
      var jobs, init := Fields(db, ks.Jobs()), inputs[..|inputs| - 1];
      PlanLast(jobs, ks, inputs);
      var plan := PlanAll(jobs, ks, init);
      CheckedReady(db, ks, dest, init, types);
      forall w | w in plan.writes ensures SparesJobs(ks, dest, w) { KeysDiffer(ks); TypedSparesJobs(types, ks, dest, w); }
      PlanThenPerform(db, ks, dest, init);
      AllPerformedFit(db, ks, dest, plan.writes, types);
      var write := Decide(plan.jobs, ks, inputs[|inputs| - 1]).0;
      if write.Some? { assert write.value in PlanAll(jobs, ks, inputs).writes; }
    }
  }

  /** The whole script. Unless it commits, it has written nothing; when it commits, the
      verdicts are those of handling its inputs one at a time, and so is the store, as long as the
      replaced payloads name their queues. */
  method Run(server: Server, ks: Keys, dest: Destination, entries: seq<Entry>, inputs: seq<Envelope>)
    returns (reply: Reply)
    requires Covered(entries, inputs) && forall entry <- entries :: Taken(ks, entry)
    requires forall e <- inputs :: Serialized(e)
    modifies server`db
    ensures !reply.Committed? ==> server.db == old(server.db)
    ensures reply.Committed? ==>
              && reply.outcomes == PlanAll(Fields(old(server.db), ks.Jobs()), ks, inputs).outcomes
              && forall entry <- entries :: Fresh(Fields(old(server.db), ks.Jobs()), entry)
    ensures reply.Committed? && Readable(Fields(old(server.db), ks.Jobs()), EntryIds(entries)) ==>
              && (server.db, reply.outcomes) == ApplyAll(old(server.db), ks, dest, inputs)
              && AllReady(old(server.db), ks, dest, inputs)
              && forall w <- PlanAll(Fields(old(server.db), ks.Jobs()), ks, inputs).writes :: SparesJobs(ks, dest, w)
    ensures reply.Changed? ==>
              && reply.changed != []
              && (forall c <- reply.changed :: StaleIn(Fields(old(server.db), ks.Jobs()), entries, c))
              && (forall entry <- entries :: Fresh(Fields(old(server.db), ks.Jobs()), entry)
                    || (entry.id, Lookup(Fields(old(server.db), ks.Jobs()), entry.id)) in reply.changed)
    ensures reply.WrongType? ==> !Compatible(old(server.db), ks, entries, inputs)
  {
    hide StoredQueue, Snapshot.RootQueue, Keys.Queue, Fields, Keys.Jobs, Keys.Schedule, Keys.Retry;
    hide Tables, Tracked, Perform, Decide, Fresh, Taken, Fits, Named, Readable;
    KeysDiffer(ks);
    ghost var db0 := server.db;
    if !Fits(server.db, ks.Jobs(), HashKind) { return WrongType; }
    var types := map[ks.Jobs() := HashKind];
    assert AllFit(server.db, types) && Consistent(ks, types);
    var changed, present, queueKeys := CompareSnapshots(ks, server.db, entries, inputs);
    if changed != [] { return Changed(changed); }
    var writes, outcomes := PlanWrites(ks, server.db, entries, inputs, present, queueKeys);
    var ok;
    ok, types := CheckAll(server.db, ks, dest, writes, types);
    if !ok { return WrongType; }
    forall w | w in writes ensures SparesJobs(ks, dest, w) { TypedSparesJobs(types, ks, dest, w); }
    if Readable(Fields(db0, ks.Jobs()), EntryIds(entries)) {
      PlanThenPerform(db0, ks, dest, inputs);
      CheckedReady(db0, ks, dest, inputs, types);
    }
    RunAll(server, ks, dest, writes, types);
    return Committed(outcomes);
  }

  lemma StaysTyped(types: map<string, Kind>, types': map<string, Kind>, ks: Keys, dest: Destination, w: Write)
    requires WriteTyped(types, ks, dest, w) && Extends(types, types')
    ensures WriteTyped(types', ks, dest, w)
  {}
}
