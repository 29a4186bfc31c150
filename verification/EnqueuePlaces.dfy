/** Where jobs are after an enqueue: said over the lists and scores that Redis holds, for the id that
    is written and for all others. */
module EnqueuePlaces {
  import opened Redis
  import opened Options
  import opened EnqueueSpec
  import Snapshot

  /** The queue that a job leaves when this envelope replaces it. */
  function OldQueue(jobs: map<string, string>, ks: Keys, e: Envelope): Option<string> {
    if e.Conflict() == Replace && e.id in jobs then Some(ks.Queue(StoredQueue(jobs[e.id]))) else None
  }

  /** What every other id keeps: its places, their order and its scores. */
  ghost predicate OthersStay(db: Keyspace, db': Keyspace, id: string) {
    && (forall key :: Without(Items(db', key), id) == Without(Items(db, key), id))
    && forall key, x :: x != id ==>
         (x in Scores(db', key) <==> x in Scores(db, key)) && (x in Scores(db, key) ==> Scores(db', key)[x] == Scores(db, key)[x])
  }

  /** The job of `e` has left the retries and the queue `left`, has got its payload, and is once in
      its new place: at the front of its queue, or in the schedule with its score. */
  ghost predicate Relocated(db: Keyspace, db': Keyspace, ks: Keys, dest: Destination, e: Envelope, left: Option<string>) {
    var id, queue := e.id, ks.Queue(e.queue);
    && Fields(db', ks.Jobs()) == Fields(db, ks.Jobs())[id := e.payload]
    && (dest == ToQueue ==>
          Items(db', queue) == [id] + if left.Some? then Without(Items(db, queue), id) else Items(db, queue))
    && (dest == ToSchedule ==> id in Scores(db', ks.Schedule()) && Scores(db', ks.Schedule())[id] == e.scheduledAt)
    && (left.Some? ==>
          && id !in Scores(db', ks.Retry()) && (dest == ToQueue ==> id !in Scores(db', ks.Schedule()))
          && (dest == ToSchedule || left.value != queue ==> id !in Items(db', left.value))
          && (dest == ToSchedule ==> id !in Items(db', queue)))
    && (forall key :: key != queue && left != Some(key) ==> Items(db', key) == Items(db, key))
    && (dest == ToSchedule && left.None? ==> Items(db', queue) == Items(db, queue))
    && (forall key :: key != ks.Schedule() && key != ks.Retry() ==> Scores(db', key) == Scores(db, key))
    && (left.None? ==> Scores(db', ks.Retry()) == Scores(db, ks.Retry()))
    && (left.None? && dest == ToQueue ==> Scores(db', ks.Schedule()) == Scores(db, ks.Schedule()))
    && OthersStay(db, db', id)
  }

  /** A name and the key made of it lead to the same list; other names lead to other lists, and none
      of these is a key of the job table, the schedule or the retries. */
  lemma QueueKeys(ks: Keys, a: string, b: string)
    requires !(ks.namespace <= a) && !(ks.namespace <= b)
    ensures ks.Queue(ks.Queue(a)) == ks.Queue(a) && (ks.Queue(a) == ks.Queue(b) <==> a == b)
    ensures ks.Queue(a) != ks.Jobs() && ks.Queue(a) != ks.Schedule() && ks.Queue(a) != ks.Retry()
  {
    var n, key := |ks.namespace|, ks.Queue(a);
    assert key[n + 1] == 'q' && key[n + 7..] == a && ks.Queue(b)[n + 7..] == b;
    assert ks.Jobs()[n + 1] == 'j' && ks.Schedule()[n + 1] == 's' && ks.Retry()[n + 1] == 'r';
  }

  // ----- the keys of a write have their types -----------------------------------

  predicate Typed(types: map<string, Kind>, key: string, kind: Kind) { key in types && types[key] == kind }

  predicate WriteTyped(types: map<string, Kind>, ks: Keys, dest: Destination, w: Write) {
    && Typed(types, ks.Jobs(), HashKind)
    && (dest == ToSchedule ==> Typed(types, ks.Schedule(), ZSetKind))
    && (dest == ToQueue ==> Typed(types, ks.Queue(w.envelope.queue), ListKind))
    && (w.oldQueue.Some? ==>
          && Typed(types, ks.Schedule(), ZSetKind) && Typed(types, ks.Retry(), ZSetKind)
          && Typed(types, w.oldQueue.value, ListKind) && Typed(types, ks.Queue(w.envelope.queue), ListKind))
  }

  predicate AllFit(db: Keyspace, types: map<string, Kind>) { forall key <- types :: Fits(db, key, types[key]) }

  /** Every key that a write touches has the type that it is used with. */
  ghost predicate Ready(db: Keyspace, ks: Keys, dest: Destination, w: Write) {
    exists types :: AllFit(db, types) && WriteTyped(types, ks, dest, w)
  }

  // ----- commands ---------------------------------------------------------------

  lemma ZRemDoes(db: Keyspace, k: string, id: string)
    requires Fits(db, k, ZSetKind)
    ensures var db' := ZRem(db, k, id);
            && (forall key :: Items(db', key) == Items(db, key) && Fields(db', key) == Fields(db, key))
            && (forall key :: Scores(db', key) == if key == k then Scores(db, k) - {id} else Scores(db, key))
            && (forall key, kind :: Fits(db, key, kind) ==> Fits(db', key, kind))
  {}

  lemma ZAddDoes(db: Keyspace, k: string, score: int, id: string)
    requires Fits(db, k, ZSetKind)
    ensures var db' := ZAdd(db, k, score, id);
            && (forall key :: Items(db', key) == Items(db, key) && Fields(db', key) == Fields(db, key))
            && (forall key :: Scores(db', key) == if key == k then Scores(db, k)[id := score] else Scores(db, key))
  {
    assert id in Scores(db, k)[id := score];
  }

  lemma LRemDoes(db: Keyspace, k: string, id: string)
    requires Fits(db, k, ListKind)
    ensures var db' := LRem(db, k, id);
            && (forall key :: Scores(db', key) == Scores(db, key) && Fields(db', key) == Fields(db, key))
            && (forall key :: Items(db', key) == if key == k then Without(Items(db, k), id) else Items(db, key))
            && (forall key, kind :: Fits(db, key, kind) ==> Fits(db', key, kind))
  {}

  lemma LPushDoes(db: Keyspace, k: string, id: string)
    requires Fits(db, k, ListKind)
    ensures var db' := LPush(db, k, id);
            && (forall key :: Scores(db', key) == Scores(db, key) && Fields(db', key) == Fields(db, key))
            && (forall key :: Items(db', key) == if key == k then [id] + Items(db, k) else Items(db, key))
  {}

  lemma HSetDoes(db: Keyspace, k: string, id: string, payload: string)
    requires Fits(db, k, HashKind)
    ensures var db' := HSet(db, k, id, payload);
            && (forall key :: Scores(db', key) == Scores(db, key) && Items(db', key) == Items(db, key))
            && (forall key :: Fields(db', key) == if key == k then Fields(db, k)[id := payload] else Fields(db, key))
            && (forall key, kind :: key != k && Fits(db, key, kind) ==> Fits(db', key, kind))
  {
    assert id in Fields(db, k)[id := payload];
  }

  /** What is left of a list without an id: the rest, in its order. */
  lemma {:induction false} WithoutAppend(a: seq<string>, b: seq<string>, id: string)
    ensures Without(a + b, id) == Without(a, id) + Without(b, id)
    ensures forall x :: Without([x], id) == if x == id then [] else [x]
  {
    if a == [] {
      assert a + b == b;
    } else {
      assert (a + b)[0] == a[0] && (a + b)[1..] == a[1..] + b;
      WithoutAppend(a[1..], b, id);
    }
  }

  lemma WithoutTwice(items: seq<string>, id: string)
    ensures Without(Without(items, id), id) == Without(items, id)
  {}

  lemma PushedWithout(items: seq<string>, id: string)
    ensures Without([id] + items, id) == Without(items, id)
  {
    WithoutAppend([id], items, id);
  }

  lemma DistinctKeys(db: Keyspace, ks: Keys, dest: Destination, w: Write)
    requires Ready(db, ks, dest, w)
    ensures Fits(db, ks.Jobs(), HashKind)
    ensures dest == ToSchedule ==> Fits(db, ks.Schedule(), ZSetKind)
    ensures dest == ToQueue ==> Fits(db, ks.Queue(w.envelope.queue), ListKind) && ks.Queue(w.envelope.queue) != ks.Jobs()
    ensures w.oldQueue.Some? ==>
              && Fits(db, ks.Schedule(), ZSetKind) && Fits(db, ks.Retry(), ZSetKind)
              && Fits(db, w.oldQueue.value, ListKind) && Fits(db, ks.Queue(w.envelope.queue), ListKind)
              && w.oldQueue.value !in {ks.Jobs(), ks.Schedule(), ks.Retry()}
              && ks.Queue(w.envelope.queue) !in {ks.Jobs(), ks.Schedule(), ks.Retry()}
  {
    hide Keys.Jobs, Keys.Schedule, Keys.Retry, Keys.Queue, Fits;
    var types :| AllFit(db, types) && WriteTyped(types, ks, dest, w);
  }

  lemma KeysDiffer(ks: Keys)
    ensures ks.Jobs() != ks.Schedule() && ks.Jobs() != ks.Retry() && ks.Schedule() != ks.Retry()
  {
    var n := |ks.namespace|;
    assert ks.Jobs()[n + 1] == 'j' && ks.Schedule()[n + 1] == 's' && ks.Retry()[n + 1] == 'r';
  }

  /** The four removals of a replacement. */
  function Cleaned(db: Keyspace, ks: Keys, id: string, left: string, queue: string): Keyspace {
    LRem(LRem(ZRem(ZRem(db, ks.Schedule(), id), ks.Retry(), id), left, id), queue, id)
  }

  lemma CleanedDoes(db: Keyspace, ks: Keys, id: string, left: string, queue: string)
    requires Fits(db, ks.Schedule(), ZSetKind) && Fits(db, ks.Retry(), ZSetKind)
    requires Fits(db, left, ListKind) && Fits(db, queue, ListKind)
    ensures var db' := Cleaned(db, ks, id, left, queue);
            && (forall key :: Fields(db', key) == Fields(db, key))
            && (forall key :: Items(db', key) == if key == left || key == queue then Without(Items(db, key), id) else Items(db, key))
            && (forall key :: Scores(db', key) ==
                  if key == ks.Schedule() || key == ks.Retry() then Scores(db, key) - {id} else Scores(db, key))
            && (forall key, kind :: Fits(db, key, kind) ==> Fits(db', key, kind))
  {
    hide ZRem, LRem, Fits, Items, Scores, Fields, Without, Keys.Schedule, Keys.Retry;
    var d1 := ZRem(db, ks.Schedule(), id);
    var d2 := ZRem(d1, ks.Retry(), id);
    var d3 := LRem(d2, left, id);
    ZRemDoes(db, ks.Schedule(), id);
    ZRemDoes(d1, ks.Retry(), id);
    LRemDoes(d2, left, id);
    LRemDoes(d3, queue, id);
    KeysDiffer(ks);
    WithoutTwice(Items(db, left), id);
  }

  lemma PerformCleaned(db: Keyspace, ks: Keys, dest: Destination, w: Write) returns (cleaned: Keyspace)
    requires Ready(db, ks, dest, w)
    ensures var id, queue := w.envelope.id, ks.Queue(w.envelope.queue);
            var stored := HSet(cleaned, ks.Jobs(), id, w.envelope.payload);
            && Perform(db, ks, dest, w) ==
                 (if dest == ToQueue then LPush(stored, queue, id) else ZAdd(stored, ks.Schedule(), w.envelope.scheduledAt, id))
            && (forall key :: Fields(cleaned, key) == Fields(db, key))
            && (forall key :: Items(cleaned, key) ==
                  if w.oldQueue == Some(key) || (w.oldQueue.Some? && key == queue) then Without(Items(db, key), id) else Items(db, key))
            && (forall key :: Scores(cleaned, key) ==
                  if w.oldQueue.Some? && (key == ks.Schedule() || key == ks.Retry()) then Scores(db, key) - {id} else Scores(db, key))
            && (forall key, kind :: Fits(db, key, kind) ==> Fits(cleaned, key, kind))
  {
    hide ZRem, LRem, LPush, ZAdd, HSet, Fits, Items, Scores, Fields, Without, Ready;
    hide Keys.Schedule, Keys.Retry, Keys.Jobs, Keys.Queue;
    DistinctKeys(db, ks, dest, w);
    cleaned := db;
    if w.oldQueue.Some? {
      cleaned := Cleaned(db, ks, w.envelope.id, w.oldQueue.value, ks.Queue(w.envelope.queue));
      CleanedDoes(db, ks, w.envelope.id, w.oldQueue.value, ks.Queue(w.envelope.queue));
    }
  }

  /** The lists, scores and fields that a write leaves, key by key. */
  lemma PerformDoes(db: Keyspace, ks: Keys, dest: Destination, w: Write) returns (cleaned: Keyspace)
    requires Ready(db, ks, dest, w)
    ensures var id, queue, db' := w.envelope.id, ks.Queue(w.envelope.queue), Perform(db, ks, dest, w);
            && (forall key :: Items(cleaned, key) ==
                  if w.oldQueue == Some(key) || (w.oldQueue.Some? && key == queue) then Without(Items(db, key), id) else Items(db, key))
            && (forall key :: Scores(cleaned, key) ==
                  if w.oldQueue.Some? && (key == ks.Schedule() || key == ks.Retry()) then Scores(db, key) - {id} else Scores(db, key))
            && Fields(db', ks.Jobs()) == Fields(db, ks.Jobs())[id := w.envelope.payload]
            && (forall key ::
                  Items(db', key) == if dest == ToQueue && key == queue then [id] + Items(cleaned, key) else Items(cleaned, key))
            && (forall key :: Scores(db', key) ==
                  if dest == ToSchedule && key == ks.Schedule() then Scores(cleaned, key)[id := w.envelope.scheduledAt]
                  else Scores(cleaned, key))
  {
    hide ZRem, LRem, LPush, ZAdd, HSet, Fits, Items, Scores, Fields, Without, Ready;
    hide Keys.Schedule, Keys.Retry, Keys.Jobs, Keys.Queue;
    cleaned := PerformCleaned(db, ks, dest, w);
    DistinctKeys(db, ks, dest, w);
    KeysDiffer(ks);
    HSetDoes(cleaned, ks.Jobs(), w.envelope.id, w.envelope.payload);
    var stored := HSet(cleaned, ks.Jobs(), w.envelope.id, w.envelope.payload);
    match dest {
      case ToQueue => LPushDoes(stored, ks.Queue(w.envelope.queue), w.envelope.id);
      case ToSchedule => ZAddDoes(stored, ks.Schedule(), w.envelope.scheduledAt, w.envelope.id);
    }
  }

  lemma OthersAfter(db: Keyspace, ks: Keys, dest: Destination, w: Write)
    requires Ready(db, ks, dest, w)
    ensures OthersStay(db, Perform(db, ks, dest, w), w.envelope.id)
  {
    hide ZRem, LRem, LPush, ZAdd, HSet, Fits, Items, Scores, Fields, Without, Ready;
    hide Keys.Schedule, Keys.Retry, Keys.Jobs, Keys.Queue, Perform;
    var id, db' := w.envelope.id, Perform(db, ks, dest, w);
    var cleaned := PerformDoes(db, ks, dest, w);
    forall key ensures Without(Items(db', key), id) == Without(Items(db, key), id) {
      WithoutTwice(Items(db, key), id);
      PushedWithout(Items(cleaned, key), id);
    }
  }

  /** What is said of a write holds after its commands. */
  lemma WriteRelocates(db: Keyspace, ks: Keys, dest: Destination, w: Write)
    requires Ready(db, ks, dest, w)
    ensures Relocated(db, Perform(db, ks, dest, w), ks, dest, w.envelope, w.oldQueue)
  {
    hide ZRem, LRem, LPush, ZAdd, HSet, Fits, Items, Scores, Fields, Without, Ready;
    hide Keys.Schedule, Keys.Retry, Keys.Jobs, Keys.Queue, Perform, OthersStay;
    DistinctKeys(db, ks, dest, w);
    KeysDiffer(ks);
    var cleaned := PerformDoes(db, ks, dest, w);
    OthersAfter(db, ks, dest, w);
  }

  // ----- requests ---------------------------------------------------------------

  /** Each write of a request finds the types it needs when its turn comes. */
  ghost predicate AllReady(db: Keyspace, ks: Keys, dest: Destination, es: seq<Envelope>) {
    es == [] ||
      var init, before := es[..|es| - 1], ApplyAll(db, ks, dest, es[..|es| - 1]).0;
      var write := Decide(Fields(before, ks.Jobs()), ks, es[|es| - 1]).0;
      AllReady(db, ks, dest, init) && (write.Some? ==> Ready(before, ks, dest, write.value))
  }

  /** One envelope: exactly a Skip whose id is stored is skipped, exactly a replacement whose id is
      stored replaces, and what is written is where it belongs. */
  lemma OneRelocates(db: Keyspace, ks: Keys, dest: Destination, e: Envelope)
    requires var write := Decide(Fields(db, ks.Jobs()), ks, e).0; write.Some? ==> Ready(db, ks, dest, write.value)
    ensures var (after, outcome), stored := ApplyOne(db, ks, dest, e), e.id in Fields(db, ks.Jobs());
            && (outcome == Skipped <==> e.Conflict() == Skip && stored) && (outcome == Replaced <==> e.Conflict() == Replace && stored)
            && (if outcome == Skipped then after == db
                else Relocated(db, after, ks, dest, e, OldQueue(Fields(db, ks.Jobs()), ks, e)))
  {
    hide Perform, Relocated, Ready, Fields, Keys.Jobs, Keys.Queue, StoredQueue;
    var write := Decide(Fields(db, ks.Jobs()), ks, e).0;
    if write.Some? { WriteRelocates(db, ks, dest, write.value); }
  }

  /** The job of `e` is in its new place, once, and in no other place that a replacement cleans. */
  ghost predicate InPlace(db: Keyspace, ks: Keys, dest: Destination, e: Envelope, left: string) {
    var id, queue := e.id, ks.Queue(e.queue);
    && id in Fields(db, ks.Jobs()) && id !in Scores(db, ks.Retry())
    && (dest == ToQueue ==> multiset(Items(db, queue))[id] == 1 && id !in Scores(db, ks.Schedule()))
    && (dest == ToSchedule ==> id !in Items(db, queue) && id in Scores(db, ks.Schedule()) && Scores(db, ks.Schedule())[id] == e.scheduledAt)
    && (dest == ToSchedule || left != queue ==> id !in Items(db, left))
  }

  lemma SameCount(db: Keyspace, db': Keyspace, id: string, key: string, x: string)
    requires OthersStay(db, db', id) && x != id
    ensures multiset(Items(db', key))[x] == multiset(Items(db, key))[x]
  {
    assert multiset(Without(Items(db', key), id))[x] == multiset(Without(Items(db, key), id))[x];
  }

  lemma RelocatedInPlace(db: Keyspace, db': Keyspace, ks: Keys, dest: Destination, e: Envelope, left: string)
    requires Relocated(db, db', ks, dest, e, Some(left))
    ensures InPlace(db', ks, dest, e, left)
  {
    hide Items, Scores, Fields, Keys.Jobs, Keys.Schedule, Keys.Retry, Keys.Queue, OthersStay;
    assert e.id in Fields(db, ks.Jobs())[e.id := e.payload];
  }

  lemma OtherInPlace(db: Keyspace, db': Keyspace, ks: Keys, dest: Destination, e: Envelope, left: string, other: Envelope,
                     gone: Option<string>)
    requires InPlace(db, ks, dest, e, left) && Relocated(db, db', ks, dest, other, gone) && other.id != e.id
    ensures InPlace(db', ks, dest, e, left)
  {
    hide Items, Scores, Fields, Keys.Jobs, Keys.Schedule, Keys.Retry, Keys.Queue;
    SameCount(db, db', other.id, ks.Queue(e.queue), e.id);
    SameCount(db, db', other.id, left, e.id);
  }

  lemma LastOf(db: Keyspace, ks: Keys, dest: Destination, es: seq<Envelope>)
    requires es != [] && AllReady(db, ks, dest, es)
    ensures var init, e := es[..|es| - 1], es[|es| - 1];
            var before := ApplyAll(db, ks, dest, init).0;
            && AllReady(db, ks, dest, init) && ApplyAll(db, ks, dest, es).0 == ApplyOne(before, ks, dest, e).0
            && var write := Decide(Fields(before, ks.Jobs()), ks, e).0; write.Some? ==> Ready(before, ks, dest, write.value)
  {
    hide ApplyOne, Ready, Decide, Fields;
  }

  /** A job that a request replaces is in its new place after the whole request, once, and neither
      in its old queue nor among the retries, if no later envelope writes it again. */
  lemma {:induction false} ReplacedOnce(db: Keyspace, ks: Keys, dest: Destination, es: seq<Envelope>, i: nat)
    requires AllReady(db, ks, dest, es) && i < |es|
    requires var jobs := Fields(ApplyAll(db, ks, dest, es[..i]).0, ks.Jobs()); es[i].Conflict() == Replace && es[i].id in jobs
    requires forall j :: i < j < |es| && es[j].id == es[i].id ==> es[j].Conflict() == Skip
    ensures var jobs := Fields(ApplyAll(db, ks, dest, es[..i]).0, ks.Jobs());
            InPlace(ApplyAll(db, ks, dest, es).0, ks, dest, es[i], ks.Queue(StoredQueue(jobs[es[i].id])))
  {
    hide ApplyAll, ApplyOne, AllReady, Decide, Ready, Relocated, InPlace, Fields, Keys.Jobs, Keys.Queue, StoredQueue;
    var n := |es| - 1;
    var before := ApplyAll(db, ks, dest, es[..n]).0;
    LastOf(db, ks, dest, es);
    OneRelocates(before, ks, dest, es[n]);
    var jobs := Fields(ApplyAll(db, ks, dest, es[..i]).0, ks.Jobs());
    var left := ks.Queue(StoredQueue(jobs[es[i].id]));
    if i == n {
      RelocatedInPlace(before, ApplyAll(db, ks, dest, es).0, ks, dest, es[n], left);
    } else {
      assert es[..n][..i] == es[..i];
      ReplacedOnce(db, ks, dest, es[..n], i);
      if es[n].id == es[i].id {
        StillStored(before, ks, dest, es[i], left);
      } else if ApplyOne(before, ks, dest, es[n]).1 != Skipped {
        OtherInPlace(before, ApplyAll(db, ks, dest, es).0, ks, dest, es[i], left, es[n],
                     OldQueue(Fields(before, ks.Jobs()), ks, es[n]));
      }
    }
  }

  lemma StillStored(db: Keyspace, ks: Keys, dest: Destination, e: Envelope, left: string)
    requires InPlace(db, ks, dest, e, left)
    ensures e.id in Fields(db, ks.Jobs())
  {}

  // ----- unique jobs are in one place -------------------------------------------

  /** How often an id waits: in its own queue, in the schedule and among the retries. */
  function Places(db: Keyspace, ks: Keys, home: string, id: string): nat {
    multiset(Items(db, home))[id] + (if id in Scores(db, ks.Schedule()) then 1 else 0)
    + if id in Scores(db, ks.Retry()) then 1 else 0
  }

  function Home(jobs: map<string, string>, ks: Keys, id: string): string
    requires id in jobs
  {
    ks.Queue(StoredQueue(jobs[id]))
  }

  /** A stored id waits in one place at most, and in no queue but its own; any other id nowhere. */
  ghost predicate OnePlace(db: Keyspace, ks: Keys, queues: set<string>, id: string) {
    var jobs := Fields(db, ks.Jobs());
    if id in jobs then
      && Places(db, ks, Home(jobs, ks, id), id) <= 1
      && forall key <- queues :: key != Home(jobs, ks, id) ==> id !in Items(db, key)
    else forall key <- queues :: id !in Items(db, key) && Places(db, ks, key, id) == 0
  }

  ghost predicate WaitsOnce(db: Keyspace, ks: Keys, id: string) {
    var jobs := Fields(db, ks.Jobs()); id in jobs && Places(db, ks, Home(jobs, ks, id), id) == 1
  }

  lemma WrittenOnce(db: Keyspace, db': Keyspace, ks: Keys, dest: Destination, e: Envelope, queues: set<string>)
    requires e.unique && Serialized(e) && ks.Queue(e.queue) in queues && OnePlace(db, ks, queues, e.id)
    requires e.Conflict() == Skip ==> e.id !in Fields(db, ks.Jobs())
    requires Relocated(db, db', ks, dest, e, OldQueue(Fields(db, ks.Jobs()), ks, e))
    ensures OnePlace(db', ks, queues, e.id) && WaitsOnce(db', ks, e.id)
  {
    hide Items, Scores, Fields, Keys.Jobs, Keys.Schedule, Keys.Retry, Keys.Queue, OthersStay, StoredQueue, Snapshot.RootQueue, Serialized;
    SerializedQueue(e);
    KeysDiffer(ks);
    var jobs, left := Fields(db, ks.Jobs()), OldQueue(Fields(db, ks.Jobs()), ks, e);
    assert Fields(db', ks.Jobs())[e.id] == e.payload;
    if left.None? {
      assert e.id !in jobs;
      assert e.id !in Items(db, ks.Queue(e.queue));
    }
  }

  lemma SerializedQueue(e: Envelope)
    requires Serialized(e)
    ensures StoredQueue(e.payload) == e.queue
  {}

  lemma OtherSame(db: Keyspace, db': Keyspace, ks: Keys, dest: Destination, e: Envelope, left: Option<string>, id: string)
    requires Relocated(db, db', ks, dest, e, left) && id != e.id
    ensures forall key :: id in Items(db', key) <==> id in Items(db, key)
    ensures forall key :: Places(db', ks, key, id) == Places(db, ks, key, id)
    ensures id in Fields(db', ks.Jobs()) <==> id in Fields(db, ks.Jobs())
    ensures id in Fields(db, ks.Jobs()) ==> Fields(db', ks.Jobs())[id] == Fields(db, ks.Jobs())[id]
  {
    hide Items, Scores, Fields, Keys.Jobs, Keys.Schedule, Keys.Retry, Keys.Queue, Without;
    forall key
      ensures (id in Items(db', key) <==> id in Items(db, key)) && Places(db', ks, key, id) == Places(db, ks, key, id)
    {
      SameCount(db, db', e.id, key, id);
    }
  }

  lemma OtherOnce(db: Keyspace, db': Keyspace, ks: Keys, dest: Destination, e: Envelope, left: Option<string>,
                  queues: set<string>, id: string)
    requires OnePlace(db, ks, queues, id) && Relocated(db, db', ks, dest, e, left) && id != e.id
    ensures OnePlace(db', ks, queues, id) && (WaitsOnce(db, ks, id) ==> WaitsOnce(db', ks, id))
  {
    hide Relocated, Places, Items, Scores, Fields, Keys.Jobs, Keys.Schedule, Keys.Retry, Keys.Queue, StoredQueue;
    OtherSame(db, db', ks, dest, e, left, id);
  }

  /** As long as unique jobs are enqueued, every id waits in one place at most, and what a request
      writes waits in exactly one when it is done. */
  lemma {:induction false} UniqueWaitOnce(db: Keyspace, ks: Keys, dest: Destination, es: seq<Envelope>, queues: set<string>)
    requires AllReady(db, ks, dest, es) && forall id :: OnePlace(db, ks, queues, id)
    requires forall e <- es :: e.unique && Serialized(e) && ks.Queue(e.queue) in queues
    ensures var (after, outcomes) := ApplyAll(db, ks, dest, es);
            && (forall id :: OnePlace(after, ks, queues, id))
            && forall i :: 0 <= i < |es| && outcomes[i] != Skipped ==> WaitsOnce(after, ks, es[i].id)
  {
    hide ApplyOne, AllReady, Decide, Ready, Relocated, OnePlace, WaitsOnce, Fields, Keys.Jobs, Keys.Queue, StoredQueue, Serialized;
    if es != [] {
      var n := |es| - 1;
      var (before, earlier) := ApplyAll(db, ks, dest, es[..n]);
      var (after, outcome) := ApplyOne(before, ks, dest, es[n]);
      LastOf(db, ks, dest, es);
      OneRelocates(before, ks, dest, es[n]);
      UniqueWaitOnce(db, ks, dest, es[..n], queues);
      var e := es[n];
      assert e in es;
      if outcome != Skipped {
        WrittenOnce(before, after, ks, dest, e, queues);
        forall id | id != e.id ensures OnePlace(after, ks, queues, id) && (WaitsOnce(before, ks, id) ==> WaitsOnce(after, ks, id)) {
          OtherOnce(before, after, ks, dest, e, OldQueue(Fields(before, ks.Jobs()), ks, e), queues, id);
        }
      }
      assert forall i :: 0 <= i < n ==> es[i] == es[..n][i];
    }
  }
}
