/** Jobs of batch workers: routed by worker and queue to a batcher, which collects them until
    the batch is full, a timer fires, its channel closes or the runtime is cancelled. */
module Batcher {

  datatype Key = Key(worker: string, queue: string)

  datatype Job = Job(id: string, key: Key)

  // ----- routing ----------------------------------------------------------------

  function OfKey(jobs: seq<Job>, key: Key): seq<Job> {
    if jobs == [] then []
    else OfKey(jobs[..|jobs| - 1], key) + if jobs[|jobs| - 1].key == key then [jobs[|jobs| - 1]] else []
  }

  /** One batcher and what was sent to it. Its channel closes when it ends. */
  datatype Channel = Channel(key: Key, inbox: seq<Job>, open: bool)

  /** What the batchers of a key were sent, one batcher after the other. */
  function SentTo(channels: seq<Channel>, key: Key): seq<Job> {
    if channels == [] then []
    else
      var last := channels[|channels| - 1];
      SentTo(channels[..|channels| - 1], key) + if last.key == key then last.inbox else []
  }

  lemma {:induction false} SentToLast(channels: seq<Channel>, i: nat, job: Job, key: Key)
    requires i < |channels| && forall j :: i < j < |channels| ==> channels[j].key != channels[i].key
    ensures SentTo(channels[i := channels[i].(inbox := channels[i].inbox + [job])], key) ==
              SentTo(channels, key) + if channels[i].key == key then [job] else []
  {
    var n := |channels| - 1;
    var sent := channels[i := channels[i].(inbox := channels[i].inbox + [job])];
    if i == n {
      assert sent[..n] == channels[..n];
    } else {
      SentToLast(channels[..n], i, job, key);
      assert sent[..n] == channels[..n][i := sent[i]];
      if channels[i].key == key { assert channels[n].key != key; }
    }
  }

  lemma {:induction false} SentToSame(channels: seq<Channel>, i: nat, open: bool, key: Key)
    requires i < |channels|
    ensures SentTo(channels[i := channels[i].(open := open)], key) == SentTo(channels, key)
  {
    var n := |channels| - 1;
    var after := channels[i := channels[i].(open := open)];
    if i == n {
      assert after[..n] == channels[..n];
    } else {
      SentToSame(channels[..n], i, open, key);
      assert after[..n] == channels[..n][i := after[i]];
    }
  }

  predicate OneKey(jobs: seq<Job>, key: Key) { forall job <- jobs :: job.key == key }

  /** `channels` are all batchers ever spawned, `batchers` those that jobs are sent to. */
  class Router {
    var channels: seq<Channel>
    var batchers: map<Key, nat>

    /** The known batcher of a key is the latest one, and gets only jobs of that key. */
    ghost predicate Valid()
      reads this
    {
      && (forall i :: 0 <= i < |channels| ==> OneKey(channels[i].inbox, channels[i].key))
      && forall key <- batchers ::
        && batchers[key] < |channels| && channels[batchers[key]].key == key
        && forall j :: batchers[key] < j < |channels| ==> channels[j].key != key
    }

    constructor ()
      ensures Valid() && channels == [] && batchers == map[]
    {
      channels, batchers := [], map[];
    }

    /** A batcher ends. */
    method Close(i: nat)
      requires Valid()
      modifies this`channels
      ensures Valid() && forall key :: SentTo(channels, key) == SentTo(old(channels), key)
      ensures Grown(old(channels), channels) && |channels| == |old(channels)|
      ensures forall j :: 0 <= j < |channels| ==>
                channels[j] == if j == i then old(channels)[j].(open := false) else old(channels)[j]
    {
      if i < |channels| {
        forall key ensures SentTo(channels[i := channels[i].(open := false)], key) == SentTo(channels, key) {
          SentToSame(channels, i, false, key);
        }
        channels := channels[i := channels[i].(open := false)];
      }
    }

    /** A batcher that is not known is spawned. */
    method Known(key: Key) returns (i: nat)
      requires Valid()
      modifies this
      ensures Valid() && key in batchers && i == batchers[key] && i < |channels|
      ensures key in old(batchers) ==> channels == old(channels) && batchers == old(batchers)
      ensures key !in old(batchers) ==> channels == old(channels) + [Channel(key, [], true)] && i == |old(channels)|
      ensures (forall k :: SentTo(channels, k) == SentTo(old(channels), k)) && Grown(old(channels), channels)
    {
      if key !in batchers {
        assert (channels + [Channel(key, [], true)])[..|channels|] == channels;
        batchers := batchers[key := |channels|];
        channels := channels + [Channel(key, [], true)];
      }
      i := batchers[key];
    }

    method Forget(key: Key)
      requires Valid()
      modifies this`batchers
      ensures Valid() && batchers == old(batchers) - {key}
    {
      batchers := batchers - {key};
    }

    /** A send to a batcher that has ended fails: it is forgotten and another one is spawned.
        `closings` tells how many of the batchers that are tried end just before the send. */
    method Connect(key: Key, closings: nat) returns (i: nat)
      requires Valid()
      modifies this
      ensures Valid() && key in batchers && i == batchers[key] && i < |channels| && channels[i].open
      ensures forall k :: SentTo(channels, k) == SentTo(old(channels), k)
      ensures Grown(old(channels), channels)
    {
      hide SentTo, Valid, Grown;
      i := Known(key);
      var left := closings;
      while left > 0 || !channels[i].open
        invariant Valid() && key in batchers && i == batchers[key] && i < |channels|
        invariant forall k :: SentTo(channels, k) == SentTo(old(channels), k)
        invariant Grown(old(channels), channels)
        decreases left, !channels[i].open
      {
        ghost var before := channels;
        if channels[i].open {
          left := left - 1;
          Close(i);
          GrownTwice(old(channels), before, channels);
        }
        ghost var closed := channels;
        Forget(key);
        i := Known(key);
        GrownTwice(old(channels), closed, channels);
      }
    }

    method Send(job: Job, closings: nat)
      requires Valid()
      modifies this
      ensures Valid() && job.key in batchers && channels[batchers[job.key]].open
      ensures forall key :: SentTo(channels, key) == SentTo(old(channels), key) + if job.key == key then [job] else []
      ensures |old(channels)| <= |channels|
      ensures forall j :: 0 <= j < |old(channels)| && !old(channels)[j].open ==> channels[j].inbox == old(channels)[j].inbox
    {
      hide SentTo;
      var i := Connect(job.key, closings);
      forall key ensures SentTo(channels[i := channels[i].(inbox := channels[i].inbox + [job])], key) ==
                         SentTo(old(channels), key) + if job.key == key then [job] else []
      {
        SentToLast(channels, i, job, key);
      }
      channels := channels[i := channels[i].(inbox := channels[i].inbox + [job])];
    }
  }

  /** Batchers are added, and those there were got nothing more, but may have ended. */
  predicate Grown(before: seq<Channel>, after: seq<Channel>) {
    && |before| <= |after|
    && forall j :: 0 <= j < |before| ==>
         after[j].inbox == before[j].inbox && after[j].key == before[j].key && (after[j].open ==> before[j].open)
  }

  lemma GrownTwice(a: seq<Channel>, b: seq<Channel>, c: seq<Channel>)
    requires Grown(a, b) && Grown(b, c)
    ensures Grown(a, c)
  {}

  datatype Happening = Came(job: Job, closings: nat) | Ends(i: nat)

  function Jobs(happenings: seq<Happening>): seq<Job> {
    if happenings == [] then []
    else
      var last := happenings[|happenings| - 1];
      Jobs(happenings[..|happenings| - 1]) + if last.Came? then [last.job] else []
  }

  lemma OfKeySnoc(jobs: seq<Job>, job: Job, key: Key)
    ensures OfKey(jobs + [job], key) == OfKey(jobs, key) + if job.key == key then [job] else []
  {
    assert (jobs + [job])[..|jobs|] == jobs;
  }

  /** Whenever batchers end, the batchers of a worker and queue get exactly the jobs for it, each
      once, in the order they came. */
  method Route(happenings: seq<Happening>) returns (router: Router)
    ensures fresh(router) && router.Valid()
    ensures forall key :: SentTo(router.channels, key) == OfKey(Jobs(happenings), key)
  {
    router := new Router();
    for i := 0 to |happenings|
      invariant fresh(router) && router.Valid()
      invariant forall key :: SentTo(router.channels, key) == OfKey(Jobs(happenings[..i]), key)
    {
      assert happenings[..i + 1][..i] == happenings[..i];
      match happenings[i] {
        case Came(job, closings) =>
          forall key ensures OfKey(Jobs(happenings[..i + 1]), key) ==
                             OfKey(Jobs(happenings[..i]), key) + if job.key == key then [job] else []
          {
            OfKeySnoc(Jobs(happenings[..i]), job, key);
          }
          router.Send(job, closings);
        case Ends(k) =>
          assert Jobs(happenings[..i + 1]) == Jobs(happenings[..i]);
          router.Close(k);
      }
    }
    assert happenings[..|happenings|] == happenings;
  }

  // ----- one batcher ------------------------------------------------------------

  /** What the batcher observes. Cancellation closes the channel; `buffered` is what it still held. */
  datatype Event<J> = Arrive(job: J) | Timer | Close | Cancel(buffered: seq<J>)

  datatype Batches<J> = Batches(pending: seq<J>, spawned: seq<seq<J>>, finished: bool)

  function Nothing<J>(): Batches<J> { Batches([], [], false) }

  function Spawned<J(==)>(b: Batches<J>): Batches<J> {
    if b.pending == [] then b else b.(pending := [], spawned := b.spawned + [b.pending])
  }

  function Pushed<J(==)>(b: Batches<J>, job: J, full: nat): Batches<J> {
    var more := b.(pending := b.pending + [job]);
    if |more.pending| >= full then Spawned(more) else more
  }

  function Flushed<J(==)>(b: Batches<J>, buffered: seq<J>, size: nat): Batches<J> {
    if buffered == [] then b else Pushed(Flushed(b, buffered[..|buffered| - 1], size), buffered[|buffered| - 1], size)
  }

  /** With a zero timeout a single job is a full batch. */
  function Full(size: nat, immediate: bool): nat { if immediate then 1 else size }

  function Observe<J(==)>(b: Batches<J>, e: Event<J>, size: nat, immediate: bool): Batches<J> {
    if b.finished then b
    else
      match e
      case Arrive(job) => Pushed(b, job, Full(size, immediate))
      case Timer => Spawned(b)
      case Close => Spawned(b).(finished := true)
      case Cancel(buffered) => Spawned(Flushed(b, buffered, size)).(finished := true)
  }

  function Run<J(==)>(events: seq<Event<J>>, size: nat, immediate: bool): Batches<J> {
    if events == [] then Nothing()
    else Observe(Run(events[..|events| - 1], size, immediate), events[|events| - 1], size, immediate)
  }

  lemma RunSnoc<J>(events: seq<Event<J>>, i: nat, size: nat, immediate: bool)
    requires i < |events|
    ensures Run(events[..i + 1], size, immediate) == Observe(Run(events[..i], size, immediate), events[i], size, immediate)
  {
    assert events[..i + 1][..i] == events[..i];
  }

  /** Once the batcher has returned, later events change nothing. */
  lemma {:induction false} FinishedStays<J>(events: seq<Event<J>>, i: nat, size: nat, immediate: bool)
    requires i <= |events| && Run(events[..i], size, immediate).finished
    ensures Run(events, size, immediate) == Run(events[..i], size, immediate)
    decreases |events| - i
  {
    if i == |events| {
      assert events[..i] == events;
    } else {
      RunSnoc(events, i, size, immediate);
      FinishedStays(events, i + 1, size, immediate);
    }
  }

  method Flush<J(==)>(b: Batches<J>, buffered: seq<J>, size: nat) returns (r: Batches<J>)
    requires size > 0
    ensures r == Spawned(Flushed(b, buffered, size))
  {
    var pending, spawned := b.pending, b.spawned;
    for i := 0 to |buffered|
      invariant Batches(pending, spawned, b.finished) == Flushed(b, buffered[..i], size)
    {
      assert buffered[..i + 1][..i] == buffered[..i];
      pending := pending + [buffered[i]];
      if |pending| >= size { pending, spawned := [], spawned + [pending]; }
    }
    assert buffered[..|buffered|] == buffered;
    if pending != [] { pending, spawned := [], spawned + [pending]; }
    r := Batches(pending, spawned, b.finished);
  }

  /** The two loops of the batcher: wait for a first job, then for the batch to fill up or its
      timer to fire. */
  method RunBatcher<J(==)>(events: seq<Event<J>>, size: nat, immediate: bool) returns (r: Batches<J>)
    requires size > 0
    ensures r == Run(events, size, immediate)
  {
    var pending: seq<J>, spawned: seq<seq<J>>, i := [], [], 0;
    while i < |events|
      invariant i <= |events| && pending == []
      invariant Batches([], spawned, false) == Run(events[..i], size, immediate)
    {
      RunSnoc(events, i, size, immediate);
      var e := events[i];
      i := i + 1;
      match e {
        case Arrive(job) =>
          pending := [job];
          assert [] + [job] == [job];
        case Timer => continue;
        case Close =>
          FinishedStays(events, i, size, immediate);
          return Batches([], spawned, true);
        case Cancel(buffered) =>
          r := Flush(Batches([], spawned, false), buffered, size);
          FinishedStays(events, i, size, immediate);
          return r.(finished := true);
      }
      if |pending| >= size || immediate {
        pending, spawned := [], spawned + [pending];
        continue;
      }
      var waiting := true;
      while i < |events| && waiting
        invariant i <= |events| && pending != []
        invariant waiting ==> |pending| < size && Batches(pending, spawned, false) == Run(events[..i], size, immediate)
        invariant !waiting ==> Spawned(Batches(pending, spawned, false)) == Run(events[..i], size, immediate)
        decreases |events| - i
      {
        RunSnoc(events, i, size, immediate);
        e := events[i];
        i := i + 1;
        match e {
          case Arrive(job) =>
            pending := pending + [job];
            waiting := |pending| < size;
          case Timer => waiting := false;
          case Close =>
            FinishedStays(events, i, size, immediate);
            return Batches([], spawned + [pending], true);
          case Cancel(buffered) =>
            r := Flush(Batches(pending, spawned, false), buffered, size);
            FinishedStays(events, i, size, immediate);
            return r.(finished := true);
        }
      }
      if waiting {
        assert events[..i] == events;
        return Batches(pending, spawned, false);
      }
      pending, spawned := [], spawned + [pending];
    }
    assert events[..i] == events;
    r := Batches(pending, spawned, false);
  }

  // ----- what a run of the batcher keeps ----------------------------------------

  function Flatten<J(==)>(batches: seq<seq<J>>): seq<J> {
    if batches == [] then [] else Flatten(batches[..|batches| - 1]) + batches[|batches| - 1]
  }

  function All<J(==)>(b: Batches<J>): seq<J> { Flatten(b.spawned) + b.pending }

  /** The jobs the batcher took from its channel: none after it closed. */
  function Received<J(==)>(events: seq<Event<J>>): seq<J> {
    if events == [] then []
    else
      var before := Received(events[..|events| - 1]);
      if Ended(events[..|events| - 1]) then before
      else
        match events[|events| - 1]
        case Arrive(job) => before + [job]
        case Cancel(buffered) => before + buffered
        case _ => before
  }

  predicate Ended<J(==)>(events: seq<Event<J>>) { exists e <- events :: e.Close? || e.Cancel? }

  predicate Sized<J(==)>(b: Batches<J>, size: nat) {
    |b.pending| < size && forall batch <- b.spawned :: 1 <= |batch| <= size
  }

  lemma SpawnKeeps<J>(b: Batches<J>)
    ensures All(Spawned(b)) == All(b) && Spawned(b).pending == []
  {
    if b.pending != [] {
      var after := Spawned(b).spawned;
      assert after[..|after| - 1] == b.spawned;
    }
  }

  lemma PushKeeps<J>(b: Batches<J>, job: J, full: nat)
    ensures All(Pushed(b, job, full)) == All(b) + [job]
  {
    SpawnKeeps(b.(pending := b.pending + [job]));
  }

  lemma {:induction false} FlushKeeps<J>(b: Batches<J>, buffered: seq<J>, size: nat)
    requires Sized(b, size)
    ensures All(Flushed(b, buffered, size)) == All(b) + buffered && Sized(Flushed(b, buffered, size), size)
  {
    if buffered == [] {
      assert All(b) + buffered == All(b);
    } else {
      var n := |buffered| - 1;
      FlushKeeps(b, buffered[..n], size);
      PushKeeps(Flushed(b, buffered[..n], size), buffered[n], size);
      assert buffered == buffered[..n] + [buffered[n]];
    }
  }

  /** What a batcher keeps, whatever it observes. */
  predicate Keeps<J(==)>(b: Batches<J>, received: seq<J>, ended: bool, size: nat, immediate: bool) {
    && Flatten(b.spawned) + b.pending == received && Sized(b, size)
    && (b.finished <==> ended) && (b.finished || immediate ==> b.pending == [])
  }

  lemma ObserveKeeps<J>(b: Batches<J>, e: Event<J>, received: seq<J>, size: nat, immediate: bool)
    requires size > 0 && !b.finished && Keeps(b, received, false, size, immediate)
    ensures var more := match e case Arrive(job) => [job] case Cancel(buffered) => buffered case _ => [];
            Keeps(Observe(b, e, size, immediate), received + more, e.Close? || e.Cancel?, size, immediate)
  {
    hide Flatten;
    SpawnKeeps(b);
    match e {
      case Arrive(job) => PushKeeps(b, job, Full(size, immediate));
      case Cancel(buffered) =>
        FlushKeeps(b, buffered, size);
        SpawnKeeps(Flushed(b, buffered, size));
      case _ =>
    }
  }

  /** For every sequence of arrivals, timeouts, closing and cancellation: the spawned batches and
      what is pending are the received jobs, each once and in order; every batch holds between
      one job and the batch size; and nothing is pending when the batcher has returned. */
  lemma {:induction false} Conserved<J>(events: seq<Event<J>>, size: nat, immediate: bool)
    requires size > 0
    ensures var b := Run(events, size, immediate);
            && Flatten(b.spawned) + b.pending == Received(events)
            && Sized(b, size)
            && (b.finished <==> Ended(events)) && (b.finished || immediate ==> b.pending == [])
  {
    if events != [] {
      var n := |events| - 1;
      var before, e := Run(events[..n], size, immediate), events[n];
      Conserved(events[..n], size, immediate);
      EndedSnoc(events);
      hide Observe, Ended, Sized, Flatten;
      if !before.finished {
        ObserveKeeps(before, e, Received(events[..n]), size, immediate);
        assert Received(events[..n]) + [] == Received(events[..n]);
      } else {
        StaysFinished(before, e, size, immediate);
      }
    }
  }

  lemma StaysFinished<J>(b: Batches<J>, e: Event<J>, size: nat, immediate: bool)
    requires b.finished
    ensures Observe(b, e, size, immediate) == b
  {}

  lemma EndedSnoc<J>(events: seq<Event<J>>)
    requires events != []
    ensures Ended(events) <==>
              Ended(events[..|events| - 1]) || events[|events| - 1].Close? || events[|events| - 1].Cancel?
  {
    assert forall e :: e in events <==> e in events[..|events| - 1] || e == events[|events| - 1];
  }

  /** When the timer fires, what was pending is spawned as one batch, in order, and nothing waits. */
  lemma TimerSpawns<J>(events: seq<Event<J>>, size: nat, immediate: bool)
    ensures var before, after := Run(events, size, immediate), Run(events + [Timer], size, immediate);
            before.finished ||
              (&& after.pending == []
               && after.spawned == if before.pending == [] then before.spawned else before.spawned + [before.pending])
  {
    assert (events + [Timer])[..|events|] == events;
  }

  function Short<J(==)>(batches: seq<seq<J>>, size: nat): nat {
    if batches == [] then 0
    else Short(batches[..|batches| - 1], size) + if |batches[|batches| - 1]| < size then 1 else 0
  }

  function Timers<J(==)>(events: seq<Event<J>>): nat {
    if events == [] then 0 else Timers(events[..|events| - 1]) + if events[|events| - 1].Timer? then 1 else 0
  }

  lemma SpawnShort<J>(b: Batches<J>, size: nat)
    ensures Short(Spawned(b).spawned, size) <= Short(b.spawned, size) + 1
    ensures |b.pending| >= size ==> Short(Spawned(b).spawned, size) == Short(b.spawned, size)
  {
    if b.pending != [] { assert Spawned(b).spawned[..|b.spawned|] == b.spawned; }
  }

  lemma {:induction false} FlushShort<J>(b: Batches<J>, buffered: seq<J>, size: nat)
    ensures Short(Flushed(b, buffered, size).spawned, size) == Short(b.spawned, size)
  {
    if buffered != [] {
      var before := Flushed(b, buffered[..|buffered| - 1], size);
      FlushShort(b, buffered[..|buffered| - 1], size);
      SpawnShort(before.(pending := before.pending + [buffered[|buffered| - 1]]), size);
    }
  }

  /** A batch is short only because its timer fired or the batcher was told to end. */
  lemma {:induction false} ShortBatches<J>(events: seq<Event<J>>, size: nat)
    requires size > 0
    ensures var b := Run(events, size, false);
            Short(b.spawned, size) <= Timers(events) + if b.finished then 1 else 0
  {
    if events != [] {
      var n := |events| - 1;
      var before, e := Run(events[..n], size, false), events[n];
      ShortBatches(events[..n], size);
      if !before.finished {
        SpawnShort(before, size);
        if e.Arrive? { SpawnShort(before.(pending := before.pending + [e.job]), size); }
        if e.Cancel? {
          FlushShort(before, e.buffered, size);
          SpawnShort(Flushed(before, e.buffered, size), size);
        }
      }
    }
  }

  predicate Single<J(==)>(batches: seq<seq<J>>) { forall batch <- batches :: |batch| == 1 }

  /** With a zero timeout every job is spawned on its own, at once, as long as the runtime is not cancelled. */
  lemma {:induction false} ImmediateBatches<J>(events: seq<Event<J>>, size: nat)
    requires size > 0 && forall e <- events :: !e.Cancel?
    ensures Single(Run(events, size, true).spawned) && Run(events, size, true).pending == []
  {
    if events != [] {
      var n := |events| - 1;
      assert events[n] in events && forall e <- events[..n] :: e in events;
      ImmediateBatches(events[..n], size);
    }
  }

  /** All jobs of a batch are for the same worker, which is the one the batch is built with. */
  lemma {:induction false} OneWorker(batches: seq<seq<Job>>, inbox: seq<Job>, key: Key, batch: seq<Job>)
    requires Flatten(batches) <= inbox && OneKey(inbox, key) && batch in batches
    ensures OneKey(batch, key)
  {
    var n := |batches| - 1;
    var flat := Flatten(batches);
    if batch == batches[n] {
      forall i | 0 <= i < |batch| ensures batch[i].key == key {
        assert flat[|Flatten(batches[..n])| + i] == batch[i];
      }
    } else {
      OneWorker(batches[..n], inbox, key, batch);
    }
  }
}
