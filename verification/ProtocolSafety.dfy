/** What every step of the protocol keeps. */
module ProtocolSafety {
  import opened Options
  import opened Protocol
  import opened Claims
  import Gate

  /** A tracked job is in the one place its status names, and nowhere else. */
  ghost predicate JobPlaced(s: State, id: string) {
    id in s.status ==>
      match s.status[id]
      case Stored => id in s.redis.jobs && forall place :: Count(s.redis, place, id) == 0
      case At(here) =>
        && id in s.redis.jobs && (here.Queue? ==> here.name == s.redis.jobs[id].queue)
        && forall place :: Count(s.redis, place, id) == if place == here then 1 else 0
      case Finished => id !in s.redis.jobs && forall place :: Count(s.redis, place, id) == 0
  }

  /** The claims that a live process should account for: its own, in its list. */
  function Owed(s: State, p: string, id: string): nat {
    if Runs(s, p) && id in s.status && s.status[id] == At(Processing(p)) then 1 else 0
  }

  /** A claim of a tracked job in the list of a live process is in its hands, or was dropped by
      it, once in all; no other process has anything of the job. */
  ghost predicate Handled(s: State, p: string, id: string) {
    id in s.status ==> Accounted(Proc(s, p).runtime, id) == Owed(s, p, id)
  }

  /** Only the payload of a job that is not tracked can be missing. */
  predicate Known(s: State, p: string, k: Permit) {
    var r := Proc(s, p).runtime;
    Holds(r, k) && r.holders[k].absent ==> r.holders[k].id !in s.status
  }

  /** The runtime of a live process is sound; there is none before and after. */
  ghost predicate Tended(s: State, p: string) {
    Sound(Proc(s, p).runtime) && (Runs(s, p) || Proc(s, p).runtime == NEW_RUNTIME)
  }

  /** A live process is registered and its score is recent; a new one has no list yet. */
  predicate Beats(t: Timing, s: State, p: string) {
    && (Runs(s, p) ==> p in s.redis.processes && s.now - t.heartbeat <= s.redis.processes[p])
    && (Proc(s, p).phase == Unregistered ==> p !in s.redis.processes && ListAt(s.redis.processing, p) == [])
  }

  /** What a sweeper has read so far is enough not to take the live process `q` for dead. */
  ghost predicate Safe(t: Timing, s: State, sweep: Sweep, q: string) {
    match sweep
    case Idle => true
    case Scanning(lists) => q in lists ==> Proc(s, q).phase != Unregistered
    case Compared(lists, members, at) =>
      && at <= s.now <= at + t.delay
      && (q in lists || q in members ==> Proc(s, q).phase != Unregistered)
      && (Runs(s, q) && q in lists ==> q in members)
      && (Runs(s, q) && q in members ==> at - t.heartbeat <= members[q])
    case Recovering(dead) => q in dead ==> Proc(s, q).phase == Stopped
  }

  ghost predicate Sweeps(t: Timing, s: State, p: string) {
    (!Runs(s, p) ==> Proc(s, p).sweep == Idle) && forall q :: Safe(t, s, Proc(s, p).sweep, q)
  }

  ghost predicate Inv(t: Timing, s: State) {
    && (forall id :: JobPlaced(s, id)) && (forall p, id :: Handled(s, p, id))
    && (forall p, k :: Known(s, p, k)) && (forall p :: Tended(s, p))
    && (forall p :: Beats(t, s, p)) && (forall p :: Sweeps(t, s, p))
  }

  // ----- what a command moves ---------------------------------------------------

  /** Only `id` has moved: everything else is stored and placed as before. */
  ghost predicate OnlyMoves(r: Redis, r': Redis, id: string) {
    && (forall place, other :: other != id ==> Count(r', place, other) == Count(r, place, other))
    && (forall other :: other != id ==> Lookup(r', other) == Lookup(r, other))
  }

  lemma PushMoves(r: Redis, queue: string, id: string)
    ensures OnlyMoves(r, PushTo(r, queue, id), id) && Lookup(PushTo(r, queue, id), id) == Lookup(r, id)
    ensures forall place ::
              Count(PushTo(r, queue, id), place, id) == Count(r, place, id) + if place == Queue(queue) then 1 else 0
  {}

  lemma ReleaseCount(r: Redis, p: string, id: string, place: Location, other: string)
    ensures Count(Release(r, p, id), place, other) ==
              if place == Processing(p) && other == id && Count(r, place, id) > 0 then Count(r, place, id) - 1
              else Count(r, place, other)
  {
    hide RemoveOne;
  }

  lemma ReleaseMoves(r: Redis, p: string, id: string)
    ensures OnlyMoves(r, Release(r, p, id), id) && Lookup(Release(r, p, id), id) == Lookup(r, id)
    ensures forall place ::
              Count(Release(r, p, id), place, id) ==
                if place == Processing(p) && Count(r, place, id) > 0 then Count(r, place, id) - 1 else Count(r, place, id)
  {
    hide RemoveOne, Count;
    forall place, other
      ensures Count(Release(r, p, id), place, other) ==
                if place == Processing(p) && other == id && Count(r, place, id) > 0 then Count(r, place, id) - 1
                else Count(r, place, other)
    {
      ReleaseCount(r, p, id, place, other);
    }
  }

  lemma MoveCount(r: Redis, queue: string, p: string, place: Location, other: string)
    requires ListAt(r.queues, queue) != []
    ensures var id := ListAt(r.queues, queue)[|ListAt(r.queues, queue)| - 1];
            Count(TakeLast(r, queue, p), place, other) ==
              Count(r, place, other)
              + (if other != id then 0 else if place == Processing(p) then 1 else if place == Queue(queue) then -1 else 0)
    ensures Count(r, Queue(queue), ListAt(r.queues, queue)[|ListAt(r.queues, queue)| - 1]) > 0
  {
    var items := ListAt(r.queues, queue);
    assert items == items[..|items| - 1] + [items[|items| - 1]];
  }

  lemma MoveMoves(r: Redis, queue: string, p: string)
    requires ListAt(r.queues, queue) != []
    ensures var id := ListAt(r.queues, queue)[|ListAt(r.queues, queue)| - 1];
            && OnlyMoves(r, TakeLast(r, queue, p), id) && Lookup(TakeLast(r, queue, p), id) == Lookup(r, id)
            && Count(r, Queue(queue), id) > 0
            && forall place ::
                 Count(TakeLast(r, queue, p), place, id) ==
                   Count(r, place, id) + (if place == Processing(p) then 1 else if place == Queue(queue) then -1 else 0)
  {
    hide Count;
    var id := ListAt(r.queues, queue)[|ListAt(r.queues, queue)| - 1];
    forall place, other
      ensures Count(TakeLast(r, queue, p), place, other) ==
                Count(r, place, other)
                + (if other != id then 0 else if place == Processing(p) then 1 else if place == Queue(queue) then -1 else 0)
    {
      MoveCount(r, queue, p, place, other);
    }
    MoveCount(r, queue, p, Queue(queue), id);
  }

  lemma Located(s: State, id: string, place: Location)
    requires JobPlaced(s, id) && id in s.status && Count(s.redis, place, id) > 0
    ensures s.status[id] == At(place)
  {}

  lemma AbsentUntracked(s: State, id: string, place: Location)
    requires JobPlaced(s, id) && id !in s.redis.jobs && Count(s.redis, place, id) > 0
    ensures id !in s.status
  {}

  /** When a step moves one id and keeps the status of the others, only that id is in question. */
  lemma PlacedAfter(s: State, s': State, id: string)
    requires (forall other :: JobPlaced(s, other)) && OnlyMoves(s.redis, s'.redis, id)
    requires s'.status.Keys <= s.status.Keys + {id}
    requires forall other <- s'.status :: other != id ==> s'.status[other] == s.status[other]
    requires JobPlaced(s', id)
    ensures forall other :: JobPlaced(s', other)
  {
    hide Count;
    forall other ensures JobPlaced(s', other) {
      if other != id && other in s'.status {
        assert JobPlaced(s, other);
        assert Lookup(s'.redis, other) == Lookup(s.redis, other);
      }
    }
  }

  /** Nothing but one process and the tracked jobs has changed. */
  predicate SamePeers(s: State, s': State, p: string) {
    && s'.now == s.now && s'.redis.processes == s.redis.processes
    && s'.processes.Keys + {p} == s.processes.Keys + {p}
    && forall q <- s.processes :: q != p ==> s'.processes[q] == s.processes[q]
  }

  /** Heartbeats and sweeps depend on the clock, the process set and the phases alone. */
  lemma PeersKept(t: Timing, s: State, s': State, p: string)
    requires (forall q :: Beats(t, s, q)) && (forall q :: Sweeps(t, s, q)) && SamePeers(s, s', p)
    requires Proc(s', p).phase == Proc(s, p).phase && Proc(s', p).sweep == Proc(s, p).sweep
    requires forall q :: Proc(s, q).phase == Unregistered ==> ListAt(s'.redis.processing, q) == []
    ensures (forall q :: Beats(t, s', q)) && forall q :: Sweeps(t, s', q)
  {
    forall q ensures Beats(t, s', q) && Sweeps(t, s', q) {
      assert Beats(t, s, q) && Sweeps(t, s, q);
      assert q != p ==> Proc(s', q) == Proc(s, q);
      forall x ensures Safe(t, s', Proc(s', q).sweep, x) {
        assert Safe(t, s, Proc(s, q).sweep, x);
        assert x != p ==> Proc(s', x) == Proc(s, x);
      }
    }
  }

  // ----- one lemma for each kind of step ----------------------------------------

  /** The id is placed, or its payload stored; it was nowhere before. */
  lemma EnqueuePlaced(t: Timing, s: State, step: Step)
    requires Enabled(t, s, step) && (step.StorePayload? || step.PlaceNow? || step.PlaceLater?) && JobPlaced(s, step.id)
    ensures var s' := Next(t, s, step); OnlyMoves(s.redis, s'.redis, step.id) && JobPlaced(s', step.id)
  {
    var s', id := Next(t, s, step), step.id;
    if step.PlaceNow? { PushMoves(s.redis, s.redis.jobs[id].queue, id); }
    forall place ensures Count(s'.redis, place, id) == if At(place) == s'.status[id] then 1 else 0 {
      assert Count(s.redis, place, id) == 0;
    }
  }

  lemma EnqueueFrame(t: Timing, s: State, step: Step)
    requires Enabled(t, s, step) && (step.StorePayload? || step.PlaceNow? || step.PlaceLater?)
    ensures var s' := Next(t, s, step);
            && s'.processes == s.processes && s'.now == s.now && s'.redis.processes == s.redis.processes
            && s'.redis.processing == s.redis.processing && s'.status.Keys == s.status.Keys + {step.id}
            && (forall other <- s.status :: other != step.id ==> s'.status[other] == s.status[other])
            && (forall p :: s'.status[step.id] != At(Processing(p)))
            && (step.id in s.status ==> forall p :: s.status[step.id] != At(Processing(p)))
            && (step.id !in s.status ==> forall p :: Accounted(Proc(s, p).runtime, step.id) == 0)
  {}

  /** Processes have not changed, and no job has come to a processing list or left one. */
  lemma RuntimesKept(t: Timing, s: State, s': State)
    requires Inv(t, s) && s'.processes == s.processes
    requires forall id <- s'.status ::
               (id in s.status || forall p :: Accounted(Proc(s, p).runtime, id) == 0)
    requires forall id <- s'.status, p ::
               (id in s.status && s.status[id] == At(Processing(p))) <==> s'.status[id] == At(Processing(p))
    ensures (forall p, id :: Handled(s', p, id)) && (forall p, k :: Known(s', p, k)) && forall p :: Tended(s', p)
  {
    hide Accounted, Sound;
    forall p ensures Tended(s', p) { assert Tended(s, p) && Proc(s', p) == Proc(s, p); }
    forall p, id ensures Handled(s', p, id) { assert Handled(s, p, id) && Proc(s', p) == Proc(s, p); }
    forall p, k ensures Known(s', p, k) {
      assert Known(s, p, k) && Proc(s', p) == Proc(s, p);
      if Holds(Proc(s, p).runtime, k) { InHands(Proc(s, p).runtime, k); }
    }
  }

  /** What is held is accounted for. */
  lemma InHands(r: Runtime, k: Permit)
    requires Holds(r, k)
    ensures Accounted(r, r.holders[k].id) >= Hands(r, r.holders[k].id) >= 1
  {
    assert k in HoldersOf(r.holders, r.holders[k].id);
  }

  lemma EnqueueKeeps(t: Timing, s: State, step: Step)
    requires Inv(t, s) && Enabled(t, s, step) && (step.StorePayload? || step.PlaceNow? || step.PlaceLater?)
    ensures Inv(t, Next(t, s, step))
  {
    hide Count, Next, Accounted, Sound;
    var s', id := Next(t, s, step), step.id;
    assert JobPlaced(s, id);
    EnqueueFrame(t, s, step);
    EnqueuePlaced(t, s, step);
    PlacedAfter(s, s', id);
    RuntimesKept(t, s, s');
    forall q | Proc(s, q).phase == Unregistered ensures ListAt(s'.redis.processing, q) == [] { assert Beats(t, s, q); }
    PeersKept(t, s, s', "");
  }

  /** One process acts: it may move one job, and its runtime still accounts for what is in its list. */
  lemma OneActs(t: Timing, s: State, s': State, p: string, runtime: Runtime, id: string)
    requires Inv(t, s) && Runs(s, p) && OnlyMoves(s.redis, s'.redis, id) && JobPlaced(s', id)
    requires s'.processes == s.processes[p := Proc(s, p).(runtime := runtime)]
    requires s'.now == s.now && s'.redis.processes == s.redis.processes && s'.status.Keys == s.status.Keys
    requires forall other <- s.status :: other != id ==> s'.status[other] == s.status[other]
    requires forall q :: q != p ==> ListAt(s'.redis.processing, q) == ListAt(s.redis.processing, q)
    requires id in s.status && s'.status[id] != s.status[id] ==>
               forall q :: q != p ==> s.status[id] != At(Processing(q)) && s'.status[id] != At(Processing(q))
    requires Sound(runtime) && (id in s.status ==> Accounted(runtime, id) == Owed(s', p, id))
    requires forall other <- s.status :: other != id ==> Accounted(runtime, other) == Accounted(Proc(s, p).runtime, other)
    requires forall k :: Holds(runtime, k) && runtime.holders[k].absent ==> runtime.holders[k].id !in s.status
    ensures Inv(t, s')
  {
    hide Count, Accounted, Sound;
    PlacedAfter(s, s', id);
    forall q ensures Tended(s', q) {
      assert Tended(s, q);
      assert q != p ==> Proc(s', q) == Proc(s, q);
    }
    forall q, x ensures Handled(s', q, x) {
      assert Handled(s, q, x) && Handled(s, q, id);
      assert q != p ==> Proc(s', q) == Proc(s, q);
    }
    forall q, k ensures Known(s', q, k) {
      assert Known(s, q, k);
      assert q != p ==> Proc(s', q) == Proc(s, q);
    }
    forall q | Proc(s, q).phase == Unregistered ensures ListAt(s'.redis.processing, q) == [] { assert Beats(t, s, q); }
    PeersKept(t, s, s', p);
  }

  lemma ClaimFrame(t: Timing, s: State, step: Step)
    requires Enabled(t, s, step) && (step.Claim? || step.ClaimUnseen?)
    ensures var s', p, k := Next(t, s, step), step.p, step.k;
            var id, r := LastOf(s, k.queue), Proc(s, p).runtime;
            && s'.redis == TakeLast(s.redis, k.queue, p) && s'.now == s.now && Runs(s, p) && k in r.holders && r.holders[k] == Empty
            && s'.status == (if id in s.status then s.status[id := At(Processing(p))] else s.status)
            && s'.processes == s.processes[p := Proc(s, p).(runtime := if step.Claim? then Claimed(r, k, id) else ClaimedUnseen(r, k, id))]
  {}

  lemma MoveLists(r: Redis, queue: string, p: string)
    requires ListAt(r.queues, queue) != []
    ensures forall q :: q != p ==> ListAt(TakeLast(r, queue, p).processing, q) == ListAt(r.processing, q)
  {}

  lemma TakeLastRest(r: Redis, queue: string, p: string)
    requires ListAt(r.queues, queue) != []
    ensures TakeLast(r, queue, p).processes == r.processes
  {}

  lemma ClaimKeeps(t: Timing, s: State, step: Step)
    requires Inv(t, s) && Enabled(t, s, step) && (step.Claim? || step.ClaimUnseen?)
    ensures Inv(t, Next(t, s, step))
  {
    hide Count, Next, TakeLast, Sound, Accounted, Claimed, ClaimedUnseen;
    var s', p, queue := Next(t, s, step), step.p, step.k.queue;
    var id, r := LastOf(s, queue), Proc(s, p).runtime;
    ClaimFrame(t, s, step);
    MoveMoves(s.redis, queue, p);
    MoveLists(s.redis, queue, p);
    TakeLastRest(s.redis, queue, p);
    assert JobPlaced(s, id) && Handled(s, p, id) && Tended(s, p);
    if id in s.status { Located(s, id, Queue(queue)); }
    forall x ensures Accounted(if step.Claim? then Claimed(r, step.k, id) else ClaimedUnseen(r, step.k, id), x) ==
                     Accounted(r, x) + if x == id then 1 else 0
    {
      ClaimAccount(r, step.k, id, x);
    }
    ClaimSound(r, step.k, id);
    var r' := if step.Claim? then Claimed(r, step.k, id) else ClaimedUnseen(r, step.k, id);
    forall l | Holds(r', l) && r'.holders[l].absent ensures r'.holders[l].id !in s.status {
      ClaimPresent(r, step.k, id, l);
      assert Known(s, p, l);
    }
    OneActs(t, s, s', p, r', id);
  }

  lemma ClaimAccount(r: Runtime, k: Permit, id: string, x: string)
    requires k in r.holders && r.holders[k] == Empty
    ensures Accounted(Claimed(r, k, id), x) == Accounted(r, x) + if x == id then 1 else 0
    ensures Accounted(ClaimedUnseen(r, k, id), x) == Accounted(r, x) + if x == id then 1 else 0
  {
    hide Hands;
    GivenHands(r, k, Holding(id, Dispatched, false), x);
    GivenHands(r, k, Settled, x);
    SameHolders(Given(r, k, Settled), ClaimedUnseen(r, k, id), x);
  }

  lemma SameHolders(r: Runtime, r': Runtime, id: string)
    requires r'.holders == r.holders
    ensures Hands(r', id) == Hands(r, id)
  {}

  lemma ClaimSound(r: Runtime, k: Permit, id: string)
    requires Sound(r) && k in r.holders
    ensures Sound(Claimed(r, k, id)) && Sound(ClaimedUnseen(r, k, id))
  {
    GivenKeeps(r, k, Holding(id, Dispatched, false));
    GivenKeeps(r, k, Settled);
    SameGates(Given(r, k, Settled), ClaimedUnseen(r, k, id));
  }

  /** A new claim is not known to be without payload, and the others are as before. */
  lemma ClaimPresent(r: Runtime, k: Permit, id: string, l: Permit)
    ensures forall r' <- {Claimed(r, k, id), ClaimedUnseen(r, k, id)} ::
              Holds(r', l) && r'.holders[l].absent ==> Holds(r, l) && r'.holders[l] == r.holders[l]
  {}

  /** After an acknowledgment or a kill the job is nowhere. */
  lemma EndMoves(r: Redis, p: string, id: string, payload: Payload)
    ensures OnlyMoves(r, Acknowledge(r, p, id), id) && OnlyMoves(r, FinishDead(r, p, id, payload), id)
    ensures id !in Acknowledge(r, p, id).jobs && id !in FinishDead(r, p, id, payload).jobs
    ensures forall place ::
              && Count(Acknowledge(r, p, id), place, id) == Count(Release(r, p, id), place, id)
              && Count(FinishDead(r, p, id, payload), place, id) == Count(Release(r, p, id), place, id)
  {
    hide RemoveOne;
    ReleaseMoves(r, p, id);
  }

  lemma RetryMoves(r: Redis, p: string, id: string, payload: Payload, score: int)
    ensures OnlyMoves(r, RetryFailed(r, p, id, payload, score), id)
    ensures Lookup(RetryFailed(r, p, id, payload, score), id) == Some(payload)
    ensures forall place ::
              Count(RetryFailed(r, p, id, payload, score), place, id) ==
                if place == Retry then 1 else Count(Release(r, p, id), place, id)
  {
    hide RemoveOne;
    ReleaseMoves(r, p, id);
  }

  lemma DeleteMoves(r: Redis, p: string, id: string)
    ensures OnlyMoves(r, DeleteClaim(r, p, id), id)
  {
    hide RemoveAll;
  }

  /** The process gives the claim of a permit back. */
  lemma GivenBack(t: Timing, s: State, s': State, p: string, k: Permit, id: string)
    requires Inv(t, s) && Runs(s, p) && Holds(Proc(s, p).runtime, k) && id == IdOf(s, p, k)
    requires OnlyMoves(s.redis, s'.redis, id) && JobPlaced(s', id)
    requires s'.processes == s.processes[p := Proc(s, p).(runtime := Given(Proc(s, p).runtime, k, Settled))]
    requires s'.now == s.now && s'.redis.processes == s.redis.processes && s'.status.Keys == s.status.Keys
    requires forall other <- s.status :: other != id ==> s'.status[other] == s.status[other]
    requires id in s.status ==> forall q :: s'.status[id] != At(Processing(q))
    requires forall q :: q != p ==> ListAt(s'.redis.processing, q) == ListAt(s.redis.processing, q)
    ensures Inv(t, s')
  {
    hide Count, Accounted, Sound, Hands;
    var r := Proc(s, p).runtime;
    assert Tended(s, p) && Handled(s, p, id);
    InHands(r, k);
    GivenKeeps(r, k, Settled);
    forall x ensures Accounted(Given(r, k, Settled), x) == Accounted(r, x) - if x == id then 1 else 0 {
      SettleAccount(r, k, x);
    }
    forall l | Holds(Given(r, k, Settled), l) && Given(r, k, Settled).holders[l].absent
      ensures Given(r, k, Settled).holders[l].id !in s.status
    {
      assert Known(s, p, l);
    }
    OneActs(t, s, s', p, Given(r, k, Settled), id);
  }

  lemma SettleAccount(r: Runtime, k: Permit, x: string)
    requires Holds(r, k)
    ensures Accounted(Given(r, k, Settled), x) == Accounted(r, x) - if x == r.holders[k].id then 1 else 0
  {
    hide Hands;
    GivenHands(r, k, Settled, x);
  }

  /** The job of a held claim is in the list of the process, if it is tracked. */
  lemma HeldIsPlaced(t: Timing, s: State, p: string, k: Permit)
    requires Inv(t, s) && Holds(Proc(s, p).runtime, k) && IdOf(s, p, k) in s.status
    ensures s.status[IdOf(s, p, k)] == At(Processing(p)) && IdOf(s, p, k) in s.redis.jobs
  {
    hide Count, Accounted, Sound;
    InHands(Proc(s, p).runtime, k);
    assert Handled(s, p, IdOf(s, p, k)) && JobPlaced(s, IdOf(s, p, k));
  }

  /** The process gives the claim back: acknowledged or killed, retried, or found absent. */
  lemma EndFrame(t: Timing, s: State, step: Step)
    requires Enabled(t, s, step) && (step.Ack? || step.Kill?)
    ensures Executes(s, step.p, step.k)
    ensures Next(t, s, step) ==
              var id := IdOf(s, step.p, step.k);
              var r := if step.Ack? then Acknowledge(s.redis, step.p, id) else FinishDead(s.redis, step.p, id, step.payload);
              Mark(Settle(s.(redis := r), step.p, step.k), id, Finished)
  {
    hide Acknowledge, FinishDead, Mark, Settle;
  }

  lemma SettledState(s: State, r: Redis, p: string, k: Permit, id: string, status: Status)
    ensures var s' := Mark(Settle(s.(redis := r), p, k), id, status);
            && s'.processes == s.processes[p := Proc(s, p).(runtime := Given(Proc(s, p).runtime, k, Settled))]
            && s'.now == s.now && s'.redis == r && s'.status.Keys == s.status.Keys
            && (id in s.status ==> s'.status[id] == status)
            && forall other <- s.status :: other != id ==> s'.status[other] == s.status[other]
  {
    hide Given;
  }

  /** No list has changed but that of one process. */
  ghost predicate OnlyList(r: Redis, r': Redis, p: string) {
    r'.processes == r.processes && forall q :: q != p ==> ListAt(r'.processing, q) == ListAt(r.processing, q)
  }

  lemma EndLists(r: Redis, p: string, id: string, payload: Payload, score: int)
    ensures OnlyList(r, Acknowledge(r, p, id), p) && OnlyList(r, FinishDead(r, p, id, payload), p)
    ensures OnlyList(r, RetryFailed(r, p, id, payload, score), p)
  {
    hide Release, ListAt;
    ListsKept(r, p, id);
  }

  lemma EndKeeps(t: Timing, s: State, step: Step)
    requires Inv(t, s) && Enabled(t, s, step) && (step.Ack? || step.Kill?)
    ensures Inv(t, Next(t, s, step))
  {
    hide Count, Release, RemoveOne, Accounted, Sound, Next, Mark, Settle, Acknowledge, FinishDead, RetryFailed;
    EndFrame(t, s, step);
    var p, id := step.p, IdOf(s, step.p, step.k);
    var payload := if step.Kill? then step.payload else Payload("", false, "");
    var r' := if step.Ack? then Acknowledge(s.redis, p, id) else FinishDead(s.redis, p, id, payload);
    var s' := Mark(Settle(s.(redis := r'), p, step.k), id, Finished);
    SettledState(s, r', p, step.k, id, Finished);
    assert JobPlaced(s, id);
    if id in s.status { HeldIsPlaced(t, s, p, step.k); }
    ReleaseMoves(s.redis, p, id);
    EndMoves(s.redis, p, id, payload);
    EndLists(s.redis, p, id, payload, 0);
    assert JobPlaced(s', id);
    GivenBack(t, s, s', p, step.k, id);
  }

  lemma FailFrame(t: Timing, s: State, step: Step)
    requires Enabled(t, s, step) && step.Fail?
    ensures Executes(s, step.p, step.k) && SameRoute(s, IdOf(s, step.p, step.k), step.payload)
    ensures Next(t, s, step) ==
              var id := IdOf(s, step.p, step.k);
              Mark(Settle(s.(redis := RetryFailed(s.redis, step.p, id, step.payload, step.score)), step.p, step.k), id, At(Retry))
  {
    hide RetryFailed, Mark, Settle;
  }

  lemma FailKeeps(t: Timing, s: State, step: Step)
    requires Inv(t, s) && Enabled(t, s, step) && step.Fail?
    ensures Inv(t, Next(t, s, step))
  {
    hide Count, Release, RemoveOne, Accounted, Sound, Next, Mark, Settle, Acknowledge, FinishDead, RetryFailed;
    FailFrame(t, s, step);
    var p, id := step.p, IdOf(s, step.p, step.k);
    var r' := RetryFailed(s.redis, p, id, step.payload, step.score);
    var s' := Mark(Settle(s.(redis := r'), p, step.k), id, At(Retry));
    SettledState(s, r', p, step.k, id, At(Retry));
    assert JobPlaced(s, id);
    if id in s.status { HeldIsPlaced(t, s, p, step.k); }
    ReleaseMoves(s.redis, p, id);
    RetryMoves(s.redis, p, id, step.payload, step.score);
    EndLists(s.redis, p, id, step.payload, step.score);
    assert JobPlaced(s', id);
    GivenBack(t, s, s', p, step.k, id);
  }

  lemma AbsentKeeps(t: Timing, s: State, step: Step)
    requires Inv(t, s) && Enabled(t, s, step) && (step.ReleaseAbsent? || step.DeleteAbsent?)
    ensures Inv(t, Next(t, s, step))
  {
    hide Count, Release, DeleteClaim, Accounted, Sound;
    var s', p, id := Next(t, s, step), step.p, IdOf(s, step.p, step.k);
    assert Known(s, p, step.k);
    ReleaseMoves(s.redis, p, id);
    DeleteMoves(s.redis, p, id);
    ListsKept(s.redis, p, id);
    GivenBack(t, s, s', p, step.k, id);
  }

  lemma ListsKept(r: Redis, p: string, id: string)
    ensures forall r0: Redis :: r0.processing == r.processing ==>
              && (forall q :: q != p ==> ListAt(Release(r0, p, id).processing, q) == ListAt(r.processing, q))
              && Release(r0, p, id).processes == r0.processes
    ensures forall q :: q != p ==> ListAt(DeleteClaim(r, p, id).processing, q) == ListAt(r.processing, q)
    ensures DeleteClaim(r, p, id).processes == r.processes
  {}

  lemma RewriteKeeps(t: Timing, s: State, step: Step)
    requires Inv(t, s) && Enabled(t, s, step) && step.Rewrite?
    ensures Inv(t, Next(t, s, step))
  {
    hide Accounted, Sound;
    var s', p, id := Next(t, s, step), step.p, IdOf(s, step.p, step.k);
    assert JobPlaced(s, id);
    if id in s.status { HeldIsPlaced(t, s, p, step.k); }
    assert forall place, x :: Count(s'.redis, place, x) == Count(s.redis, place, x);
    hide Count;
    PlacedAfter(s, s', id);
    RuntimesKept(t, s, s');
    forall q | Proc(s, q).phase == Unregistered ensures ListAt(s'.redis.processing, q) == [] { assert Beats(t, s, q); }
    PeersKept(t, s, s', p);
  }

  lemma UntrackKeeps(t: Timing, s: State, step: Step)
    requires Inv(t, s) && Enabled(t, s, step) && step.Untrack?
    ensures Inv(t, Next(t, s, step))
  {
    hide Accounted, Sound, Count;
    var s' := Next(t, s, step);
    forall id ensures JobPlaced(s', id) { assert JobPlaced(s, id); }
    RuntimesKept(t, s, s');
    forall q | Proc(s, q).phase == Unregistered ensures ListAt(s'.redis.processing, q) == [] { assert Beats(t, s, q); }
    PeersKept(t, s, s', "");
  }

  lemma AbsentFrame(t: Timing, s: State, step: Step)
    requires Enabled(t, s, step) && step.FindAbsent?
    ensures var r := Proc(s, step.p).runtime;
            && Runs(s, step.p) && Holds(r, step.k) && IdOf(s, step.p, step.k) !in s.redis.jobs
            && Next(t, s, step) == WithRuntime(s, step.p, Given(r, step.k, r.holders[step.k].(absent := true)))
  {}

  /** Only the payload of a job that is not tracked is found missing. */
  lemma FindAbsentKeeps(t: Timing, s: State, step: Step)
    requires Inv(t, s) && Enabled(t, s, step) && step.FindAbsent?
    ensures Inv(t, Next(t, s, step))
  {
    hide Next, Count, Accounted, Sound, Hands;
    var s', p, k := Next(t, s, step), step.p, step.k;
    var r := Proc(s, p).runtime;
    AbsentFrame(t, s, step);
    var id, r' := IdOf(s, p, k), Given(r, k, r.holders[k].(absent := true));
    if id in s.status { HeldIsPlaced(t, s, p, k); }
    assert JobPlaced(s, id) && Tended(s, p) && id !in s.status;
    GivenKeeps(r, k, r.holders[k].(absent := true));
    forall x ensures Accounted(r', x) == Accounted(r, x) { AbsentAccount(r, k, x); }
    forall l | Holds(r', l) && r'.holders[l].absent ensures r'.holders[l].id !in s.status { assert Known(s, p, l); }
    OneActs(t, s, s', p, r', id);
  }

  lemma AbsentAccount(r: Runtime, k: Permit, x: string)
    requires Holds(r, k)
    ensures Accounted(Given(r, k, r.holders[k].(absent := true)), x) == Accounted(r, x)
  {
    hide Hands;
    GivenHands(r, k, r.holders[k].(absent := true), x);
  }

  lemma LocalFrame(t: Timing, s: State, step: Step)
    requires Enabled(t, s, step) && step.Local?
    ensures var r := Proc(s, step.p).runtime;
            && Runs(s, step.p) && Possible(r, step.move)
            && Next(t, s, step) == WithRuntime(s, step.p, Moved(r, step.move))
  {}

  /** What a runtime does on its own moves no job, and no claim gets out of sight: what leaves
      its hands is dropped, with a failure to come. */
  lemma LocalKeeps(t: Timing, s: State, step: Step)
    requires Inv(t, s) && Enabled(t, s, step) && step.Local?
    ensures Inv(t, Next(t, s, step))
  {
    hide Next, Count, Accounted, Sound, Moved, Possible;
    var s', p, m := Next(t, s, step), step.p, step.move;
    var r := Proc(s, p).runtime;
    LocalFrame(t, s, step);
    assert Tended(s, p) && JobPlaced(s, "") && Handled(s, p, "");
    MoveKeepsSound(r, m);
    if m.Forsake? { ForsakesAbsent(r, m.k); assert Known(s, p, m.k); }
    forall x | x in s.status ensures Accounted(Moved(r, m), x) == Accounted(r, x) { MoveKeepsAccount(r, m, x); }
    forall l | Holds(Moved(r, m), l) && Moved(r, m).holders[l].absent ensures Moved(r, m).holders[l].id !in s.status {
      MoveKeepsAbsent(r, m, l);
      assert Known(s, p, l);
    }
    OneActs(t, s, s', p, Moved(r, m), "");
  }

  lemma ForsakesAbsent(r: Runtime, k: Permit)
    requires Possible(r, Forsake(k))
    ensures Holds(r, k) && r.holders[k].absent
  {}

  lemma MoveKeepsAbsent(r: Runtime, m: Move, l: Permit)
    requires Possible(r, m) && Holds(Moved(r, m), l) && Moved(r, m).holders[l].absent
    ensures Holds(r, l) && r.holders[l].absent && r.holders[l].id == Moved(r, m).holders[l].id
  {
    hide Gate.Next, Gate.Enabled, Gate.At;
  }

  lemma PromoteMoves(r: Redis, retries: bool, id: string, payload: Payload, score: int)
    requires Promote(r, retries, id, Some(payload), score) != r
    ensures var r' := Promote(r, retries, id, Some(payload), score);
            && OnlyMoves(r, r', id) && Lookup(r', id) == Lookup(r, id) == Some(payload)
            && Count(r, if retries then Retry else Schedule, id) == 1
            && (forall place :: Count(r', place, id) ==
                  Count(r, place, id) + (if place == Queue(payload.queue) then 1 else 0)
                  - (if place == (if retries then Retry else Schedule) then 1 else 0))
  {
    hide PushTo, Count;
    var pushed := PushTo(r, payload.queue, id);
    PushMoves(r, payload.queue, id);
    PushedSets(r, payload.queue, id);
    LeavesSet(pushed, retries, id);
    assert Lookup(pushed, id) == Some(payload);
    SetCount(r, retries, id);
  }

  lemma PushedSets(r: Redis, queue: string, id: string)
    ensures PushTo(r, queue, id).retry == r.retry && PushTo(r, queue, id).schedule == r.schedule
  {}

  lemma SetCount(r: Redis, retries: bool, id: string)
    ensures Count(r, if retries then Retry else Schedule, id) == if id in (if retries then r.retry else r.schedule) then 1 else 0
  {}

  /** Taking an id from the schedule or the retry set. */
  lemma LeavesSet(r: Redis, retries: bool, id: string)
    requires id in (if retries then r.retry else r.schedule)
    ensures var r' := if retries then r.(retry := r.retry - {id}) else r.(schedule := r.schedule - {id});
            && OnlyMoves(r, r', id) && Lookup(r', id) == Lookup(r, id)
            && forall place :: Count(r', place, id) == Count(r, place, id) - if place == (if retries then Retry else Schedule) then 1 else 0
  {}

  lemma PromoteAbsent(r: Redis, retries: bool, id: string, score: int)
    ensures OnlyMoves(r, Promote(r, retries, id, None, score), id)
    ensures Promote(r, retries, id, None, score) != r ==>
              id !in r.jobs && Count(r, if retries then Retry else Schedule, id) == 1
  {}

  /** A job that no live process holds has moved, and not to a processing list. */
  lemma MovedByPeer(t: Timing, s: State, s': State, id: string)
    requires Inv(t, s) && OnlyMoves(s.redis, s'.redis, id) && JobPlaced(s', id)
    requires s'.processes == s.processes && s'.now == s.now && s'.redis.processes == s.redis.processes
    requires s'.status.Keys == s.status.Keys
    requires forall other <- s.status :: other != id ==> s'.status[other] == s.status[other]
    requires id in s.status ==> forall q :: Owed(s, q, id) == 0 && s'.status[id] != At(Processing(q))
    requires forall q :: ListAt(s.redis.processing, q) == [] ==> ListAt(s'.redis.processing, q) == []
    ensures Inv(t, s')
  {
    hide Count, Accounted, Sound;
    PlacedAfter(s, s', id);
    forall q ensures Tended(s', q) { assert Tended(s, q) && Proc(s', q) == Proc(s, q); }
    forall q, x ensures Handled(s', q, x) { assert Handled(s, q, x) && Proc(s', q) == Proc(s, q); }
    forall q, k ensures Known(s', q, k) { assert Known(s, q, k) && Proc(s', q) == Proc(s, q); }
    forall q | Proc(s, q).phase == Unregistered ensures ListAt(s'.redis.processing, q) == [] { assert Beats(t, s, q); }
    PeersKept(t, s, s', "");
  }

  lemma PromoteKeeps(t: Timing, s: State, step: Step)
    requires Inv(t, s) && Enabled(t, s, step) && step.PromoteDue?
    ensures Inv(t, Next(t, s, step))
  {
    var s', id := Next(t, s, step), step.id;
    assert JobPlaced(s, id);
    assert s'.redis == Promote(s.redis, step.retries, id, step.expected, step.score);
    PromoteLists(s.redis, step.retries, id, step.expected, step.score);
    hide Count, Promote, Accounted, Sound;
    if s'.redis != s.redis {
      if step.expected.Some? {
        PromoteMoves(s.redis, step.retries, id, step.expected.value, step.score);
        if id in s.status {
          Located(s, id, if step.retries then Retry else Schedule);
          forall place ensures Count(s'.redis, place, id) == if place == Queue(step.expected.value.queue) then 1 else 0 {
            assert Count(s.redis, place, id) == if At(place) == s.status[id] then 1 else 0;
          }
        }
      } else {
        PromoteAbsent(s.redis, step.retries, id, step.score);
        AbsentUntracked(s, id, if step.retries then Retry else Schedule);
      }
      MovedByPeer(t, s, s', id);
    }
  }

  lemma PromoteLists(r: Redis, retries: bool, id: string, expected: Option<Payload>, score: int)
    ensures var r' := Promote(r, retries, id, expected, score); r'.processing == r.processing && r'.processes == r.processes
  {}

  function Replaced(r: Redis, id: string, expected: Option<Payload>): Redis {
    if expected.None? then r
    else if expected.value.resurrect then PushTo(r, expected.value.queue, id)
    else r.(jobs := r.jobs - {id})
  }

  lemma ReplacedMoves(r: Redis, id: string, expected: Option<Payload>)
    requires Lookup(r, id) == expected
    ensures var r' := Replaced(r, id, expected);
            var again := expected.Some? && expected.value.resurrect;
            && OnlyMoves(r, r', id) && Lookup(r', id) == (if again then expected else None)
            && forall place ::
                 Count(r', place, id) == Count(r, place, id) + if again && place == Queue(expected.value.queue) then 1 else 0
  {
    if expected.Some? && expected.value.resurrect { PushMoves(r, expected.value.queue, id); }
  }

  lemma RecoverMoves(r: Redis, dead: string, id: string, expected: Option<Payload>)
    requires Recover(r, dead, id, expected) != r
    ensures var r' := Recover(r, dead, id, expected);
            var again := expected.Some? && expected.value.resurrect;
            && OnlyMoves(r, r', id) && Count(r, Processing(dead), id) > 0 && Lookup(r, id) == expected
            && Lookup(r', id) == (if again then expected else None)
            && (forall place :: Count(r', place, id) ==
                  Count(r, place, id) - (if place == Processing(dead) then 1 else 0)
                  + (if again && place == Queue(expected.value.queue) then 1 else 0))
  {
    InList(r, dead, id);
    assert Recover(r, dead, id, expected) == Release(Replaced(r, id, expected), dead, id);
    hide Count, PushTo, Release, Recover, Replaced;
    ReplacedMoves(r, id, expected);
    ReleaseMoves(Replaced(r, id, expected), dead, id);
  }

  lemma InList(r: Redis, p: string, id: string)
    ensures id in ListAt(r.processing, p) <==> Count(r, Processing(p), id) > 0
  {}

  lemma RecoverLists(r: Redis, dead: string, id: string, expected: Option<Payload>)
    ensures var r' := Recover(r, dead, id, expected);
            r'.processes == r.processes && forall q :: ListAt(r.processing, q) == [] ==> ListAt(r'.processing, q) == []
  {
    hide RemoveOne, Lookup, ListAt, Release, PushTo;
    if id in ListAt(r.processing, dead) {
      ReleasedLists(r, dead, id);
      if expected.Some? { PushedLists(r, expected.value.queue, id); }
    }
  }

  lemma PushedLists(r: Redis, queue: string, id: string)
    ensures PushTo(r, queue, id).processes == r.processes && PushTo(r, queue, id).processing == r.processing
  {}

  lemma ReleasedLists(r: Redis, p: string, id: string)
    requires id in ListAt(r.processing, p)
    ensures forall r0: Redis :: r0.processing == r.processing ==>
              && Release(r0, p, id).processes == r0.processes
              && forall q :: ListAt(r.processing, q) == [] ==> ListAt(Release(r0, p, id).processing, q) == []
  {
    hide RemoveOne;
  }

  /** Recovery only ever touches the claims of a process that has stopped. */
  lemma SweptIsStopped(t: Timing, s: State, p: string, dead: string)
    requires Inv(t, s) && Proc(s, p).sweep.Recovering? && dead in Proc(s, p).sweep.dead
    ensures Proc(s, dead).phase == Stopped && Proc(s, dead).runtime == NEW_RUNTIME
  {
    hide Sound;
    assert Sweeps(t, s, p) && Safe(t, s, Proc(s, p).sweep, dead) && Tended(s, dead);
  }

  lemma RecoverPlaced(s: State, s': State, dead: string, id: string, expected: Option<Payload>)
    requires JobPlaced(s, id) && s'.redis == Recover(s.redis, dead, id, expected) && s'.redis != s.redis
    requires s'.status == if expected.Some? then Mark(s, id, Recovered(expected.value)).status else s.status
    ensures JobPlaced(s', id) && OnlyMoves(s.redis, s'.redis, id)
    ensures id in s.status ==> s.status[id] == At(Processing(dead)) && expected.Some?
  {
    hide Count, Recover;
    RecoverMoves(s.redis, dead, id, expected);
    if expected.None? {
      AbsentUntracked(s, id, Processing(dead));
    } else if id in s.status {
      Located(s, id, Processing(dead));
      forall place ensures Count(s'.redis, place, id) == if s'.status[id] == At(place) then 1 else 0 {
        assert Count(s.redis, place, id) == if place == Processing(dead) then 1 else 0;
      }
    }
  }

  lemma RecoverKeeps(t: Timing, s: State, step: Step)
    requires Inv(t, s) && Enabled(t, s, step) && step.RecoverClaim?
    ensures Inv(t, Next(t, s, step))
  {
    hide Count, Recover, Accounted, Sound;
    var s', id := Next(t, s, step), step.id;
    SweptIsStopped(t, s, step.p, step.dead);
    RecoverLists(s.redis, step.dead, id, step.expected);
    if s'.redis != s.redis {
      RecoverPlaced(s, s', step.dead, id, step.expected);
      MovedByPeer(t, s, s', id);
    }
  }

  lemma ForeignKeeps(t: Timing, s: State, step: Step)
    requires Inv(t, s) && Enabled(t, s, step) && step.Foreign?
    ensures Inv(t, Next(t, s, step))
  {
    var s' := Next(t, s, step);
    hide Count;
    forall id ensures JobPlaced(s', id) {
      assert JobPlaced(s, id);
      assert id in s.status ==> Lookup(s'.redis, id) == Lookup(s.redis, id);
    }
    RuntimesKept(t, s, s');
    PeersKept(t, s, s', "");
  }

  /** Steps that change the process set, a phase, a sweep or the clock. */
  predicate Membership(step: Step) {
    || step.Ping? || step.Stop? || step.Deregister? || step.Forget? || step.Tick?
    || step.StartScan? || step.ScanKey? || step.ReadMembers? || step.Judge? || step.EndSweep?
  }

  lemma MembershipRedis(t: Timing, s: State, step: Step)
    requires Enabled(t, s, step) && Membership(step)
    ensures var s' := Next(t, s, step); s'.redis == s.redis.(processes := s'.redis.processes) && s'.status == s.status
  {
    hide Unknown, Spares, Executes, Misses, MayClaim, SameRoute, DeadProcesses, Promote, Recover, TakeLast;
    hide PushTo, Mark, Acknowledge, RetryFailed;
    hide FinishDead, Release, DeleteClaim, Settle, WithRuntime, Moved, Possible, Given, Recovered;
  }

  lemma SamePlaces(s: State, s': State, id: string)
    requires JobPlaced(s, id) && s'.redis == s.redis.(processes := s'.redis.processes) && s'.status == s.status
    ensures JobPlaced(s', id)
  {
    assert forall place :: Count(s'.redis, place, id) == Count(s.redis, place, id);
    hide Count;
  }

  /** The process has stopped, has registered, or goes on with its runtime. */
  predicate GoesOn(p: Process, p': Process) {
    || (p'.phase == Stopped && p'.runtime == NEW_RUNTIME)
    || (p'.runtime == p.runtime && (p'.phase == p.phase || (p.phase == Unregistered && p'.phase == Running)))
  }

  lemma MembershipGoesOn(t: Timing, s: State, step: Step, q: string)
    requires Enabled(t, s, step) && Membership(step)
    ensures GoesOn(Proc(s, q), Proc(Next(t, s, step), q))
  {
    hide Next, Enabled;
    if step.Ping? || step.Stop? || step.Deregister? || step.Forget? || step.Tick? {
      PhaseGoesOn(t, s, step, q);
    } else {
      SweepStepGoesOn(t, s, step, q);
    }
  }

  lemma PhaseGoesOn(t: Timing, s: State, step: Step, q: string)
    requires Enabled(t, s, step) && (step.Ping? || step.Stop? || step.Deregister? || step.Forget? || step.Tick?)
    ensures GoesOn(Proc(s, q), Proc(Next(t, s, step), q))
  {
    hide DeadProcesses, Promote, Recover, TakeLast, PushTo, Mark, Settle, WithRuntime, Moved, Possible, Given, Recovered;
  }

  lemma SweepStepGoesOn(t: Timing, s: State, step: Step, q: string)
    requires Enabled(t, s, step)
    requires step.StartScan? || step.ScanKey? || step.ReadMembers? || step.Judge? || step.EndSweep?
    ensures GoesOn(Proc(s, q), Proc(Next(t, s, step), q))
  {
    hide DeadProcesses, Promote, Recover, TakeLast, PushTo, Mark, Settle, WithRuntime, Moved, Possible, Given, Recovered;
  }

  lemma NewRuntime()
    ensures Sound(NEW_RUNTIME) && (forall id :: Accounted(NEW_RUNTIME, id) == 0) && forall k :: !Holds(NEW_RUNTIME, k)
  {
    hide Sound;
    NewIsSound();
    forall id ensures Accounted(NEW_RUNTIME, id) == 0 { assert HoldersOf(NEW_RUNTIME.holders, id) == {}; }
  }

  lemma StillHandled(t: Timing, s: State, s': State, q: string, id: string, k: Permit)
    requires Handled(s, q, id) && Known(s, q, k) && Tended(s, q) && Beats(t, s, q) && JobPlaced(s, id) && s'.status == s.status
    requires GoesOn(Proc(s, q), Proc(s', q))
    ensures Handled(s', q, id) && Known(s', q, k) && Tended(s', q)
  {
    hide Accounted, Sound;
    NewRuntime();
    if Proc(s, q).phase == Unregistered { UnregisteredEmpty(t, s, q, id); }
  }

  lemma MembershipKeepsJobs(t: Timing, s: State, step: Step)
    requires Inv(t, s) && Enabled(t, s, step) && Membership(step)
    ensures var s' := Next(t, s, step);
            && (forall id :: JobPlaced(s', id)) && (forall q, x :: Handled(s', q, x))
            && (forall q, k :: Known(s', q, k)) && forall q :: Tended(s', q)
  {
    hide JobPlaced, Handled, Known, Tended, Beats, Sweeps, Next, GoesOn;
    var s' := Next(t, s, step);
    MembershipRedis(t, s, step);
    forall id ensures JobPlaced(s', id) { SamePlaces(s, s', id); }
    forall q, x ensures Handled(s', q, x) && Tended(s', q) {
      MembershipGoesOn(t, s, step, q);
      assert Handled(s, q, x) && Known(s, q, Permit("", 0)) && Tended(s, q);
      StillHandled(t, s, s', q, x, Permit("", 0));
    }
    forall q, k ensures Known(s', q, k) && Tended(s', q) {
      MembershipGoesOn(t, s, step, q);
      assert Handled(s, q, "") && Known(s, q, k) && Tended(s, q);
      StillHandled(t, s, s', q, "", k);
    }
    forall q ensures Tended(s', q) { assert Known(s', q, Permit("", 0)); }
  }

  lemma UnregisteredEmpty(t: Timing, s: State, q: string, id: string)
    requires Beats(t, s, q) && JobPlaced(s, id) && Proc(s, q).phase == Unregistered
    ensures id in s.status ==> s.status[id] != At(Processing(q))
  {
    assert Count(s.redis, Processing(q), id) == 0;
  }

  lemma PingKeeps(t: Timing, s: State, step: Step)
    requires Inv(t, s) && Enabled(t, s, step) && step.Ping?
    ensures var s' := Next(t, s, step); (forall q :: Beats(t, s', q)) && forall q :: Sweeps(t, s', q)
  {
    var s', p := Next(t, s, step), step.p;
    forall q ensures Beats(t, s', q) && Sweeps(t, s', q) {
      assert Beats(t, s, q) && Sweeps(t, s, q);
      assert Proc(s', q) == if q == p then Proc(s, q).(phase := Running) else Proc(s, q);
      forall x ensures Safe(t, s', Proc(s', q).sweep, x) { assert Safe(t, s, Proc(s, q).sweep, x); }
    }
  }

  /** A process that is not running is taken out of the process set, or stops. */
  lemma LeaveKeeps(t: Timing, s: State, step: Step)
    requires Inv(t, s) && Enabled(t, s, step) && (step.Stop? || step.Deregister? || step.Forget?)
    ensures var s' := Next(t, s, step); (forall q :: Beats(t, s', q)) && forall q :: Sweeps(t, s', q)
  {
    var s' := Next(t, s, step);
    if step.Forget? { SweptIsStopped(t, s, step.p, step.dead); }
    forall q ensures Beats(t, s', q) && Sweeps(t, s', q) {
      assert Beats(t, s, q) && Sweeps(t, s, q);
      assert (step.Stop? && q == step.p) || Proc(s', q) == Proc(s, q);
      forall x ensures Safe(t, s', Proc(s', q).sweep, x) { assert Safe(t, s, Proc(s, q).sweep, x); }
    }
  }

  lemma TickKeeps(t: Timing, s: State, step: Step)
    requires Inv(t, s) && Enabled(t, s, step) && step.Tick?
    ensures var s' := Next(t, s, step); (forall q :: Beats(t, s', q)) && forall q :: Sweeps(t, s', q)
  {
    var s' := Next(t, s, step);
    forall q ensures Beats(t, s', q) && Sweeps(t, s', q) {
      assert Beats(t, s, q) && Sweeps(t, s, q);
      assert Proc(s', q) == Proc(s, q) && Runs(s, q) == Runs(s', q);
      forall x ensures Safe(t, s', Proc(s', q).sweep, x) {
        assert Safe(t, s, Proc(s, q).sweep, x) && Proc(s', x) == Proc(s, x);
      }
    }
  }

  predicate SweepStep(step: Step) {
    step.StartScan? || step.ScanKey? || step.ReadMembers? || step.Judge? || step.EndSweep?
  }

  /** What one process has read after its next step of a sweep. */
  predicate SweepGoesOn(t: Timing, s: State, before: Sweep, after: Sweep) {
    || after == Idle || after == Scanning({})
    || (before.Scanning? && after == Compared(before.lists, s.redis.processes, s.now))
    || (before.Scanning? && after.Scanning? && forall q <- after.lists - before.lists :: ListAt(s.redis.processing, q) != [])
    || (before.Compared? && after == Recovering(DeadProcesses(before.lists, before.members, s.now - t.threshold)))
  }

  lemma SweepFrame(t: Timing, s: State, step: Step)
    requires Enabled(t, s, step) && SweepStep(step)
    ensures var sweep := Proc(Next(t, s, step), step.p).sweep;
            && Next(t, s, step) == With(s, step.p, Proc(s, step.p).(sweep := sweep))
            && SweepGoesOn(t, s, Proc(s, step.p).sweep, sweep) && (Runs(s, step.p) || sweep == Idle)
  {}

  lemma SweptSafely(t: Timing, s: State, before: Sweep, after: Sweep, x: string)
    requires t.Valid() && Beats(t, s, x) && Safe(t, s, before, x) && SweepGoesOn(t, s, before, after)
    ensures Safe(t, s, after, x)
  {}

  /** One process goes on with its sweep. A live peer was pinged at most `heartbeat` before the
      process set was read, and at most `delay` has passed since: it is not judged dead. */
  lemma SweepStepKeeps(t: Timing, s: State, step: Step)
    requires t.Valid() && Inv(t, s) && Enabled(t, s, step) && SweepStep(step)
    ensures var s' := Next(t, s, step); (forall q :: Beats(t, s', q)) && forall q :: Sweeps(t, s', q)
  {
    hide Next, SweepGoesOn;
    var s', p := Next(t, s, step), step.p;
    SweepFrame(t, s, step);
    forall q ensures Beats(t, s', q) && Sweeps(t, s', q) {
      assert Beats(t, s, q) && Sweeps(t, s, q);
      assert q != p ==> Proc(s', q) == Proc(s, q);
      forall x ensures Safe(t, s', Proc(s', q).sweep, x) {
        assert Beats(t, s, x) && Safe(t, s, Proc(s, q).sweep, x);
        if q == p { SweptSafely(t, s, Proc(s, p).sweep, Proc(s', p).sweep, x); }
        assert Proc(s', x).phase == Proc(s, x).phase;
      }
    }
  }

  /** Every step keeps the invariant. */
  lemma StepKeepsInv(t: Timing, s: State, step: Step)
    requires t.Valid() && Inv(t, s) && Enabled(t, s, step)
    ensures Inv(t, Next(t, s, step))
  {
    hide Inv, Next, Enabled;
    if step.StorePayload? || step.PlaceNow? || step.PlaceLater? {
      EnqueueKeeps(t, s, step);
    } else if step.Claim? || step.ClaimUnseen? {
      ClaimKeeps(t, s, step);
    } else if step.Ack? || step.Kill? {
      EndKeeps(t, s, step);
    } else if step.Fail? {
      FailKeeps(t, s, step);
    } else if step.ReleaseAbsent? || step.DeleteAbsent? {
      AbsentKeeps(t, s, step);
    } else if step.Rewrite? {
      RewriteKeeps(t, s, step);
    } else if step.Local? {
      LocalKeeps(t, s, step);
    } else if step.FindAbsent? {
      FindAbsentKeeps(t, s, step);
    } else if step.Untrack? {
      UntrackKeeps(t, s, step);
    } else if step.PromoteDue? {
      PromoteKeeps(t, s, step);
    } else if step.RecoverClaim? {
      RecoverKeeps(t, s, step);
    } else if step.Foreign? {
      ForeignKeeps(t, s, step);
    } else {
      MembershipStepKeeps(t, s, step);
    }
  }

  lemma MembershipStepKeeps(t: Timing, s: State, step: Step)
    requires t.Valid() && Inv(t, s) && Enabled(t, s, step) && Membership(step)
    ensures Inv(t, Next(t, s, step))
  {
    hide JobPlaced, Handled, Known, Tended, Beats, Sweeps, Next, Enabled;
    MembershipKeepsJobs(t, s, step);
    if step.Ping? {
      PingKeeps(t, s, step);
    } else if step.Stop? || step.Deregister? || step.Forget? {
      LeaveKeeps(t, s, step);
    } else if step.Tick? {
      TickKeeps(t, s, step);
    } else {
      SweepStepKeeps(t, s, step);
    }
  }

  // ----- what holds in every run ------------------------------------------------

  /** Every interleaving of the steps of all processes, from an empty store on, keeps the invariant. */
  lemma {:induction false} RunKeepsInv(t: Timing, steps: seq<Step>)
    requires t.Valid()
    ensures Run(t, steps).Some? ==> Inv(t, Run(t, steps).value)
  {
    hide Next, Enabled;
    if steps != [] {
      hide Inv;
      RunKeepsInv(t, steps[..|steps| - 1]);
      var before := Run(t, steps[..|steps| - 1]);
      if Run(t, steps).Some? { StepKeepsInv(t, before.value, steps[|steps| - 1]); }
    }
  }

  /** A tracked job, once placed and until it ends, is in exactly one queue list, schedule, retry
      set or processing list, and there exactly once; its payload is stored; a finished one is nowhere. */
  lemma ExactlyOnePlace(t: Timing, steps: seq<Step>, s: State, id: string)
    requires t.Valid() && Run(t, steps) == Some(s) && id in s.status
    ensures match s.status[id]
            case At(here) => id in s.redis.jobs && forall place :: Count(s.redis, place, id) == if place == here then 1 else 0
            case Stored => id in s.redis.jobs && forall place :: Count(s.redis, place, id) == 0
            case Finished => id !in s.redis.jobs && forall place :: Count(s.redis, place, id) == 0
  {
    hide Run, Count;
    RunKeepsInv(t, steps);
    assert JobPlaced(s, id);
  }

  /** A claim of a tracked job is in the hands of one holder at most, in all processes. */
  lemma OneHolder(t: Timing, steps: seq<Step>, s: State, id: string, p: string, k: Permit, q: string, l: Permit)
    requires t.Valid() && Run(t, steps) == Some(s) && id in s.status
    requires Holds(Proc(s, p).runtime, k) && IdOf(s, p, k) == id && Holds(Proc(s, q).runtime, l) && IdOf(s, q, l) == id
    ensures p == q && k == l && Runs(s, p) && Count(s.redis, Processing(p), id) == 1 && Proc(s, p).runtime.dropped[id] == 0
  {
    hide Run, Count, Sound;
    RunKeepsInv(t, steps);
    InHands(Proc(s, p).runtime, k);
    InHands(Proc(s, q).runtime, l);
    assert Handled(s, p, id) && Handled(s, q, id) && JobPlaced(s, id);
    AtMostOne(Proc(s, p).runtime, id, k, l);
  }

  lemma AtMostOne(r: Runtime, id: string, k: Permit, l: Permit)
    requires Holds(r, k) && Holds(r, l) && r.holders[k].id == id == r.holders[l].id && Hands(r, id) <= 1
    ensures k == l
  {
    var holders := HoldersOf(r.holders, id);
    assert {k, l} <= holders;
    if k != l {
      assert |{k, l}| == 2;
      SubsetSize({k, l}, holders);
    }
  }

  lemma {:induction false} SubsetSize(a: set<Permit>, b: set<Permit>)
    requires a <= b
    ensures |a| <= |b|
  {
    if a != {} {
      var x :| x in a;
      SubsetSize(a - {x}, b - {x});
    }
  }

  /** In every run, the tracked jobs in the processing list of a live runtime are exactly those in
      its hands and those it has dropped, each once. */
  lemma ListIsAccounted(t: Timing, steps: seq<Step>, s: State, p: string, id: string)
    requires t.Valid() && Run(t, steps) == Some(s) && id in s.status && Runs(s, p)
    ensures multiset(ListAt(s.redis.processing, p))[id] == Hands(Proc(s, p).runtime, id) + Proc(s, p).runtime.dropped[id] <= 1
  {
    hide Run, Sound;
    RunKeepsInv(t, steps);
    assert Handled(s, p, id) && JobPlaced(s, id);
    assert Count(s.redis, Processing(p), id) == multiset(ListAt(s.redis.processing, p))[id];
  }

  /** A claim without a holder has a failure to come, until the runtime is cancelled. */
  lemma FailureToCome(t: Timing, steps: seq<Step>, s: State, p: string)
    requires t.Valid() && Run(t, steps) == Some(s) && Runs(s, p) && !Proc(s, p).runtime.cancelled
    requires Proc(s, p).runtime.dropped != multiset{}
    ensures Proc(s, p).runtime.failures > 0 && Enabled(t, s, Local(p, FailNow))
    ensures Proc(Next(t, s, Local(p, FailNow)), p).runtime.cancelled
  {
    hide Run;
    RunKeepsInv(t, steps);
    assert Tended(s, p);
  }

  /** Every tracked job in the list of a live runtime is in its hands if and only if the runtime
      has dropped none of them; with no failure to come and not cancelled, it has dropped none. */
  lemma NoOrphan(t: Timing, steps: seq<Step>, s: State, p: string)
    requires t.Valid() && Run(t, steps) == Some(s) && Runs(s, p)
    ensures (forall id <- s.status :: id in ListAt(s.redis.processing, p) ==> Held(Proc(s, p).runtime, id)) <==>
              forall id <- s.status :: id !in Proc(s, p).runtime.dropped
    ensures !Proc(s, p).runtime.cancelled && Proc(s, p).runtime.failures == 0 ==> Proc(s, p).runtime.dropped == multiset{}
  {
    hide Run, Sound;
    RunKeepsInv(t, steps);
    var r := Proc(s, p).runtime;
    SoundDropped(t, s, p);
    forall id | id in s.status
      ensures id in ListAt(s.redis.processing, p) && Held(r, id) ==> id !in r.dropped
      ensures id in ListAt(s.redis.processing, p) && !Held(r, id) ==> id in r.dropped
      ensures id in r.dropped ==> id in ListAt(s.redis.processing, p)
    {
      ListIsAccounted(t, steps, s, p, id);
      HeldIsInHands(r, id);
      assert id in ListAt(s.redis.processing, p) <==> multiset(ListAt(s.redis.processing, p))[id] > 0;
    }
  }

  predicate Held(r: Runtime, id: string) { exists k :: k in r.holders && r.holders[k].Holding? && r.holders[k].id == id }

  lemma HeldIsInHands(r: Runtime, id: string)
    ensures Held(r, id) <==> Hands(r, id) > 0
  {
    var holders := HoldersOf(r.holders, id);
    if Held(r, id) {
      var k :| k in r.holders && r.holders[k].Holding? && r.holders[k].id == id;
      assert k in holders;
    }
    if |holders| > 0 {
      var k :| k in holders;
      assert Held(r, id);
    }
  }

  lemma SoundDropped(t: Timing, s: State, p: string)
    requires Inv(t, s)
    ensures var r := Proc(s, p).runtime; !r.cancelled && r.failures == 0 ==> r.dropped == multiset{}
  {
    assert Tended(s, p);
  }

  /** In every run the holders of a runtime are the permits of its queues that are in use, and
      the gate of each queue counts them. */
  lemma HoldersArePermits(t: Timing, steps: seq<Step>, s: State, p: string, queue: string)
    requires t.Valid() && Run(t, steps) == Some(s)
    ensures var r := Proc(s, p).runtime;
            var clients := set k <- r.holders | k.queue == queue :: k.client;
            clients == Gate.Permits(GateOf(r, queue)) && GateOf(r, queue).control.active == |clients|
  {
    hide Run, Sound;
    RunKeepsInv(t, steps);
    assert Tended(s, p);
    ActiveAreHolders(Proc(s, p).runtime, queue);
  }

  /** No process ever gets a new holder but through a gate that is active and below its limit. */
  lemma HolderNeedsGate(t: Timing, steps: seq<Step>, s: State, step: Step, p: string, k: Permit)
    requires t.Valid() && Run(t, steps) == Some(s) && Enabled(t, s, step)
    requires k !in Proc(s, p).runtime.holders && k in Proc(Next(t, s, step), p).runtime.holders
    ensures var r := Proc(s, p).runtime;
            && step == Local(p, AtGate(k.queue, Gate.Check(k.client))) && k.queue in r.gates
            && r.gates[k.queue].control.queueState == Gate.Active
            && |set l <- r.holders | l.queue == k.queue :: l.client| < r.gates[k.queue].control.concurrency
  {
    hide Run, Sound;
    RunKeepsInv(t, steps);
    assert Tended(s, p);
    OnlyLocalAdds(t, s, step, p, k);
    NewHolderNeedsGate(Proc(s, p).runtime, step.move, k);
  }

  /** A command of a holder to Redis. */
  predicate ActsFor(step: Step) {
    || step.Claim? || step.ClaimUnseen? || step.Ack? || step.Fail? || step.Kill?
    || step.FindAbsent? || step.ReleaseAbsent? || step.DeleteAbsent?
  }

  lemma ActingKeepsHolders(t: Timing, s: State, step: Step, p: string)
    requires Enabled(t, s, step) && ActsFor(step)
    ensures Proc(Next(t, s, step), p).runtime.holders.Keys == Proc(s, p).runtime.holders.Keys
  {
    hide Moved, Possible, Promote, Recover, TakeLast, Acknowledge, RetryFailed, FinishDead, Release, DeleteClaim, PushTo, DeadProcesses;
    hide Spares, SameRoute, ListAt, Recovered, Unknown;
    hide Given;
    GivenKeys(Proc(s, step.p).runtime, step.k);
  }

  lemma GivenKeys(r: Runtime, k: Permit)
    requires k in r.holders
    ensures forall h :: Given(r, k, h).holders.Keys == r.holders.Keys
  {
    forall h ensures Given(r, k, h).holders.Keys == r.holders.Keys { assert r.holders[k := h].Keys == r.holders.Keys + {k}; }
  }

  lemma OthersKeepHolders(t: Timing, s: State, step: Step, p: string)
    requires Enabled(t, s, step) && !ActsFor(step) && !(step.Local? && step.p == p)
    ensures Proc(Next(t, s, step), p).runtime in {Proc(s, p).runtime, NEW_RUNTIME}
  {
    hide Moved, Possible, Promote, Recover, TakeLast, Acknowledge, RetryFailed, FinishDead, Release, DeleteClaim, PushTo, DeadProcesses;
    hide Spares, SameRoute, ListAt, Recovered, Unknown;
  }

  lemma OnlyLocalAdds(t: Timing, s: State, step: Step, p: string, k: Permit)
    requires Enabled(t, s, step)
    requires k !in Proc(s, p).runtime.holders && k in Proc(Next(t, s, step), p).runtime.holders
    ensures step.Local? && step.p == p && Possible(Proc(s, p).runtime, step.move)
    ensures step.Local? ==> Proc(Next(t, s, step), p).runtime == Moved(Proc(s, p).runtime, step.move)
  {
    hide Next, Moved, Possible;
    if ActsFor(step) { ActingKeepsHolders(t, s, step, p); } else if !(step.Local? && step.p == p) { OthersKeepHolders(t, s, step, p); }
    if step.Local? { LocalFrame(t, s, step); }
  }

  /** A live peer was pinged at most `heartbeat` before the process set was read, and at most
      `delay` has passed since: it is not judged dead. */
  lemma JudgedAreStopped(t: Timing, s: State, step: Step, q: string)
    requires t.Valid() && Inv(t, s) && Enabled(t, s, step) && step.Judge?
    requires var sweep := Proc(s, step.p).sweep; q in DeadProcesses(sweep.lists, sweep.members, s.now - t.threshold)
    ensures Proc(s, q).phase == Stopped
  {
    assert Sweeps(t, s, step.p) && Safe(t, s, Proc(s, step.p).sweep, q);
  }

  /** No process that may still be executing jobs is judged dead: what a sweeper takes for dead
      has stopped, and so has every process whose claims it moves or whose record it drops. */
  lemma NoLiveProcessSwept(t: Timing, steps: seq<Step>, s: State, step: Step, q: string)
    requires t.Valid() && Run(t, steps) == Some(s) && Enabled(t, s, step)
    requires match step
             case RecoverClaim(_, dead, _, _) => q == dead
             case Forget(_, dead) => q == dead
             case Judge(p) =>
               var sweep := Proc(s, p).sweep;
               q in DeadProcesses(sweep.lists, sweep.members, s.now - t.threshold)
             case _ => false
    ensures Proc(s, q).phase == Stopped
  {
    hide Run;
    RunKeepsInv(t, steps);
    if step.Judge? { JudgedAreStopped(t, s, step, q); } else { SweptIsStopped(t, s, step.p, q); }
  }
}
