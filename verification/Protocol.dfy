/** The protocol by which processes claim, finish, retry and recover jobs, as a transition
    system: every Redis command or script is one step, and the steps of all clients
    interleave freely. Time is one global clock. */
module Protocol {
  import opened Options
  import opened Claims

  datatype Payload = Payload(queue: string, resurrect: bool, rest: string)

  datatype Location = Queue(name: string) | Schedule | Retry | Processing(pid: string)

  datatype Redis = Redis(
    jobs: map<string, Payload>,
    queues: map<string, seq<string>>,
    schedule: map<string, int>,
    retry: map<string, int>,
    processing: map<string, seq<string>>,
    processes: map<string, int>,
    dead: seq<(string, Payload)>)

  datatype Phase = Unregistered | Running | Stopped

  /** How far a process is in looking for dead peers. */
  datatype Sweep =
    | Idle
    | Scanning(lists: set<string>)
    | Compared(lists: set<string>, members: map<string, int>, at: int)
    | Recovering(dead: set<string>)

  datatype Process = Process(phase: Phase, runtime: Runtime, sweep: Sweep)

  /** Where a tracked job is: stored but not yet placed, in a place, or finished. */
  datatype Status = Stored | At(place: Location) | Finished

  datatype State = State(now: int, redis: Redis, processes: map<string, Process>, status: map<string, Status>)

  /** A live process refreshes its score within `heartbeat`; a sweeper reads the clock within
      `delay` of reading the process set; a score older than `threshold` is dead. */
  datatype Timing = Timing(heartbeat: nat, delay: nat, threshold: nat) {
    predicate Valid() { heartbeat + delay <= threshold }
  }

  const NEW_PROCESS := Process(Unregistered, NEW_RUNTIME, Idle)

  const START := State(0, Redis(map[], map[], map[], map[], map[], map[], []), map[], map[])

  function ListAt(lists: map<string, seq<string>>, key: string): seq<string> {
    if key in lists then lists[key] else []
  }

  function Proc(s: State, p: string): Process {
    if p in s.processes then s.processes[p] else NEW_PROCESS
  }

  predicate Runs(s: State, p: string) { Proc(s, p).phase == Running }

  function Count(r: Redis, place: Location, id: string): nat {
    match place
    case Queue(name) => multiset(ListAt(r.queues, name))[id]
    case Schedule => if id in r.schedule then 1 else 0
    case Retry => if id in r.retry then 1 else 0
    case Processing(pid) => multiset(ListAt(r.processing, pid))[id]
  }

  /** LREM with count 1. */
  function RemoveOne(items: seq<string>, id: string): (r: seq<string>)
    ensures multiset(r) == multiset(items) - multiset{id}
  {
    if items == [] then []
    else
      assert items == [items[0]] + items[1..];
      if items[0] == id then items[1..] else [items[0]] + RemoveOne(items[1..], id)
  }

  function RemoveAll(items: seq<string>, id: string): (r: seq<string>)
    ensures multiset(r)[id] == 0 && forall other :: other != id ==> multiset(r)[other] == multiset(items)[other]
  {
    if items == [] then []
    else
      assert items == [items[0]] + items[1..];
      if items[0] == id then RemoveAll(items[1..], id) else [items[0]] + RemoveAll(items[1..], id)
  }

  function Lookup(r: Redis, id: string): Option<Payload> { if id in r.jobs then Some(r.jobs[id]) else None }

  // ----- the scripts and commands -----------------------------------------------

  function Release(r: Redis, p: string, id: string): Redis {
    r.(processing := r.processing[p := RemoveOne(ListAt(r.processing, p), id)])
  }

  function PushTo(r: Redis, queue: string, id: string): Redis {
    r.(queues := r.queues[queue := [id] + ListAt(r.queues, queue)])
  }

  /** LMOVE from the right end of a queue to the left end of the process's own list. */
  function TakeLast(r: Redis, queue: string, p: string): Redis
    requires ListAt(r.queues, queue) != []
  {
    var items := ListAt(r.queues, queue);
    r.(queues := r.queues[queue := items[..|items| - 1]],
       processing := r.processing[p := [items[|items| - 1]] + ListAt(r.processing, p)])
  }

  function Acknowledge(r: Redis, p: string, id: string): Redis { Release(r.(jobs := r.jobs - {id}), p, id) }

  function RetryFailed(r: Redis, p: string, id: string, payload: Payload, score: int): Redis {
    Release(r.(jobs := r.jobs[id := payload], retry := r.retry[id := score]), p, id)
  }

  function FinishDead(r: Redis, p: string, id: string, payload: Payload): Redis {
    Release(r.(dead := [(id, payload)] + r.dead, jobs := r.jobs - {id}), p, id)
  }

  /** A scheduled job moves only if its score and payload are still those that were read. */
  function Promote(r: Redis, retries: bool, id: string, expected: Option<Payload>, score: int): Redis {
    var scores := if retries then r.retry else r.schedule;
    if id !in scores || scores[id] != score || Lookup(r, id) != expected then r
    else
      var pushed := if expected.Some? then PushTo(r, expected.value.queue, id) else r;
      if retries then pushed.(retry := scores - {id}) else pushed.(schedule := scores - {id})
  }

  /** A claim of a dead process moves only if it still is one and its payload is the one read. */
  function Recover(r: Redis, dead: string, id: string, expected: Option<Payload>): Redis {
    if id !in ListAt(r.processing, dead) || Lookup(r, id) != expected then r
    else
      var placed :=
        if expected.None? then r
        else if expected.value.resurrect then PushTo(r, expected.value.queue, id)
        else r.(jobs := r.jobs - {id});
      Release(placed, dead, id)
  }

  /** `delete_job` by the process that found no payload. */
  function DeleteClaim(r: Redis, p: string, id: string): Redis {
    r.(jobs := r.jobs - {id}, schedule := r.schedule - {id}, retry := r.retry - {id},
       processing := r.processing[p := RemoveAll(ListAt(r.processing, p), id)])
  }

  /** Dead are the members with an old score, and the lists whose process is no member. */
  function DeadProcesses(lists: set<string>, members: map<string, int>, oldest: int): set<string> {
    (set p | p in members && members[p] < oldest) + (set p | p in lists && p !in members)
  }

  // ----- steps ------------------------------------------------------------------

  datatype Step =
    | StorePayload(id: string, payload: Payload)       // HSET of a new job
    | PlaceNow(id: string)                             // LPUSH
    | PlaceLater(id: string, score: int)               // ZADD
    | Ping(p: string, at: int)
    | Claim(p: string, k: Permit)
    | ClaimUnseen(p: string, k: Permit)                // LMOVE committed, its answer lost
    | Rewrite(p: string, k: Permit, payload: Payload)  // started_at, state
    | Ack(p: string, k: Permit)
    | Fail(p: string, k: Permit, payload: Payload, score: int)
    | Kill(p: string, k: Permit, payload: Payload)
    | FindAbsent(p: string, k: Permit)
    | ReleaseAbsent(p: string, k: Permit)
    | DeleteAbsent(p: string, k: Permit)
    | Local(p: string, move: Move)                     // inside the runtime: no command
    | Stop(p: string)                                  // crash, or the last task has ended
    | Deregister(p: string)
    | PromoteDue(retries: bool, id: string, expected: Option<Payload>, score: int)
    | StartScan(p: string)
    | ScanKey(p: string, list: string)
    | ReadMembers(p: string)
    | Judge(p: string)
    | RecoverClaim(p: string, dead: string, id: string, expected: Option<Payload>)
    | Forget(p: string, dead: string)
    | EndSweep(p: string)
    | Untrack(id: string)                              // deleted, wiped, expired or replaced
    | Foreign(redis: Redis)                            // anything, to ids that are not tracked
    | Tick(d: nat)

  /** Nothing in Redis or in a process mentions the id: a fresh UUID. */
  ghost predicate Unknown(s: State, id: string) {
    && id !in s.status && id !in s.redis.jobs && (forall place :: Count(s.redis, place, id) == 0)
    && forall p :: Accounted(Proc(s, p).runtime, id) == 0
  }

  /** Tracked jobs, heartbeats and the lists of processes to come are left alone. */
  ghost predicate Spares(s: State, r: Redis) {
    && r.processes == s.redis.processes
    && (forall id <- s.status :: Lookup(r, id) == Lookup(s.redis, id))
    && (forall id, place :: id in s.status ==> Count(r, place, id) == Count(s.redis, place, id))
    && (forall p :: Proc(s, p).phase == Unregistered ==> ListAt(r.processing, p) == [])
  }

  /** A task of the process has the claim of the permit, and its payload. */
  predicate Executes(s: State, p: string, k: Permit) {
    Runs(s, p) && Holds(Proc(s, p).runtime, k) && Proc(s, p).runtime.holders[k].stage == Executing
    && !Proc(s, p).runtime.holders[k].absent
  }

  predicate Misses(s: State, p: string, k: Permit) {
    Runs(s, p) && Holds(Proc(s, p).runtime, k) && Proc(s, p).runtime.holders[k].absent
  }

  predicate MayClaim(s: State, p: string, k: Permit) {
    Runs(s, p) && k in Proc(s, p).runtime.holders && Proc(s, p).runtime.holders[k] == Empty
    && ListAt(s.redis.queues, k.queue) != []
  }

  function IdOf(s: State, p: string, k: Permit): string {
    if Holds(Proc(s, p).runtime, k) then Proc(s, p).runtime.holders[k].id else ""
  }

  /** The job at the end of a queue from which it is claimed. */
  function LastOf(s: State, queue: string): string {
    var items := ListAt(s.redis.queues, queue);
    if items == [] then "" else items[|items| - 1]
  }

  predicate SameRoute(s: State, id: string, payload: Payload) {
    id in s.redis.jobs ==> payload.queue == s.redis.jobs[id].queue && payload.resurrect == s.redis.jobs[id].resurrect
  }

  ghost predicate Enabled(t: Timing, s: State, step: Step) {
    match step
    case StorePayload(id, _) => Unknown(s, id)
    case PlaceNow(id) => id in s.status && s.status[id] == Stored && id in s.redis.jobs
    case PlaceLater(id, _) => id in s.status && s.status[id] == Stored
    case Ping(p, at) => Proc(s, p).phase != Stopped && s.now - t.heartbeat <= at <= s.now
    case Claim(p, k) => MayClaim(s, p, k)
    case ClaimUnseen(p, k) => MayClaim(s, p, k)
    case Rewrite(p, k, payload) => Executes(s, p, k) && SameRoute(s, IdOf(s, p, k), payload)
    case Ack(p, k) => Executes(s, p, k)
    case Fail(p, k, payload, _) => Executes(s, p, k) && SameRoute(s, IdOf(s, p, k), payload)
    case Kill(p, k, _) => Executes(s, p, k)
    case FindAbsent(p, k) => Runs(s, p) && Holds(Proc(s, p).runtime, k) && IdOf(s, p, k) !in s.redis.jobs
    case ReleaseAbsent(p, k) => Misses(s, p, k)
    case DeleteAbsent(p, k) => Misses(s, p, k)
    case Local(p, move) => Runs(s, p) && Possible(Proc(s, p).runtime, move)
    case Stop(_) => true
    case Deregister(p) => Proc(s, p).phase == Stopped
    case PromoteDue(_, _, _, _) => true
    case StartScan(p) => Runs(s, p) && Proc(s, p).sweep == Idle
    case ScanKey(p, list) => Runs(s, p) && Proc(s, p).sweep.Scanning? && ListAt(s.redis.processing, list) != []
    case ReadMembers(p) => Runs(s, p) && Proc(s, p).sweep.Scanning?
    case Judge(p) => Runs(s, p) && Proc(s, p).sweep.Compared?
    case RecoverClaim(p, dead, _, _) => Runs(s, p) && Proc(s, p).sweep.Recovering? && dead in Proc(s, p).sweep.dead
    case Forget(p, dead) => Runs(s, p) && Proc(s, p).sweep.Recovering? && dead in Proc(s, p).sweep.dead
    case EndSweep(p) => Runs(s, p)
    case Untrack(id) => true
    case Foreign(r) => Spares(s, r)
    case Tick(d) =>
      && (forall p :: Runs(s, p) && p in s.redis.processes ==> s.now + d - s.redis.processes[p] <= t.heartbeat)
      && (forall p :: Runs(s, p) && Proc(s, p).sweep.Compared? ==> s.now + d - Proc(s, p).sweep.at <= t.delay)
  }

  function With(s: State, p: string, proc: Process): State { s.(processes := s.processes[p := proc]) }

  /** A tracked job gets a new status; the others keep having none. */
  function Mark(s: State, id: string, status: Status): State {
    if id in s.status then s.(status := s.status[id := status]) else s
  }

  /** A job that does not ask to be resurrected ends with its process. */
  function Recovered(payload: Payload): Status { if payload.resurrect then At(Queue(payload.queue)) else Finished }

  function WithRuntime(s: State, p: string, runtime: Runtime): State { With(s, p, Proc(s, p).(runtime := runtime)) }

  /** The claim is given back; its permit stays in use until it is dropped. */
  function Settle(s: State, p: string, k: Permit): State {
    WithRuntime(s, p, Given(Proc(s, p).runtime, k, Settled))
  }

  function Next(t: Timing, s: State, step: Step): State
    requires step.Claim? || step.ClaimUnseen? ==> ListAt(s.redis.queues, step.k.queue) != []
    requires step.FindAbsent? ==> Holds(Proc(s, step.p).runtime, step.k)
    requires step.Local? ==> Possible(Proc(s, step.p).runtime, step.move)
    requires step.PlaceNow? ==> step.id in s.redis.jobs
    requires step.Judge? ==> Proc(s, step.p).sweep.Compared?
    requires step.ScanKey? || step.ReadMembers? ==> Proc(s, step.p).sweep.Scanning?
  {
    var r := s.redis;
    match step
    case StorePayload(id, payload) => s.(redis := r.(jobs := r.jobs[id := payload]), status := s.status[id := Stored])
    case PlaceNow(id) => s.(redis := PushTo(r, r.jobs[id].queue, id), status := s.status[id := At(Queue(r.jobs[id].queue))])
    case PlaceLater(id, score) => s.(redis := r.(schedule := r.schedule[id := score]), status := s.status[id := At(Schedule)])
    case Ping(p, at) =>
      With(s.(redis := r.(processes := r.processes[p := at])), p, Proc(s, p).(phase := Running))
    case Claim(p, k) =>
      var id := LastOf(s, k.queue);
      Mark(WithRuntime(s.(redis := TakeLast(r, k.queue, p)), p, Claimed(Proc(s, p).runtime, k, id)), id, At(Processing(p)))
    case ClaimUnseen(p, k) =>
      var id := LastOf(s, k.queue);
      Mark(WithRuntime(s.(redis := TakeLast(r, k.queue, p)), p, ClaimedUnseen(Proc(s, p).runtime, k, id)), id, At(Processing(p)))
    case Rewrite(p, k, payload) => s.(redis := r.(jobs := r.jobs[IdOf(s, p, k) := payload]))
    case Ack(p, k) => Mark(Settle(s.(redis := Acknowledge(r, p, IdOf(s, p, k))), p, k), IdOf(s, p, k), Finished)
    case Fail(p, k, payload, score) =>
      Mark(Settle(s.(redis := RetryFailed(r, p, IdOf(s, p, k), payload, score)), p, k), IdOf(s, p, k), At(Retry))
    case Kill(p, k, payload) =>
      Mark(Settle(s.(redis := FinishDead(r, p, IdOf(s, p, k), payload)), p, k), IdOf(s, p, k), Finished)
    case FindAbsent(p, k) =>
      WithRuntime(s, p, Given(Proc(s, p).runtime, k, Proc(s, p).runtime.holders[k].(absent := true)))
    case ReleaseAbsent(p, k) => Settle(s.(redis := Release(r, p, IdOf(s, p, k))), p, k)
    case DeleteAbsent(p, k) => Settle(s.(redis := DeleteClaim(r, p, IdOf(s, p, k))), p, k)
    case Local(p, move) => WithRuntime(s, p, Moved(Proc(s, p).runtime, move))
    case Stop(p) => With(s, p, Process(Stopped, NEW_RUNTIME, Idle))
    case Deregister(p) => s.(redis := r.(processes := r.processes - {p}))
    case PromoteDue(retries, id, expected, score) =>
      var after := Promote(r, retries, id, expected, score);
      if after == r || expected.None? then s.(redis := after)
      else Mark(s.(redis := after), id, At(Queue(expected.value.queue)))
    case StartScan(p) => With(s, p, Proc(s, p).(sweep := Scanning({})))
    case ScanKey(p, list) => With(s, p, Proc(s, p).(sweep := Scanning(Proc(s, p).sweep.lists + {list})))
    case ReadMembers(p) => With(s, p, Proc(s, p).(sweep := Compared(Proc(s, p).sweep.lists, r.processes, s.now)))
    case Judge(p) =>
      var sweep := Proc(s, p).sweep;
      With(s, p, Proc(s, p).(sweep := Recovering(DeadProcesses(sweep.lists, sweep.members, s.now - t.threshold))))
    case RecoverClaim(p, dead, id, expected) =>
      var after := Recover(r, dead, id, expected);
      if after == r || expected.None? then s.(redis := after)
      else Mark(s.(redis := after), id, Recovered(expected.value))
    case Forget(p, dead) => s.(redis := r.(processes := r.processes - {dead}))
    case EndSweep(p) => With(s, p, Proc(s, p).(sweep := Idle))
    case Untrack(id) => s.(status := s.status - {id})
    case Foreign(other) => s.(redis := other)
    case Tick(d) => s.(now := s.now + d)
  }

  /** The state in which a run of the protocol ends; None if one of its steps cannot be taken. */
  ghost function Run(t: Timing, steps: seq<Step>): Option<State> {
    if steps == [] then Some(START)
    else
      match Run(t, steps[..|steps| - 1])
      case None => None
      case Some(s) => var step := steps[|steps| - 1]; if Enabled(t, s, step) then Some(Next(t, s, step)) else None
  }
}
