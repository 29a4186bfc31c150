/** What the steps of the protocol bring about, beside what they keep: jobs of a queue are claimed in
    the order in which they were placed, and the claims of a process that is gone are found. */
module ProtocolEffects {
  import opened Options
  import opened Claims
  import opened Protocol

  /** The state after steps that can be taken from `s` on. */
  ghost function After(t: Timing, s: State, steps: seq<Step>): Option<State> {
    if steps == [] then Some(s)
    else
      match After(t, s, steps[..|steps| - 1])
      case None => None
      case Some(before) =>
        var step := steps[|steps| - 1]; if Enabled(t, before, step) then Some(Next(t, before, step)) else None
  }

  /** Runs go on from any state that a run ends in. */
  lemma {:induction false} RunGoesOn(t: Timing, first: seq<Step>, steps: seq<Step>)
    requires Run(t, first).Some?
    ensures Run(t, first + steps) == After(t, Run(t, first).value, steps)
  {
    hide Enabled, Next;
    if steps == [] {
      assert first + steps == first;
    } else {
      assert (first + steps)[..|first + steps| - 1] == first + steps[..|steps| - 1];
      RunGoesOn(t, first, steps[..|steps| - 1]);
    }
  }

  // ----- first in, first out ----------------------------------------------------

  predicate TakesFrom(step: Step, queue: string) { (step.Claim? || step.ClaimUnseen?) && step.k.queue == queue }

  function ClaimsFrom(steps: seq<Step>, queue: string): nat {
    if steps == [] then 0
    else ClaimsFrom(steps[..|steps| - 1], queue) + if TakesFrom(steps[|steps| - 1], queue) then 1 else 0
  }

  predicate OnlyOurs(steps: seq<Step>) { forall step <- steps :: !step.Foreign? }

  /** A queue gets one more job in front. */
  ghost predicate Prepended(items: seq<string>, items': seq<string>) {
    items' == items || exists id :: items' == [id] + items
  }

  lemma NonePrepended(items: seq<string>)
    ensures Prepended(items, items)
  {}

  lemma PushedQueues(r: Redis, name: string, id: string, queue: string)
    ensures Prepended(ListAt(r.queues, queue), ListAt(PushTo(r, name, id).queues, queue))
  {}

  lemma PromotedQueues(r: Redis, retries: bool, id: string, expected: Option<Payload>, score: int, queue: string)
    ensures Prepended(ListAt(r.queues, queue), ListAt(Promote(r, retries, id, expected, score).queues, queue))
  {
    hide PushTo, Lookup;
    if expected.Some? { PushedQueues(r, expected.value.queue, id, queue); }
  }

  lemma RecoveredQueues(r: Redis, dead: string, id: string, expected: Option<Payload>, queue: string)
    ensures Prepended(ListAt(r.queues, queue), ListAt(Recover(r, dead, id, expected).queues, queue))
  {
    hide PushTo, Lookup, RemoveOne;
    if expected.Some? { PushedQueues(r, expected.value.queue, id, queue); }
  }

  predicate Pushes(step: Step) { step.PlaceNow? || step.PromoteDue? || step.RecoverClaim? }

  lemma PushStep(t: Timing, s: State, step: Step, queue: string)
    requires Enabled(t, s, step) && Pushes(step)
    ensures Prepended(ListAt(s.redis.queues, queue), ListAt(Next(t, s, step).redis.queues, queue))
  {
    hide Prepended, PushTo, Promote, Recover, ListAt, DeadProcesses, Moved, Possible;
    match step {
      case PlaceNow(id) => PushedQueues(s.redis, s.redis.jobs[id].queue, id, queue);
      case PromoteDue(retries, id, expected, score) => PromotedQueues(s.redis, retries, id, expected, score, queue);
      case RecoverClaim(_, dead, id, expected) => RecoveredQueues(s.redis, dead, id, expected, queue);
    }
  }

  lemma TakeStep(t: Timing, s: State, step: Step, queue: string)
    requires Enabled(t, s, step) && (step.Claim? || step.ClaimUnseen?)
    ensures var items, items' := ListAt(s.redis.queues, queue), ListAt(Next(t, s, step).redis.queues, queue);
            if step.k.queue == queue then items != [] && items' == items[..|items| - 1] else items' == items
  {
    hide Claimed, ClaimedUnseen, Promote, Recover, DeadProcesses, Moved, Possible;
  }

  /** Every other step but those of foreign clients leaves the queues alone. */
  lemma OtherStep(t: Timing, s: State, step: Step)
    requires Enabled(t, s, step) && !step.Foreign? && !step.Claim? && !step.ClaimUnseen? && !Pushes(step)
    ensures Next(t, s, step).redis.queues == s.redis.queues
  {
    hide Claimed, ClaimedUnseen, Promote, Recover, DeadProcesses, Moved, Possible, TakeLast, PushTo, RemoveOne, RemoveAll, Given;
    hide Unknown, Spares, SameRoute, ListAt, Recovered;
  }

  /** A claim takes the last job of its queue; any other step leaves the queue, or adds one in front. */
  lemma QueueStep(t: Timing, s: State, step: Step, queue: string)
    requires Enabled(t, s, step) && !step.Foreign?
    ensures var items, items' := ListAt(s.redis.queues, queue), ListAt(Next(t, s, step).redis.queues, queue);
            if TakesFrom(step, queue) then items != [] && items' == items[..|items| - 1] else Prepended(items, items')
  {
    hide Next, Enabled, ListAt;
    if step.Claim? || step.ClaimUnseen? {
      TakeStep(t, s, step, queue);
    } else if Pushes(step) {
      PushStep(t, s, step, queue);
    } else {
      OtherStep(t, s, step);
      NonePrepended(ListAt(s.redis.queues, queue));
    }
  }

  /** `items'` ends with `kept`. */
  predicate EndsWith(items': seq<string>, kept: seq<string>) { |kept| <= |items'| && items'[|items'| - |kept|..] == kept }

  lemma EndPushed(items: seq<string>, id: string, kept: seq<string>)
    requires EndsWith(items, kept)
    ensures EndsWith([id] + items, kept)
  {
    var d := |items| - |kept|;
    assert ([id] + items)[d + 1..] == items[d..];
  }

  lemma EndTaken(items: seq<string>, kept: seq<string>)
    requires EndsWith(items, kept) && kept != []
    ensures EndsWith(items[..|items| - 1], kept[..|kept| - 1])
  {
    var d := |items| - |kept|;
    assert items[..|items| - 1][d..] == items[d..][..|kept| - 1];
  }

  lemma EndStep(items: seq<string>, items': seq<string>, kept: seq<string>)
    requires EndsWith(items, kept)
    ensures Prepended(items, items') ==> EndsWith(items', kept)
    ensures kept != [] && items != [] && items' == items[..|items| - 1] ==> EndsWith(items', kept[..|kept| - 1])
  {
    hide EndsWith;
    if Prepended(items, items') && items' != items {
      var id :| items' == [id] + items;
      EndPushed(items, id, kept);
    }
    if kept != [] && items != [] && items' == items[..|items| - 1] { EndTaken(items, kept); }
  }

  /** The jobs of a queue are claimed in the order in which they were placed: after `c` claims from
      it, whatever else our clients do, it ends with the jobs it had but for the last `c`, so that the
      next claim takes the one before them. */
  lemma {:induction false} FirstInFirstOut(t: Timing, s: State, steps: seq<Step>, queue: string)
    requires After(t, s, steps).Some? && OnlyOurs(steps)
    requires ClaimsFrom(steps, queue) <= |ListAt(s.redis.queues, queue)|
    ensures var items, c, s' := ListAt(s.redis.queues, queue), ClaimsFrom(steps, queue), After(t, s, steps).value;
            && EndsWith(ListAt(s'.redis.queues, queue), items[..|items| - c])
            && (c < |items| ==> LastOf(s', queue) == items[|items| - 1 - c])
  {
    hide Next, Enabled, ListAt, EndsWith, Prepended;
    var items, c, s' := ListAt(s.redis.queues, queue), ClaimsFrom(steps, queue), After(t, s, steps).value;
    if steps == [] {
      assert items[..|items|] == items;
      WholeList(items);
    } else {
      var init, step := steps[..|steps| - 1], steps[|steps| - 1];
      assert step in steps && forall x <- init :: x in steps;
      var before := After(t, s, init).value;
      FirstInFirstOut(t, s, init, queue);
      QueueStep(t, before, step, queue);
      var kept := items[..|items| - ClaimsFrom(init, queue)];
      EndStep(ListAt(before.redis.queues, queue), ListAt(s'.redis.queues, queue), kept);
      if TakesFrom(step, queue) { assert kept[..|kept| - 1] == items[..|items| - c]; }
    }
    if c < |items| { LastKept(ListAt(s'.redis.queues, queue), items[..|items| - c]); LastIs(s', queue); }
  }

  lemma WholeList(items: seq<string>)
    ensures EndsWith(items, items)
  {}

  lemma LastKept(items': seq<string>, kept: seq<string>)
    requires EndsWith(items', kept) && kept != []
    ensures items' != [] && items'[|items'| - 1] == kept[|kept| - 1]
  {}

  lemma LastIs(s: State, queue: string)
    ensures var items := ListAt(s.redis.queues, queue); items != [] ==> LastOf(s, queue) == items[|items| - 1]
  {}

  // ----- abandoned claims are found ---------------------------------------------

  /** The sweep of a process is not given up, and the process does not stop. */
  predicate GoesOn(steps: seq<Step>, p: string) { forall step <- steps :: step != EndSweep(p) && step != Stop(p) }

  lemma ScanStep(t: Timing, s: State, step: Step, p: string)
    requires Enabled(t, s, step) && Proc(s, p).sweep.Scanning? && step != EndSweep(p) && step != Stop(p) && step != ReadMembers(p)
    ensures var sweep := Proc(Next(t, s, step), p).sweep; sweep.Scanning? && Proc(s, p).sweep.lists <= sweep.lists
  {
    hide Claimed, ClaimedUnseen, Promote, Recover, DeadProcesses, Moved, Possible, TakeLast, PushTo, Given, Acknowledge, FinishDead;
    hide Unknown, Spares, SameRoute, Recovered, RetryFailed, Release, DeleteClaim;
  }

  lemma ComparedStep(t: Timing, s: State, step: Step, p: string)
    requires Enabled(t, s, step) && Proc(s, p).sweep.Compared? && step != EndSweep(p) && step != Stop(p) && step != Judge(p)
    ensures Proc(Next(t, s, step), p).sweep == Proc(s, p).sweep
  {
    hide Claimed, ClaimedUnseen, Promote, Recover, DeadProcesses, Moved, Possible, TakeLast, PushTo, Given, Acknowledge, FinishDead;
    hide Unknown, Spares, SameRoute, Recovered, RetryFailed, Release, DeleteClaim;
  }

  lemma {:induction false} StillScanning(t: Timing, s: State, steps: seq<Step>, p: string)
    requires After(t, s, steps).Some? && Proc(s, p).sweep.Scanning? && GoesOn(steps, p) && ReadMembers(p) !in steps
    ensures var sweep := Proc(After(t, s, steps).value, p).sweep; sweep.Scanning? && Proc(s, p).sweep.lists <= sweep.lists
  {
    hide Next, Enabled, Proc;
    if steps != [] {
      var init, step := steps[..|steps| - 1], steps[|steps| - 1];
      assert step in steps && forall x <- init :: x in steps;
      StillScanning(t, s, init, p);
      ScanStep(t, After(t, s, init).value, step, p);
    }
  }

  lemma {:induction false} StillCompared(t: Timing, s: State, steps: seq<Step>, p: string)
    requires After(t, s, steps).Some? && Proc(s, p).sweep.Compared? && GoesOn(steps, p) && Judge(p) !in steps
    ensures Proc(After(t, s, steps).value, p).sweep == Proc(s, p).sweep
  {
    hide Next, Enabled, Proc;
    if steps != [] {
      var init, step := steps[..|steps| - 1], steps[|steps| - 1];
      assert step in steps && forall x <- init :: x in steps;
      StillCompared(t, s, init, p);
      ComparedStep(t, After(t, s, init).value, step, p);
    }
  }

  /** Judged dead are exactly the members with an old score, and the lists whose process is no
      member: nothing else, and none of them is passed over. */
  lemma JudgedExactly(t: Timing, s: State, p: string)
    requires Enabled(t, s, Judge(p))
    ensures var sweep, sweep' := Proc(s, p).sweep, Proc(Next(t, s, Judge(p)), p).sweep;
            && sweep'.Recovering?
            && forall q :: q in sweep'.dead <==>
                 || (q in sweep.members && sweep.members[q] < s.now - t.threshold)
                 || (q in sweep.lists && q !in sweep.members)
  {}

  lemma ScannedHas(t: Timing, s: State, p: string, q: string)
    requires Enabled(t, s, ScanKey(p, q))
    ensures var sweep := Proc(Next(t, s, ScanKey(p, q)), p).sweep; sweep.Scanning? && q in sweep.lists
  {}

  lemma MembersAre(t: Timing, s: State, p: string)
    requires Enabled(t, s, ReadMembers(p))
    ensures Proc(Next(t, s, ReadMembers(p)), p).sweep == Compared(Proc(s, p).sweep.lists, s.redis.processes, s.now)
  {}

  lemma JudgeRuns(t: Timing, s: State, p: string)
    requires Enabled(t, s, Judge(p))
    ensures Runs(Next(t, s, Judge(p)), p)
  {}

  lemma MayRecover(t: Timing, s: State, p: string, q: string)
    requires Runs(s, p) && Proc(s, p).sweep.Recovering? && q in Proc(s, p).sweep.dead
    ensures forall id, expected :: Enabled(t, s, RecoverClaim(p, q, id, expected))
  {}

  ghost predicate Takes(t: Timing, s: State, step: Step, s': State) { Enabled(t, s, step) && s' == Next(t, s, step) }

  ghost predicate Leads(t: Timing, s: State, steps: seq<Step>, s': State) { After(t, s, steps) == Some(s') }

  /** Whoever has a list when it is scanned and is no member when the members are read, is judged
      dead, whatever other steps are taken meanwhile, and its claims can be recovered. */
  lemma AbandonedAreFound(t: Timing, s: State, s0: State, s1: State, s2: State, s3: State, s4: State, p: string, q: string,
                          middle: seq<Step>, late: seq<Step>)
    requires Takes(t, s, ScanKey(p, q), s0) && Leads(t, s0, middle, s1) && GoesOn(middle, p) && ReadMembers(p) !in middle
    requires Takes(t, s1, ReadMembers(p), s2) && q !in s1.redis.processes
    requires Leads(t, s2, late, s3) && GoesOn(late, p) && Judge(p) !in late && Takes(t, s3, Judge(p), s4)
    ensures Proc(s4, p).sweep.Recovering? && q in Proc(s4, p).sweep.dead
    ensures forall id, expected :: Enabled(t, s4, RecoverClaim(p, q, id, expected))
  {
    hide After, Proc, GoesOn;
    ScannedHas(t, s, p, q);
    StillScanning(t, s0, middle, p);
    MembersAre(t, s1, p);
    StillCompared(t, s2, late, p);
    JudgeRuns(t, s3, p);
    JudgedExactly(t, s3, p);
    hide Enabled, Next;
    MayRecover(t, s4, p, q);
  }

  // ----- what the commands store ------------------------------------------------

  /** A due job moves exactly if it is still in its set with the score and the payload that were read. */
  lemma PromotesExactly(r: Redis, retries: bool, id: string, payload: Payload, score: int)
    ensures var r', set_ := Promote(r, retries, id, Some(payload), score), if retries then r.retry else r.schedule;
            if id in set_ && set_[id] == score && id in r.jobs && r.jobs[id] == payload then
              && id !in (if retries then r'.retry else r'.schedule)
              && ListAt(r'.queues, payload.queue) == [id] + ListAt(r.queues, payload.queue)
            else r' == r
  {}

  /** A claim moves exactly if the dead process still holds it and its payload is the one read. */
  lemma RecoversExactly(r: Redis, dead: string, id: string, payload: Payload)
    ensures var r', claims := Recover(r, dead, id, Some(payload)), ListAt(r.processing, dead);
            if id in claims && id in r.jobs && r.jobs[id] == payload then
              && multiset(ListAt(r'.processing, dead)) == multiset(claims) - multiset{id}
              && (if payload.resurrect then ListAt(r'.queues, payload.queue) == [id] + ListAt(r.queues, payload.queue)
                  else id !in r'.jobs)
            else r' == r
  {
    hide RemoveOne;
  }

  /** What a holder writes is stored: its payload, the time of its retry, its burial. */
  lemma HoldersStore(t: Timing, s: State, step: Step)
    requires Enabled(t, s, step) && (step.Rewrite? || step.Fail? || step.Kill? || step.Ack?)
    ensures var id, r, r' := IdOf(s, step.p, step.k), s.redis, Next(t, s, step).redis;
            match step
            case Rewrite(_, _, payload) => r' == r.(jobs := r.jobs[id := payload])
            case Fail(_, _, payload, score) => r'.jobs == r.jobs[id := payload] && r'.retry == r.retry[id := score]
            case Kill(_, _, payload) => id !in r'.jobs && r'.dead == [(id, payload)] + r.dead
            case _ => id !in r'.jobs && r'.dead == r.dead
  {
    hide RemoveOne, Given;
  }

  predicate Scripts(step: Step) {
    step.Ack? || step.Fail? || step.Kill? || step.ReleaseAbsent? || step.DeleteAbsent? || step.Claim? || step.ClaimUnseen?
  }

  lemma ScriptRecords(t: Timing, s: State, step: Step)
    requires Enabled(t, s, step) && Scripts(step)
    ensures Next(t, s, step).redis.processes == s.redis.processes
  {
    hide Claimed, ClaimedUnseen, DeadProcesses, Moved, Possible, RemoveOne, RemoveAll, Given, Unknown, Spares, SameRoute, ListAt;
    hide Promote, Recover, PushTo, Recovered;
  }

  lemma PushedRecords(r: Redis, queue: string, id: string)
    ensures PushTo(r, queue, id).processes == r.processes
  {}

  lemma PromotedRecords(r: Redis, retries: bool, id: string, expected: Option<Payload>, score: int)
    ensures Promote(r, retries, id, expected, score).processes == r.processes
  {
    hide PushTo, Lookup;
    if expected.Some? { PushedRecords(r, expected.value.queue, id); }
  }

  lemma RecoveredRecords(r: Redis, dead: string, id: string, expected: Option<Payload>)
    ensures Recover(r, dead, id, expected).processes == r.processes
  {
    hide PushTo, Lookup, RemoveOne;
    if expected.Some? { PushedRecords(r, expected.value.queue, id); }
  }

  lemma PushRecords(t: Timing, s: State, step: Step)
    requires Enabled(t, s, step) && Pushes(step)
    ensures Next(t, s, step).redis.processes == s.redis.processes
  {
    hide PushTo, Promote, Recover, ListAt, DeadProcesses, Moved, Possible;
    match step {
      case PlaceNow(id) => PushedRecords(s.redis, s.redis.jobs[id].queue, id);
      case PromoteDue(retries, id, expected, score) => PromotedRecords(s.redis, retries, id, expected, score);
      case RecoverClaim(_, dead, id, expected) => RecoveredRecords(s.redis, dead, id, expected);
    }
  }

  lemma OwnRecords(t: Timing, s: State, step: Step)
    requires Enabled(t, s, step) && !step.Foreign? && !Scripts(step) && !Pushes(step)
    ensures Next(t, s, step).redis.processes ==
              match step
              case Ping(p, at) => s.redis.processes[p := at]
              case Deregister(p) => s.redis.processes - {p}
              case Forget(_, dead) => s.redis.processes - {dead}
              case _ => s.redis.processes
  {
    hide Claimed, ClaimedUnseen, DeadProcesses, Moved, Possible, Given, Unknown, Spares, SameRoute, ListAt, Promote, Recover;
    hide TakeLast, Acknowledge, RetryFailed, FinishDead, DeleteClaim, Release, PushTo, Recovered;
  }

  /** Heartbeats and records come and go as the steps say. */
  lemma RecordsAre(t: Timing, s: State, step: Step)
    requires Enabled(t, s, step) && !step.Foreign?
    ensures Next(t, s, step).redis.processes ==
              match step
              case Ping(p, at) => s.redis.processes[p := at]
              case Deregister(p) => s.redis.processes - {p}
              case Forget(_, dead) => s.redis.processes - {dead}
              case _ => s.redis.processes
  {
    hide Next, Enabled;
    if Scripts(step) { ScriptRecords(t, s, step); }
    else if Pushes(step) { PushRecords(t, s, step); }
    else { OwnRecords(t, s, step); }
  }

  // ----- a claimed job gets to its end ------------------------------------------

  /** A task of `p` gets a claim by way of the channel. */
  function Handling(p: string, k: Permit): seq<Step> {
    [Claim(p, k)] + [Local(p, Advance(k, Sent))] + [Local(p, Advance(k, Executing))]
  }

  /** The claim of `id` is at this stage, and the job as it was. */
  predicate HasClaim(s: State, before: State, p: string, k: Permit, id: string, stage: Stage) {
    && Runs(s, p) && Holds(Proc(s, p).runtime, k) && Proc(s, p).runtime.holders[k] == Holding(id, stage, false)
    && s.redis.jobs == before.redis.jobs && (id in s.status <==> id in before.status)
    && s.redis.dead == before.redis.dead && s.redis.retry == before.redis.retry
  }

  lemma {:induction false} AfterSnoc(t: Timing, s: State, steps: seq<Step>, s': State, step: Step)
    requires Leads(t, s, steps, s') && Enabled(t, s', step)
    ensures Leads(t, s, steps + [step], Next(t, s', step))
  {
    hide Enabled, Next;
    assert (steps + [step])[..|steps + [step]| - 1] == steps;
  }

  lemma ClaimDoes(t: Timing, s: State, p: string, k: Permit)
    requires MayClaim(s, p, k)
    ensures ListAt(s.redis.queues, k.queue) != []
    ensures Enabled(t, s, Claim(p, k)) && HasClaim(Next(t, s, Claim(p, k)), s, p, k, LastOf(s, k.queue), Dispatched)
  {}

  lemma AdvanceDoes(t: Timing, s: State, before: State, p: string, k: Permit, id: string, from: Stage, to: Stage)
    requires HasClaim(s, before, p, k, id, from) && Follows(from, to)
    ensures Enabled(t, s, Local(p, Advance(k, to))) && HasClaim(Next(t, s, Local(p, Advance(k, to))), before, p, k, id, to)
  {}

  /** How a task ends a claim of its own. */
  ghost predicate Ends(s: State, p: string, k: Permit, id: string, ending: Step) {
    match ending
    case Ack(q, l) => q == p && l == k
    case Kill(q, l, _) => q == p && l == k
    case Fail(q, l, payload, _) => q == p && l == k && SameRoute(s, id, payload)
    case _ => false
  }

  /** What an ending leaves of the job. */
  ghost predicate Ended(before: State, s: State, id: string, ending: Step) {
    match ending
    case Fail(_, _, payload, score) =>
      && id in s.redis.jobs && s.redis.jobs[id] == payload && id in s.redis.retry && s.redis.retry[id] == score
      && (id in before.status ==> id in s.status && s.status[id] == At(Retry))
    case Kill(_, _, payload) =>
      && id !in s.redis.jobs && s.redis.dead == [(id, payload)] + before.redis.dead
      && (id in before.status ==> id in s.status && s.status[id] == Finished)
    case _ =>
      && id !in s.redis.jobs && s.redis.dead == before.redis.dead
      && (id in before.status ==> id in s.status && s.status[id] == Finished)
  }

  lemma EndingDoes(t: Timing, s: State, before: State, p: string, k: Permit, id: string, ending: Step)
    requires HasClaim(s, before, p, k, id, Executing) && Ends(before, p, k, id, ending)
    ensures Enabled(t, s, ending) && Ended(before, Next(t, s, ending), id, ending)
  {
    hide RemoveOne, Given;
  }

  /** Whoever may claim from a queue can bring the job at its end to any of the ends of a task:
      nothing on the way refuses. */
  lemma ClaimedJobsEnd(t: Timing, s: State, p: string, k: Permit, ending: Step)
    requires MayClaim(s, p, k) && Ends(s, p, k, LastOf(s, k.queue), ending)
    ensures var s' := After(t, s, Handling(p, k) + [ending]);
            s'.Some? && Ended(s, s'.value, LastOf(s, k.queue), ending)
  {
    hide Next, Enabled, HasClaim, MayClaim, LastOf, Ends, Ended;
    var id := LastOf(s, k.queue);
    ClaimDoes(t, s, p, k);
    var s1 := Next(t, s, Claim(p, k));
    AdvanceDoes(t, s1, s, p, k, id, Dispatched, Sent);
    var s2 := Next(t, s1, Local(p, Advance(k, Sent)));
    AdvanceDoes(t, s2, s, p, k, id, Sent, Executing);
    var s3 := Next(t, s2, Local(p, Advance(k, Executing)));
    EndingDoes(t, s3, s, p, k, id, ending);
    AfterSnoc(t, s, [], s, Claim(p, k));
    assert [] + [Claim(p, k)] == [Claim(p, k)];
    AfterSnoc(t, s, [Claim(p, k)], s1, Local(p, Advance(k, Sent)));
    AfterSnoc(t, s, [Claim(p, k)] + [Local(p, Advance(k, Sent))], s2, Local(p, Advance(k, Executing)));
    AfterSnoc(t, s, Handling(p, k), s3, ending);
  }

  /** A stored job can be placed, now or later; it goes to the front of the queue its payload names. */
  lemma StoredJobsArePlaced(t: Timing, s: State, id: string, score: int)
    requires id in s.status && s.status[id] == Stored && id in s.redis.jobs
    ensures Enabled(t, s, PlaceNow(id)) && Enabled(t, s, PlaceLater(id, score))
    ensures var s', queue := Next(t, s, PlaceNow(id)), s.redis.jobs[id].queue;
            ListAt(s'.redis.queues, queue) == [id] + ListAt(s.redis.queues, queue) && s'.status[id] == At(Queue(queue))
    ensures var s' := Next(t, s, PlaceLater(id, score));
            id in s'.redis.schedule && s'.redis.schedule[id] == score && s'.status[id] == At(Schedule)
  {}
}
