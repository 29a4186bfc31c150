/** From claimed jobs to their transitions: decode a batch, kill what does not decode, run the
    rest, then acknowledge, retry or bury every job. Each call to Redis may fail, and a call
    whose answer is lost may have been carried out. */
module Execution {
  import opened Options

  datatype Envelope = Envelope(id: string, args: string, retries: nat, state: Option<string>, startedAt: Option<int>,
                               error: Option<string>)

  /** What these operations touch: payloads, the retry set, all burials with the latest first, and
      our own claims. The dead list in Redis is what `Trimmed` leaves of the burials. */
  datatype Store = Store(jobs: map<string, Envelope>, retry: map<string, int>, dead: seq<Envelope>, claims: multiset<string>)

  datatype Job = Job(value: string)

  datatype Decoded = Valid(job: Job) | Invalid(error: string)

  datatype Fault = Fault(index: nat, error: string)

  datatype Build = Refused(error: string) | Built(jobs: Option<seq<Job>>, invalid: seq<Fault>)

  datatype Policy = Policy(maxRetries: nat, retryDelay: nat)

  datatype Outcome = Success | Failed(error: string) | Panicked(message: string)

  /** What happens to payloads while jobs run: a state is saved, or the payload is removed. */
  type Work = map<string, Option<string>>

  datatype Course = Course(now: int, work: Work, outcome: Outcome)

  /** What a worker says about its jobs, and the delay that the settings may choose after an error. */
  datatype Worker = Worker(maxRetries: Job -> nat, retryDelay: (Job, nat) -> nat, resumes: bool,
                           delayOverride: (nat, nat) -> Option<nat>)

  /** A job as it is handed to the worker, with the context it runs in. */
  datatype Item = Item(job: Job, context: Envelope)

  const MICROS_PER_SECOND := 1_000_000

  function Ids(es: seq<Envelope>): seq<string> { seq(|es|, i requires 0 <= i < |es| => es[i].id) }

  function Args(es: seq<Envelope>): seq<string> { seq(|es|, i requires 0 <= i < |es| => es[i].args) }

  // ----- transitions ------------------------------------------------------------

  function Killed(s: Store, e: Envelope, error: string): Store {
    s.(jobs := s.jobs - {e.id}, dead := [e.(error := Some(error))] + s.dead, claims := s.claims - multiset{e.id})
  }

  /** LPUSH, then LTRIM when there is a limit. */
  function Pushed(list: seq<Envelope>, e: Envelope, limit: nat): seq<Envelope> { Trimmed([e] + list, limit) }

  function Trimmed(list: seq<Envelope>, limit: nat): seq<Envelope> {
    if limit > 0 && |list| > limit then list[..limit] else list
  }

  /** Trimming at each burial leaves the latest of all burials, as many as the limit allows. */
  lemma DeadListIsLatest(s: Store, e: Envelope, error: string, limit: nat)
    ensures Trimmed(Killed(s, e, error).dead, limit) == Pushed(Trimmed(s.dead, limit), e.(error := Some(error)), limit)
  {
    var buried := e.(error := Some(error));
    if limit > 0 && |s.dead| > limit { assert ([buried] + s.dead)[..limit] == ([buried] + s.dead[..limit])[..limit]; }
  }

  /** The payload is read again: when it was removed only the claim is released. */
  function RetriedIn(s: Store, id: string, at: int, error: string): Store {
    var released := s.claims - multiset{id};
    if id !in s.jobs then s.(claims := released)
    else
      var e := s.jobs[id];
      s.(jobs := s.jobs[id := e.(retries := e.retries + 1, startedAt := None, error := Some(error))],
         retry := s.retry[id := at], claims := released)
  }

  function Deleted(s: Store, id: string): Store {
    s.(jobs := s.jobs - {id}, retry := s.retry - {id}, claims := s.claims[id := 0])
  }

  function Acknowledged(s: Store, es: seq<Envelope>): Store {
    if es == [] then s
    else
      var before, id := Acknowledged(s, es[..|es| - 1]), es[|es| - 1].id;
      before.(jobs := before.jobs - {id}, claims := before.claims - multiset{id})
  }

  function WillRetry(e: Envelope, policy: Policy): bool { e.retries < policy.maxRetries }

  function AfterFailure(s: Store, e: Envelope, policy: Policy, now: int, error: string): Store {
    if WillRetry(e, policy) then RetriedIn(s, e.id, now + policy.retryDelay * MICROS_PER_SECOND, error)
    else Killed(s, e, error)
  }

  function AfterFailures(s: Store, es: seq<Envelope>, policies: seq<Policy>, now: int, error: string): Store
    requires |es| == |policies|
  {
    if es == [] then s
    else
      var n := |es| - 1;
      AfterFailure(AfterFailures(s, es[..n], policies[..n], now, error), es[n], policies[n], now, error)
  }

  function Started(s: Store, es: seq<Envelope>): Store {
    if es == [] then s
    else
      var before, e := Started(s, es[..|es| - 1]), es[|es| - 1];
      before.(jobs := before.jobs[e.id := e])
  }

  /** The payload that is written before a job runs. */
  function Starting(e: Envelope, resumes: bool, now: int): Envelope {
    e.(state := if resumes then e.state else None, startedAt := Some(now))
  }

  function AllStarting(es: seq<Envelope>, resumes: bool, now: int): seq<Envelope> {
    seq(|es|, i requires 0 <= i < |es| => Starting(es[i], resumes, now))
  }

  function PoliciesOf(worker: Worker, jobs: seq<Job>, es: seq<Envelope>): seq<Policy>
    requires |jobs| == |es|
  {
    seq(|es|, i requires 0 <= i < |es| => Policy(worker.maxRetries(jobs[i]), worker.retryDelay(jobs[i], es[i].retries)))
  }

  function Items(jobs: seq<Job>, es: seq<Envelope>): seq<Item>
    requires |jobs| == |es|
  {
    seq(|es|, i requires 0 <= i < |es| => Item(jobs[i], es[i]))
  }

  function Overridden(es: seq<Envelope>, policies: seq<Policy>, delayOverride: (nat, nat) -> Option<nat>): seq<Policy>
    requires |es| == |policies|
  {
    seq(|es|, i requires 0 <= i < |es| =>
      match delayOverride(es[i].retries, policies[i].retryDelay)
      case Some(delay) => policies[i].(retryDelay := delay)
      case None => policies[i])
  }

  function Worked(s: Store, work: Work): Store {
    s.(jobs := map id <- s.jobs | !(id in work && work[id].None?) ::
                 if id in work then s.jobs[id].(state := work[id]) else s.jobs[id])
  }

  /** The settings override the delay after an error, not after a panic. */
  function Finished(s: Store, worker: Worker, es: seq<Envelope>, policies: seq<Policy>, now: int, outcome: Outcome): Store
    requires |es| == |policies|
  {
    match outcome
    case Success => Acknowledged(s, es)
    case Failed(error) => AfterFailures(s, es, Overridden(es, policies, worker.delayOverride), now, error)
    case Panicked(message) => AfterFailures(s, es, policies, now, message)
  }

  /** What running the jobs leaves when every call to Redis succeeds. */
  function Ran(s: Store, worker: Worker, jobs: seq<Job>, es: seq<Envelope>, course: Course): Store
    requires |jobs| == |es|
  {
    var started := AllStarting(es, worker.resumes, course.now);
    Finished(Worked(Started(s, started), course.work), worker, started, PoliciesOf(worker, jobs, started), course.now,
             course.outcome)
  }

  // ----- what the transitions leave ---------------------------------------------

  /** No payload, due time or claim has changed but those of these ids. */
  ghost predicate OthersKept(s: Store, s': Store, ids: set<string>) {
    forall other :: other !in ids ==>
      && (other in s'.jobs <==> other in s.jobs) && (other in s.jobs ==> s'.jobs[other] == s.jobs[other])
      && (other in s'.retry <==> other in s.retry) && (other in s.retry ==> s'.retry[other] == s.retry[other])
      && s'.claims[other] == s.claims[other]
  }

  /** A killed job is on top of the dead list with its error, has no payload and one claim less. */
  lemma KilledLeaves(s: Store, e: Envelope, error: string)
    ensures var s' := Killed(s, e, error);
            && s'.dead == [e.(error := Some(error))] + s.dead && e.id !in s'.jobs && s'.retry == s.retry
            && s'.claims == s.claims - multiset{e.id} && OthersKept(s, s', {e.id})
  {}

  /** A retried job that is stored has one retry more, its error, no start and its due time; otherwise
      only the claim goes. */
  lemma RetriedLeaves(s: Store, id: string, at: int, error: string)
    ensures var s' := RetriedIn(s, id, at, error);
            && s'.dead == s.dead && s'.claims == s.claims - multiset{id} && OthersKept(s, s', {id})
            && if id in s.jobs then
                 && id in s'.jobs && id in s'.retry && s'.retry[id] == at
                 && s'.jobs[id].retries == s.jobs[id].retries + 1 && s'.jobs[id].error == Some(error)
                 && s'.jobs[id].startedAt == None && s'.jobs[id].state == s.jobs[id].state
                 && s'.jobs[id].id == s.jobs[id].id && s'.jobs[id].args == s.jobs[id].args
               else s'.jobs == s.jobs && s'.retry == s.retry
  {}

  /** A deleted job is nowhere. */
  lemma DeletedLeaves(s: Store, id: string)
    ensures var s' := Deleted(s, id);
            && id !in s'.jobs && id !in s'.retry && s'.claims[id] == 0 && s'.dead == s.dead && OthersKept(s, s', {id})
  {}

  lemma KeptTwice(a: Store, b: Store, c: Store, x: set<string>, y: set<string>)
    requires OthersKept(a, b, x) && OthersKept(b, c, y)
    ensures OthersKept(a, c, x + y)
  {}

  function IdSet(es: seq<Envelope>): set<string> { set e <- es :: e.id }

  lemma IdSetSnoc(es: seq<Envelope>)
    requires es != []
    ensures IdSet(es) == IdSet(es[..|es| - 1]) + {es[|es| - 1].id}
    ensures forall e :: e in es <==> e in es[..|es| - 1] || e == es[|es| - 1]
  {}

  lemma OneAcknowledged(s: Store, es: seq<Envelope>)
    requires es != []
    ensures var before, id := Acknowledged(s, es[..|es| - 1]), es[|es| - 1].id;
            var after := Acknowledged(s, es);
            && id !in after.jobs && after.jobs.Keys <= before.jobs.Keys && after.dead == before.dead && after.retry == before.retry
            && OthersKept(before, after, {id})
  {}

  /** Acknowledged jobs have no payload, and nothing else has changed but their claims. */
  lemma {:induction false} AcknowledgedLeaves(s: Store, es: seq<Envelope>)
    ensures var s' := Acknowledged(s, es);
            && (forall e <- es :: e.id !in s'.jobs) && s'.dead == s.dead && s'.retry == s.retry && OthersKept(s, s', IdSet(es))
  {
    if es == [] {
      NoneKept(s);
    } else {
      var n := |es| - 1;
      AcknowledgedLeaves(s, es[..n]);
      OneAcknowledged(s, es);
      IdSetSnoc(es);
      hide OthersKept, IdSet, Acknowledged;
      KeptTwice(s, Acknowledged(s, es[..n]), Acknowledged(s, es), IdSet(es[..n]), {es[n].id});
    }
  }

  lemma NoneKept(s: Store)
    ensures OthersKept(s, s, IdSet([])) && Acknowledged(s, []) == s && Started(s, []) == s
  {}

  /** A job that starts has its time, keeps its state only if its worker resumes, and is otherwise
      as it was. */
  lemma StartingIs(e: Envelope, resumes: bool, now: int)
    ensures var e' := Starting(e, resumes, now);
            && e'.startedAt == Some(now) && e'.state == (if resumes then e.state else None)
            && e'.id == e.id && e'.args == e.args && e'.retries == e.retries && e'.error == e.error
  {}

  lemma OneStarted(s: Store, es: seq<Envelope>)
    requires es != []
    ensures var before, e, after := Started(s, es[..|es| - 1]), es[|es| - 1], Started(s, es);
            && after.jobs == before.jobs[e.id := e] && after.dead == before.dead && after.retry == before.retry
            && after.claims == before.claims && OthersKept(before, after, {e.id})
  {}

  /** The payloads of started jobs are stored, and nothing else has changed. */
  lemma {:induction false} StartedLeaves(s: Store, es: seq<Envelope>)
    ensures var s' := Started(s, es);
            && (forall e <- es :: e.id in s'.jobs && s'.jobs[e.id] in es)
            && s'.dead == s.dead && s'.retry == s.retry && s'.claims == s.claims && OthersKept(s, s', IdSet(es))
  {
    if es == [] {
      NoneKept(s);
    } else {
      var n := |es| - 1;
      StartedLeaves(s, es[..n]);
      OneStarted(s, es);
      IdSetSnoc(es);
      hide OthersKept, IdSet, Started;
      KeptTwice(s, Started(s, es[..n]), Started(s, es), IdSet(es[..n]), {es[n].id});
    }
  }

  /** What runs saves its state or loses its payload; nothing else changes. */
  lemma WorkedLeaves(s: Store, work: Work)
    ensures var s' := Worked(s, work);
            && s'.dead == s.dead && s'.retry == s.retry && s'.claims == s.claims
            && forall id :: id in s'.jobs <==> id in s.jobs && !(id in work && work[id].None?)
    ensures forall id :: id in Worked(s, work).jobs ==>
              Worked(s, work).jobs[id] == if id in work then s.jobs[id].(state := work[id]) else s.jobs[id]
  {}

  /** Each payload is stored under its own id. */
  predicate Keyed(s: Store) { forall id <- s.jobs :: s.jobs[id].id == id }

  /** No claim is gained, and none is lost but those of `ids`, once each. */
  predicate Confined(before: Store, after: Store, ids: multiset<string>) {
    before.claims - ids <= after.claims <= before.claims && (Keyed(before) ==> Keyed(after))
  }

  lemma ConfinedTwice(a: Store, b: Store, c: Store, x: multiset<string>, y: multiset<string>)
    requires Confined(a, b, x) && Confined(b, c, y)
    ensures Confined(a, c, x + y)
  {}

  lemma ConfinedMore(a: Store, b: Store, x: multiset<string>, y: multiset<string>)
    requires Confined(a, b, x) && x <= y
    ensures Confined(a, b, y)
  {}

  lemma OneConfined(s: Store, e: Envelope, policy: Policy, now: int, error: string)
    ensures Confined(s, Killed(s, e, error), multiset{e.id})
    ensures Confined(s, AfterFailure(s, e, policy, now, error), multiset{e.id})
  {}

  lemma IdsPrefix(es: seq<Envelope>, i: nat)
    requires i < |es|
    ensures multiset(Ids(es[..i + 1])) == multiset(Ids(es[..i])) + multiset{es[i].id} && multiset(Ids(es[..i + 1])) <= multiset(Ids(es))
  {
    assert Ids(es[..i + 1]) == Ids(es[..i]) + [es[i].id];
    assert Ids(es) == Ids(es[..i + 1]) + Ids(es[i + 1..]);
  }

  lemma {:induction false} AcknowledgedConfined(s: Store, es: seq<Envelope>)
    ensures Confined(s, Acknowledged(s, es), multiset(Ids(es)))
  {
    if es != [] {
      var n := |es| - 1;
      AcknowledgedConfined(s, es[..n]);
      IdsPrefix(es, n);
      assert es[..n + 1] == es;
    }
  }

  lemma {:induction false} StartedConfined(s: Store, es: seq<Envelope>, work: Work)
    ensures Confined(s, Started(s, es), multiset{}) && Confined(s, Worked(Started(s, es), work), multiset{})
  {
    if es != [] { StartedConfined(s, es[..|es| - 1], work); }
  }

  // ----- decoding ---------------------------------------------------------------

  function Valids(args: seq<string>, decode: string -> Decoded): seq<Job> {
    if args == [] then []
    else
      var before, last := Valids(args[..|args| - 1], decode), decode(args[|args| - 1]);
      if last.Valid? then before + [last.job] else before
  }

  function Invalids(args: seq<string>, decode: string -> Decoded): seq<Fault> {
    if args == [] then []
    else
      var before, last := Invalids(args[..|args| - 1], decode), decode(args[|args| - 1]);
      if last.Valid? then before else before + [Fault(|args| - 1, last.error)]
  }

  method JobBatchFactory(args: seq<string>, decode: string -> Decoded) returns (build: Build)
    ensures build.Built? && build.invalid == Invalids(args, decode)
    ensures build.jobs == if Valids(args, decode) == [] then None else Some(Valids(args, decode))
  {
    var jobs: seq<Job>, invalid: seq<Fault> := [], [];
    for index := 0 to |args|
      invariant jobs == Valids(args[..index], decode) && invalid == Invalids(args[..index], decode)
    {
      assert args[..index + 1][..index] == args[..index];
      match decode(args[index]) {
        case Valid(job) => jobs := jobs + [job];
        case Invalid(error) => invalid := invalid + [Fault(index, error)];
      }
    }
    assert args[..|args|] == args;
    build := Built(if jobs == [] then None else Some(jobs), invalid);
  }

  /** The error first reported for an index, whatever the order of the reports. */
  function FirstError(faults: seq<Fault>, index: nat): Option<string> {
    if faults == [] then None
    else if faults[0].index == index then Some(faults[0].error)
    else FirstError(faults[1..], index)
  }

  lemma {:induction false} FirstErrorSnoc(faults: seq<Fault>, fault: Fault, index: nat)
    ensures FirstError(faults + [fault], index) ==
              if FirstError(faults, index).Some? then FirstError(faults, index)
              else if fault.index == index then Some(fault.error) else None
  {
    if faults == [] {
      assert [] + [fault] == [fault];
    } else {
      assert (faults + [fault])[1..] == faults[1..] + [fault];
      FirstErrorSnoc(faults[1..], fault, index);
    }
  }

  ghost predicate ByIndex(errors: map<nat, string>, faults: seq<Fault>, count: nat) {
    forall index: nat :: (if index in errors then Some(errors[index]) else None) ==
                         if index < count then FirstError(faults, index) else None
  }

  /** Indexes may repeat, be out of order or out of range: the first error of each index in range is kept. */
  method InvalidJobsByIndex(faults: seq<Fault>, count: nat) returns (errors: map<nat, string>)
    ensures ByIndex(errors, faults, count)
  {
    errors := map[];
    for i := 0 to |faults|
      invariant ByIndex(errors, faults[..i], count)
    {
      ghost var before := errors;
      var fault := faults[i];
      if fault.index < count && fault.index !in errors { errors := errors[fault.index := fault.error]; }
      assert faults[..i + 1] == faults[..i] + [fault];
      forall index: nat
        ensures (if index in errors then Some(errors[index]) else None) ==
                if index < count then FirstError(faults[..i + 1], index) else None
      {
        FirstErrorSnoc(faults[..i], fault, index);
        assert (if index in before then Some(before[index]) else None) ==
          if index < count then FirstError(faults[..i], index) else None;
      }
    }
    assert faults[..|faults|] == faults;
  }

  function Kept(pending: seq<Envelope>, errors: map<nat, string>): (valid: seq<Envelope>)
    ensures |valid| <= |pending|
  {
    if pending == [] then []
    else
      var n := |pending| - 1;
      Kept(pending[..n], errors) + if n in errors then [] else [pending[n]]
  }

  function KillInvalid(s: Store, pending: seq<Envelope>, errors: map<nat, string>, worker: string): Store {
    if pending == [] then s
    else
      var n := |pending| - 1;
      var before := KillInvalid(s, pending[..n], errors, worker);
      if n in errors then Killed(before, pending[n], InvalidJob(worker, errors[n])) else before
  }

  function InvalidJob(worker: string, error: string): string { "Invalid job: " + worker + " - " + error }

  function KillAll(s: Store, pending: seq<Envelope>, error: string): Store {
    if pending == [] then s
    else Killed(KillAll(s, pending[..|pending| - 1], error), pending[|pending| - 1], error)
  }

  lemma FailuresSnoc(s: Store, es: seq<Envelope>, policies: seq<Policy>, i: nat, now: int, error: string)
    requires |es| == |policies| && i < |es|
    ensures AfterFailures(s, es[..i + 1], policies[..i + 1], now, error) ==
              AfterFailure(AfterFailures(s, es[..i], policies[..i], now, error), es[i], policies[i], now, error)
  {
    assert es[..i + 1][..i] == es[..i] && policies[..i + 1][..i] == policies[..i];
  }

  lemma FailuresNone(s: Store, es: seq<Envelope>, policies: seq<Policy>, now: int, error: string)
    requires |es| == |policies|
    ensures AfterFailures(s, es[..0], policies[..0], now, error) == s
  {}

  /** The first `i` transitions have been made, and no other claim was touched. */
  predicate HandledTo(before: Store, after: Store, es: seq<Envelope>, policies: seq<Policy>, i: nat, now: int, error: string)
    requires |es| == |policies| && i <= |es|
  {
    after == AfterFailures(before, es[..i], policies[..i], now, error) && Confined(before, after, multiset(Ids(es[..i])))
  }

  lemma NoneHandled(s: Store, es: seq<Envelope>, policies: seq<Policy>, now: int, error: string)
    requires |es| == |policies|
    ensures HandledTo(s, s, es, policies, 0, now, error)
  {
    FailuresNone(s, es, policies, now, error);
    NothingConfined(s, es);
  }

  /** One more transition, which may have failed with or without being made. */
  lemma OneHandled(before: Store, s: Store, after: Store, es: seq<Envelope>, policies: seq<Policy>, i: nat, now: int, error: string)
    requires |es| == |policies| && i < |es| && HandledTo(before, s, es, policies, i, now, error)
    requires after == AfterFailure(s, es[i], policies[i], now, error) || after == s
    requires Confined(s, after, multiset{es[i].id})
    ensures after == AfterFailure(s, es[i], policies[i], now, error) ==> HandledTo(before, after, es, policies, i + 1, now, error)
    ensures Confined(before, after, multiset(Ids(es)))
    ensures after == AfterFailures(before, es[..i], policies[..i], now, error)
            || after == AfterFailures(before, es[..i + 1], policies[..i + 1], now, error)
  {
    hide AfterFailure, AfterFailures, Confined, Ids;
    FailuresSnoc(before, es, policies, i, now, error);
    IdsPrefix(es, i);
    ConfinedTwice(before, s, after, multiset(Ids(es[..i])), multiset{es[i].id});
    ConfinedMore(before, after, multiset(Ids(es[..i + 1])), multiset(Ids(es)));
  }

  lemma AllHandled(before: Store, after: Store, es: seq<Envelope>, policies: seq<Policy>, now: int, error: string)
    requires |es| == |policies| && HandledTo(before, after, es, policies, |es|, now, error)
    ensures after == AfterFailures(before, es, policies, now, error) && Confined(before, after, multiset(Ids(es)))
  {
    hide AfterFailures, Confined;
    assert es[..|es|] == es && policies[..|es|] == policies;
  }

  // ----- the runtime ------------------------------------------------------------

  /** How a call ends: answered, carried out without an answer, or not carried out. */
  datatype End = Answered | Unanswered | NotDone

  predicate Smooth(calls: seq<End>) { forall end <- calls :: end == Answered }

  /** `calls` is how the calls to come will end, all well after those; `errors` are the errors of
      tasks that have ended and are still to reach `Fail`; `ran` records what each call of a
      worker was given. */
  class Runtime {
    var store: Store
    var calls: seq<End>
    var errors: seq<string>
    var shutdownError: Option<string>
    var cancelled: bool
    var ran: seq<seq<Item>>

    /** Keeps the first error. */
    method Fail(error: string)
      modifies this`shutdownError, this`cancelled
      ensures cancelled
      ensures shutdownError == if old(shutdownError).Some? then old(shutdownError) else Some(error)
    {
      if shutdownError.None? { shutdownError := Some(error); }
      cancelled := true;
    }

    /** A task ends with an error; whoever waits for it is to fail the runtime. */
    method Raise(error: string)
      modifies this`errors
      ensures errors == old(errors) + [error]
    {
      errors := errors + [error];
    }

    /** The next error is noticed. */
    method Deliver()
      modifies this`errors, this`shutdownError, this`cancelled
      ensures old(errors) == [] ==> errors == [] && cancelled == old(cancelled) && shutdownError == old(shutdownError)
      ensures old(errors) != [] ==>
                && errors == old(errors)[1..] && cancelled
                && shutdownError == if old(shutdownError).Some? then old(shutdownError) else Some(old(errors)[0])
    {
      if errors != [] {
        Fail(errors[0]);
        errors := errors[1..];
      }
    }

    /** One call that would leave `next`. */
    method Call(next: Store) returns (ok: bool)
      modifies this`store, this`calls
      ensures store == next || (!ok && store == old(store))
      ensures Smooth(old(calls)) ==> ok && Smooth(calls)
    {
      var end := Answered;
      if calls != [] {
        assert calls[0] in calls && forall later <- calls[1..] :: later in calls;
        end, calls := calls[0], calls[1..];
      }
      if end != NotDone { store := next; }
      ok := end == Answered;
    }

    method Kill(e: Envelope, error: string) returns (ok: bool)
      modifies this`store, this`calls
      ensures store == Killed(old(store), e, error) || (!ok && store == old(store))
      ensures ok ==> e.id !in store.jobs && store.dead == [e.(error := Some(error))] + old(store).dead
      ensures Confined(old(store), store, multiset{e.id})
      ensures Smooth(old(calls)) ==> ok && Smooth(calls)
    {
      KilledLeaves(store, e, error);
      OneConfined(store, e, Policy(0, 0), 0, error);
      ok := Call(Killed(store, e, error));
    }

    method HandleErr(e: Envelope, policy: Policy, now: int, error: string) returns (ok: bool)
      modifies this`store, this`calls
      ensures store == AfterFailure(old(store), e, policy, now, error) || (!ok && store == old(store))
      ensures Confined(old(store), store, multiset{e.id})
      ensures Smooth(old(calls)) ==> ok && Smooth(calls)
    {
      OneConfined(store, e, policy, now, error);
      if e.retries < policy.maxRetries {
        ok := Call(RetriedIn(store, e.id, now + policy.retryDelay * MICROS_PER_SECOND, error));
      } else {
        ok := Kill(e, error);
      }
    }

    /** Transitions in order up to the first that fails; from there on the claims are left. */
    method HandleAll(es: seq<Envelope>, policies: seq<Policy>, now: int, error: string) returns (ghost done: nat)
      requires |es| == |policies|
      modifies this`store, this`calls, this`shutdownError, this`cancelled
      ensures done <= |es| && Confined(old(store), store, multiset(Ids(es)))
      ensures Smooth(old(calls)) ==> done == |es| && Smooth(calls)
      ensures done == |es| ==>
                && store == AfterFailures(old(store), es, policies, now, error)
                && cancelled == old(cancelled) && shutdownError == old(shutdownError)
      ensures done < |es| ==>
                && cancelled && shutdownError.Some?
                && (store == AfterFailures(old(store), es[..done], policies[..done], now, error)
                    || store == AfterFailures(old(store), es[..done + 1], policies[..done + 1], now, error))
    {
      hide HandledTo, AfterFailure, AfterFailures, Confined, Ids, Smooth;
      ghost var store0 := store;
      done := 0;
      NoneHandled(store, es, policies, now, error);
      for i := 0 to |es|
        invariant done == i && HandledTo(store0, store, es, policies, i, now, error)
        invariant Smooth(old(calls)) ==> Smooth(calls)
        invariant cancelled == old(cancelled) && shutdownError == old(shutdownError)
      {
        ghost var before := store;
        var ok := HandleErr(es[i], policies[i], now, error);
        OneHandled(store0, before, store, es, policies, i, now, error);
        if !ok {
          Fail("transition failed");
          return;
        }
        done := i + 1;
      }
      AllHandled(store0, store, es, policies, now, error);
    }

    method FinishBatchResult(worker: Worker, es: seq<Envelope>, policies: seq<Policy>, course: Course)
      requires |es| == |policies|
      modifies this`store, this`calls, this`shutdownError, this`cancelled
      ensures cancelled || (store == Finished(old(store), worker, es, policies, course.now, course.outcome) && !old(cancelled))
      ensures Confined(old(store), store, multiset(Ids(es)))
      ensures old(cancelled) ==> cancelled
      ensures Smooth(old(calls)) ==> cancelled == old(cancelled) && Smooth(calls)
    {
      match course.outcome {
        case Success =>
          AcknowledgedConfined(store, es);
          var ok := Call(Acknowledged(store, es));
          if !ok { Fail("acknowledgment failed"); }
        case Failed(error) =>
          ghost var done := HandleAll(es, Overridden(es, policies, worker.delayOverride), course.now, error);
        case Panicked(message) =>
          ghost var done := HandleAll(es, policies, course.now, message);
      }
    }

    /** Runs the jobs, the i-th with the i-th envelope as its context and for its policy. */
    method RunBatch(worker: Worker, jobs: seq<Job>, envelopes: seq<Envelope>, course: Course) returns (ok: bool)
      modifies this`store, this`calls, this`shutdownError, this`cancelled, this`ran
      ensures ok && !cancelled && envelopes != [] ==>
                && |jobs| == |envelopes| && store == Ran(old(store), worker, jobs, envelopes, course)
                && ran == old(ran) + [Items(jobs, AllStarting(envelopes, worker.resumes, course.now))]
      ensures ok && envelopes == [] ==> store == old(store) && ran == old(ran)
      ensures ran == old(ran) || (|jobs| == |envelopes| && envelopes != []
                                  && ran == old(ran) + [Items(jobs, AllStarting(envelopes, worker.resumes, course.now))])
      ensures ran != old(ran) ==>
                var items := ran[|ran| - 1];
                && |items| == |jobs| == |envelopes|
                && forall i :: 0 <= i < |items| ==>
                     && items[i].job == jobs[i] && items[i].context.id == envelopes[i].id
                     && items[i].context.args == envelopes[i].args && items[i].context.retries == envelopes[i].retries
                     && items[i].context.startedAt == Some(course.now)
                     && items[i].context.state == if worker.resumes then envelopes[i].state else None
      ensures Confined(old(store), store, multiset(Ids(envelopes)))
      ensures old(cancelled) ==> cancelled
      ensures Smooth(old(calls)) ==>
                Smooth(calls) && cancelled == old(cancelled) && (ok <==> envelopes == [] || |jobs| == |envelopes|)
    {
      hide Confined, Keyed, Finished;
      Unconfined(store, multiset(Ids(envelopes)));
      if envelopes == [] { return true; }
      if |jobs| != |envelopes| { return false; }
      var started := AllStarting(envelopes, worker.resumes, course.now);
      var policies := PoliciesOf(worker, jobs, started);
      ghost var store0 := store;
      StartedConfined(store, started, course.work);
      assert Ids(started) == Ids(envelopes);
      ok := Call(Started(store, started));
      if !ok {
        ConfinedMore(store0, Started(store0, started), multiset{}, multiset(Ids(envelopes)));
        return;
      }
      ran := ran + [Items(jobs, started)];
      // the jobs run: they may save their state, and others may remove their payloads
      store := Worked(store, course.work);
      ghost var store1 := store;
      FinishBatchResult(worker, started, policies, course);
      ConfinedTwice(store0, store1, store, multiset{}, multiset(Ids(started)));
      assert multiset{} + multiset(Ids(started)) == multiset(Ids(envelopes));
    }

    /** Every invalid job is killed and the valid ones are kept, in order. */
    method Separate(pending: seq<Envelope>, errors: map<nat, string>, worker: string)
      returns (ok: bool, valid: seq<Envelope>, ghost killed: multiset<string>)
      modifies this`store, this`calls
      ensures ok ==> valid == Kept(pending, errors) && store == KillInvalid(old(store), pending, errors, worker)
      ensures Confined(old(store), store, killed) && killed + multiset(Ids(valid)) <= multiset(Ids(pending))
      ensures Smooth(old(calls)) ==> ok && Smooth(calls)
    {
      hide Confined, Keyed, Killed, Kept, KillInvalid, Ids, InvalidJob;
      ok, valid, killed := true, [], multiset{};
      Unconfined(store, multiset{});
      NoneSeparated(store, errors, worker);
      ghost var store0 := store;
      for index := 0 to |pending|
        invariant ok && valid == Kept(pending[..index], errors) && (Smooth(old(calls)) ==> Smooth(calls))
        invariant store == KillInvalid(old(store), pending[..index], errors, worker)
        invariant Confined(store0, store, killed) && killed + multiset(Ids(valid)) == multiset(Ids(pending[..index]))
      {
        NextSeparated(old(store), pending, errors, worker, index);
        IdsPrefix(pending, index);
        if index in errors {
          ghost var before := store;
          ok := Kill(pending[index], InvalidJob(worker, errors[index]));
          ConfinedTwice(store0, before, store, killed, multiset{pending[index].id});
          killed := killed + multiset{pending[index].id};
          if !ok { return; }
        } else {
          IdsMore(valid, pending[index]);
          valid := valid + [pending[index]];
        }
      }
      assert pending[..|pending|] == pending;
    }

    method KillPending(pending: seq<Envelope>, error: string) returns (ok: bool)
      modifies this`store, this`calls
      ensures ok ==>
                store == KillAll(old(store), pending, error) && store.claims == old(store).claims - multiset(Ids(pending))
      ensures Confined(old(store), store, multiset(Ids(pending)))
      ensures Smooth(old(calls)) ==> ok && Smooth(calls)
    {
      hide Killed, Confined, Keyed;
      ok := true;
      NothingConfined(store, pending);
      ghost var store0 := store;
      for i := 0 to |pending|
        invariant ok && store == KillAll(old(store), pending[..i], error) && (Smooth(old(calls)) ==> Smooth(calls))
        invariant Confined(store0, store, multiset(Ids(pending[..i])))
      {
        assert pending[..i + 1][..i] == pending[..i];
        ghost var before := store;
        ok := Kill(pending[i], error);
        IdsPrefix(pending, i);
        ConfinedTwice(store0, before, store, multiset(Ids(pending[..i])), multiset{pending[i].id});
        if !ok {
          ConfinedMore(store0, store, multiset(Ids(pending[..i + 1])), multiset(Ids(pending)));
          return;
        }
      }
      assert pending[..|pending|] == pending;
      KillAllReleases(store0, pending, error);
    }

    method ProcessPendingBatch(name: string, worker: Worker, pending: seq<Envelope>, build: Build, course: Course)
      returns (ok: bool, ghost errors: map<nat, string>)
      modifies this`store, this`calls, this`shutdownError, this`cancelled, this`ran
      ensures build.Built? ==> ByIndex(errors, build.invalid, |pending|)
      ensures ok && !cancelled && build.Refused? ==>
                && store == KillAll(old(store), pending, "Invalid job batch: " + name + " - " + build.error) && ran == old(ran)
                && store.claims == old(store).claims - multiset(Ids(pending))
      ensures ok && !cancelled && build.Built? ==>
                var valid := Kept(pending, errors);
                var killed := KillInvalid(old(store), pending, errors, name);
                if build.jobs.None? || valid == [] then store == killed && ran == old(ran)
                else
                  && |build.jobs.value| == |valid| && store == Ran(killed, worker, build.jobs.value, valid, course)
                  && ran == old(ran) + [Items(build.jobs.value, AllStarting(valid, worker.resumes, course.now))]
      ensures ran == old(ran) ||
                (var valid := Kept(pending, errors);
                 && build.Built? && build.jobs.Some? && |build.jobs.value| == |valid|
                 && ran == old(ran) + [Items(build.jobs.value, AllStarting(valid, worker.resumes, course.now))])
      ensures Confined(old(store), store, multiset(Ids(pending)))
      ensures old(cancelled) ==> cancelled
      ensures Smooth(old(calls)) ==>
                && Smooth(calls) && cancelled == old(cancelled)
                && (ok <==> build.Refused? || build.jobs.None? || Kept(pending, errors) == []
                            || |build.jobs.value| == |Kept(pending, errors)|)
    {
      hide KillAll, KillInvalid, Kept, Ran, Items, AllStarting, ByIndex, Confined, Keyed;
      ok, errors := true, map[];
      ghost var store0 := store;
      Unconfined(store, multiset(Ids(pending)));
      Unconfined(store, multiset{});
      if pending == [] {
        NothingPending(store, name);
        if build.Built? { errors := InvalidJobsByIndex(build.invalid, 0); }
        return;
      }
      match build {
        case Refused(error) =>
          var message := "Invalid job batch: " + name + " - " + error;
          ok := KillPending(pending, message);
        case Built(jobs, invalid) =>
          var byIndex := InvalidJobsByIndex(invalid, |pending|);
          errors := byIndex;
          var valid := pending;
          ghost var killed := multiset{};
          if byIndex != map[] {
            ok, valid, killed := Separate(pending, byIndex, name);
            ConfinedMore(store0, store, killed, multiset(Ids(pending)));
            if !ok { return; }
          } else {
            NothingInvalid(store, pending, name);
          }
          match jobs {
            case None => return;
            case Some(js) =>
              ghost var before := store;
              ok := RunBatch(worker, js, valid, course);
              ConfinedTwice(store0, before, store, killed, multiset(Ids(valid)));
              ConfinedMore(store0, store, killed + multiset(Ids(valid)), multiset(Ids(pending)));
          }
      }
    }

    /** One spawned batch, which the registry may refuse to build. It settles its claims, or the
        runtime is cancelled, or it ends with an error that is still to be noticed. */
    method RunBatchTask(name: string, refusal: Option<string>, worker: Worker, pending: seq<Envelope>,
                        decode: string -> Decoded, course: Course)
      modifies this`store, this`calls, this`errors, this`shutdownError, this`cancelled, this`ran
      ensures errors == old(errors) || errors == old(errors) + ["batch failed"]
      ensures cancelled || errors != old(errors) || store.claims == old(store).claims - multiset(Ids(pending))
      ensures Confined(old(store), store, multiset(Ids(pending)))
      ensures old(cancelled) ==> cancelled
      ensures Smooth(old(calls)) ==> cancelled == old(cancelled) && errors == old(errors) && Smooth(calls)
      ensures ran != old(ran) ==>
                && |ran| == |old(ran)| + 1 && ran[..|old(ran)|] == old(ran)
                && forall item <- ran[|old(ran)|] :: decode(item.context.args) == Valid(item.job)
    {
      hide Ran, Kept, KillAll, KillInvalid, Valids, Invalids, Items, AllStarting, Confined, Smooth, ByIndex, Args, Ids;
      var build: Build;
      if refusal.Some? { build := Refused(refusal.value); } else { build := JobBatchFactory(Args(pending), decode); }
      ghost var before := store;
      var ok, byIndex := ProcessPendingBatch(name, worker, pending, build, course);
      if !ok { Raise("batch failed"); }
      if refusal.None? {
        RunsOwn(worker, pending, decode, byIndex, course.now);
        if ok && !cancelled { BatchSettles(before, name, worker, pending, decode, byIndex, course); }
      }
    }

    /** One turn of a dispatcher: claim the job that is next, read its cost if the queue is
        throttled, and hand it to the coordinator. A claim that may exist and is not handed on
        makes the turn fail, or the runtime is cancelled already. */
    method DispatchOne(next: Option<string>, throttled: bool) returns (ok: bool, handed: Option<string>)
      modifies this`store, this`calls
      ensures ok && !cancelled ==>
                store == if handed.Some? then old(store).(claims := old(store).claims + multiset{handed.value}) else old(store)
      ensures handed.Some? ==>
                ok && next == handed && store == old(store).(claims := old(store).claims + multiset{handed.value})
      ensures handed.None? ==>
                store == old(store) || (next.Some? && store == old(store).(claims := old(store).claims + multiset{next.value}))
      ensures Smooth(old(calls)) ==> ok && Smooth(calls) && (!cancelled ==> handed == next)
    {
      // a connection, before anything is claimed: its failure is tolerated for a while
      ok := Call(store);
      if !ok {
        var tolerated := *;
        return tolerated, None;
      }
      if next.None? { return true, None; }
      ok := Call(store.(claims := store.claims + multiset{next.value}));
      if !ok { return false, None; }
      if throttled {
        ok := Call(store);
        if !ok { return false, None; }
      }
      if cancelled { return true, None; }
      // the channel to the coordinator
      ok := Call(store);
      handed := if ok then next else None;
    }

    /** A turn of a dispatcher: it hands its claim on, or made none, or the runtime is cancelled, or
        it ends with an error that is still to be noticed. */
    method Dispatch(next: Option<string>, throttled: bool) returns (handed: Option<string>)
      modifies this`store, this`calls, this`errors
      ensures errors == old(errors) || (handed.None? && errors == old(errors) + ["dispatcher failed"])
      ensures handed.Some? ==> next == handed
      ensures handed.Some? || (errors == old(errors) && !cancelled) ==>
                store.claims == old(store).claims + (if handed.Some? then multiset{handed.value} else multiset{})
      ensures handed.None? ==>
                store.claims == old(store).claims || (next.Some? && store.claims == old(store).claims + multiset{next.value})
      ensures store.jobs == old(store).jobs
      ensures Smooth(old(calls)) ==> errors == old(errors) && Smooth(calls) && (!cancelled ==> handed == next)
    {
      var ok;
      ok, handed := DispatchOne(next, throttled);
      if !ok { Raise("dispatcher failed"); }
    }

    /** Reads the payload of a claim. Cancelled, the claim is left for recovery; without a payload
        it is deleted. */
    method LoadPendingJob(id: string) returns (ok: bool, found: Option<Envelope>)
      modifies this`store, this`calls
      ensures found.Some? ==> ok && id in old(store).jobs && found.value == old(store).jobs[id] && store == old(store)
      ensures ok && found.None? && !cancelled ==>
                && id !in old(store).jobs && store == Deleted(old(store), id)
                && id !in store.retry && store.claims[id] == 0 && OthersKept(old(store), store, {id})
      ensures store == old(store) || (id !in old(store).jobs && store == Deleted(old(store), id))
      ensures Smooth(old(calls)) ==> ok && Smooth(calls) && (!cancelled && id in old(store).jobs ==> found.Some?)
    {
      if cancelled { return true, None; }
      ok := Call(store);
      if !ok { return false, None; }
      if id in store.jobs { return true, Some(store.jobs[id]); }
      ok := Call(Deleted(store, id));
      found := None;
    }

    /** One job that is not batched. */
    method ProcessPendingJob(worker: Worker, e: Envelope, decode: string -> Decoded, course: Course) returns (ok: bool)
      modifies this`store, this`calls, this`shutdownError, this`cancelled, this`ran
      ensures ok && !cancelled ==>
                store == match decode(e.args)
                         case Valid(job) => Ran(old(store), worker, [job], [e], course)
                         case Invalid(error) => Killed(old(store), e, error)
      ensures Confined(old(store), store, multiset{e.id})
      ensures old(cancelled) ==> cancelled
      ensures Smooth(old(calls)) ==> ok && Smooth(calls) && cancelled == old(cancelled)
    {
      hide Confined;
      assert Ids([e]) == [e.id];
      match decode(e.args) {
        case Valid(job) => ok := RunBatch(worker, [job], [e], course);
        case Invalid(error) => ok := Kill(e, error);
      }
    }

    /** The task of one job: its claim is released, or the runtime is cancelled, or it ends with an
        error that is still to be noticed. */
    method RunJobTask(worker: Worker, e: Envelope, decode: string -> Decoded, course: Course)
      modifies this`store, this`calls, this`errors, this`shutdownError, this`cancelled, this`ran
      ensures errors == old(errors) || errors == old(errors) + ["job failed"]
      ensures cancelled || errors != old(errors) || store.claims == old(store).claims - multiset{e.id}
      ensures Confined(old(store), store, multiset{e.id})
      ensures old(cancelled) ==> cancelled
      ensures Smooth(old(calls)) ==> cancelled == old(cancelled) && errors == old(errors) && Smooth(calls)
    {
      ghost var before := store;
      var ok := ProcessPendingJob(worker, e, decode, course);
      if !ok { Raise("job failed"); }
      match decode(e.args) {
        case Valid(job) =>
          RanReleases(before, worker, [job], [e], course);
          assert Ids([e]) == [e.id];
        case Invalid(_) =>
      }
    }

    /** From the channel to the end of one job: its claim is released, or the runtime is cancelled,
        or an error is still to be noticed. */
    method RunJob(id: string, worker: Worker, decode: string -> Decoded, course: Course)
      requires Keyed(store)
      modifies this`store, this`calls, this`errors, this`shutdownError, this`cancelled, this`ran
      ensures |errors| <= |old(errors)| + 1 && old(errors) <= errors
      ensures cancelled || errors != old(errors) || store.claims == old(store).claims - multiset{id}
                        || (id !in old(store).jobs && store.claims == old(store).claims[id := 0])
      ensures old(cancelled) ==> cancelled
      ensures Smooth(old(calls)) ==> cancelled == old(cancelled) && errors == old(errors)
    {
      var ok, found := LoadPendingJob(id);
      if found.Some? {
        RunJobTask(worker, found.value, decode, course);
      } else if !ok {
        Raise("job failed");
      }
    }
  }

  lemma IdsMore(es: seq<Envelope>, e: Envelope)
    ensures multiset(Ids(es + [e])) == multiset(Ids(es)) + multiset{e.id}
  {
    assert Ids(es + [e]) == Ids(es) + [e.id];
  }

  lemma NoneSeparated(s: Store, errors: map<nat, string>, worker: string)
    ensures Kept([], errors) == [] && KillInvalid(s, [], errors, worker) == s && Ids([]) == []
  {}

  lemma NextSeparated(s: Store, pending: seq<Envelope>, errors: map<nat, string>, worker: string, i: nat)
    requires i < |pending|
    ensures Kept(pending[..i + 1], errors) ==
              (if i in errors then Kept(pending[..i], errors) else Kept(pending[..i], errors) + [pending[i]])
    ensures KillInvalid(s, pending[..i + 1], errors, worker) ==
              var before := KillInvalid(s, pending[..i], errors, worker);
              if i in errors then Killed(before, pending[i], InvalidJob(worker, errors[i])) else before
  {
    hide Killed, InvalidJob;
    assert pending[..i + 1][..i] == pending[..i];
  }

  lemma Unconfined(s: Store, ids: multiset<string>)
    ensures Confined(s, s, ids)
  {}

  lemma NothingConfined(s: Store, es: seq<Envelope>)
    ensures Confined(s, s, multiset(Ids(es[..0])))
  {}

  lemma NothingPending(s: Store, worker: string)
    ensures forall message :: KillAll(s, [], message) == s
    ensures forall errors :: Kept([], errors) == [] && KillInvalid(s, [], errors, worker) == s
  {}

  lemma {:induction false} NothingInvalid(s: Store, pending: seq<Envelope>, worker: string)
    ensures Kept(pending, map[]) == pending && KillInvalid(s, pending, map[], worker) == s
  {
    if pending != [] {
      NothingInvalid(s, pending[..|pending| - 1], worker);
      assert pending == pending[..|pending| - 1] + [pending[|pending| - 1]];
    }
  }

  // ----- alignment --------------------------------------------------------------

  /** Exactly the payloads that do not decode are reported, each with its own error. */
  lemma {:induction false} ReportedOnce(args: seq<string>, decode: string -> Decoded, index: nat)
    ensures FirstError(Invalids(args, decode), index) ==
              if index < |args| && decode(args[index]).Invalid? then Some(decode(args[index]).error) else None
  {
    if args != [] {
      var n := |args| - 1;
      ReportedOnce(args[..n], decode, index);
      if decode(args[n]).Invalid? { FirstErrorSnoc(Invalids(args[..n], decode), Fault(n, decode(args[n]).error), index); }
    }
  }

  ghost predicate Matching(errors: map<nat, string>, args: seq<string>, decode: string -> Decoded) {
    forall i :: 0 <= i < |args| ==> (i in errors <==> decode(args[i]).Invalid?)
  }

  lemma {:induction false} KeptAligned(pending: seq<Envelope>, decode: string -> Decoded, errors: map<nat, string>)
    requires Matching(errors, Args(pending), decode)
    ensures var valid, jobs := Kept(pending, errors), Valids(Args(pending), decode);
            |valid| == |jobs| && forall i :: 0 <= i < |jobs| ==> decode(valid[i].args) == Valid(jobs[i])
  {
    if pending != [] {
      var n := |pending| - 1;
      assert Args(pending)[..n] == Args(pending[..n]) && Args(pending)[n] == pending[n].args;
      KeptAligned(pending[..n], decode, errors);
    }
  }

  /** The i-th decoded job belongs to the i-th envelope that is kept, and no job at all was
      decoded only if every envelope was invalid. */
  lemma Aligned(pending: seq<Envelope>, decode: string -> Decoded, errors: map<nat, string>)
    requires ByIndex(errors, Invalids(Args(pending), decode), |pending|)
    ensures var valid, jobs := Kept(pending, errors), Valids(Args(pending), decode);
            |valid| == |jobs| && forall i :: 0 <= i < |jobs| ==> decode(valid[i].args) == Valid(jobs[i])
    ensures Valids(Args(pending), decode) == [] <==> forall e <- pending :: decode(e.args).Invalid?
  {
    var args := Args(pending);
    forall i | 0 <= i < |args| ensures i in errors <==> decode(args[i]).Invalid? {
      ReportedOnce(args, decode, i);
      assert (if i in errors then Some(errors[i]) else None) == FirstError(Invalids(args, decode), i);
    }
    KeptAligned(pending, decode, errors);
    NoJobs(args, decode);
    assert forall i :: 0 <= i < |pending| ==> args[i] == pending[i].args;
  }

  /** Every item of the batch has the job that was decoded from its own envelope. */
  lemma RunsOwn(worker: Worker, pending: seq<Envelope>, decode: string -> Decoded, errors: map<nat, string>, now: int)
    requires ByIndex(errors, Invalids(Args(pending), decode), |pending|)
    ensures var valid, jobs := Kept(pending, errors), Valids(Args(pending), decode);
            && |jobs| == |valid|
            && forall item <- Items(jobs, AllStarting(valid, worker.resumes, now)) :: decode(item.context.args) == Valid(item.job)
  {
    hide Kept, Valids;
    Aligned(pending, decode, errors);
  }

  lemma {:induction false} NoJobs(args: seq<string>, decode: string -> Decoded)
    ensures Valids(args, decode) == [] <==> forall i :: 0 <= i < |args| ==> decode(args[i]).Invalid?
  {
    if args != [] { NoJobs(args[..|args| - 1], decode); }
  }

  // ----- claims -----------------------------------------------------------------

  lemma IdsSnoc(es: seq<Envelope>)
    requires es != []
    ensures multiset(Ids(es)) == multiset(Ids(es[..|es| - 1])) + multiset{es[|es| - 1].id}
  {
    assert Ids(es) == Ids(es[..|es| - 1]) + [es[|es| - 1].id];
  }

  lemma {:induction false} KillAllReleases(s: Store, es: seq<Envelope>, error: string)
    ensures KillAll(s, es, error).claims == s.claims - multiset(Ids(es))
  {
    if es != [] {
      KillAllReleases(s, es[..|es| - 1], error);
      IdsSnoc(es);
    }
  }

  lemma {:induction false} AcknowledgedReleases(s: Store, es: seq<Envelope>)
    ensures Acknowledged(s, es).claims == s.claims - multiset(Ids(es))
  {
    if es != [] {
      AcknowledgedReleases(s, es[..|es| - 1]);
      IdsSnoc(es);
    }
  }

  lemma {:induction false} FailuresRelease(s: Store, es: seq<Envelope>, policies: seq<Policy>, now: int, error: string)
    requires |es| == |policies|
    ensures AfterFailures(s, es, policies, now, error).claims == s.claims - multiset(Ids(es))
  {
    if es != [] {
      var n := |es| - 1;
      FailuresRelease(s, es[..n], policies[..n], now, error);
      IdsSnoc(es);
    }
  }

  lemma {:induction false} StartedKeeps(s: Store, es: seq<Envelope>)
    ensures Started(s, es).claims == s.claims && Started(s, es).dead == s.dead && Started(s, es).retry == s.retry
  {
    if es != [] { StartedKeeps(s, es[..|es| - 1]); }
  }

  /** Whether the jobs succeeded, failed or panicked, every one of their claims is released. */
  lemma RanReleases(s: Store, worker: Worker, jobs: seq<Job>, es: seq<Envelope>, course: Course)
    requires |jobs| == |es|
    ensures Ran(s, worker, jobs, es, course).claims == s.claims - multiset(Ids(es))
  {
    var started, now := AllStarting(es, worker.resumes, course.now), course.now;
    var policies, s1 := PoliciesOf(worker, jobs, started), Worked(Started(s, started), course.work);
    assert Ids(started) == Ids(es);
    StartedKeeps(s, started);
    match course.outcome {
      case Success => AcknowledgedReleases(s1, started);
      case Failed(error) => FailuresRelease(s1, started, Overridden(started, policies, worker.delayOverride), now, error);
      case Panicked(message) => FailuresRelease(s1, started, policies, now, message);
    }
  }

  lemma Regrouped(a: multiset<string>, b: multiset<string>, c: multiset<string>)
    ensures a - b - c == a - (b + c) == a - c - b
  {}

  lemma KeptSnoc(pending: seq<Envelope>, errors: map<nat, string>)
    requires pending != []
    ensures var n := |pending| - 1;
            multiset(Ids(Kept(pending, errors))) ==
              multiset(Ids(Kept(pending[..n], errors))) + if n in errors then multiset{} else multiset{pending[n].id}
  {
    var n := |pending| - 1;
    var kept, before := Kept(pending, errors), Kept(pending[..n], errors);
    if n in errors {
      assert kept == before;
    } else {
      assert kept == before + [pending[n]] && kept[..|kept| - 1] == before;
      IdsSnoc(kept);
    }
  }

  /** The claims of the envelopes that are not kept are released. */
  lemma {:induction false} KilledReleases(s: Store, pending: seq<Envelope>, errors: map<nat, string>, worker: string)
    ensures KillInvalid(s, pending, errors, worker).claims - multiset(Ids(Kept(pending, errors))) ==
              s.claims - multiset(Ids(pending))
  {
    if pending != [] {
      var n := |pending| - 1;
      KilledReleases(s, pending[..n], errors, worker);
      IdsSnoc(pending);
      KeptSnoc(pending, errors);
      var before := KillInvalid(s, pending[..n], errors, worker);
      Regrouped(before.claims, multiset(Ids(Kept(pending[..n], errors))), multiset{pending[n].id});
      Regrouped(s.claims, multiset(Ids(pending[..n])), multiset{pending[n].id});
    }
  }

  function Buried(pending: seq<Envelope>, errors: map<nat, string>, worker: string): seq<Envelope> {
    if pending == [] then []
    else
      var n := |pending| - 1;
      (if n in errors then [pending[n].(error := Some(InvalidJob(worker, errors[n])))] else [])
      + Buried(pending[..n], errors, worker)
  }

  /** A buried envelope is one of the invalid ones, with the error reported for it. */
  lemma {:induction false} BuriedWithError(pending: seq<Envelope>, errors: map<nat, string>, worker: string, k: nat)
    requires k < |Buried(pending, errors, worker)|
    ensures exists i ::
              && 0 <= i < |pending| && i in errors
              && Buried(pending, errors, worker)[k] == pending[i].(error := Some(InvalidJob(worker, errors[i])))
  {
    var n := |pending| - 1;
    if n !in errors {
      BuriedWithError(pending[..n], errors, worker, k);
    } else if k > 0 {
      BuriedWithError(pending[..n], errors, worker, k - 1);
    }
  }

  /** The dead list gains exactly the invalid envelopes. */
  lemma {:induction false} KilledAreBuried(s: Store, pending: seq<Envelope>, errors: map<nat, string>, worker: string)
    ensures KillInvalid(s, pending, errors, worker).dead == Buried(pending, errors, worker) + s.dead
  {
    if pending != [] { KilledAreBuried(s, pending[..|pending| - 1], errors, worker); }
  }

  /** Each envelope is either kept or killed, and once. */
  lemma {:induction false} KilledOnce(pending: seq<Envelope>, errors: map<nat, string>, worker: string)
    ensures multiset(Ids(Buried(pending, errors, worker))) + multiset(Ids(Kept(pending, errors))) == multiset(Ids(pending))
  {
    hide Ids, Buried, Kept;
    if pending != [] {
      KilledOnce(pending[..|pending| - 1], errors, worker);
      IdsSnoc(pending);
      KeptSnoc(pending, errors);
      BuriedSnoc(pending, errors, worker);
    } else {
      NoneBuried(errors, worker);
    }
  }

  lemma NoneBuried(errors: map<nat, string>, worker: string)
    ensures Buried([], errors, worker) == [] && Kept([], errors) == [] && Ids([]) == []
  {}

  lemma BuriedSnoc(pending: seq<Envelope>, errors: map<nat, string>, worker: string)
    requires pending != []
    ensures var n := |pending| - 1;
            multiset(Ids(Buried(pending, errors, worker))) ==
              multiset(Ids(Buried(pending[..n], errors, worker))) + if n in errors then multiset{pending[n].id} else multiset{}
  {
    var n := |pending| - 1;
    var buried := Buried(pending[..n], errors, worker);
    if n in errors {
      assert Ids(Buried(pending, errors, worker)) == [pending[n].id] + Ids(buried);
    } else {
      assert Buried(pending, errors, worker) == buried;
    }
  }

  lemma BatchSettles(s: Store, name: string, worker: Worker, pending: seq<Envelope>, decode: string -> Decoded,
                     errors: map<nat, string>, course: Course)
    requires ByIndex(errors, Invalids(Args(pending), decode), |pending|)
    ensures var valid, jobs := Kept(pending, errors), Valids(Args(pending), decode);
            var killed := KillInvalid(s, pending, errors, name);
            && |jobs| == |valid|
            && (if valid == [] then killed.claims == s.claims - multiset(Ids(pending))
                else Ran(killed, worker, jobs, valid, course).claims == s.claims - multiset(Ids(pending)))
  {
    hide Ran;
    Aligned(pending, decode, errors);
    KilledReleases(s, pending, errors, name);
    var valid, jobs := Kept(pending, errors), Valids(Args(pending), decode);
    RanReleases(KillInvalid(s, pending, errors, name), worker, jobs, valid, course);
    assert valid == [] ==> multiset(Ids(valid)) == multiset{};
  }
}
