/** What failures do to jobs: the reports of a failed batch against what then happens to its jobs,
    and the retries of a job over its whole life. */
module Retries {
  import opened Options
  import opened Execution

  // ----- what is reported of a failure ------------------------------------------

  datatype Report = Report(id: string, retryCount: nat, maxRetries: nat, willRetry: bool, terminal: bool)

  function ReportOf(e: Envelope, policy: Policy): Report {
    var willRetry := e.retries < policy.maxRetries;
    Report(e.id, e.retries, policy.maxRetries, willRetry, !willRetry)
  }

  function FailureMetadata(es: seq<Envelope>, policies: seq<Policy>): seq<Report>
    requires |es| == |policies|
  {
    seq(|es|, i requires 0 <= i < |es| => ReportOf(es[i], policies[i]))
  }

  predicate DistinctIds(es: seq<Envelope>) { forall i, j :: 0 <= i < j < |es| ==> es[i].id != es[j].id }

  /** A payload that is still stored has the retries that were read. */
  predicate Retains(s: Store, e: Envelope) { e.id in s.jobs ==> s.jobs[e.id].retries == e.retries }

  /** What the transitions of a failed batch leave of an id that is not in it. */
  predicate Same(s: Store, s': Store, id: string) {
    && (id in s'.jobs <==> id in s.jobs) && (id in s.jobs ==> s'.jobs[id] == s.jobs[id])
    && (id in s'.retry <==> id in s.retry) && (id in s.retry ==> s'.retry[id] == s.retry[id])
    && Burials(s'.dead, id) == Burials(s.dead, id)
  }

  /** A failed batch touches nothing but the payloads and retries of its own jobs. */
  lemma {:induction false} FailuresFrame(s: Store, es: seq<Envelope>, policies: seq<Policy>, now: int, error: string, id: string)
    requires |es| == |policies| && forall e <- es :: e.id != id
    ensures Same(s, AfterFailures(s, es, policies, now, error), id)
  {
    hide AfterFailure;
    if es != [] {
      var n := |es| - 1;
      var before := AfterFailures(s, es[..n], policies[..n], now, error);
      FailuresFrame(s, es[..n], policies[..n], now, error, id);
      OtherFails(before, es[n], policies[n], now, error, id);
    }
  }

  lemma OtherFails(s: Store, e: Envelope, policy: Policy, now: int, error: string, id: string)
    requires e.id != id
    ensures Same(s, AfterFailure(s, e, policy, now, error), id)
  {
    if !WillRetry(e, policy) { assert AfterFailure(s, e, policy, now, error).dead[1..] == s.dead; }
  }

  function Burials(dead: seq<Envelope>, id: string): nat {
    if dead == [] then 0 else Burials(dead[1..], id) + if dead[0].id == id then 1 else 0
  }

  /** The job is stored with one more retry than reported, and due after its own delay. */
  predicate Retried(s': Store, e: Envelope, policy: Policy, now: int, report: Report) {
    && e.id in s'.jobs && s'.jobs[e.id].retries == report.retryCount + 1
    && e.id in s'.retry && s'.retry[e.id] == now + policy.retryDelay * MICROS_PER_SECOND
  }

  /** What becomes of a job that is reported as to be retried, or as terminal. */
  predicate Settled(s: Store, s': Store, e: Envelope, policy: Policy, now: int, report: Report) {
    && report.id == e.id && report.terminal == !report.willRetry
    && (report.willRetry ==>
          && Burials(s'.dead, e.id) == Burials(s.dead, e.id)
          && (if e.id in s.jobs then Retried(s', e, policy, now, report) && s'.jobs[e.id].state == s.jobs[e.id].state
              else Same(s, s', e.id)))
    && (report.terminal ==> e.id !in s'.jobs && Burials(s'.dead, e.id) == Burials(s.dead, e.id) + 1)
  }

  lemma OneSettled(s: Store, s0: Store, e: Envelope, policy: Policy, now: int, error: string)
    requires Retains(s, e) && Same(s0, s, e.id)
    ensures Settled(s0, AfterFailure(s, e, policy, now, error), e, policy, now, ReportOf(e, policy))
  {
    if !WillRetry(e, policy) { assert AfterFailure(s, e, policy, now, error).dead[1..] == s.dead; }
  }

  lemma SettledLater(s: Store, s1: Store, s2: Store, e: Envelope, other: Envelope, policy: Policy, last: Policy, now: int, error: string)
    requires Settled(s, s1, e, policy, now, ReportOf(e, policy)) && other.id != e.id
    requires s2 == AfterFailure(s1, other, last, now, error)
    ensures Settled(s, s2, e, policy, now, ReportOf(e, policy))
  {
    AfterOne(s1, other, last, now, error);
    FailuresFrame(s1, [other], [last], now, error, e.id);
  }

  /** The transition of each job of a failed batch is the one that was reported. A retry that was
      reported takes place if and only if the payload is still stored: if it is, one more retry is
      stored, with the state that is stored by then; otherwise the job stays as it is, and only the
      claim goes. A job reported as terminal is on the dead list once more, without payload. */
  lemma {:induction false} ReportsAreTrue(s: Store, es: seq<Envelope>, policies: seq<Policy>, now: int, error: string, i: nat)
    requires |es| == |policies| && DistinctIds(es) && i < |es| && forall e <- es :: Retains(s, e)
    ensures var s', report := AfterFailures(s, es, policies, now, error), FailureMetadata(es, policies)[i];
            && Settled(s, s', es[i], policies[i], now, report)
            && (report.willRetry ==> (Retried(s', es[i], policies[i], now, report) <==> es[i].id in s.jobs))
  {
    hide AfterFailure, Burials, ReportOf;
    var n := |es| - 1;
    var before := AfterFailures(s, es[..n], policies[..n], now, error);
    if i < n {
      ReportsAreTrue(s, es[..n], policies[..n], now, error, i);
      hide Settled;
      SettledLater(s, before, AfterFailures(s, es, policies, now, error), es[i], es[n], policies[i], policies[n], now, error);
    } else {
      assert es[n] in es;
      FailuresFrame(s, es[..n], policies[..n], now, error, es[n].id);
      OneSettled(before, s, es[n], policies[n], now, error);
    }
    RetriedIffStored(s, AfterFailures(s, es, policies, now, error), es[i], policies[i], now);
  }

  lemma RetriedIffStored(s: Store, s': Store, e: Envelope, policy: Policy, now: int)
    requires Settled(s, s', e, policy, now, ReportOf(e, policy))
    ensures ReportOf(e, policy).willRetry ==> (Retried(s', e, policy, now, ReportOf(e, policy)) <==> e.id in s.jobs)
  {}

  lemma AfterOne(s: Store, e: Envelope, policy: Policy, now: int, error: string)
    ensures AfterFailures(s, [e], [policy], now, error) == AfterFailure(s, e, policy, now, error)
  {
    assert AfterFailures(s, [], [], now, error) == s && [e][..0] == [] && [policy][..0] == [];
  }

  predicate Removed(work: Work, id: string) { id in work && work[id].None? }

  lemma {:induction false} StartedStores(s: Store, es: seq<Envelope>, i: nat)
    requires DistinctIds(es) && i < |es|
    ensures es[i].id in Started(s, es).jobs && Started(s, es).jobs[es[i].id] == es[i]
  {
    if i < |es| - 1 { StartedStores(s, es[..|es| - 1], i); }
  }

  lemma WorkedStores(s: Store, es: seq<Envelope>, work: Work, i: nat)
    requires DistinctIds(es) && i < |es|
    ensures var s', id := Worked(Started(s, es), work), es[i].id;
            && (id in s'.jobs <==> !Removed(work, id)) && Retains(s', es[i])
            && (id in s'.jobs ==> s'.jobs[id].state == if id in work then work[id] else es[i].state)
            && s'.dead == s.dead && s'.retry == s.retry
  {
    StartedStores(s, es, i);
    StartedKeeps(s, es);
  }

  /** The delays that a failed run uses. */
  function UsedPolicies(worker: Worker, started: seq<Envelope>, policies: seq<Policy>, outcome: Outcome): seq<Policy>
    requires |started| == |policies|
    ensures |UsedPolicies(worker, started, policies, outcome)| == |policies|
  {
    if outcome.Failed? then Overridden(started, policies, worker.delayOverride) else policies
  }

  /** From the start of a batch that fails or panics to its end, whatever its jobs save and whoever
      removes their payloads meanwhile: each job is treated as its report says, and a reported retry
      takes place if and only if its payload was not removed. */
  lemma BatchReports(s: Store, worker: Worker, jobs: seq<Job>, es: seq<Envelope>, course: Course, i: nat)
    requires |jobs| == |es| && DistinctIds(es) && i < |es| && !course.outcome.Success?
    ensures var started := AllStarting(es, worker.resumes, course.now);
            var policies := PoliciesOf(worker, jobs, started);
            var used := UsedPolicies(worker, started, policies, course.outcome)[i];
            var s', report, id := Ran(s, worker, jobs, es, course), FailureMetadata(started, policies)[i], es[i].id;
            && (report.willRetry ==> (Retried(s', started[i], used, course.now, report) <==> !Removed(course.work, id)))
            && (report.willRetry && !Removed(course.work, id) ==>
                  s'.jobs[id].state == if id in course.work then course.work[id] else started[i].state)
            && (report.willRetry ==> Burials(s'.dead, id) == Burials(s.dead, id))
            && (report.willRetry && Removed(course.work, id) ==> id !in s'.jobs)
            && (report.terminal ==> id !in s'.jobs && Burials(s'.dead, id) == Burials(s.dead, id) + 1)
  {
    var started := AllStarting(es, worker.resumes, course.now);
    var policies := PoliciesOf(worker, jobs, started);
    var used := UsedPolicies(worker, started, policies, course.outcome);
    var before := Worked(Started(s, started), course.work);
    hide AfterFailures, Worked, Started, Burials;
    forall e | e in started ensures Retains(before, e) {
      var k :| 0 <= k < |started| && started[k] == e;
      WorkedStores(s, started, course.work, k);
    }
    WorkedStores(s, started, course.work, i);
    var error := if course.outcome.Failed? then course.outcome.error else course.outcome.message;
    ReportsAreTrue(before, started, used, course.now, error, i);
  }

  /** When a failed job with retries left is due again: after its worker's delay for this job and this
      number of retries, or, after an error, the delay that the settings put in its place. */
  lemma DueAgain(s: Store, worker: Worker, jobs: seq<Job>, es: seq<Envelope>, course: Course, i: nat)
    requires |jobs| == |es| && DistinctIds(es) && i < |es| && !course.outcome.Success? && !Removed(course.work, es[i].id)
    requires es[i].retries < worker.maxRetries(jobs[i])
    ensures var s', id, retries := Ran(s, worker, jobs, es, course), es[i].id, es[i].retries;
            var base := worker.retryDelay(jobs[i], retries);
            var instead := if course.outcome.Failed? then worker.delayOverride(retries, base) else None;
            && id in s'.retry && id in s'.jobs && s'.jobs[id].retries == retries + 1
            && s'.retry[id] == course.now + (if instead.Some? then instead.value else base) * MICROS_PER_SECOND
  {
    hide Ran, Burials, Worked, Started, AfterFailures;
    BatchReports(s, worker, jobs, es, course, i);
  }

  // ----- retries over the whole life of a job -----------------------------------

  /** How one run of a job ends; a process that stops leaves the claim to be recovered. */
  datatype Ending = Ends(course: Course) | Vanishes(now: int, work: Work)

  /** One run of a job whose payload is stored; without a payload there is nothing to run. */
  function Attempt(s: Store, worker: Worker, job: Job, id: string, ending: Ending): Store {
    if id !in s.jobs then s
    else
      match ending
      case Ends(course) => Ran(s, worker, [job], [s.jobs[id]], course)
      case Vanishes(now, work) => Worked(Started(s, AllStarting([s.jobs[id]], worker.resumes, now)), work)
  }

  function Life(s: Store, worker: Worker, job: Job, id: string, runs: seq<Ending>): Store {
    if runs == [] then s else Attempt(Life(s, worker, job, id, runs[..|runs| - 1]), worker, job, id, runs[|runs| - 1])
  }

  predicate Fails(ending: Ending) { ending.Ends? && !ending.course.outcome.Success? }

  predicate Succeeds(ending: Ending) { ending.Ends? && ending.course.outcome.Success? }

  function Failures(runs: seq<Ending>): nat {
    if runs == [] then 0 else Failures(runs[..|runs| - 1]) + if Fails(runs[|runs| - 1]) then 1 else 0
  }

  function WorkOf(ending: Ending): Work { match ending case Ends(course) => course.work case Vanishes(_, work) => work }

  /** Nobody removes the payload while the job runs. */
  predicate Undisturbed(runs: seq<Ending>, id: string) { forall run <- runs :: !Removed(WorkOf(run), id) }

  lemma StartOne(s: Store, worker: Worker, id: string, now: int, work: Work)
    requires id in s.jobs && s.jobs[id].id == id && !Removed(work, id)
    ensures var started := AllStarting([s.jobs[id]], worker.resumes, now);
            var s' := Worked(Started(s, started), work);
            && started == [Starting(s.jobs[id], worker.resumes, now)] && s'.dead == s.dead
            && id in s'.jobs && s'.jobs[id].id == id && s'.jobs[id].retries == s.jobs[id].retries
  {
    var started := AllStarting([s.jobs[id]], worker.resumes, now);
    assert started == [Starting(s.jobs[id], worker.resumes, now)];
    assert Started(s, started) == s.(jobs := s.jobs[id := started[0]]) by { assert Started(s, []) == s; }
  }

  /** What one run leaves of the job. */
  lemma AttemptEnds(s: Store, worker: Worker, job: Job, id: string, ending: Ending)
    requires id in s.jobs && s.jobs[id].id == id && !Removed(WorkOf(ending), id)
    ensures var s', retries := Attempt(s, worker, job, id, ending), s.jobs[id].retries;
            && (Succeeds(ending) ==> id !in s'.jobs && s'.dead == s.dead)
            && (ending.Vanishes? ==>
                  id in s'.jobs && s'.jobs[id].id == id && s'.jobs[id].retries == retries && s'.dead == s.dead)
            && (Fails(ending) ==>
                  if retries < worker.maxRetries(job) then
                    id in s'.jobs && s'.jobs[id].id == id && s'.jobs[id].retries == retries + 1 && s'.dead == s.dead
                  else id !in s'.jobs && Burials(s'.dead, id) == Burials(s.dead, id) + 1)
  {
    var now := if ending.Ends? then ending.course.now else ending.now;
    StartOne(s, worker, id, now, WorkOf(ending));
    var started := AllStarting([s.jobs[id]], worker.resumes, now);
    var s1 := Worked(Started(s, started), WorkOf(ending));
    hide Worked, Started;
    if Succeeds(ending) {
      assert Acknowledged(s1, []) == s1 && started[..0] == [];
      assert Acknowledged(s1, started) == s1.(jobs := s1.jobs - {id}, claims := s1.claims - multiset{id});
    } else if ending.Ends? {
      var outcome, policies := ending.course.outcome, PoliciesOf(worker, [job], started);
      var used := UsedPolicies(worker, started, policies, outcome);
      var error := if outcome.Failed? then outcome.error else outcome.message;
      assert started == [started[0]] && used == [used[0]];
      AfterOne(s1, started[0], used[0], now, error);
      var s' := AfterFailures(s1, started, used, now, error);
      if !WillRetry(started[0], used[0]) { assert s'.dead[1..] == s.dead; }
    }
  }

  /** Without replacement or removal, and whatever runs vanish with their process: as long as it has
      not succeeded, a job is alive exactly while it has failed at most `maxRetries` times, its stored
      retries are its failed runs, and failure number `maxRetries + 1` puts it on the dead list, once. */
  lemma {:induction false} RetryAccounting(s: Store, worker: Worker, job: Job, id: string, runs: seq<Ending>)
    requires id in s.jobs && s.jobs[id].id == id && s.jobs[id].retries == 0
    requires Undisturbed(runs, id) && forall run <- runs :: !Succeeds(run)
    ensures var s', limit := Life(s, worker, job, id, runs), worker.maxRetries(job);
            && (id in s'.jobs <==> Failures(runs) <= limit)
            && (id in s'.jobs ==> s'.jobs[id].id == id && s'.jobs[id].retries == Failures(runs))
            && Burials(s'.dead, id) == Burials(s.dead, id) + if Failures(runs) > limit then 1 else 0
  {
    hide Attempt;
    if runs != [] {
      var n := |runs| - 1;
      assert runs[n] in runs && forall run <- runs[..n] :: run in runs;
      RetryAccounting(s, worker, job, id, runs[..n]);
      var before := Life(s, worker, job, id, runs[..n]);
      if id in before.jobs { AttemptEnds(before, worker, job, id, runs[n]); }
      else { NothingToRun(before, worker, job, id, runs[n]); }
    }
  }

  lemma NothingToRun(s: Store, worker: Worker, job: Job, id: string, ending: Ending)
    requires id !in s.jobs
    ensures Attempt(s, worker, job, id, ending) == s
  {}

  /** The runs that are carried out and come to an end. */
  function Executions(s: Store, worker: Worker, job: Job, id: string, runs: seq<Ending>): nat {
    if runs == [] then 0
    else
      var n := |runs| - 1;
      Executions(s, worker, job, id, runs[..n])
      + if runs[n].Ends? && id in Life(s, worker, job, id, runs[..n]).jobs then 1 else 0
  }

  /** A job with limit m is executed at most m + 1 times, and while it is alive every execution failed. */
  lemma {:induction false} ExecutionsBounded(s: Store, worker: Worker, job: Job, id: string, runs: seq<Ending>)
    requires id in s.jobs && s.jobs[id].id == id && s.jobs[id].retries == 0 && Undisturbed(runs, id)
    ensures Executions(s, worker, job, id, runs) <= worker.maxRetries(job) + 1
    ensures var s' := Life(s, worker, job, id, runs);
            id in s'.jobs ==>
              && s'.jobs[id].id == id && s'.jobs[id].retries == Executions(s, worker, job, id, runs)
              && s'.jobs[id].retries <= worker.maxRetries(job)
  {
    hide Attempt;
    if runs != [] {
      var n := |runs| - 1;
      assert runs[n] in runs && forall run <- runs[..n] :: run in runs;
      ExecutionsBounded(s, worker, job, id, runs[..n]);
      var before := Life(s, worker, job, id, runs[..n]);
      if id in before.jobs { AttemptEnds(before, worker, job, id, runs[n]); }
      else { NothingToRun(before, worker, job, id, runs[n]); }
    }
  }
}
