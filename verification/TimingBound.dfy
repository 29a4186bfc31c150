/** The bound on heartbeat and delay is exact: when it does not hold, a live process is swept. */
module TimingBound {
  import opened Options
  import opened Protocol
  import ProtocolSafety

  ghost predicate NeverSweepsLive(t: Timing) {
    forall steps: seq<Step>, sweeper: string, live: string ::
      Run(t, steps).Some? && Enabled(t, Run(t, steps).value, Judge(sweeper)) && Runs(Run(t, steps).value, live) ==>
        !JudgedDead(t, Run(t, steps).value, sweeper, live)
  }

  predicate JudgedDead(t: Timing, s: State, sweeper: string, p: string) {
    var sweep := Proc(s, sweeper).sweep;
    sweep.Compared? && p in DeadProcesses(sweep.lists, sweep.members, s.now - t.threshold)
  }

  lemma RunSnoc(t: Timing, steps: seq<Step>, step: Step)
    requires Run(t, steps).Some? && Enabled(t, Run(t, steps).value, step)
    ensures Run(t, steps + [step]) == Some(Next(t, Run(t, steps).value, step))
  {
    assert (steps + [step])[..|steps|] == steps;
  }

  /** Two processes register, and one reads the process set just before the next heartbeats are due. */
  function Opening(t: Timing): seq<Step> {
    [Ping("a", 0)] + [Ping("b", 0)] + [Tick(t.heartbeat)] + [StartScan("b")] + [ReadMembers("b")]
  }

  /** Both go on with their heartbeats while the sweeper is slow to read the clock. */
  function Slow(t: Timing, n: nat): seq<Step> {
    if n == 0 then Opening(t)
    else
      var now := t.heartbeat + n - 1;
      Slow(t, n - 1) + [Ping("a", now)] + [Ping("b", now)] + [Tick(1)]
  }

  predicate TwoRun(s: State) {
    && s.processes.Keys == {"a", "b"} && s.processes["a"].phase == Running && s.processes["b"].phase == Running
    && s.processes["a"].sweep == Idle
  }

  predicate Lagging(t: Timing, s: State, n: nat) {
    && TwoRun(s) && s.now == t.heartbeat + n && "a" in s.redis.processes
    && s.processes["b"].sweep == Compared({}, map["a" := 0, "b" := 0], t.heartbeat)
  }

  ghost predicate Lags(t: Timing, steps: seq<Step>, n: nat) {
    match Run(t, steps) case Some(s) => Lagging(t, s, n) case None => false
  }

  lemma Started(t: Timing)
    ensures Run(t, []) == Some(START)
  {}

  /** Both have registered at time zero, and `heartbeat` has passed. */
  predicate Registered(t: Timing, s: State) {
    TwoRun(s) && s.now == t.heartbeat && s.redis.processes == map["a" := 0, "b" := 0] && s.processes["b"].sweep == Idle
  }

  function FirstOf(): State {
    START.(redis := START.redis.(processes := map["a" := 0]), processes := map["a" := NEW_PROCESS.(phase := Running)])
  }

  function Both(): State {
    START.(redis := START.redis.(processes := map["a" := 0, "b" := 0]),
           processes := map["a" := NEW_PROCESS.(phase := Running), "b" := NEW_PROCESS.(phase := Running)])
  }

  lemma FirstPings(t: Timing)
    ensures Enabled(t, START, Ping("a", 0)) && Next(t, START, Ping("a", 0)) == FirstOf()
    ensures Enabled(t, FirstOf(), Ping("b", 0)) && Next(t, FirstOf(), Ping("b", 0)) == Both()
  {
    assert map["a" := 0]["b" := 0] == map["a" := 0, "b" := 0];
    assert FirstOf().processes["b" := NEW_PROCESS.(phase := Running)] == Both().processes;
  }

  lemma FirstTick(t: Timing)
    ensures Enabled(t, Both(), Tick(t.heartbeat)) && Registered(t, Next(t, Both(), Tick(t.heartbeat)))
  {
    assert forall p :: Runs(Both(), p) ==> p in {"a", "b"};
  }

  lemma Register(t: Timing)
    ensures var s1 := Next(t, START, Ping("a", 0));
            var s2 := Next(t, s1, Ping("b", 0));
            && Enabled(t, START, Ping("a", 0)) && Enabled(t, s1, Ping("b", 0)) && Enabled(t, s2, Tick(t.heartbeat))
            && Registered(t, Next(t, s2, Tick(t.heartbeat)))
  {
    hide Next, Enabled, Registered, FirstOf, Both;
    FirstPings(t);
    FirstTick(t);
  }

  lemma Look(t: Timing, s: State)
    requires Registered(t, s)
    ensures var s' := Next(t, s, StartScan("b"));
            && Enabled(t, s, StartScan("b")) && Enabled(t, s', ReadMembers("b")) && Proc(s', "b").sweep.Scanning?
            && Lagging(t, Next(t, s', ReadMembers("b")), 0)
  {}

  lemma OpeningRuns(t: Timing)
    ensures Lags(t, Opening(t), 0)
  {
    hide Run, Next, Enabled, Lagging, Registered;
    Started(t);
    Register(t);
    var s := Next(t, Next(t, Next(t, START, Ping("a", 0)), Ping("b", 0)), Tick(t.heartbeat));
    Look(t, s);
    RunThree(t, [], Ping("a", 0), Ping("b", 0), Tick(t.heartbeat));
    var steps := [] + [Ping("a", 0)] + [Ping("b", 0)] + [Tick(t.heartbeat)];
    RunSnoc(t, steps, StartScan("b"));
    RunSnoc(t, steps + [StartScan("b")], ReadMembers("b"));
    assert [] + [Ping("a", 0)] == [Ping("a", 0)];
  }

  /** A heartbeat keeps the sweeper where it is. */
  lemma PingLags(t: Timing, s: State, n: nat, p: string)
    requires Lagging(t, s, n) && p in {"a", "b"}
    ensures Enabled(t, s, Ping(p, s.now))
    ensures var s' := Next(t, s, Ping(p, s.now));
            Lagging(t, s', n) && s'.redis.processes == s.redis.processes[p := s.now]
  {}

  /** Right after both heartbeats time may go on. */
  lemma TickLags(t: Timing, s: State, n: nat)
    requires Lagging(t, s, n) && n < t.delay && t.heartbeat > 0
    requires forall p <- {"a", "b"} :: p in s.redis.processes && s.redis.processes[p] == s.now
    ensures Enabled(t, s, Tick(1)) && Lagging(t, Next(t, s, Tick(1)), n + 1)
  {
    assert forall p :: Runs(s, p) ==> p in {"a", "b"};
  }

  lemma OneMore(t: Timing, s: State, n: nat)
    requires Lagging(t, s, n) && n < t.delay && t.heartbeat > 0
    ensures Enabled(t, s, Ping("a", s.now))
    ensures var s1 := Next(t, s, Ping("a", s.now));
            var s2 := Next(t, s1, Ping("b", s.now));
            && Enabled(t, s1, Ping("b", s.now)) && Enabled(t, s2, Tick(1)) && Lagging(t, Next(t, s2, Tick(1)), n + 1)
  {
    hide Next, Enabled;
    PingLags(t, s, n, "a");
    var s1 := Next(t, s, Ping("a", s.now));
    PingLags(t, s1, n, "b");
    TickLags(t, Next(t, s1, Ping("b", s.now)), n);
  }

  lemma {:induction false} SlowRuns(t: Timing, n: nat)
    requires n <= t.delay && t.heartbeat > 0
    ensures Lags(t, Slow(t, n), n)
  {
    hide Lags, Slow, Opening;
    SlowIs(t, n);
    if n == 0 {
      OpeningRuns(t);
    } else {
      SlowRuns(t, n - 1);
      OneMoreRuns(t, Slow(t, n - 1), n - 1);
    }
  }

  lemma SlowIs(t: Timing, n: nat)
    ensures n == 0 ==> Slow(t, n) == Opening(t)
    ensures n > 0 ==>
              var now := t.heartbeat + n - 1;
              Slow(t, n) == Slow(t, n - 1) + [Ping("a", now)] + [Ping("b", now)] + [Tick(1)]
  {}

  lemma LaggingNow(t: Timing, s: State, n: nat)
    requires Lagging(t, s, n)
    ensures s.now == t.heartbeat + n
  {}

  lemma OneMoreRuns(t: Timing, steps: seq<Step>, n: nat)
    requires Lags(t, steps, n) && n < t.delay && t.heartbeat > 0
    ensures var now := t.heartbeat + n; Lags(t, steps + [Ping("a", now)] + [Ping("b", now)] + [Tick(1)], n + 1)
  {
    hide Run, Next, Enabled, Lagging;
    var s, now := Run(t, steps).value, t.heartbeat + n;
    LaggingNow(t, s, n);
    OneMore(t, s, n);
    RunThree(t, steps, Ping("a", now), Ping("b", now), Tick(1));
  }

  lemma RunThree(t: Timing, steps: seq<Step>, a: Step, b: Step, c: Step)
    requires a.Ping? && b.Ping? && c.Tick? && Run(t, steps).Some?
    requires var s := Run(t, steps).value;
             Enabled(t, s, a) && Enabled(t, Next(t, s, a), b) && Enabled(t, Next(t, Next(t, s, a), b), c)
    ensures Run(t, steps + [a] + [b] + [c]) == Some(Next(t, Next(t, Next(t, Run(t, steps).value, a), b), c))
  {
    hide Run, Next, Enabled;
    RunSnoc(t, steps, a);
    RunSnoc(t, steps + [a], b);
    RunSnoc(t, steps + [a] + [b], c);
  }

  /** No live process is ever judged dead if and only if the heartbeat gap and the delay together
      stay within the threshold. */
  lemma TimingIsExact(t: Timing)
    requires t.heartbeat > 0
    ensures NeverSweepsLive(t) <==> t.heartbeat + t.delay <= t.threshold
  {
    if t.Valid() {
      forall steps: seq<Step>, sweeper: string, live: string
        | Run(t, steps).Some? && Enabled(t, Run(t, steps).value, Judge(sweeper)) && Runs(Run(t, steps).value, live)
        ensures !JudgedDead(t, Run(t, steps).value, sweeper, live)
      {
        var s := Run(t, steps).value;
        if JudgedDead(t, s, sweeper, live) { ProtocolSafety.NoLiveProcessSwept(t, steps, s, Judge(sweeper), live); }
      }
    } else {
      SlowRuns(t, t.delay);
      var s := Run(t, Slow(t, t.delay)).value;
      assert Enabled(t, s, Judge("b")) && Runs(s, "a") && JudgedDead(t, s, "b", "a");
    }
  }
}
