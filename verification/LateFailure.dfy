/** Between the drop of a claim and the failure that stops the runtime, a live runtime that is not
    cancelled has a claim that nobody holds. */
module LateFailure {
  import opened Options
  import opened Protocol
  import opened Claims
  import Gate
  import TimingBound

  const JOB := Payload("q", true, "")

  const K := Permit("q", 0)

  const ONE_AT_A_TIME := Gate.Config(Some(1), Gate.Active)

  /** A job is stored and placed, and a process registers. */
  function Arrival(): seq<Step> { [StorePayload("j", JOB)] + [PlaceNow("j")] + [Ping("p", 0)] }

  /** A dispatcher of its queue gets the only permit. */
  function Admission(): seq<Step> {
    Arrival() + [Local("p", OpenGate("q", ONE_AT_A_TIME))] + [Local("p", AtGate("q", Gate.Begin(0)))]
    + [Local("p", AtGate("q", Gate.Check(0)))]
  }

  /** It claims the job; its next command fails, and it ends with the error. */
  function Loss(): seq<Step> { Admission() + [Claim("p", K)] + [Local("p", Break)] + [Local("p", LetGo(K))] }

  predicate Waiting(s: State) {
    && s.status == map["j" := At(Queue("q"))] && s.redis.jobs == map["j" := JOB] && ListAt(s.redis.queues, "q") == ["j"]
    && ListAt(s.redis.processing, "p") == [] && Runs(s, "p")
  }

  ghost predicate RunsTo(t: Timing, steps: seq<Step>, s: State) { Run(t, steps) == Some(s) }

  lemma Snoc(t: Timing, steps: seq<Step>, s: State, step: Step)
    requires RunsTo(t, steps, s) && Enabled(t, s, step)
    ensures RunsTo(t, steps + [step], Next(t, s, step))
  {
    hide Next, Enabled;
    TimingBound.RunSnoc(t, steps, step);
  }

  function WithPayload(): State { START.(redis := START.redis.(jobs := map["j" := JOB]), status := map["j" := Stored]) }

  function Placed(): State {
    var s := WithPayload();
    s.(redis := s.redis.(queues := map["q" := ["j"]]), status := map["j" := At(Queue("q"))])
  }

  function Arrived(): State {
    var s := Placed();
    s.(redis := s.redis.(processes := map["p" := 0]), processes := map["p" := NEW_PROCESS.(phase := Running)])
  }

  lemma Stores(t: Timing)
    ensures Enabled(t, START, StorePayload("j", JOB)) && Next(t, START, StorePayload("j", JOB)) == WithPayload()
  {
    assert HoldersOf(NEW_RUNTIME.holders, "j") == {};
    assert forall p :: Accounted(Proc(START, p).runtime, "j") == 0;
  }

  lemma Places(t: Timing)
    ensures Enabled(t, WithPayload(), PlaceNow("j")) && Next(t, WithPayload(), PlaceNow("j")) == Placed()
  {
    assert ["j"] + [] == ["j"];
  }

  lemma Registers(t: Timing)
    ensures Enabled(t, Placed(), Ping("p", 0)) && Next(t, Placed(), Ping("p", 0)) == Arrived()
    ensures Waiting(Arrived()) && Proc(Arrived(), "p").runtime == NEW_RUNTIME
  {}

  lemma Arrives(t: Timing)
    ensures RunsTo(t, Arrival(), Arrived())
  {
    hide Next, Enabled, WithPayload, Placed, Arrived;
    TimingBound.Started(t);
    Stores(t);
    Places(t);
    Registers(t);
    Snoc(t, [], START, StorePayload("j", JOB));
    assert [] + [StorePayload("j", JOB)] == [StorePayload("j", JOB)];
    Snoc(t, [StorePayload("j", JOB)], WithPayload(), PlaceNow("j"));
    Snoc(t, [StorePayload("j", JOB)] + [PlaceNow("j")], Placed(), Ping("p", 0));
  }

  /** The runtime after the gate of the queue has let its first client in. */
  function Admitted(): Runtime {
    NEW_RUNTIME.(gates := map["q" := Gate.State(Gate.Control(1, 1, Gate.Active, 0), map[0 := Gate.Inside], 0)],
                 holders := map[K := Empty])
  }

  lemma Admits()
    ensures var r1 := Moved(NEW_RUNTIME, OpenGate("q", ONE_AT_A_TIME));
            && Possible(NEW_RUNTIME, OpenGate("q", ONE_AT_A_TIME)) && Possible(r1, AtGate("q", Gate.Begin(0)))
            && var r2 := Moved(r1, AtGate("q", Gate.Begin(0)));
               Possible(r2, AtGate("q", Gate.Check(0))) && Moved(r2, AtGate("q", Gate.Check(0))) == Admitted()
  {
    var r1 := Moved(NEW_RUNTIME, OpenGate("q", ONE_AT_A_TIME));
    var r2 := Moved(r1, AtGate("q", Gate.Begin(0)));
    var r3 := Moved(r2, AtGate("q", Gate.Check(0)));
    var gate := Gate.Start(ONE_AT_A_TIME);
    assert r1.gates["q"] == gate && r2.gates["q"] == Gate.Next(gate, Gate.Begin(0));
    assert r2.gates["q"].control.Open() && r2.gates["q"].clients == map[0 := Gate.Checking(0)];
    assert r3.gates["q"].clients == map[0 := Gate.Inside];
    assert r3.gates["q"] == Admitted().gates["q"];
    assert r3.gates == Admitted().gates && r3.holders == Admitted().holders;
  }

  lemma OneMove(t: Timing, steps: seq<Step>, s: State, move: Move)
    requires RunsTo(t, steps, s) && Waiting(s) && Possible(Proc(s, "p").runtime, move)
    ensures var s' := WithRuntime(s, "p", Moved(Proc(s, "p").runtime, move));
            RunsTo(t, steps + [Local("p", move)], s') && Waiting(s') && Proc(s', "p").runtime == Moved(Proc(s, "p").runtime, move)
  {
    hide Moved, Possible;
    Snoc(t, steps, s, Local("p", move));
  }

  /** The claim is in the list of the process. */
  predicate Listed(s: State) { Runs(s, "p") && "j" in s.status && ListAt(s.redis.processing, "p") == ["j"] }

  /** And its runtime has let go of it. */
  predicate Lost(s: State) {
    && Listed(s) && Proc(s, "p").runtime.holders == map[] && Proc(s, "p").runtime.dropped == multiset{"j"}
    && Proc(s, "p").runtime.failures == 1 && !Proc(s, "p").runtime.cancelled
  }

  lemma MayList(s: State)
    requires Waiting(s) && Proc(s, "p").runtime == Admitted()
    ensures MayClaim(s, "p", K) && LastOf(s, "q") == "j"
  {}

  lemma TakesIt(s: State)
    requires Waiting(s)
    ensures ListAt(TakeLast(s.redis, "q", "p").processing, "p") == ["j"]
  {
    assert ["j"] + [] == ["j"];
  }

  lemma Lists(t: Timing, s: State)
    requires Waiting(s) && Proc(s, "p").runtime == Admitted()
    ensures Enabled(t, s, Claim("p", K))
    ensures var s' := Next(t, s, Claim("p", K)); Listed(s') && Proc(s', "p").runtime == Claimed(Admitted(), K, "j")
  {
    hide TakeLast, Claimed, Admitted, MayClaim, LastOf;
    MayList(s);
    TakesIt(s);
  }

  lemma StaysListed(t: Timing, s: State, move: Move)
    requires Listed(s) && Possible(Proc(s, "p").runtime, move)
    ensures Enabled(t, s, Local("p", move))
    ensures var s' := Next(t, s, Local("p", move)); Listed(s') && Proc(s', "p").runtime == Moved(Proc(s, "p").runtime, move)
  {
    hide Moved, Possible;
  }

  lemma LetsGo()
    ensures var r1 := Claimed(Admitted(), K, "j");
            Possible(r1, Break) && Possible(Moved(r1, Break), LetGo(K))
    ensures var r3 := Moved(Moved(Claimed(Admitted(), K, "j"), Break), LetGo(K));
            r3.holders == map[] && r3.dropped == multiset{"j"} && r3.failures == 1 && !r3.cancelled
  {
    var r2 := Moved(Claimed(Admitted(), K, "j"), Break);
    assert r2.holders[K] == Holding("j", Dispatched, false);
    var r3 := Moved(r2, LetGo(K));
    assert r3.dropped == multiset{"j"} && r3.holders == map[];
  }

  /** In every setting there is a run in which a claim of a live runtime that is not cancelled is in
      nobody's hands: its dispatcher has let go of it, and the failure is still to come. */
  lemma UnheldUntilFail(t: Timing)
    ensures exists s :: RunsTo(t, Loss(), s) && Lost(s)
  {
    hide RunsTo, Waiting, Listed, Next, Enabled, Moved, Possible, Admitted, Arrived, Claimed;
    Arrives(t);
    Registers(t);
    Admits();
    var s0 := Arrived();
    OneMove(t, Arrival(), s0, OpenGate("q", ONE_AT_A_TIME));
    var r1 := Moved(NEW_RUNTIME, OpenGate("q", ONE_AT_A_TIME));
    var s1 := WithRuntime(s0, "p", r1);
    OneMove(t, Arrival() + [Local("p", OpenGate("q", ONE_AT_A_TIME))], s1, AtGate("q", Gate.Begin(0)));
    var r2 := Moved(r1, AtGate("q", Gate.Begin(0)));
    var s2 := WithRuntime(s1, "p", r2);
    OneMove(t, Arrival() + [Local("p", OpenGate("q", ONE_AT_A_TIME))] + [Local("p", AtGate("q", Gate.Begin(0)))], s2,
            AtGate("q", Gate.Check(0)));
    var s3 := WithRuntime(s2, "p", Admitted());
    Lists(t, s3);
    LetsGo();
    Snoc(t, Admission(), s3, Claim("p", K));
    var s4 := Next(t, s3, Claim("p", K));
    StaysListed(t, s4, Break);
    Snoc(t, Admission() + [Claim("p", K)], s4, Local("p", Break));
    var s5 := Next(t, s4, Local("p", Break));
    StaysListed(t, s5, LetGo(K));
    Snoc(t, Admission() + [Claim("p", K)] + [Local("p", Break)], s5, Local("p", LetGo(K)));
    var s6 := Next(t, s5, Local("p", LetGo(K)));
    assert RunsTo(t, Loss(), s6) && Lost(s6);
  }
}
