/** One runtime: who holds which claim, with which permit, at which stage. A task that fails lets
    go of its claims first and is noticed later; until then the failure is still to come. */
module Claims {
  import opened Options
  import Gate

  /** The permit of one client of the gate of a queue. */
  datatype Permit = Permit(queue: string, client: nat)

  /** In the hands of a dispatcher, in the channel to the coordinator, in a batcher, in a task. */
  datatype Stage = Dispatched | Sent | Batched | Executing

  /** What comes with a permit: nothing yet, a claim, or nothing any more. */
  datatype Holder = Empty | Holding(id: string, stage: Stage, absent: bool) | Settled

  /** `dropped` are the claims that were let go while they were still in Redis, `failures` the
      errors that are still to reach `fail`. */
  datatype Runtime = Runtime(
    gates: map<string, Gate.State>,
    holders: map<Permit, Holder>,
    dropped: multiset<string>,
    failures: nat,
    cancelled: bool)

  const NEW_RUNTIME := Runtime(map[], map[], multiset{}, 0, false)

  /** What a runtime does on its own, between its commands to Redis. */
  datatype Move =
    | OpenGate(queue: string, config: Gate.Config)
    | AtGate(queue: string, step: Gate.Step)   // any step of the gate but the drop of a permit
    | Advance(k: Permit, stage: Stage)
    | Return(k: Permit)                        // drop a permit that comes without a claim
    | Break                                    // a task is about to end with an error
    | LetGo(k: Permit)                         // drop a claim with its permit
    | Forsake(k: Permit)                       // a drain goes on after a claim without payload
    | FailNow                                  // the error reaches `fail`
    | Cancel

  function GateOf(r: Runtime, queue: string): Gate.State {
    if queue in r.gates then r.gates[queue] else Gate.Start(Gate.Config(None, Gate.Active))
  }

  predicate Holds(r: Runtime, k: Permit) { k in r.holders && r.holders[k].Holding? }

  predicate Follows(from: Stage, to: Stage) {
    || (from == Dispatched && to == Sent)
    || (from == Sent && (to == Batched || to == Executing))
    || (from == Batched && to == Executing)
  }

  predicate Possible(r: Runtime, m: Move) {
    match m
    case OpenGate(queue, _) => queue !in r.gates
    case AtGate(queue, step) => queue in r.gates && !step.DropPermit? && Gate.Enabled(r.gates[queue], step)
    case Advance(k, stage) => Holds(r, k) && Follows(r.holders[k].stage, stage)
    case Return(k) => k in r.holders && !r.holders[k].Holding?
    case Break => true
    case LetGo(k) => Holds(r, k) && (r.failures > 0 || r.cancelled)
    case Forsake(k) => Holds(r, k) && r.holders[k].absent
    case FailNow => r.failures > 0
    case Cancel => true
  }

  function Given(r: Runtime, k: Permit, h: Holder): Runtime { r.(holders := r.holders[k := h]) }

  /** The permit goes back to its gate, which is notified later. */
  function Left(r: Runtime, k: Permit): Runtime {
    var gate := GateOf(r, k.queue);
    r.(holders := r.holders - {k},
       gates := if Gate.At(gate, k.client).Inside? then r.gates[k.queue := Gate.Next(gate, Gate.DropPermit(k.client))]
                else r.gates)
  }

  function Moved(r: Runtime, m: Move): Runtime
    requires Possible(r, m)
  {
    match m
    case OpenGate(queue, config) => r.(gates := r.gates[queue := Gate.Start(config)])
    case AtGate(queue, step) =>
      var gate := Gate.Next(r.gates[queue], step);
      var after := r.(gates := r.gates[queue := gate]);
      if step.Check? && Gate.At(gate, step.w).Inside? then Given(after, Permit(queue, step.w), Empty) else after
    case Advance(k, stage) => Given(r, k, r.holders[k].(stage := stage))
    case Return(k) => Left(r, k)
    case Break => r.(failures := r.failures + 1)
    case LetGo(k) => Left(r.(dropped := r.dropped + multiset{r.holders[k].id}), k)
    case Forsake(k) => Left(r, k)
    case FailNow => r.(failures := r.failures - 1, cancelled := true)
    case Cancel => r.(cancelled := true)
  }

  /** A claim was made with an empty permit; or it was made, but nobody knows. */
  function Claimed(r: Runtime, k: Permit, id: string): Runtime { Given(r, k, Holding(id, Dispatched, false)) }

  function ClaimedUnseen(r: Runtime, k: Permit, id: string): Runtime {
    Given(r, k, Settled).(dropped := r.dropped + multiset{id}, failures := r.failures + 1)
  }

  // ----- what a runtime keeps ---------------------------------------------------

  /** A permit is in use exactly while it has a holder. */
  predicate Permitted(r: Runtime, k: Permit) { k in r.holders <==> Gate.At(GateOf(r, k.queue), k.client) == Gate.Inside }

  ghost predicate Sound(r: Runtime) {
    && (forall k :: Permitted(r, k)) && (forall queue :: Gate.Inv(GateOf(r, queue)))
    && (r.dropped != multiset{} && !r.cancelled ==> r.failures > 0)
  }

  function HoldersOf(holders: map<Permit, Holder>, id: string): set<Permit> {
    set k <- holders | holders[k].Holding? && holders[k].id == id
  }

  /** How often an id is in the hands of the runtime. */
  function Hands(r: Runtime, id: string): nat { |HoldersOf(r.holders, id)| }

  /** The claims that a runtime has made and not given back. */
  function Accounted(r: Runtime, id: string): nat { Hands(r, id) + r.dropped[id] }

  function One(h: Holder, id: string): nat { if h.Holding? && h.id == id then 1 else 0 }

  lemma GivenHands(r: Runtime, k: Permit, h: Holder, id: string)
    requires k in r.holders
    ensures Hands(Given(r, k, h), id) == Hands(r, id) - One(r.holders[k], id) + One(h, id)
  {
    var before, after := HoldersOf(r.holders, id), HoldersOf(r.holders[k := h], id);
    assert after == if One(h, id) == 1 then before + {k} else before - {k};
    assert One(r.holders[k], id) == 1 <==> k in before;
  }

  lemma NewHands(r: Runtime, k: Permit, h: Holder, id: string)
    requires k !in r.holders
    ensures Hands(Given(r, k, h), id) == Hands(r, id) + One(h, id)
  {
    var before, after := HoldersOf(r.holders, id), HoldersOf(r.holders[k := h], id);
    assert after == if One(h, id) == 1 then before + {k} else before;
  }

  lemma LeftHands(r: Runtime, k: Permit, id: string)
    requires k in r.holders
    ensures Hands(Left(r, k), id) == Hands(r, id) - One(r.holders[k], id)
  {
    var before, after := HoldersOf(r.holders, id), HoldersOf(r.holders - {k}, id);
    assert after == before - {k};
    assert One(r.holders[k], id) == 1 <==> k in before;
  }

  lemma StartSound(config: Gate.Config)
    ensures Gate.Inv(Gate.Start(config)) && forall w :: Gate.At(Gate.Start(config), w) != Gate.Inside
  {
    assert Gate.Permits(Gate.Start(config)) == {};
  }

  lemma NewIsSound()
    ensures Sound(NEW_RUNTIME)
  {
    hide Gate.Inv;
    StartSound(Gate.Config(None, Gate.Active));
  }

  lemma GateKeeps(gate: Gate.State, step: Gate.Step, w: nat)
    requires Gate.Enabled(gate, step)
    ensures Gate.At(Gate.Next(gate, step), w) == Gate.Inside <==>
              (Gate.At(gate, w) == Gate.Inside && step != Gate.DropPermit(w))
              || (step == Gate.Check(w) && gate.control.Open())
  {}

  lemma LeftSound(r: Runtime, k: Permit)
    requires Sound(r) && k in r.holders
    ensures (forall l :: Permitted(Left(r, k), l)) && forall queue :: Gate.Inv(GateOf(Left(r, k), queue))
    ensures var r' := Left(r, k); r'.dropped == r.dropped && r'.failures == r.failures && r'.cancelled == r.cancelled
  {
    hide Gate.Inv, Gate.Next, Gate.At;
    var gate := GateOf(r, k.queue);
    assert Permitted(r, k);
    DropEnabled(gate, k.client);
    Gate.StepKeepsInv(gate, Gate.DropPermit(k.client));
    forall l ensures Permitted(Left(r, k), l) {
      assert Permitted(r, l);
      GateKeeps(gate, Gate.DropPermit(k.client), l.client);
    }
    forall queue ensures Gate.Inv(GateOf(Left(r, k), queue)) {
      assert Gate.Inv(GateOf(r, queue));
      assert queue != k.queue ==> GateOf(Left(r, k), queue) == GateOf(r, queue);
    }
  }

  lemma DropEnabled(gate: Gate.State, w: nat)
    requires Gate.At(gate, w) == Gate.Inside
    ensures Gate.Enabled(gate, Gate.DropPermit(w))
  {}

  /** Every move of a runtime keeps its permits and its holders together, and a claim that was
      let go has a failure to come until the runtime is cancelled. */
  lemma MoveKeepsSound(r: Runtime, m: Move)
    requires Sound(r) && Possible(r, m)
    ensures Sound(Moved(r, m))
  {
    hide Gate.Inv, Gate.Next, Gate.Enabled, Gate.At, Gate.Start;
    match m {
      case OpenGate(queue, config) => OpenKeeps(r, queue, config);
      case AtGate(queue, step) => AtGateKeeps(r, queue, step);
      case Advance(k, stage) => GivenKeeps(r, k, r.holders[k].(stage := stage));
      case Return(k) => LeftSound(r, k);
      case LetGo(k) => LetGoKeeps(r, k);
      case Forsake(k) => LeftSound(r, k);
      case _ => SameGates(r, Moved(r, m));
    }
  }

  lemma SameGates(r: Runtime, r': Runtime)
    requires Sound(r) && r'.gates == r.gates && r'.holders.Keys == r.holders.Keys
    ensures (forall k :: Permitted(r', k)) && forall queue :: Gate.Inv(GateOf(r', queue))
  {
    hide Gate.Inv, Gate.At;
    forall k ensures Permitted(r', k) { assert Permitted(r, k); }
    forall queue ensures Gate.Inv(GateOf(r', queue)) { assert GateOf(r', queue) == GateOf(r, queue); }
  }

  lemma GivenKeeps(r: Runtime, k: Permit, h: Holder)
    requires Sound(r) && k in r.holders
    ensures Sound(Given(r, k, h))
  {
    hide Gate.Inv, Gate.At;
    SameGates(r, Given(r, k, h));
  }

  lemma LetGoKeeps(r: Runtime, k: Permit)
    requires Sound(r) && Possible(r, LetGo(k))
    ensures Sound(Moved(r, LetGo(k)))
  {
    hide Gate.Inv, Gate.At;
    var after := r.(dropped := r.dropped + multiset{r.holders[k].id});
    SameGates(r, after);
    LeftSound(after, k);
  }

  lemma OpenKeeps(r: Runtime, queue: string, config: Gate.Config)
    requires Sound(r) && queue !in r.gates
    ensures Sound(Moved(r, OpenGate(queue, config)))
  {
    hide Gate.Inv, Gate.Start;
    StartSound(config);
    StartSound(Gate.Config(None, Gate.Active));
    var r' := Moved(r, OpenGate(queue, config));
    forall k ensures Permitted(r', k) { assert Permitted(r, k); }
    forall other ensures Gate.Inv(GateOf(r', other)) { assert other != queue ==> GateOf(r', other) == GateOf(r, other); }
  }

  lemma AtGateKeeps(r: Runtime, queue: string, step: Gate.Step)
    requires Sound(r) && Possible(r, AtGate(queue, step))
    ensures Sound(Moved(r, AtGate(queue, step)))
  {
    hide Gate.Inv, Gate.Next, Gate.Enabled;
    var r', gate := Moved(r, AtGate(queue, step)), GateOf(r, queue);
    Gate.StepKeepsInv(gate, step);
    forall k ensures Permitted(r', k) {
      assert Permitted(r, k);
      GateKeeps(gate, step, k.client);
      if step.Check? { GateKeeps(gate, step, step.w); CheckedOutside(gate, step.w); }
    }
    forall other ensures Gate.Inv(GateOf(r', other)) { assert other != queue ==> GateOf(r', other) == GateOf(r, other); }
  }

  lemma CheckedOutside(gate: Gate.State, w: nat)
    requires Gate.Enabled(gate, Gate.Check(w))
    ensures Gate.At(gate, w) != Gate.Inside
  {}

  /** No move of a runtime gains or loses track of a claim: what leaves its hands is dropped. */
  lemma MoveKeepsAccount(r: Runtime, m: Move, id: string)
    requires Sound(r) && Possible(r, m)
    requires m.Forsake? ==> r.holders[m.k].id != id
    ensures Accounted(Moved(r, m), id) == Accounted(r, id)
  {
    hide Gate.Inv, Gate.Next, Gate.Enabled, Hands;
    match m {
      case AtGate(queue, step) =>
        if step.Check? {
          var k := Permit(queue, step.w);
          assert Permitted(r, k);
          CheckedOutside(r.gates[queue], step.w);
          NewHands(r, k, Empty, id);
        }
        SameHands(r, Moved(r, m), id);
      case Advance(k, stage) => GivenHands(r, k, r.holders[k].(stage := stage), id);
      case Return(k) => LeftHands(r, k, id);
      case LetGo(k) =>
        SameHands(r, r.(dropped := r.dropped + multiset{r.holders[k].id}), id);
        LeftHands(r.(dropped := r.dropped + multiset{r.holders[k].id}), k, id);
      case Forsake(k) => LeftHands(r, k, id);
      case _ => SameHands(r, Moved(r, m), id);
    }
  }

  lemma SameHands(r: Runtime, r': Runtime, id: string)
    ensures r'.holders == r.holders ==> Hands(r', id) == Hands(r, id)
    ensures forall k :: r'.holders == r.holders[k := Empty] ==> Hands(r', id) == Hands(Given(r, k, Empty), id)
  {}

  /** The permits of a queue that are in use are its holders, and the gate counts them. */
  lemma ActiveAreHolders(r: Runtime, queue: string)
    requires Sound(r)
    ensures (set k <- r.holders | k.queue == queue :: k.client) == Gate.Permits(GateOf(r, queue))
    ensures GateOf(r, queue).control.active == |set k <- r.holders | k.queue == queue :: k.client|
  {
    var clients := set k <- r.holders | k.queue == queue :: k.client;
    forall w ensures w in clients <==> w in Gate.Permits(GateOf(r, queue)) {
      assert Permitted(r, Permit(queue, w));
      if w in clients { assert Permit(queue, w) in r.holders; }
    }
    assert Gate.Inv(GateOf(r, queue));
  }

  /** A runtime gets a new holder only through a gate that is active and below its limit. */
  lemma NewHolderNeedsGate(r: Runtime, m: Move, k: Permit)
    requires Sound(r) && Possible(r, m) && k !in r.holders && k in Moved(r, m).holders
    ensures m == AtGate(k.queue, Gate.Check(k.client)) && k.queue in r.gates
    ensures var c := r.gates[k.queue].control;
            c.queueState == Gate.Active && |set l <- r.holders | l.queue == k.queue :: l.client| < c.concurrency
  {
    ActiveAreHolders(r, k.queue);
    assert Permitted(r, k);
  }
}
