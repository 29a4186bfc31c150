/** The concurrency gate of a queue: a counter under a lock, and a notification that wakes
    everyone waiting. Leaving the lock and notifying are two separate steps, and the limit
    and the paused state may change at any time. */
module Gate {
  import opened Options

  datatype QueueState = Active | Paused

  datatype Config = Config(concurrency: Option<nat>, state: QueueState)

  /** What the lock protects, and how many times everyone has been notified. */
  datatype Control = Control(concurrency: nat, active: nat, queueState: QueueState, notified: nat) {
    predicate Open() { queueState == Active && active < concurrency }
  }

  function NewControl(config: Config): Control {
    Control(if config.concurrency.Some? then config.concurrency.value else 1, 0, config.state, 0)
  }

  /** `saturating_sub` on an unsigned counter. */
  function Minus(a: nat, b: nat): nat { if a >= b then a - b else 0 }

  function Entered(c: Control): Control { if c.Open() then c.(active := c.active + 1) else c }

  function Configured(c: Control, config: Config): Control {
    c.(concurrency := if config.concurrency.Some? then config.concurrency.value else c.concurrency,
       queueState := config.state)
  }

  function Left(c: Control): Control { c.(active := Minus(c.active, 1)) }

  class QueueControl {
    var concurrency: nat
    var active: nat
    var queueState: QueueState
    var notified: nat

    ghost function Value(): Control
      reads this
    {
      Control(concurrency, active, queueState, notified)
    }

    constructor (config: Config)
      ensures Value() == NewControl(config)
      ensures concurrency == (if config.concurrency.Some? then config.concurrency.value else 1) && active == 0
      ensures queueState == config.state && notified == 0
    {
      concurrency := match config.concurrency case Some(n) => n case None => 1;
      active, queueState, notified := 0, config.state, 0;
    }

    /** The locked section of `acquire`. */
    method TryEnter() returns (granted: bool)
      modifies this`active
      ensures granted <==> queueState == Active && old(active) < concurrency
      ensures active == if granted then old(active) + 1 else old(active)
      ensures Value() == Entered(old(Value()))
    {
      granted := queueState == Active && active < concurrency;
      if granted { active := active + 1; }
    }

    /** The locked section of `apply_config`. */
    method ApplyConfig(config: Config)
      modifies this`concurrency, this`queueState
      ensures concurrency == if config.concurrency.Some? then config.concurrency.value else old(concurrency)
      ensures queueState == config.state && active == old(active) && notified == old(notified)
      ensures Value() == Configured(old(Value()), config)
    {
      match config.concurrency {
        case Some(n) => concurrency := n;
        case None =>
      }
      queueState := config.state;
    }

    /** The locked section of `release`. */
    method Leave()
      modifies this`active
      ensures active == if old(active) > 0 then old(active) - 1 else 0
      ensures Value() == Left(old(Value()))
    {
      active := if active >= 1 then active - 1 else 0;
    }

    method NotifyWaiters()
      modifies this`notified
      ensures Value() == old(Value()).(notified := old(Value()).notified + 1)
    {
      notified := notified + 1;
    }
  }

  // ----- all clients of one gate ------------------------------------------------

  /** A caller of `acquire`. A notification future is ready once everyone has been notified
      after the future was created, which `seen` dates. */
  datatype Client = Away | Checking(seen: nat) | Parked(seen: nat) | Inside

  /** `pending` callers have left the lock after a change and have still to notify. */
  datatype State = State(control: Control, clients: map<nat, Client>, pending: nat)

  datatype Step =
    | Begin(w: nat)             // the future is created before the lock is taken
    | Check(w: nat)
    | Wake(w: nat)              // the future was ready: around the loop again
    | Abandon(w: nat)           // the future of `acquire` is dropped
    | Apply(config: Config)
    | DropPermit(w: nat)
    | Notify

  function At(s: State, w: nat): Client { if w in s.clients then s.clients[w] else Away }

  predicate Enabled(s: State, step: Step) {
    match step
    case Begin(w) => At(s, w) == Away
    case Check(w) => At(s, w).Checking?
    case Wake(w) => At(s, w).Parked? && At(s, w).seen != s.control.notified
    case Abandon(w) => At(s, w).Checking? || At(s, w).Parked?
    case Apply(_) => true
    case DropPermit(w) => At(s, w).Inside?
    case Notify => s.pending > 0
  }

  function Next(s: State, step: Step): State
    requires Enabled(s, step)
  {
    var c := s.control;
    match step
    case Begin(w) => s.(clients := s.clients[w := Checking(c.notified)])
    case Check(w) =>
      s.(control := Entered(c), clients := s.clients[w := if c.Open() then Inside else Parked(At(s, w).seen)])
    case Wake(w) => s.(clients := s.clients[w := Checking(c.notified)])
    case Abandon(w) => s.(clients := s.clients[w := Away])
    case Apply(config) => s.(control := Configured(c, config), pending := s.pending + 1)
    case DropPermit(w) =>
      s.(control := Left(c), clients := s.clients[w := Away], pending := s.pending + 1)
    case Notify => s.(control := c.(notified := c.notified + 1), pending := s.pending - 1)
  }

  function Start(config: Config): State { State(NewControl(config), map[], 0) }

  /** The state after the steps, None if one of them cannot be taken. */
  function Run(config: Config, steps: seq<Step>): Option<State> {
    if steps == [] then Some(Start(config))
    else
      match Run(config, steps[..|steps| - 1])
      case None => None
      case Some(s) =>
        if Enabled(s, steps[|steps| - 1]) then Some(Next(s, steps[|steps| - 1])) else None
  }

  function Permits(s: State): set<nat> { set w <- s.clients | s.clients[w] == Inside }

  /** The highest limit that was ever in force. */
  function Peak(config: Config, steps: seq<Step>): nat {
    if steps == [] then NewControl(config).concurrency
    else
      var before := Peak(config, steps[..|steps| - 1]);
      match steps[|steps| - 1]
      case Apply(Config(Some(n), _)) => if n > before then n else before
      case _ => before
  }

  /** A waiter is sure to be woken, or waits for nothing that is there. */
  predicate Attended(s: State, w: nat) {
    && (At(s, w).Checking? || At(s, w).Parked? ==> At(s, w).seen <= s.control.notified)
    && (At(s, w).Parked? && At(s, w).seen == s.control.notified && s.control.Open() ==> s.pending > 0)
  }

  ghost predicate Inv(s: State) {
    s.control.active == |Permits(s)| && forall w :: Attended(s, w)
  }

  lemma PermitsChange(s: State, w: nat, client: Client)
    ensures Permits(s.(clients := s.clients[w := client])) ==
              if client == Inside then Permits(s) + {w} else Permits(s) - {w}
  {}

  lemma StepKeepsInv(s: State, step: Step)
    requires Inv(s) && Enabled(s, step)
    ensures Inv(Next(s, step))
  {
    var s' := Next(s, step);
    if !step.Apply? && !step.Notify? { PermitsChange(s, step.w, s'.clients[step.w]); }
    assert step.Check? || step.DropPermit? ==> (step.w in Permits(s) <==> step.DropPermit?);
    assert step.DropPermit? ==> s.control.active > 0;
    assert Permits(s') ==
      if step.Apply? || step.Notify? then Permits(s)
      else if s'.clients[step.w] == Inside then Permits(s) + {step.w} else Permits(s) - {step.w};
    forall w ensures Attended(s', w) { assert Attended(s, w); }
  }

  /** Through any sequence of resizes, pauses, grants, drops and late notifications: the counter
      is the number of permits in use, which never exceeds the highest limit set so far; and a
      parked waiter that could enter has a notification that came or is still to come. */
  lemma {:induction false} RunKeepsInv(config: Config, steps: seq<Step>)
    requires Run(config, steps).Some?
    ensures Inv(Run(config, steps).value)
    ensures Run(config, steps).value.control.active <= Peak(config, steps)
    ensures Run(config, steps).value.control.concurrency <= Peak(config, steps)
  {
    if steps == [] {
      assert Permits(Start(config)) == {};
    } else {
      RunKeepsInv(config, steps[..|steps| - 1]);
      StepKeepsInv(Run(config, steps[..|steps| - 1]).value, steps[|steps| - 1]);
    }
  }

  /** The last configuration applied, and the last limit named. */
  function LastState(config: Config, steps: seq<Step>): QueueState {
    if steps == [] then config.state
    else
      var last := steps[|steps| - 1];
      if last.Apply? then last.config.state else LastState(config, steps[..|steps| - 1])
  }

  function LastLimit(config: Config, steps: seq<Step>): nat {
    if steps == [] then (match config.concurrency case Some(n) => n case None => 1)
    else
      match steps[|steps| - 1]
      case Apply(Config(Some(n), _)) => n
      case _ => LastLimit(config, steps[..|steps| - 1])
  }

  /** In every run the queue has the state of the last configuration applied, and the last limit named. */
  lemma {:induction false} FollowsConfig(config: Config, steps: seq<Step>)
    requires Run(config, steps).Some?
    ensures var c := Run(config, steps).value.control;
            c.queueState == LastState(config, steps) && c.concurrency == LastLimit(config, steps)
  {
    if steps != [] { FollowsConfig(config, steps[..|steps| - 1]); }
  }

  predicate StaysPaused(steps: seq<Step>) { forall step <- steps :: step.Apply? ==> step.config.state == Paused }

  lemma {:induction false} PausedLately(config: Config, before: seq<Step>, steps: seq<Step>)
    requires LastState(config, before) == Paused && StaysPaused(steps)
    ensures LastState(config, before + steps) == Paused
  {
    if steps == [] {
      assert before + steps == before;
    } else {
      assert (before + steps)[..|before + steps| - 1] == before + steps[..|steps| - 1];
      assert steps[|steps| - 1] in steps && forall x <- steps[..|steps| - 1] :: x in steps;
      PausedLately(config, before, steps[..|steps| - 1]);
    }
  }

  /** Once a queue is paused nobody gets a permit until a later configuration is active. */
  lemma PausedAdmitsNobody(config: Config, before: seq<Step>, paused: Config, steps: seq<Step>, step: Step, w: nat)
    requires paused.state == Paused && StaysPaused(steps) && Run(config, before + [Apply(paused)] + steps).Some?
    requires Enabled(Run(config, before + [Apply(paused)] + steps).value, step)
    ensures var s := Run(config, before + [Apply(paused)] + steps).value;
            At(Next(s, step), w) == Inside ==> At(s, w) == Inside
  {
    var all := before + [Apply(paused)] + steps;
    assert (before + [Apply(paused)])[|before|] == Apply(paused);
    PausedLately(config, before + [Apply(paused)], steps);
    FollowsConfig(config, all);
    if At(Run(config, all).value, w) != Inside { GrantedWhenOpen(config, all, step, w); }
  }

  /** A release never finds the counter at zero, so the saturating subtraction is exact. */
  lemma NeverSaturates(config: Config, steps: seq<Step>, w: nat)
    requires Run(config, steps).Some? && At(Run(config, steps).value, w) == Inside
    ensures var s := Run(config, steps).value;
            s.control.active >= 1 && Left(s.control).active == s.control.active - 1
  {
    RunKeepsInv(config, steps);
    var s := Run(config, steps).value;
    assert w in Permits(s);
  }

  /** A permit is granted exactly by a check that finds the queue active and below its limit. */
  lemma GrantedWhenOpen(config: Config, steps: seq<Step>, step: Step, w: nat)
    requires Run(config, steps).Some? && Enabled(Run(config, steps).value, step)
    requires At(Run(config, steps).value, w) != Inside
    ensures var s := Run(config, steps).value;
            At(Next(s, step), w) == Inside <==>
              step == Check(w) && s.control.queueState == Active && |Permits(s)| < s.control.concurrency
  {
    RunKeepsInv(config, steps);
  }

  function Notifications(n: nat): seq<Step> {
    if n == 0 then [] else Notifications(n - 1) + [Notify]
  }

  lemma {:induction false} AllNotify(config: Config, steps: seq<Step>, n: nat)
    requires Run(config, steps).Some? && n <= Run(config, steps).value.pending
    ensures var s := Run(config, steps).value;
            Run(config, steps + Notifications(n)) ==
              Some(s.(control := s.control.(notified := s.control.notified + n), pending := s.pending - n))
  {
    if n == 0 {
      assert steps + Notifications(0) == steps;
    } else {
      AllNotify(config, steps, n - 1);
      var all := steps + Notifications(n);
      assert all[..|all| - 1] == steps + Notifications(n - 1) && all[|all| - 1] == Notify;
    }
  }

  lemma RunSnoc(config: Config, steps: seq<Step>, step: Step)
    requires Run(config, steps).Some? && Enabled(Run(config, steps).value, step)
    ensures Run(config, steps + [step]) == Some(Next(Run(config, steps).value, step))
  {
    assert (steps + [step])[..|steps|] == steps;
  }

  /** No wakeup is lost: whenever the gate is open, a parked waiter gets in without anyone
      changing the gate again, once the notifications under way have been delivered. */
  lemma WaiterGetsIn(config: Config, steps: seq<Step>, w: nat)
    requires Run(config, steps).Some? && At(Run(config, steps).value, w).Parked?
    requires Run(config, steps).value.control.Open()
    ensures var n := Run(config, steps).value.pending;
            var after := Run(config, steps + Notifications(n) + [Wake(w)] + [Check(w)]);
            after.Some? && At(after.value, w) == Inside
  {
    RunKeepsInv(config, steps);
    var s := Run(config, steps).value;
    assert Attended(s, w);
    AllNotify(config, steps, s.pending);
    RunSnoc(config, steps + Notifications(s.pending), Wake(w));
    RunSnoc(config, steps + Notifications(s.pending) + [Wake(w)], Check(w));
  }
}
