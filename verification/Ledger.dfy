/** What a queue that is served amounts to in terms of `Claims`: the claims it holds and has lost, its
    idle permits and its gate. A change of the ledger is sound if every runtime that matches it
    can follow with moves, claims and settlements that `Claims` allows. */
module Ledger {
  import opened Options
  import opened Claims
  import Gate

  datatype Book = Book(held: multiset<string>, idle: nat, lost: multiset<string>, failures: nat, cancelled: bool,
                       control: Gate.Control)

  /** A move of the runtime, or what a command of a holder to Redis changes in it. */
  datatype Act = Do(move: Move) | Claim(k: Permit, id: string) | Unseen(k: Permit, id: string) | Settle(k: Permit)

  predicate Can(r: Runtime, a: Act) {
    match a
    case Do(move) => Possible(r, move)
    case Claim(k, _) => k in r.holders && r.holders[k] == Empty
    case Unseen(k, _) => k in r.holders && r.holders[k] == Empty
    case Settle(k) => Holds(r, k)
  }

  function After(r: Runtime, a: Act): Runtime
    requires Can(r, a)
  {
    match a
    case Do(move) => Moved(r, move)
    case Claim(k, id) => Claimed(r, k, id)
    case Unseen(k, id) => ClaimedUnseen(r, k, id)
    case Settle(k) => Given(r, k, Settled)
  }

  predicate Leads(r: Runtime, acts: seq<Act>, r': Runtime)
    decreases |acts|
  {
    if acts == [] then r' == r else Can(r, acts[0]) && Leads(After(r, acts[0]), acts[1..], r')
  }

  ghost predicate Reaches(r: Runtime, r': Runtime) { exists acts :: Leads(r, acts, r') }

  function Empties(r: Runtime): set<Permit> { set k <- r.holders | r.holders[k] == Empty }

  /** The runtime has the one queue, no permit is about to be returned, and the books are right. */
  ghost predicate Matches(b: Book, r: Runtime, queue: string) { Tallies(b, r, queue, 0) }

  /** The same while so many notifications are still to come. */
  ghost predicate Tallies(b: Book, r: Runtime, queue: string, pending: nat) {
    && Sound(r) && queue in r.gates && r.gates[queue].control == b.control && r.gates[queue].pending == pending
    && (forall k <- r.holders :: k.queue == queue && r.holders[k] != Settled)
    && |Empties(r)| == b.idle && (forall id :: Hands(r, id) == b.held[id])
    && r.dropped == b.lost && r.failures == b.failures && r.cancelled == b.cancelled
  }

  ghost predicate Arrives(r: Runtime, b: Book, queue: string) { exists r' :: Reaches(r, r') && Matches(b, r', queue) }

  ghost predicate Sanctioned(b: Book, b': Book) {
    forall r, queue :: Matches(b, r, queue) ==> Arrives(r, b', queue)
  }

  // ----- sequences --------------------------------------------------------------

  lemma {:induction false} LeadsOn(r: Runtime, a: seq<Act>, r1: Runtime, b: seq<Act>, r2: Runtime)
    requires Leads(r, a, r1) && Leads(r1, b, r2)
    ensures Leads(r, a + b, r2)
    decreases |a|
  {
    if a == [] {
      assert a + b == b;
    } else {
      LeadsOn(After(r, a[0]), a[1..], r1, b, r2);
      assert (a + b)[1..] == a[1..] + b;
    }
  }

  lemma ReachesOn(r: Runtime, r1: Runtime, r2: Runtime)
    requires Reaches(r, r1) && Reaches(r1, r2)
    ensures Reaches(r, r2)
  {
    var a, b :| Leads(r, a, r1) && Leads(r1, b, r2);
    LeadsOn(r, a, r1, b, r2);
  }

  lemma Still(r: Runtime)
    ensures Reaches(r, r)
  {
    assert Leads(r, [], r);
  }

  lemma Once(r: Runtime, a: Act)
    requires Can(r, a)
    ensures Reaches(r, After(r, a))
  {
    assert Leads(After(r, a), [], After(r, a));
    assert [a][1..] == [];
    assert Leads(r, [a], After(r, a));
  }

  lemma Unchanged(b: Book)
    ensures Sanctioned(b, b)
  {
    forall r, queue | Matches(b, r, queue) ensures Arrives(r, b, queue) { Still(r); }
  }

  lemma InTurn(b: Book, b1: Book, b2: Book)
    requires Sanctioned(b, b1) && Sanctioned(b1, b2)
    ensures Sanctioned(b, b2)
  {
    hide Reaches, Matches;
    forall r, queue | Matches(b, r, queue) ensures Arrives(r, b2, queue) {
      assert Arrives(r, b1, queue);
      var r1 :| Reaches(r, r1) && Matches(b1, r1, queue);
      assert Arrives(r1, b2, queue);
      var r2 :| Reaches(r1, r2) && Matches(b2, r2, queue);
      ReachesOn(r, r1, r2);
    }
  }

  // ----- a permit comes and goes ------------------------------------------------

  /** The lock and the notification of a release. */
  function Released(c: Gate.Control): Gate.Control { Gate.Left(c).(notified := c.notified + 1) }

  function ReleasedBy(c: Gate.Control, n: nat): Gate.Control {
    c.(active := Gate.Minus(c.active, n), notified := c.notified + n)
  }

  lemma {:induction false} Unused(s: set<nat>) returns (w: nat)
    ensures forall x <- s :: x < w
  {
    if s == {} { return 0; }
    var x :| x in s;
    var rest := Unused(s - {x});
    w := if rest > x then rest else x + 1;
    forall y <- s ensures y < w { assert y == x || y in s - {x}; }
  }

  lemma EmptiesGiven(r: Runtime, k: Permit, h: Holder)
    requires k in r.holders
    ensures Empties(Given(r, k, h)) == if h == Empty then Empties(r) + {k} else Empties(r) - {k}
  {}

  lemma EmptiesNew(r: Runtime, k: Permit)
    requires k !in r.holders
    ensures Empties(Given(r, k, Empty)) == Empties(r) + {k} && k !in Empties(r)
  {}

  lemma EmptiesLeft(r: Runtime, k: Permit)
    requires k in r.holders
    ensures Empties(Left(r, k)) == Empties(r) - {k}
  {}

  lemma SomeEmpty(r: Runtime) returns (k: Permit)
    requires Empties(r) != {}
    ensures k in r.holders && r.holders[k] == Empty
  {
    k :| k in Empties(r);
  }

  lemma SomeHolder(r: Runtime, id: string) returns (k: Permit)
    requires Hands(r, id) > 0
    ensures Holds(r, k) && r.holders[k].id == id
  {
    k :| k in HoldersOf(r.holders, id);
  }

  /** The notification that is still to come does come. */
  lemma Notified(b: Book, r: Runtime, queue: string)
    requires Tallies(b, r, queue, 1)
    ensures Arrives(r, b.(control := b.control.(notified := b.control.notified + 1)), queue)
  {
    hide Sound, Reaches, Hands;
    var move := AtGate(queue, Gate.Notify);
    var r' := Moved(r, move);
    MoveKeepsSound(r, move);
    forall id ensures Hands(r', id) == Hands(r, id) { SameHands(r, r', id); }
    Once(r, Do(move));
    assert Matches(b.(control := b.control.(notified := b.control.notified + 1)), r', queue);
  }

  function Without(b: Book, h: Holder): Book {
    b.(held := if h.Holding? then b.held - multiset{h.id} else b.held, idle := if h.Empty? then Gate.Minus(b.idle, 1) else b.idle,
       control := Gate.Left(b.control))
  }

  /** What the books say once a permit has left. */
  lemma LeftTallies(b: Book, r: Runtime, k: Permit, queue: string)
    requires Matches(b, r, queue) && k in r.holders
    ensures Tallies(Without(b, r.holders[k]), Left(r, k), queue, 1)
  {
    hide Sound, Hands;
    var r', b' := Left(r, k), Without(b, r.holders[k]);
    LeftStaysSound(r, k);
    LeftGate(r, k);
    EmptiesLeft(r, k);
    forall id ensures Hands(r', id) == b'.held[id] { LeftHands(r, k, id); }
  }

  lemma LeftStaysSound(r: Runtime, k: Permit)
    requires Sound(r) && k in r.holders
    ensures Sound(Left(r, k))
  {
    hide Left;
    LeftSound(r, k);
  }

  lemma LeftGate(r: Runtime, k: Permit)
    requires Sound(r) && k in r.holders && k.queue in r.gates
    ensures var gate := r.gates[k.queue];
            && k.queue in Left(r, k).gates && Left(r, k).gates[k.queue].control == Gate.Left(gate.control)
            && Left(r, k).gates[k.queue].pending == gate.pending + 1
            && Left(r, k).dropped == r.dropped && Left(r, k).failures == r.failures && Left(r, k).cancelled == r.cancelled
            && Left(r, k).holders == r.holders - {k}
  {
    assert Permitted(r, k);
  }

  /** Losses and failures are booked apart from holders and gates. */
  lemma Booked(b: Book, r: Runtime, queue: string, pending: nat, lost: multiset<string>, failures: nat, cancelled: bool)
    requires Tallies(b, r, queue, pending) && (lost != multiset{} && !cancelled ==> failures > 0)
    ensures Tallies(b.(lost := lost, failures := failures, cancelled := cancelled),
                    r.(dropped := lost, failures := failures, cancelled := cancelled), queue, pending)
  {
    hide Hands;
    var r' := r.(dropped := lost, failures := failures, cancelled := cancelled);
    SameGates(r, r');
    forall id ensures Hands(r', id) == Hands(r, id) { SameHands(r, r', id); }
  }

  // ----- what may happen --------------------------------------------------------

  lemma Failing(b: Book, failures: nat, cancelled: bool)
    requires failures == b.failures || failures == b.failures + 1
    requires b.cancelled ==> cancelled
    ensures Sanctioned(b, b.(failures := failures, cancelled := cancelled))
  {
    hide Sound, Reaches, Hands;
    forall r, queue | Matches(b, r, queue) ensures Arrives(r, b.(failures := failures, cancelled := cancelled), queue) {
      Booked(b, r, queue, 0, b.lost, failures, cancelled) by { LossesFail(b, r, queue); }
      Still(r);
      var r1 := r;
      if failures > b.failures {
        Once(r, Do(Break));
        r1 := Moved(r, Break);
      }
      if cancelled && !b.cancelled {
        Once(r1, Do(Cancel));
        ReachesOn(r, r1, Moved(r1, Cancel));
        r1 := Moved(r1, Cancel);
      }
      assert r1 == r.(dropped := b.lost, failures := failures, cancelled := cancelled);
    }
  }

  lemma LossesFail(b: Book, r: Runtime, queue: string)
    requires Matches(b, r, queue)
    ensures b.lost != multiset{} && !b.cancelled ==> b.failures > 0
  {}

  /** The next failure is noticed. */
  lemma Noticing(b: Book)
    requires b.failures > 0
    ensures Sanctioned(b, b.(failures := b.failures - 1, cancelled := true))
  {
    hide Sound, Reaches, Hands;
    forall r, queue | Matches(b, r, queue) ensures Arrives(r, b.(failures := b.failures - 1, cancelled := true), queue) {
      Booked(b, r, queue, 0, b.lost, b.failures - 1, true);
      Once(r, Do(FailNow));
      assert Moved(r, FailNow) == r.(dropped := b.lost, failures := b.failures - 1, cancelled := true);
    }
  }

  lemma Claiming(b: Book, id: string)
    requires b.idle > 0
    ensures Sanctioned(b, b.(idle := b.idle - 1, held := b.held + multiset{id}))
  {
    hide Sound, Reaches, Hands;
    forall r, queue | Matches(b, r, queue) ensures Arrives(r, b.(idle := b.idle - 1, held := b.held + multiset{id}), queue) {
      var k := SomeEmpty(r);
      var h := Holding(id, Dispatched, false);
      Once(r, Claim(k, id));
      GivenKeeps(r, k, h);
      EmptiesGiven(r, k, h);
      forall x ensures Hands(Given(r, k, h), x) == Hands(r, x) + One(h, x) { GivenHands(r, k, h, x); }
      assert Matches(b.(idle := b.idle - 1, held := b.held + multiset{id}), Given(r, k, h), queue);
    }
  }

  /** A claim is made and its answer is lost: the permit goes back. */
  lemma Missing(b: Book, id: string)
    requires b.idle > 0
    ensures Sanctioned(b, b.(idle := b.idle - 1, lost := b.lost + multiset{id}, failures := b.failures + 1,
                             control := Released(b.control)))
  {
    hide Sound, Reaches, Hands;
    var b' := b.(idle := b.idle - 1, lost := b.lost + multiset{id}, failures := b.failures + 1, control := Released(b.control));
    forall r, queue | Matches(b, r, queue) ensures Arrives(r, b', queue) {
      var k := SomeEmpty(r);
      var r1, r2 := LosesAnswer(r, k, id);
      Once(r, Unseen(k, id));
      Once(r1, Do(Return(k)));
      ReachesOn(r, r1, r2);
      LeftTallies(b, r, k, queue);
      LeftGate(r, k);
      Booked(Without(b, Empty), Left(r, k), queue, 1, b.lost + multiset{id}, b.failures + 1, b.cancelled);
      Notified(Without(b, Empty).(lost := b.lost + multiset{id}, failures := b.failures + 1), r2, queue);
      ArrivesOn(r, r2, b', queue);
    }
  }

  lemma LosesAnswer(r: Runtime, k: Permit, id: string) returns (r1: Runtime, r2: Runtime)
    requires Sound(r) && k in r.holders && r.holders[k] == Empty && k.queue in r.gates
    ensures r1 == ClaimedUnseen(r, k, id) && Possible(r1, Return(k)) && r2 == Moved(r1, Return(k))
    ensures r2 == Left(r, k).(dropped := r.dropped + multiset{id}, failures := r.failures + 1, cancelled := r.cancelled)
  {
    r1 := ClaimedUnseen(r, k, id);
    r2 := Moved(r1, Return(k));
    LeftAgain(r, k, Settled);
    LeftGate(r, k);
  }

  lemma ArrivesOn(r: Runtime, r1: Runtime, b: Book, queue: string)
    requires Reaches(r, r1) && Arrives(r1, b, queue)
    ensures Arrives(r, b, queue)
  {
    hide Reaches, Matches;
    var r2 :| Reaches(r1, r2) && Matches(b, r2, queue);
    ReachesOn(r, r1, r2);
  }

  /** It does not matter what a permit came with when it is gone. */
  lemma LeftAgain(r: Runtime, k: Permit, h: Holder)
    requires k in r.holders
    ensures Left(Given(r, k, h), k) == Left(r, k)
  {
    assert r.holders[k := h] - {k} == r.holders - {k};
  }

  /** The permit of a dispatcher goes back. */
  lemma Returning(b: Book)
    requires b.idle > 0
    ensures Sanctioned(b, b.(idle := b.idle - 1, control := Released(b.control)))
  {
    hide Sound, Reaches, Hands;
    var b' := b.(idle := b.idle - 1, control := Released(b.control));
    forall r, queue | Matches(b, r, queue) ensures Arrives(r, b', queue) {
      var k := SomeEmpty(r);
      LeftTallies(b, r, k, queue);
      Once(r, Do(Return(k)));
      Notified(Without(b, Empty), Left(r, k), queue);
      ArrivesOn(r, Left(r, k), b', queue);
    }
  }

  /** A claim is given back to Redis, and then its permit. */
  lemma Settling(b: Book, id: string)
    requires b.held[id] > 0
    ensures Sanctioned(b, b.(held := b.held - multiset{id}, control := Released(b.control)))
  {
    hide Sound, Reaches, Hands;
    var b' := b.(held := b.held - multiset{id}, control := Released(b.control));
    forall r, queue | Matches(b, r, queue) ensures Arrives(r, b', queue) {
      var k := SomeHolder(r, id);
      LeftTallies(b, r, k, queue);
      LeftAgain(r, k, Settled);
      var r1 := Given(r, k, Settled);
      Once(r, Settle(k));
      Once(r1, Do(Return(k)));
      ReachesOn(r, r1, Left(r1, k));
      Notified(Without(b, r.holders[k]), Left(r1, k), queue);
      ArrivesOn(r, Left(r1, k), b', queue);
    }
  }

  /** A claim is dropped with its permit, only with a failure to come or in a cancelled runtime. */
  lemma LettingGo(b: Book, id: string)
    requires b.held[id] > 0 && (b.failures > 0 || b.cancelled)
    ensures Sanctioned(b, b.(held := b.held - multiset{id}, lost := b.lost + multiset{id}, control := Released(b.control)))
  {
    hide Sound, Reaches, Hands;
    var b' := b.(held := b.held - multiset{id}, lost := b.lost + multiset{id}, control := Released(b.control));
    forall r, queue | Matches(b, r, queue) ensures Arrives(r, b', queue) {
      var k := SomeHolder(r, id);
      LeftTallies(b, r, k, queue);
      LeftGate(r, k);
      Booked(Without(b, r.holders[k]), Left(r, k), queue, 1, b.lost + multiset{id}, b.failures, b.cancelled);
      Once(r, Do(LetGo(k)));
      var r1 := Moved(r, LetGo(k));
      assert r1 == Left(r, k).(dropped := b.lost + multiset{id}, failures := b.failures, cancelled := b.cancelled);
      Notified(Without(b, r.holders[k]).(lost := b.lost + multiset{id}), r1, queue);
      ArrivesOn(r, r1, b', queue);
    }
  }

  /** A permit is granted. */
  lemma Entering(b: Book)
    requires b.control.Open()
    ensures Sanctioned(b, b.(idle := b.idle + 1, control := Gate.Entered(b.control)))
  {
    hide Sound, Reaches, Hands, Moved, Possible;
    var b' := b.(idle := b.idle + 1, control := Gate.Entered(b.control));
    forall r, queue | Matches(b, r, queue) ensures Arrives(r, b', queue) {
      var w := Unused(r.gates[queue].clients.Keys);
      var k := Permit(queue, w);
      OutsideHasNone(r, k);
      var r1, r2 := EntersGate(r, k);
      Once(r, Do(AtGate(queue, Gate.Begin(w))));
      Once(r1, Do(AtGate(queue, Gate.Check(w))));
      ReachesOn(r, r1, r2);
      EmptiesNew(r, k);
      assert Empties(r2) == Empties(Given(r, k, Empty));
      forall id ensures Hands(r2, id) == Hands(r, id) {
        NewHands(r, k, Empty, id);
        SameHands(r, r2, id);
      }
      assert Matches(b', r2, queue);
    }
  }

  lemma EntersGate(r: Runtime, k: Permit) returns (r1: Runtime, r2: Runtime)
    requires Sound(r) && k.queue in r.gates && k.client !in r.gates[k.queue].clients && k !in r.holders
    requires r.gates[k.queue].control.Open()
    ensures Possible(r, AtGate(k.queue, Gate.Begin(k.client))) && r1 == Moved(r, AtGate(k.queue, Gate.Begin(k.client)))
    ensures Possible(r1, AtGate(k.queue, Gate.Check(k.client))) && r2 == Moved(r1, AtGate(k.queue, Gate.Check(k.client)))
    ensures Sound(r2) && r2.holders == r.holders[k := Empty] && k.queue in r2.gates
    ensures r2.gates[k.queue].control == Gate.Entered(r.gates[k.queue].control)
    ensures r2.gates[k.queue].pending == r.gates[k.queue].pending
    ensures r2.dropped == r.dropped && r2.failures == r.failures && r2.cancelled == r.cancelled
  {
    hide Sound;
    r1 := Moved(r, AtGate(k.queue, Gate.Begin(k.client)));
    MoveKeepsSound(r, AtGate(k.queue, Gate.Begin(k.client)));
    assert r1.gates[k.queue].clients[k.client].Checking?;
    r2 := Moved(r1, AtGate(k.queue, Gate.Check(k.client)));
    MoveKeepsSound(r1, AtGate(k.queue, Gate.Check(k.client)));
  }

  lemma OutsideHasNone(r: Runtime, k: Permit)
    requires Sound(r) && k.queue in r.gates && k.client !in r.gates[k.queue].clients
    ensures k !in r.holders
  {
    assert Permitted(r, k);
  }

  /** The settings of the queue change. */
  lemma Configuring(b: Book, config: Gate.Config)
    ensures Sanctioned(b, b.(control := Gate.Configured(b.control, config).(notified := b.control.notified + 1)))
  {
    hide Sound, Reaches, Hands;
    var b1 := b.(control := Gate.Configured(b.control, config));
    forall r, queue | Matches(b, r, queue)
      ensures Arrives(r, b.(control := Gate.Configured(b.control, config).(notified := b.control.notified + 1)), queue)
    {
      var move := AtGate(queue, Gate.Apply(config));
      var r1 := Moved(r, move);
      MoveKeepsSound(r, move);
      Once(r, Do(move));
      forall id ensures Hands(r1, id) == Hands(r, id) { SameHands(r, r1, id); }
      assert Tallies(b1, r1, queue, 1);
      Notified(b1, r1, queue);
      ArrivesOn(r, r1, b.(control := Gate.Configured(b.control, config).(notified := b.control.notified + 1)), queue);
    }
  }

  // ----- tasks ------------------------------------------------------------------

  function Ended(b: Book, ids: multiset<string>, left: multiset<string>): Book {
    b.(held := b.held - ids, lost := b.lost + left, control := ReleasedBy(b.control, |ids|))
  }

  lemma EndedNone(b: Book)
    ensures Ended(b, multiset{}, multiset{}) == b
  {}

  lemma EndedMore(b: Book, id: string, rest: multiset<string>, left: multiset<string>)
    ensures var b1 := b.(held := b.held - multiset{id}, control := Released(b.control));
            Ended(b1, rest, left) == Ended(b, rest + multiset{id}, left)
    ensures var b1 := b.(held := b.held - multiset{id}, lost := b.lost + multiset{id}, control := Released(b.control));
            Ended(b1, rest, left) == Ended(b, rest + multiset{id}, left + multiset{id})
  {
    assert b.held - multiset{id} - rest == b.held - (rest + multiset{id});
    assert b.lost + multiset{id} + left == b.lost + (left + multiset{id});
  }

  /** A task ends: some of its claims are dropped, which takes a failure or a cancellation, and the
      others are given back; all its permits leave. */
  lemma {:induction false} Ending(b: Book, ids: multiset<string>, left: multiset<string>)
    requires ids <= b.held && left <= ids && (left != multiset{} ==> b.failures > 0 || b.cancelled)
    ensures Sanctioned(b, Ended(b, ids, left))
    decreases |ids|, 1
  {
    hide Sanctioned, Ended;
    if ids == multiset{} {
      assert left == multiset{};
      EndedNone(b);
      Unchanged(b);
    } else {
      var id :| id in ids && (id in left || left == multiset{});
      var rest := ids - multiset{id};
      assert ids == rest + multiset{id} && rest <= b.held - multiset{id} && |rest| == |ids| - 1;
      EndingMore(b, id, rest, left);
    }
  }

  lemma EndingMore(b: Book, id: string, rest: multiset<string>, left: multiset<string>)
    requires rest + multiset{id} <= b.held && left <= rest + multiset{id} && (id in left || left == multiset{})
    requires left != multiset{} ==> b.failures > 0 || b.cancelled
    ensures Sanctioned(b, Ended(b, rest + multiset{id}, left))
    decreases |rest + multiset{id}|, 0
  {
    hide Sanctioned, Ended;
    assert |rest + multiset{id}| == |rest| + 1;
    if id in left {
      var left1 := left - multiset{id};
      var b1 := b.(held := b.held - multiset{id}, lost := b.lost + multiset{id}, control := Released(b.control));
      assert left == left1 + multiset{id};
      LettingGo(b, id);
      Ending(b1, rest, left1);
      EndedMore(b, id, rest, left1);
      InTurn(b, b1, Ended(b1, rest, left1));
    } else {
      var b1 := b.(held := b.held - multiset{id}, control := Released(b.control));
      Settling(b, id);
      Ending(b1, rest, left);
      EndedMore(b, id, rest, left);
      InTurn(b, b1, Ended(b1, rest, left));
    }
  }

  /** Idle dispatchers end. */
  lemma {:induction false} AllReturning(b: Book, n: nat)
    requires n <= b.idle
    ensures Sanctioned(b, b.(idle := b.idle - n, control := ReleasedBy(b.control, n)))
  {
    hide Sanctioned;
    if n == 0 {
      Unchanged(b);
    } else {
      AllReturning(b, n - 1);
      var b1 := b.(idle := b.idle - (n - 1), control := ReleasedBy(b.control, n - 1));
      Returning(b1);
      InTurn(b, b1, b.(idle := b.idle - n, control := ReleasedBy(b.control, n)));
    }
  }

  // ----- from the start ---------------------------------------------------------

  function NewBook(config: Gate.Config): Book { Book(multiset{}, 0, multiset{}, 0, false, Gate.NewControl(config)) }

  /** A book that is reached by allowed changes only is that of a runtime that `Claims` allows, from
      its very start. */
  lemma AsClaimsAllows(config: Gate.Config, b: Book, queue: string)
    requires Sanctioned(NewBook(config), b)
    ensures Arrives(NEW_RUNTIME, b, queue)
  {
    hide Sound, Reaches;
    var r := Moved(NEW_RUNTIME, OpenGate(queue, config));
    NewIsSound();
    MoveKeepsSound(NEW_RUNTIME, OpenGate(queue, config));
    Once(NEW_RUNTIME, Do(OpenGate(queue, config)));
    assert Empties(r) == {};
    forall id ensures Hands(r, id) == 0 { assert HoldersOf(r.holders, id) == {}; }
    assert Matches(NewBook(config), r, queue);
    assert Arrives(r, b, queue);
    ArrivesOn(NEW_RUNTIME, r, b, queue);
  }
}
