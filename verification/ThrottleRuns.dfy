/** Runs of the throttle that exceed what it is for: with a check that lags its reading, and with
    an expiry between an addition and its refresh. They make the bounds of `Throttle` exact. */
module ThrottleRuns {
  import opened Options
  import opened Throttle

  // ----- building runs ----------------------------------------------------------

  predicate Reaches(g: Setting, consumers: nat, steps: seq<Step>, s: State, hasties: nat) {
    Run(g, consumers, steps) == Some(s) && Hasties(g, consumers, steps) == hasties
  }

  lemma Onward(g: Setting, consumers: nat, steps: seq<Step>, s: State, hasties: nat, step: Step)
    requires Reaches(g, consumers, steps, s, hasties) && Enabled(g, s, step)
    ensures Reaches(g, consumers, steps + [step], Next(g, s, step), hasties + if Hasty(g, s, step) then 1 else 0)
  {
    assert (steps + [step])[..|steps|] == steps;
  }

  lemma Waited(g: Setting, consumers: nat, steps: seq<Step>, s: State, hasties: nat, d: nat) returns (more: seq<Step>)
    requires Reaches(g, consumers, steps, s, hasties)
    ensures Reaches(g, consumers, more, s.(now := s.now + d), hasties)
  {
    Onward(g, consumers, steps, s, hasties, Tick(d));
    more := steps + [Tick(d)];
  }

  /** Client `i` reads the clock, waits, and is let through. */
  lemma LetThrough(g: Setting, consumers: nat, steps: seq<Step>, s: State, hasties: nat, i: nat, d: nat, cost: nat)
    returns (more: seq<Step>)
    requires Reaches(g, consumers, steps, s, hasties) && i < |s.clients| && s.clients[i] == Idle
    requires d <= g.delay && 0 < cost <= g.maxCost
    requires Total(Trimmed(s.key.entries, s.now + d - WindowMicros(g.windowMs))) < g.limit
    ensures var bound := s.now + d - WindowMicros(g.windowMs);
            Reaches(g, consumers, more,
              State(s.now + d, TrimmedKey(s.key, bound), s.clients[i := Passed(s.now, cost)], s.recorded, Higher(s.floor, bound)),
              hasties)
  {
    hide Total, Trimmed, Reaches;
    Onward(g, consumers, steps, s, hasties, ReadClock(i));
    var reading := s.(clients := s.clients[i := Read(s.now)]);
    more := Waited(g, consumers, steps + [ReadClock(i)], reading, hasties, d);
    var waiting := reading.(now := s.now + d);
    Onward(g, consumers, more, waiting, hasties, Check(i, s.now + d, cost));
    assert waiting.clients[i := Passed(s.now, cost)] == s.clients[i := Passed(s.now, cost)];
    more := more + [Check(i, s.now + d, cost)];
  }

  /** It adds its units and refreshes the expiry. */
  lemma Records(g: Setting, consumers: nat, steps: seq<Step>, s: State, hasties: nat, i: nat) returns (more: seq<Step>)
    requires Reaches(g, consumers, steps, s, hasties) && i < |s.clients| && s.clients[i].Passed?
    ensures var e := Entry(s.clients[i].score, s.clients[i].cost);
            Reaches(g, consumers, more,
              State(s.now, Key(s.key.entries + [e], Some(s.now + WindowMicros(g.windowMs))), s.clients[i := Idle],
                    s.recorded + [e], s.floor),
              hasties)
  {
    var e := Entry(s.clients[i].score, s.clients[i].cost);
    Onward(g, consumers, steps, s, hasties, Add(i));
    var added := Next(g, s, Add(i));
    Onward(g, consumers, steps + [Add(i)], added, hasties, Refresh(i));
    assert added.clients[i := Idle] == s.clients[i := Idle];
    more := steps + [Add(i)] + [Refresh(i)];
  }

  // ----- calls are runs ---------------------------------------------------------

  /** The calls of a consumer come one after the other, each with its times in order. */
  predicate InOrder(g: Setting, now: nat, call: Call) {
    match call
    case Polls(at) => now <= at
    case Consumes(_, reading, checked, added, refreshed) =>
      now <= reading <= checked <= added <= refreshed && checked - reading <= g.delay && CostOf(call) <= g.maxCost
  }

  function EndOf(call: Call): nat { match call case Polls(at) => at case Consumes(_, _, _, _, refreshed) => refreshed }

  /** Time passes, and a key that is due is dropped. */
  lemma Visits(g: Setting, consumers: nat, steps: seq<Step>, s: State, hasties: nat, at: nat)
    returns (more: seq<Step>, s': State, hasties': nat)
    requires Reaches(g, consumers, steps, s, hasties) && s.now <= at
    ensures Reaches(g, consumers, more, s', hasties')
    ensures s'.now == at && s'.key == Found(s.key, at) && s'.clients == s.clients && s'.recorded == s.recorded
    ensures hasties <= hasties' <= hasties + 1 && ((forall c <- s.clients :: !c.Added?) ==> hasties' == hasties)
    ensures s'.key == s.key ==> hasties' == hasties
  {
    more := Waited(g, consumers, steps, s, hasties, at - s.now);
    s', hasties' := s.(now := at), hasties;
    if s.key.expiresAt.Some? && s.key.expiresAt.value <= at {
      hasties' := hasties + if Hasty(g, s', Expire) then 1 else 0;
      Onward(g, consumers, more, s', hasties, Expire);
      more, s' := more + [Expire], Next(g, s', Expire);
    }
  }

  /** One call of a consumer is a sequence of steps of the transition system: the key, what is
      recorded and the time are those after the call. Its expiry is hasty only if the old one
      comes between its addition and its refresh. */
  lemma CallIsSteps(g: Setting, steps: seq<Step>, s: State, hasties: nat, call: Call)
    returns (more: seq<Step>, s': State, hasties': nat)
    requires Reaches(g, 1, steps, s, hasties) && s.clients == [Idle] && InOrder(g, s.now, call)
    ensures Reaches(g, 1, more, s', hasties') && s'.clients == [Idle] && s'.now == EndOf(call)
    ensures s'.key == KeyAfter(s.key, call, g.limit, g.windowMs)
    ensures s'.recorded == s.recorded + AddedBy(s.key, call, g.limit, g.windowMs)
    ensures hasties <= hasties' <= hasties + 1
    ensures var kept := if call.Consumes? then KeyChecked(s.key, call.checked, g.windowMs) else NoKey();
            kept.expiresAt.None? || kept.expiresAt.value <= call.added || kept.expiresAt.value > call.refreshed ==> hasties' == hasties
  {
    hide Reaches, Trimmed, Total;
    match call {
      case Polls(at) =>
        more, s', hasties' := Visits(g, 1, steps, s, hasties, at);
        var bound := at - WindowMicros(g.windowMs);
        Onward(g, 1, more, s', hasties', Poll(bound));
        more, s' := more + [Poll(bound)], Next(g, s', Poll(bound));
        assert s'.recorded == s.recorded + [];
      case Consumes(cost, reading, checked, added, refreshed) =>
        more, s', hasties' := ReadsAndChecks(g, steps, s, hasties, call);
        if AddedBy(s.key, call, g.limit, g.windowMs) == [] {
          more := Waited(g, 1, more, s', hasties', refreshed - checked);
          s' := s'.(now := refreshed);
          assert s'.recorded == s.recorded + [];
        } else {
          more, s', hasties' := AddsAndRefreshes(g, more, s', hasties', Entry(reading, CostOf(call)), added, refreshed);
        }
    }
  }

  lemma OneClient()
    ensures forall c: Client, d: Client :: [c][0 := d] == [d]
  {}

  /** Up to the verdict of the check. */
  lemma ReadsAndChecks(g: Setting, steps: seq<Step>, s: State, hasties: nat, call: Call)
    returns (more: seq<Step>, s': State, hasties': nat)
    requires Reaches(g, 1, steps, s, hasties) && s.clients == [Idle] && InOrder(g, s.now, call) && call.Consumes?
    ensures Reaches(g, 1, more, s', hasties') && s'.now == call.checked && hasties' == hasties && s'.recorded == s.recorded
    ensures s'.key == KeyChecked(s.key, call.checked, g.windowMs)
    ensures s'.clients ==
              if AddedBy(s.key, call, g.limit, g.windowMs) != [] then [Passed(call.reading, CostOf(call))] else [Idle]
  {
    hide Reaches, Trimmed, Total;
    OneClient();
    more := Waited(g, 1, steps, s, hasties, call.reading - s.now);
    var s1 := s.(now := call.reading);
    Onward(g, 1, more, s1, hasties, ReadClock(0));
    more, s1 := more + [ReadClock(0)], s1.(clients := [Read(call.reading)]);
    more, s', hasties' := Visits(g, 1, more, s1, hasties, call.checked);
    var check := Check(0, call.checked, CostOf(call));
    Onward(g, 1, more, s', hasties', check);
    more, s' := more + [check], Next(g, s', check);
  }

  /** From the verdict to the refresh. */
  lemma AddsAndRefreshes(g: Setting, steps: seq<Step>, s: State, hasties: nat, e: Entry, added: nat, refreshed: nat)
    returns (more: seq<Step>, s': State, hasties': nat)
    requires Reaches(g, 1, steps, s, hasties) && s.clients == [Passed(e.score, e.cost)] && s.now <= added <= refreshed
    ensures Reaches(g, 1, more, s', hasties') && s'.now == refreshed && s'.clients == [Idle]
    ensures s'.key == Charged(s.key, e, added, refreshed, g.windowMs) && s'.recorded == s.recorded + [e]
    ensures hasties <= hasties' <= hasties + 1
    ensures s.key.expiresAt.None? || s.key.expiresAt.value <= added || s.key.expiresAt.value > refreshed ==> hasties' == hasties
  {
    hide Reaches, Trimmed, Total;
    OneClient();
    var s1, h1;
    more, s1, h1 := Visits(g, 1, steps, s, hasties, added);
    Onward(g, 1, more, s1, h1, Add(0));
    more, s1 := more + [Add(0)], Next(g, s1, Add(0));
    more, s', hasties' := Visits(g, 1, more, s1, h1, refreshed);
    Onward(g, 1, more, s', hasties', Refresh(0));
    more, s' := more + [Refresh(0)], Next(g, s', Refresh(0));
  }

  /** The calls of one consumer on a key, one after the other. */
  function KeyAfterAll(calls: seq<Call>, limit: nat, windowMs: int): Key {
    if calls == [] then NoKey()
    else KeyAfter(KeyAfterAll(calls[..|calls| - 1], limit, windowMs), calls[|calls| - 1], limit, windowMs)
  }

  function ChargedBy(calls: seq<Call>, limit: nat, windowMs: int): seq<Entry> {
    if calls == [] then []
    else
      var init := calls[..|calls| - 1];
      ChargedBy(init, limit, windowMs) + AddedBy(KeyAfterAll(init, limit, windowMs), calls[|calls| - 1], limit, windowMs)
  }

  predicate AllInOrder(g: Setting, calls: seq<Call>) {
    calls == [] ||
      var init := calls[..|calls| - 1];
      AllInOrder(g, init) && InOrder(g, if init == [] then 0 else EndOf(init[|init| - 1]), calls[|calls| - 1])
  }

  /** The old expiry of the key does not come between the two commands of any call. */
  predicate Timely(g: Setting, calls: seq<Call>) {
    calls == [] ||
      var init, call := calls[..|calls| - 1], calls[|calls| - 1];
      && Timely(g, init)
      && (call.Consumes? ==>
            var expiry := KeyChecked(KeyAfterAll(init, g.limit, g.windowMs), call.checked, g.windowMs).expiresAt;
            expiry.None? || expiry.value <= call.added || expiry.value > call.refreshed)
  }

  lemma {:induction false} CallsAreRun(g: Setting, calls: seq<Call>) returns (steps: seq<Step>, s: State, hasties: nat)
    requires AllInOrder(g, calls)
    ensures Reaches(g, 1, steps, s, hasties) && s.clients == [Idle] && s.now == if calls == [] then 0 else EndOf(calls[|calls| - 1])
    ensures s.key == KeyAfterAll(calls, g.limit, g.windowMs) && s.recorded == ChargedBy(calls, g.limit, g.windowMs)
    ensures Timely(g, calls) ==> hasties == 0
  {
    hide KeyAfter, AddedBy, KeyChecked, Start;
    if calls == [] {
      StartsIdle(g);
      steps, s, hasties := [], Start(g, 1), 0;
    } else {
      steps, s, hasties := CallsAreRun(g, calls[..|calls| - 1]);
      steps, s, hasties := CallIsSteps(g, steps, s, hasties, calls[|calls| - 1]);
    }
  }

  lemma StartsIdle(g: Setting)
    ensures var s := Start(g, 1); Reaches(g, 1, [], s, 0) && s.clients == [Idle] && s.key == NoKey() && s.recorded == [] && s.now == 0
  {
    assert Start(g, 1).clients == [Idle];
  }

  /** What a consumer charges in any window is bounded by the limit and one cost, whatever it calls
      and when, as long as no old expiry comes between the two commands of a call. */
  lemma CallsAreBounded(g: Setting, calls: seq<Call>, from: int, to: int)
    requires AllInOrder(g, calls) && Timely(g, calls) && to <= from + WindowMicros(g.windowMs) - g.delay
    ensures Within(ChargedBy(calls, g.limit, g.windowMs), from, to) <= if g.limit == 0 then 0 else g.limit - 1 + g.maxCost
  {
    hide Within, ChargedBy, Timely, AllInOrder;
    var steps, s, hasties := CallsAreRun(g, calls);
    WindowBound(g, 1, steps, from, to);
    OneMoreHasty(g);
  }

  lemma OneMoreHasty(g: Setting)
    ensures Extra(g, 1, 0) == 0
  {}

  /** `n` entries alike. */
  function Copies(e: Entry, n: nat): seq<Entry> { seq(n, _ => e) }

  lemma CopiesSnoc(es: seq<Entry>, e: Entry, n: nat)
    ensures es + Copies(e, n) + [e] == es + Copies(e, n + 1) && es + Copies(e, 0) == es
    ensures n > 0 ==> es + Copies(e, n) != []
  {}

  lemma {:induction false} CopiesUnits(es: seq<Entry>, e: Entry, n: nat, from: int, to: int)
    ensures Total(es + Copies(e, n)) == Total(es) + n * e.cost
    ensures Within(es + Copies(e, n), from, to) == Within(es, from, to) + if from <= e.score < to then n * e.cost else 0
  {
    hide Total, Within, Copies;
    if n > 0 {
      CopiesUnits(es, e, n - 1, from, to);
      CopiesSnoc(es, e, n - 1);
      WithinSnoc(es + Copies(e, n - 1), e, from, to);
      TimesMore(n - 1, e.cost);
    } else {
      CopiesSnoc(es, e, 0);
      TimesMore(0, e.cost);
    }
  }

  lemma TimesMore(n: nat, m: nat)
    ensures (n + 1) * m == n * m + m && 0 * m == 0
  {}

  lemma TrimmedSnoc(es: seq<Entry>, e: Entry, bound: int)
    ensures Trimmed(es + [e], bound) == if e.score <= bound then Trimmed(es, bound) else Trimmed(es, bound) + [e]
  {
    assert (es + [e])[..|es|] == es;
  }

  lemma {:induction false} CopiesTrimmed(es: seq<Entry>, e: Entry, n: nat, bound: int)
    ensures Trimmed(es + Copies(e, n), bound) == Trimmed(es, bound) + if e.score > bound then Copies(e, n) else []
  {
    hide Copies, Trimmed;
    CopiesSnoc(Trimmed(es, bound), e, 0);
    if n > 0 {
      CopiesTrimmed(es, e, n - 1, bound);
      CopiesSnoc(es, e, n - 1);
      CopiesSnoc(Trimmed(es, bound), e, n - 1);
      TrimmedSnoc(es + Copies(e, n - 1), e, bound);
    } else {
      CopiesSnoc(es, e, 0);
    }
  }

  /** A check at this instant trims nothing. */
  predicate Ready(g: Setting, s: State) {
    && Trimmed(s.key.entries, s.now - WindowMicros(g.windowMs)) == s.key.entries
    && (s.key.entries == [] ==> s.key.expiresAt == None) && s.now - WindowMicros(g.windowMs) <= s.floor
  }

  lemma PassNow(g: Setting, consumers: nat, steps: seq<Step>, s: State, hasties: nat, i: nat, cost: nat) returns (more: seq<Step>)
    requires Reaches(g, consumers, steps, s, hasties) && Ready(g, s) && i < |s.clients| && s.clients[i] == Idle
    requires 0 < cost <= g.maxCost && Total(s.key.entries) < g.limit
    ensures Reaches(g, consumers, more, s.(clients := s.clients[i := Passed(s.now, cost)]), hasties)
  {
    hide Reaches, Total, Trimmed;
    more := LetThrough(g, consumers, steps, s, hasties, i, 0, cost);
  }

  /** What additions leave that are followed by their refresh. */
  function Grown(g: Setting, s: State, e: Entry, n: nat): State {
    s.(key := Key(s.key.entries + Copies(e, n), if n == 0 then s.key.expiresAt else Some(s.now + WindowMicros(g.windowMs))),
       recorded := s.recorded + Copies(e, n))
  }

  lemma GrownSnoc(g: Setting, s: State, e: Entry, n: nat)
    ensures Grown(g, s, e, 0) == s
    ensures var before := Grown(g, s, e, n);
            Grown(g, s, e, n + 1) == before.(key := Key(before.key.entries + [e], Some(s.now + WindowMicros(g.windowMs))),
                                             recorded := before.recorded + [e])
  {
    CopiesSnoc(s.key.entries, e, n);
    CopiesSnoc(s.recorded, e, n);
    CopiesSnoc(s.key.entries, e, 0);
    CopiesSnoc(s.recorded, e, 0);
  }

  lemma GrownReady(g: Setting, s: State, e: Entry, n: nat)
    requires Ready(g, s) && e.score == s.now && g.windowMs > 0
    ensures Ready(g, Grown(g, s, e, n)) && Total(Grown(g, s, e, n).key.entries) == Total(s.key.entries) + n * e.cost
  {
    hide Total, Trimmed, Copies;
    CopiesTrimmed(s.key.entries, e, n, s.now - WindowMicros(g.windowMs));
    CopiesUnits(s.key.entries, e, n, 0, 0);
    CopiesSnoc(s.key.entries, e, n);
    CopiesSnoc(s.key.entries, e, 0);
  }

  /** The first clients are ahead of the others. */
  function Ahead(consumers: nat, m: nat, ahead: Client, behind: Client): seq<Client> {
    seq(consumers, i => if i < m then ahead else behind)
  }

  lemma OneAhead(consumers: nat, m: nat, ahead: Client, behind: Client)
    requires m < consumers
    ensures |Ahead(consumers, m, ahead, behind)| == consumers && Ahead(consumers, m, ahead, behind)[m] == behind
    ensures Ahead(consumers, m, ahead, behind)[m := ahead] == Ahead(consumers, m + 1, ahead, behind)
  {}

  lemma NoneAhead(consumers: nat, ahead: Client, behind: Client)
    ensures Ahead(consumers, 0, ahead, behind) == Ahead(consumers, 0, behind, behind) == Ahead(consumers, consumers, behind, ahead)
  {}

  function AllIdle(consumers: nat): seq<Client> { Ahead(consumers, 0, Idle, Idle) }

  lemma FirstIdle(consumers: nat)
    requires consumers > 0
    ensures |AllIdle(consumers)| == consumers && AllIdle(consumers)[0] == Idle
    ensures forall score, cost :: AllIdle(consumers)[0 := Passed(score, cost)][0 := Idle] == AllIdle(consumers)
  {}

  /** One client adds single units, as long as the set stays within the limit. */
  lemma {:induction false} FillUp(g: Setting, consumers: nat, steps: seq<Step>, s: State, hasties: nat, n: nat)
    returns (more: seq<Step>)
    requires Reaches(g, consumers, steps, s, hasties) && Ready(g, s) && consumers > 0 && s.clients == AllIdle(consumers)
    requires g.windowMs > 0 && g.maxCost > 0 && (n > 0 ==> Total(s.key.entries) + n <= g.limit)
    ensures Reaches(g, consumers, more, Grown(g, s, Entry(s.now, 1), n), hasties)
  {
    hide Reaches, Total, Ready, Copies, AllIdle, Grown;
    var e := Entry(s.now, 1);
    if n == 0 {
      more := steps;
      GrownSnoc(g, s, e, 0);
    } else {
      more := FillUp(g, consumers, steps, s, hasties, n - 1);
      var before := Grown(g, s, e, n - 1);
      GrownIs(g, s, e, n - 1);
      GrownReady(g, s, e, n - 1);
      GrownSnoc(g, s, e, n - 1);
      FirstIdle(consumers);
      more := PassNow(g, consumers, more, before, hasties, 0, 1);
      more := Records(g, consumers, more, before.(clients := before.clients[0 := Passed(s.now, 1)]), hasties, 0);
    }
  }

  lemma GrownIs(g: Setting, s: State, e: Entry, n: nat)
    ensures var after := Grown(g, s, e, n); after.now == s.now && after.clients == s.clients && after.floor == s.floor
  {}

  /** All clients are let through before any of them adds. */
  lemma {:induction false} AllPass(g: Setting, consumers: nat, steps: seq<Step>, s: State, hasties: nat, m: nat)
    returns (more: seq<Step>)
    requires Reaches(g, consumers, steps, s, hasties) && Ready(g, s) && m <= consumers && s.clients == AllIdle(consumers)
    requires g.maxCost > 0 && Total(s.key.entries) < g.limit
    ensures Reaches(g, consumers, more, s.(clients := Ahead(consumers, m, Passed(s.now, g.maxCost), Idle)), hasties)
  {
    hide Reaches, Total, Trimmed, Ahead;
    if m == 0 {
      more := steps;
      NoneAhead(consumers, Passed(s.now, g.maxCost), Idle);
    } else {
      more := AllPass(g, consumers, steps, s, hasties, m - 1);
      var before := s.(clients := Ahead(consumers, m - 1, Passed(s.now, g.maxCost), Idle));
      OneAhead(consumers, m - 1, Passed(s.now, g.maxCost), Idle);
      more := PassNow(g, consumers, more, before, hasties, m - 1, g.maxCost);
    }
  }

  /** They add and refresh, one after the other. */
  lemma {:induction false} AllRecord(g: Setting, consumers: nat, steps: seq<Step>, s: State, hasties: nat, e: Entry, m: nat)
    returns (more: seq<Step>)
    requires Reaches(g, consumers, steps, s, hasties) && m <= consumers
    requires s.clients == Ahead(consumers, 0, Idle, Passed(e.score, e.cost))
    ensures Reaches(g, consumers, more,
              Grown(g, s, e, m).(clients := Ahead(consumers, m, Idle, Passed(e.score, e.cost))), hasties)
  {
    hide Reaches, Ahead, Grown;
    GrownSnoc(g, s, e, 0);
    if m == 0 {
      more := steps;
    } else {
      more := AllRecord(g, consumers, steps, s, hasties, e, m - 1);
      var before := Grown(g, s, e, m - 1).(clients := Ahead(consumers, m - 1, Idle, Passed(e.score, e.cost)));
      GrownIs(g, s, e, m - 1);
      GrownSnoc(g, s, e, m - 1);
      OneAhead(consumers, m - 1, Idle, Passed(e.score, e.cost));
      more := Records(g, consumers, more, before, hasties, m - 1);
    }
  }

  /** At this instant, one below the limit is filled up, and then every client adds the highest cost. */
  lemma FullRound(g: Setting, consumers: nat, steps: seq<Step>, s: State, hasties: nat) returns (more: seq<Step>, s': State)
    requires Reaches(g, consumers, steps, s, hasties) && Ready(g, s) && consumers > 0 && s.clients == AllIdle(consumers)
    requires g.windowMs > 0 && g.maxCost > 0 && g.limit > 0 && s.key == NoKey()
    ensures Reaches(g, consumers, more, s', hasties) && s'.now == s.now && s'.clients == AllIdle(consumers)
    ensures s'.key == Key(Copies(Entry(s.now, 1), g.limit - 1) + Copies(Entry(s.now, g.maxCost), consumers),
                          Some(s.now + WindowMicros(g.windowMs)))
    ensures s'.recorded == s.recorded + s'.key.entries && s'.floor == s.floor
  {
    hide Reaches, Total, Trimmed, Ahead, Copies, Ready;
    var unit, lump := Entry(s.now, 1), Entry(s.now, g.maxCost);
    CheckedLater([], 0);
    more := FillUp(g, consumers, steps, s, hasties, g.limit - 1);
    s' := Grown(g, s, unit, g.limit - 1);
    GrownReady(g, s, unit, g.limit - 1);
    more := AllPass(g, consumers, more, s', hasties, consumers);
    NoneAhead(consumers, Idle, Passed(s.now, g.maxCost));
    NoneAhead(consumers, Passed(s.now, g.maxCost), Idle);
    s' := s'.(clients := Ahead(consumers, consumers, Passed(s.now, g.maxCost), Idle));
    more := AllRecord(g, consumers, more, s', hasties, lump, consumers);
    s' := Grown(g, s', lump, consumers).(clients := AllIdle(consumers));
    assert [] + Copies(unit, g.limit - 1) == Copies(unit, g.limit - 1);
  }

  lemma StartReady(g: Setting, consumers: nat)
    ensures var s := Start(g, consumers);
            Reaches(g, consumers, [], s, 0) && Ready(g, s) && s.clients == AllIdle(consumers)
  {}

  /** A full round adds up to the bound at its instant, and is trimmed as a whole a window later. */
  lemma RoundUnits(g: Setting, es: seq<Entry>, consumers: nat, at: nat, from: int, to: int)
    requires g.limit > 0
    ensures var added := Copies(Entry(at, 1), g.limit - 1) + Copies(Entry(at, g.maxCost), consumers);
            && Within(es + added, from, to) ==
                 Within(es, from, to) + (if from <= at < to then g.limit - 1 + consumers * g.maxCost else 0)
            && Trimmed(added, at) == []
  {
    hide Within, Trimmed, Copies, Total;
    TwoCopies(es, Entry(at, 1), g.limit - 1, Entry(at, g.maxCost), consumers, from, to);
    RoundTrimmed(g, consumers, at);
  }

  lemma TwoCopies(es: seq<Entry>, a: Entry, n: nat, b: Entry, m: nat, from: int, to: int)
    requires a.score == b.score && a.cost == 1
    ensures Within(es + (Copies(a, n) + Copies(b, m)), from, to) ==
              Within(es, from, to) + if from <= a.score < to then n + m * b.cost else 0
  {
    hide Within, Copies, Total;
    CopiesUnits(es, a, n, from, to);
    CopiesUnits(es + Copies(a, n), b, m, from, to);
    assert es + Copies(a, n) + Copies(b, m) == es + (Copies(a, n) + Copies(b, m));
  }

  lemma RoundTrimmed(g: Setting, consumers: nat, at: nat)
    requires g.limit > 0
    ensures Trimmed(Copies(Entry(at, 1), g.limit - 1) + Copies(Entry(at, g.maxCost), consumers), at) == []
  {
    hide Trimmed, Copies;
    var units := Copies(Entry(at, 1), g.limit - 1);
    CopiesTrimmed(units, Entry(at, g.maxCost), consumers, at);
    CopiesTrimmed([], Entry(at, 1), g.limit - 1, at);
    assert [] + units == units;
    Measures(Entry(at, 1), at);
  }

  lemma Measures(e: Entry, bound: int)
    ensures Trimmed([], bound) == [] && Total([]) == 0 && Total([e]) == e.cost
    ensures Trimmed([e], bound) == if e.score <= bound then [] else [e]
  {
    assert [e][..0] == [];
  }

  /** A client that read the clock in the window is checked when the first additions are out of
      the window of the check. */
  lemma LateUnit(g: Setting, consumers: nat, len: int) returns (steps: seq<Step>, s: State)
    requires g.windowMs > 0 && g.maxCost > 0 && g.limit > 0 && consumers > 0
    requires len > 0 && len > WindowMicros(g.windowMs) - g.delay
    ensures Reaches(g, consumers, steps, s, 0) && Within(s.recorded, 0, len) == g.limit + consumers * g.maxCost
  {
    hide Reaches, Total, Trimmed, Within, Ahead, Copies, Ready;
    var window := WindowMicros(g.windowMs);
    var reading := if g.delay < window then window - g.delay else 0;
    StartReady(g, consumers);
    steps, s := FullRound(g, consumers, [], Start(g, consumers), 0);
    RoundUnits(g, [], consumers, 0, 0, len);
    NoneWithin([], 0, len);
    var stock := s.key.entries;
    WithinSnoc([] + stock, Entry(reading, 1), 0, len);
    CheckedLater([], 0);
    FirstIdle(consumers);
    steps := Waited(g, consumers, steps, s, 0, reading);
    s := s.(now := reading);
    steps := LetThrough(g, consumers, steps, s, 0, 0, window - reading, 1);
    s := State(window, NoKey(), s.clients[0 := Passed(reading, 1)], s.recorded, 0);
    steps := Records(g, consumers, steps, s, 0, 0);
    s := State(window, Key([] + [Entry(reading, 1)], Some(window + window)), s.clients[0 := Idle], s.recorded + [Entry(reading, 1)], 0);
  }

  // ----- hasty expiry -----------------------------------------------------------

  /** Additions that are not followed by their refresh. */
  lemma {:induction false} AllAdd(g: Setting, consumers: nat, steps: seq<Step>, s: State, hasties: nat, e: Entry, m: nat)
    returns (more: seq<Step>)
    requires Reaches(g, consumers, steps, s, hasties) && m <= consumers
    requires s.clients == Ahead(consumers, 0, Added(e.score, e.cost), Passed(e.score, e.cost))
    ensures Reaches(g, consumers, more,
              s.(key := s.key.(entries := s.key.entries + Copies(e, m)), recorded := s.recorded + Copies(e, m),
                 clients := Ahead(consumers, m, Added(e.score, e.cost), Passed(e.score, e.cost))), hasties)
  {
    hide Reaches, Ahead, Copies;
    CopiesSnoc(s.key.entries, e, 0);
    CopiesSnoc(s.recorded, e, 0);
    if m == 0 {
      more := steps;
    } else {
      more := AllAdd(g, consumers, steps, s, hasties, e, m - 1);
      var before := s.(key := s.key.(entries := s.key.entries + Copies(e, m - 1)), recorded := s.recorded + Copies(e, m - 1),
                       clients := Ahead(consumers, m - 1, Added(e.score, e.cost), Passed(e.score, e.cost)));
      CopiesSnoc(s.key.entries, e, m - 1);
      CopiesSnoc(s.recorded, e, m - 1);
      OneAhead(consumers, m - 1, Added(e.score, e.cost), Passed(e.score, e.cost));
      Onward(g, consumers, more, before, hasties, Add(m - 1));
      more := more + [Add(m - 1)];
    }
  }

  /** Refreshes that find no key. */
  lemma {:induction false} AllRefresh(g: Setting, consumers: nat, steps: seq<Step>, s: State, hasties: nat, e: Entry, m: nat)
    returns (more: seq<Step>)
    requires Reaches(g, consumers, steps, s, hasties) && m <= consumers && s.key == NoKey()
    requires s.clients == Ahead(consumers, 0, Idle, Added(e.score, e.cost))
    ensures Reaches(g, consumers, more, s.(clients := Ahead(consumers, m, Idle, Added(e.score, e.cost))), hasties)
  {
    hide Reaches, Ahead;
    if m == 0 {
      more := steps;
    } else {
      more := AllRefresh(g, consumers, steps, s, hasties, e, m - 1);
      var before := s.(clients := Ahead(consumers, m - 1, Idle, Added(e.score, e.cost)));
      OneAhead(consumers, m - 1, Idle, Added(e.score, e.cost));
      Onward(g, consumers, more, before, hasties, Refresh(m - 1));
      more := more + [Refresh(m - 1)];
    }
  }

  /** One unit is charged at time zero, so that the key expires a window later; one microsecond
      before, every client is let through and adds. */
  lemma NearlyExpired(g: Setting, consumers: nat) returns (steps: seq<Step>, s: State)
    requires g.windowMs > 0 && g.maxCost > 0 && g.limit >= 2 && consumers > 0
    ensures var window, unit := WindowMicros(g.windowMs), Entry(0, 1);
            var e := Entry(window - 1, g.maxCost);
            && Reaches(g, consumers, steps, s, 0)
            && s == State(window - 1, Key([unit] + Copies(e, consumers), Some(window)),
                          Ahead(consumers, consumers, Added(e.score, e.cost), Idle), [unit] + Copies(e, consumers), -1)
  {
    hide Reaches, Total, Trimmed, Ahead, Ready;
    var window, unit := WindowMicros(g.windowMs), Entry(0, 1);
    var e := Entry(window - 1, g.maxCost);
    StartReady(g, consumers);
    CheckedLater([], 0);
    Measures(unit, -1);
    steps := FillUp(g, consumers, [], Start(g, consumers), 0, 1);
    assert [] + Copies(unit, 1) == [unit];
    s := Start(g, consumers).(key := Key([unit], Some(window)), recorded := [unit]);
    steps := Waited(g, consumers, steps, s, 0, window - 1);
    s := s.(now := window - 1);
    Onward(g, consumers, steps, s, 0, Poll(-1));
    steps := steps + [Poll(-1)];
    s := s.(floor := -1);
    assert Ready(g, s) by { NowReady(g, s, unit); }
    steps := AllPass(g, consumers, steps, s, 0, consumers);
    NoneAhead(consumers, Passed(e.score, e.cost), Idle);
    NoneAhead(consumers, Added(e.score, e.cost), Passed(e.score, e.cost));
    NoneAhead(consumers, Added(e.score, e.cost), Idle);
    s := s.(clients := Ahead(consumers, consumers, Passed(e.score, e.cost), Idle));
    AllBehind(consumers, Added(e.score, e.cost), Passed(e.score, e.cost), Idle);
    steps := AllAdd(g, consumers, steps, s, 0, e, consumers);
    s := s.(key := s.key.(entries := [unit] + Copies(e, consumers)), recorded := [unit] + Copies(e, consumers),
            clients := Ahead(consumers, consumers, Added(e.score, e.cost), Idle));
  }

  lemma NowReady(g: Setting, s: State, e: Entry)
    requires s.key.entries == [e] && e.score > s.now - WindowMicros(g.windowMs) && s.floor == s.now - WindowMicros(g.windowMs)
    ensures Ready(g, s)
  {
    Measures(e, s.now - WindowMicros(g.windowMs));
  }

  /** Clients that are all alike. */
  lemma AllBehind(consumers: nat, a: Client, b: Client, c: Client)
    ensures Ahead(consumers, consumers, b, c) == Ahead(consumers, 0, a, b)
    ensures Ahead(consumers, consumers, a, b) == Ahead(consumers, consumers, a, c)
  {}

  /** For every limit of at least two: the key that the first unit made expires before the
      additions that follow have refreshed it, and a full round comes on top of them. In a window
      of two microseconds one hasty expiry lets through all that `WindowBound` allows for it. */
  lemma HastyExpiryExceeds(g: Setting, consumers: nat) returns (steps: seq<Step>, s: State, from: nat)
    requires g.windowMs > 0 && g.maxCost > 0 && g.limit >= 2 && consumers > 0
    ensures Reaches(g, consumers, steps, s, 1)
    ensures Within(s.recorded, from, from + 2) == g.limit - 1 + consumers * g.maxCost + Extra(g, consumers, 1)
  {
    hide Reaches, Total, Trimmed, Within, Ahead, Copies, Ready, Hasty;
    var window, unit := WindowMicros(g.windowMs), Entry(0, 1);
    var e := Entry(window - 1, g.maxCost);
    from := window - 1;
    steps, s := NearlyExpired(g, consumers);
    steps := Waited(g, consumers, steps, s, 0, 1);
    s := s.(now := window);
    AheadIs(consumers, Added(e.score, e.cost), Idle);
    assert Hasty(g, s, Expire) by { HastyNow(g, s, e); }
    Onward(g, consumers, steps, s, 0, Expire);
    steps := steps + [Expire];
    s := s.(key := NoKey(), floor := 0);
    AllBehind(consumers, Idle, Added(e.score, e.cost), Idle);
    NoneAhead(consumers, Idle, Added(e.score, e.cost));
    steps := AllRefresh(g, consumers, steps, s, 1, e, consumers);
    AllBehind(consumers, Idle, Idle, Added(e.score, e.cost));
    s := s.(clients := AllIdle(consumers));
    assert Ready(g, s) by { EmptyReady(g, s); }
    var before := s.recorded;
    steps, s := FullRound(g, consumers, steps, s, 1);
    RoundUnits(g, before, consumers, window, from, from + 2);
    CopiesUnits([unit], e, consumers, from, from + 2);
    NoneWithin([unit], from, from + 2);
    TimesMore(0, consumers * g.maxCost);
  }

  lemma EmptyReady(g: Setting, s: State)
    requires s.key == NoKey() && s.now - WindowMicros(g.windowMs) <= s.floor
    ensures Ready(g, s)
  {}

  lemma AheadIs(consumers: nat, a: Client, b: Client)
    requires consumers > 0
    ensures a in Ahead(consumers, consumers, a, b)
  {
    assert Ahead(consumers, consumers, a, b)[0] == a;
  }

  lemma HastyNow(g: Setting, s: State, e: Entry)
    requires Added(e.score, e.cost) in s.clients && e.score > s.now - WindowMicros(g.windowMs)
    ensures Hasty(g, s, Expire)
  {}

  /** What was let through after the last refresh was let through by an empty set. */
  predicate Behind(g: Setting, s: State) {
    && (forall e <- s.key.entries :: e.cost > 0) && (forall c <- s.clients :: c.Passed? ==> c.cost > 0)
    && (forall c <- s.clients :: c.Passed? || c.Added? ==> c.score <= s.now)
    && (s.key.expiresAt.Some? ==>
          forall c <- s.clients :: c.Passed? || c.Added? ==> c.score <= s.key.expiresAt.value - WindowMicros(g.windowMs))
  }

  lemma {:induction false} NothingCosts(es: seq<Entry>)
    requires Total(es) == 0 && forall e <- es :: e.cost > 0
    ensures es == []
  {}

  lemma StepKeepsBehind(g: Setting, s: State, step: Step)
    requires Behind(g, s) && Tidy(g, s) && Enabled(g, s, step) && g.limit <= 1
    ensures Behind(g, Next(g, s, step))
  {
    hide Total, Trimmed;
    var s' := Next(g, s, step);
    if step.ReadClock? || step.Check? || step.Add? || step.Refresh? {
      assert forall c <- s'.clients :: c in s.clients || c == s'.clients[step.i];
      assert s.clients[step.i] in s.clients;
    }
    match step {
      case Poll(bound) => TrimmedKeeps(s.key.entries, bound);
      case Check(i, checked, cost) =>
        TrimmedKeeps(s.key.entries, checked - WindowMicros(g.windowMs));
        if s'.clients[i].Passed? { NothingCosts(s'.key.entries); }
      case _ =>
    }
  }

  lemma {:induction false} RunIsBehind(g: Setting, consumers: nat, steps: seq<Step>)
    requires Run(g, consumers, steps).Some? && g.limit <= 1
    ensures Behind(g, Run(g, consumers, steps).value) && Hasties(g, consumers, steps) == 0
  {
    hide Behind, Tidy, Attended, Present, Enabled, Next, Hasty;
    if steps == [] {
      StartIsBehind(g, consumers);
    } else {
      var before, step := Run(g, consumers, steps[..|steps| - 1]).value, steps[|steps| - 1];
      RunIsBehind(g, consumers, steps[..|steps| - 1]);
      RunIsAttended(g, consumers, steps[..|steps| - 1]);
      StepKeepsBehind(g, before, step);
      NeverHasty(g, before, step);
    }
  }

  lemma StartIsBehind(g: Setting, consumers: nat)
    ensures Behind(g, Start(g, consumers))
  {}

  lemma NeverHasty(g: Setting, s: State, step: Step)
    requires Behind(g, s) && Enabled(g, s, step)
    ensures !Hasty(g, s, step)
  {}

  predicate HastyRun(g: Setting, consumers: nat, steps: seq<Step>) {
    Run(g, consumers, steps).Some? && Hasties(g, consumers, steps) > 0
  }

  /** An expiry can be hasty in some run exactly when the limit is at least two. */
  lemma HastyIffTwo(g: Setting, consumers: nat)
    requires g.windowMs > 0 && g.maxCost > 0 && consumers > 0
    ensures (exists steps :: HastyRun(g, consumers, steps)) <==> g.limit >= 2
  {
    if g.limit >= 2 {
      var steps, s, from := HastyExpiryExceeds(g, consumers);
      assert HastyRun(g, consumers, steps);
    } else {
      forall steps ensures !HastyRun(g, consumers, steps) {
        if Run(g, consumers, steps).Some? { RunIsBehind(g, consumers, steps); }
      }
    }
  }

  // ----- exactness --------------------------------------------------------------

  /** What the throttle promises for windows of this length, when no expiry is hasty. */
  predicate Holds(g: Setting, consumers: nat, steps: seq<Step>, from: int, len: int) {
    var run := Run(g, consumers, steps);
    run.Some? && Hasties(g, consumers, steps) == 0 ==>
      Within(run.value.recorded, from, from + len) <= g.limit - 1 + consumers * g.maxCost
  }

  /** The bound holds for all windows of a length, in all runs without hasty expiry, if and only
      if the length is at most the window less the lag of checks. */
  lemma WindowIsExact(g: Setting, consumers: nat, len: int)
    requires g.windowMs > 0 && g.maxCost > 0 && g.limit > 0 && consumers > 0 && len > 0
    ensures (forall steps, from :: Holds(g, consumers, steps, from, len)) <==> len <= WindowMicros(g.windowMs) - g.delay
  {
    if len <= WindowMicros(g.windowMs) - g.delay {
      forall steps, from ensures Holds(g, consumers, steps, from, len) {
        if Run(g, consumers, steps).Some? {
          WindowBound(g, consumers, steps, from, from + len);
        }
      }
    } else {
      var steps, s := LateUnit(g, consumers, len);
      assert !Holds(g, consumers, steps, 0, len);
    }
  }
}
