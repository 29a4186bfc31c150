/** The sliding-window throttler: a sorted set of charged units, trimmed by score at every
    check and extended by a later command. Times are microseconds. */
module Throttle {
  import opened Options

  /** `cost` members added by one ZADD, all with the same score. */
  datatype Entry = Entry(score: nat, cost: nat)

  datatype Answer = Answer(requests: nat, isAllowed: bool, throttledFor: Option<int>)

  function WindowMicros(windowMs: int): int { windowMs * 1000 }

  function Total(es: seq<Entry>): nat {
    if es == [] then 0 else Total(es[..|es| - 1]) + es[|es| - 1].cost
  }

  /** ZREMRANGEBYSCORE from 0 to `bound`. */
  function Trimmed(es: seq<Entry>, bound: int): (r: seq<Entry>)
    ensures forall e <- r :: e in es && e.score > bound
  {
    if es == [] then []
    else
      var before, last := Trimmed(es[..|es| - 1], bound), es[|es| - 1];
      if last.score <= bound then before else before + [last]
  }

  function Lowest(es: seq<Entry>): (low: nat)
    requires es != []
    ensures (exists e <- es :: e.score == low) && forall e <- es :: low <= e.score
  {
    var last := es[|es| - 1];
    if |es| == 1 then last.score
    else
      var before := Lowest(es[..|es| - 1]);
      assert forall e <- es :: e == last || e in es[..|es| - 1];
      if last.score < before then last.score else before
  }

  /** What a check at `now` answers about the set that trimming leaves. */
  function Judged(es: seq<Entry>, now: nat, limit: nat, windowMs: int): Answer {
    var allowed := Total(es) < limit;
    Answer(Total(es), allowed,
           if allowed || es == [] then None else Some(Truncated(now - Lowest(es) + WindowMicros(windowMs)) + 1))
  }

  /** Microseconds to whole milliseconds, rounding toward zero. */
  function Truncated(micros: int): int { if micros >= 0 then micros / 1000 else -(-micros / 1000) }

  /** What Redis holds under the key of a throttled queue: no entries means no key, and a key
      that ZADD creates has no expiry yet. */
  datatype Key = Key(entries: seq<Entry>, expiresAt: Option<int>)

  function NoKey(): Key { Key([], None) }

  /** What a command at `now` finds. */
  function Found(key: Key, now: nat): Key {
    if key.expiresAt.Some? && key.expiresAt.value <= now then NoKey() else key
  }

  /** A key that is left empty is removed, and its expiry with it. */
  function TrimmedKey(key: Key, bound: int): Key {
    var kept := Trimmed(key.entries, bound);
    Key(kept, if kept == [] then None else key.expiresAt)
  }

  function Zadd(key: Key, e: Entry): Key { key.(entries := key.entries + [e]) }

  function Pexpire(key: Key, at: int): Key { if key.entries == [] then key else key.(expiresAt := Some(at)) }

  class Throttler {
    const limit: nat
    const windowMs: int
    var key: Key

    constructor (limit: nat, windowMs: int)
      ensures this.limit == limit && this.windowMs == windowMs && key == NoKey()
    {
      this.limit, this.windowMs, key := limit, windowMs, NoKey();
    }

    /** The key that a check at `now` leaves. */
    function Checked(now: nat): Key
      reads this
    {
      TrimmedKey(Found(key, now), now - WindowMicros(windowMs))
    }

    method State(now: nat) returns (answer: Answer)
      modifies this`key
      ensures key == old(Checked(now)) == KeyAfter(old(key), Polls(now), limit, windowMs)
      ensures answer == Judged(key.entries, now, limit, windowMs)
      ensures answer.requests == Total(key.entries) && (answer.isAllowed <==> answer.requests < limit)
      ensures answer.throttledFor ==
                if answer.isAllowed || key.entries == [] then None
                else Some(Truncated(now - Lowest(key.entries) + WindowMicros(windowMs)) + 1)
    {
      hide Trimmed, Total, Lowest, Truncated;
      key := TrimmedKey(Found(key, now), now - WindowMicros(windowMs));
      var requests := Total(key.entries);
      var isAllowed := requests < limit;
      var throttledFor := None;
      if !isAllowed && key.entries != [] {
        throttledFor := Some(Truncated(now - Lowest(key.entries) + WindowMicros(windowMs)) + 1);
      }
      answer := Answer(requests, isAllowed, throttledFor);
    }

    /** The clock is read for the score, then for the check; ZADD and PEXPIRE are two commands.
        The key that was checked may expire before the one or between the two. */
    method Consume(cost: Option<nat>, reading: nat, checked: nat, added: nat, refreshed: nat) returns (answer: Answer)
      requires reading <= checked <= added <= refreshed
      modifies this`key
      ensures var kept := old(Checked(checked));
              var effective := if cost.Some? then cost.value else 1;
              && answer.isAllowed == (Total(kept.entries) < limit)
              && (if answer.isAllowed && effective > 0 then
                    && key == Charged(kept, Entry(reading, effective), added, refreshed, windowMs)
                    && answer.requests == Total(kept.entries) + effective
                  else key == kept && answer.requests == Total(kept.entries))
      ensures var kept := old(Checked(checked));
              var effective := if cost.Some? then cost.value else 1;
              answer.isAllowed && effective > 0 && (kept.expiresAt.Some? ==> kept.expiresAt.value > refreshed) ==>
                && key.entries == kept.entries + [Entry(reading, effective)]
                && Total(key.entries) == Total(kept.entries) + effective
                && key.expiresAt == Some(refreshed + WindowMicros(windowMs))
      ensures key == KeyAfter(old(key), Consumes(cost, reading, checked, added, refreshed), limit, windowMs)
    {
      hide Trimmed, Total, Lowest, Truncated, TrimmedKey, Judged;
      ghost var kept := Checked(checked);
      answer := State(checked);
      if answer.isAllowed {
        var effective := match cost case Some(n) => n case None => 1;
        if effective == 0 { return; }
        WithinSnoc(kept.entries, Entry(reading, effective), 0, 0);
        key := Zadd(Found(key, added), Entry(reading, effective));
        key := Pexpire(Found(key, refreshed), refreshed + WindowMicros(windowMs));
        answer := answer.(requests := answer.requests + effective);
      }
    }

    /** One poll of a dispatcher that is the only consumer. `found` is the job that is claimed
        with its cost, None when the queue is empty. */
    method PopWithThrottle(found: Option<(string, Option<nat>)>, fallbackMs: nat, polled: nat, reading: nat, checked: nat,
                           added: nat, refreshed: nat)
      returns (job: Option<string>, waitMs: nat, ghost kept: Key)
      requires polled <= reading <= checked <= added <= refreshed
      modifies this`key
      ensures job.Some? <==> found.Some? && Total(old(Checked(polled)).entries) < limit
      ensures job.Some? ==>
                var cost := if found.value.1.Some? then found.value.1.value else 1;
                && job.value == found.value.0 && Total(kept.entries) < limit
                && key == (if cost == 0 then kept else Charged(kept, Entry(reading, cost), added, refreshed, windowMs))
                && (cost > 0 && (kept.expiresAt.Some? ==> kept.expiresAt.value > refreshed) ==>
                      key.entries == kept.entries + [Entry(reading, cost)] && Total(key.entries) == Total(kept.entries) + cost)
      ensures key ==
                var first := KeyAfter(old(key), Polls(polled), limit, windowMs);
                if job.Some? then KeyAfter(first, Consumes(found.value.1, reading, checked, added, refreshed), limit, windowMs)
                else first
      ensures job.None? ==>
                var told := Judged(key.entries, polled, limit, windowMs).throttledFor;
                && key == old(Checked(polled))
                && waitMs == if told.Some? && told.value >= 0 then told.value else fallbackMs
    {
      hide Trimmed, Total, Lowest, Truncated;
      kept := NoKey();
      var state := State(polled);
      if state.isAllowed && found.Some? {
        kept := Checked(checked);
        CheckedLater(key.entries, checked - WindowMicros(windowMs));
        CheckedLater([], checked - WindowMicros(windowMs));
        var answer := Consume(found.value.1, reading, checked, added, refreshed);
        return Some(found.value.0), 0, kept;
      }
      job := None;
      waitMs := if state.throttledFor.Some? && state.throttledFor.value >= 0 then state.throttledFor.value else fallbackMs;
    }
  }

  /** A call of one consumer, with the times of its clock readings and commands. */
  datatype Call =
    | Polls(now: nat)
    | Consumes(cost: Option<nat>, reading: nat, checked: nat, added: nat, refreshed: nat)

  function CostOf(call: Call): nat { if call.Polls? then 0 else if call.cost.Some? then call.cost.value else 1 }

  function KeyChecked(key: Key, now: nat, windowMs: int): Key { TrimmedKey(Found(key, now), now - WindowMicros(windowMs)) }

  /** The entry that a call adds: its cost at its first clock reading, if it is allowed. */
  function AddedBy(key: Key, call: Call, limit: nat, windowMs: int): seq<Entry> {
    if call.Consumes? && CostOf(call) > 0 && Total(KeyChecked(key, call.checked, windowMs).entries) < limit
    then [Entry(call.reading, CostOf(call))] else []
  }

  function KeyAfter(key: Key, call: Call, limit: nat, windowMs: int): Key {
    match call
    case Polls(now) => KeyChecked(key, now, windowMs)
    case Consumes(_, _, checked, added, refreshed) =>
      var kept, entries := KeyChecked(key, checked, windowMs), AddedBy(key, call, limit, windowMs);
      if entries == [] then kept else Charged(kept, entries[0], added, refreshed, windowMs)
  }

  /** What an addition leaves: everything, when the old expiry comes after both commands; only the
      addition, when it came before them; nothing, when it comes between the two. */
  function Charged(kept: Key, e: Entry, added: nat, refreshed: nat, windowMs: int): Key {
    var expiry := Some(refreshed + WindowMicros(windowMs));
    if kept.expiresAt.None? || refreshed < kept.expiresAt.value then Key(kept.entries + [e], expiry)
    else if kept.expiresAt.value <= added then Key([e], expiry)
    else NoKey()
  }

  /** A refusal names a time whenever there is an entry, and an allowed check names none. */
  lemma RefusalNamesTime(es: seq<Entry>, now: nat, limit: nat, windowMs: int)
    ensures var answer := Judged(es, now, limit, windowMs);
            && answer.requests == Total(es) && (answer.isAllowed <==> Total(es) < limit)
            && (answer.throttledFor.Some? <==> Total(es) >= limit && es != [])
            && (answer.throttledFor.Some? && windowMs >= 0 && (forall e <- es :: e.score <= now) ==>
                  exists e <- es :: (forall other <- es :: e.score <= other.score) &&
                    answer.throttledFor.value == (now - e.score + WindowMicros(windowMs)) / 1000 + 1)
  {
    if es != [] {
      var low := Lowest(es);
      var e :| e in es && e.score == low;
    }
  }

  /** Time only takes units away: a later check without other consumers counts no more. */
  lemma {:induction false} CheckedLater(es: seq<Entry>, bound: int)
    ensures Total(Trimmed(es, bound)) <= Total(es) && (es == [] ==> Total(es) == 0)
  {
    if es != [] {
      var before := Trimmed(es[..|es| - 1], bound);
      CheckedLater(es[..|es| - 1], bound);
      WithinSnoc(before, es[|es| - 1], 0, 0);
    }
  }

  /** A refused poll says how long to sleep; whoever sleeps that long alone finds the whole
      window empty, and is allowed unless the limit is zero. */
  lemma SleepEndsRefusal(es: seq<Entry>, now: nat, later: nat, limit: nat, windowMs: int)
    requires forall e <- es :: e.score <= now
    requires var kept := Trimmed(es, now - WindowMicros(windowMs));
             var answer := Judged(kept, now, limit, windowMs);
             !answer.isAllowed && answer.throttledFor.Some? && later >= now + answer.throttledFor.value * 1000
    ensures var kept := Trimmed(es, now - WindowMicros(windowMs));
            var again := Trimmed(kept, later - WindowMicros(windowMs));
            again == [] && (Judged(again, later, limit, windowMs).isAllowed <==> limit > 0)
  {
    var kept := Trimmed(es, now - WindowMicros(windowMs));
    var waited := now - Lowest(kept) + WindowMicros(windowMs);
    assert waited > 0;
    assert (waited / 1000 + 1) * 1000 > waited;
    AllTrimmed(kept, later - WindowMicros(windowMs));
  }

  lemma {:induction false} AllTrimmed(es: seq<Entry>, bound: int)
    ensures Trimmed(es, bound) == [] <==> forall e <- es :: e.score <= bound
  {
    if es != [] {
      AllTrimmed(es[..|es| - 1], bound);
      assert forall e <- es :: e in es[..|es| - 1] || e == es[|es| - 1];
      assert es[|es| - 1] in es;
    }
  }

  // ----- many consumers ---------------------------------------------------------

  /** A consumer has read the clock for its score, was let through and has still to add it, or
      has added it and has still to set the expiry. */
  datatype Client = Idle | Read(reading: nat) | Passed(score: nat, cost: nat) | Added(score: nat, cost: nat)

  /** `recorded` is everything that was ever added; scores up to `floor` may have been dropped. */
  datatype State = State(now: nat, key: Key, clients: seq<Client>, recorded: seq<Entry>, floor: int)

  /** A check runs at most `delay` after the reading of its score; a cost is at most `maxCost`. */
  datatype Setting = Setting(limit: nat, windowMs: int, maxCost: nat, delay: nat)

  datatype Step =
    | Tick(d: nat)
    | Poll(bound: int)                      // trims only
    | ReadClock(i: nat)
    | Check(i: nat, checked: nat, cost: nat)
    | Add(i: nat)                           // ZADD
    | Refresh(i: nat)                       // PEXPIRE
    | Expire                                // Redis drops the key

  predicate Enabled(g: Setting, s: State, step: Step) {
    match step
    case Tick(_) => true
    case Poll(bound) => bound <= s.now - WindowMicros(g.windowMs)
    case ReadClock(i) => i < |s.clients| && s.clients[i] == Idle
    case Check(i, checked, cost) =>
      i < |s.clients| && s.clients[i].Read? && s.clients[i].reading <= checked <= s.now
      && s.now - s.clients[i].reading <= g.delay && cost <= g.maxCost
    case Add(i) => i < |s.clients| && s.clients[i].Passed?
    case Refresh(i) => i < |s.clients| && s.clients[i].Added?
    case Expire => s.key.expiresAt.Some? && s.key.expiresAt.value <= s.now
  }

  function Next(g: Setting, s: State, step: Step): State
    requires Enabled(g, s, step)
  {
    match step
    case Tick(d) => s.(now := s.now + d)
    case Poll(bound) => Trim(s, bound)
    case ReadClock(i) => s.(clients := s.clients[i := Read(s.now)])
    case Check(i, checked, cost) =>
      var trimmed := Trim(s, checked - WindowMicros(g.windowMs));
      var through := Total(trimmed.key.entries) < g.limit && cost > 0;
      trimmed.(clients := s.clients[i := if through then Passed(s.clients[i].reading, cost) else Idle])
    case Add(i) =>
      var e := Entry(s.clients[i].score, s.clients[i].cost);
      s.(key := Zadd(s.key, e), recorded := s.recorded + [e], clients := s.clients[i := Added(e.score, e.cost)])
    case Refresh(i) => s.(key := Pexpire(s.key, s.now + WindowMicros(g.windowMs)), clients := s.clients[i := Idle])
    case Expire => s.(key := NoKey(), floor := Higher(s.floor, s.now - WindowMicros(g.windowMs)))
  }

  function Higher(a: int, b: int): int { if a < b then b else a }

  function Trim(s: State, bound: int): State { s.(key := TrimmedKey(s.key, bound), floor := Higher(s.floor, bound)) }

  function Start(g: Setting, consumers: nat): State {
    State(0, NoKey(), seq(consumers, i => Idle), [], -WindowMicros(g.windowMs))
  }

  function Run(g: Setting, consumers: nat, steps: seq<Step>): Option<State> {
    if steps == [] then Some(Start(g, consumers))
    else
      match Run(g, consumers, steps[..|steps| - 1])
      case None => None
      case Some(s) => if Enabled(g, s, steps[|steps| - 1]) then Some(Next(g, s, steps[|steps| - 1])) else None
  }

  /** The old expiry drops the key between an addition that is still in the window and its PEXPIRE. */
  predicate Hasty(g: Setting, s: State, step: Step) {
    step.Expire? && exists c <- s.clients :: c.Added? && c.score > s.now - WindowMicros(g.windowMs)
  }

  /** How often that happens in a run. */
  function Hasties(g: Setting, consumers: nat, steps: seq<Step>): nat {
    if steps == [] then 0
    else
      var before := steps[..|steps| - 1];
      var s := Run(g, consumers, before);
      Hasties(g, consumers, before) + if s.Some? && Hasty(g, s.value, steps[|steps| - 1]) then 1 else 0
  }

  /** The units with a score in [from, to). */
  function Within(es: seq<Entry>, from: int, to: int): nat {
    if es == [] then 0
    else
      var last := es[|es| - 1];
      Within(es[..|es| - 1], from, to) + if from <= last.score < to then last.cost else 0
  }

  /** The units that were let through and are still to be added. */
  function Owed(from: int, to: int): Client -> nat {
    (c: Client) => if c.Passed? && from <= c.score < to then c.cost else 0
  }

  /** The units that were added by those who have still to set the expiry. */
  function Fresh(from: int, to: int): Client -> nat {
    (c: Client) => if c.Added? && from <= c.score < to then c.cost else 0
  }

  function Sum(clients: seq<Client>, share: Client -> nat): nat {
    if clients == [] then 0 else Sum(clients[..|clients| - 1], share) + share(clients[|clients| - 1])
  }

  lemma WithinSnoc(es: seq<Entry>, e: Entry, from: int, to: int)
    ensures Within(es + [e], from, to) == Within(es, from, to) + if from <= e.score < to then e.cost else 0
    ensures Total(es + [e]) == Total(es) + e.cost
  {
    assert (es + [e])[..|es|] == es;
  }

  lemma {:induction false} WithinTrimmed(es: seq<Entry>, bound: int, from: int, to: int)
    ensures Within(Trimmed(es, bound), from, to) <= Within(es, from, to) <= Total(es)
    ensures bound < from ==> Within(Trimmed(es, bound), from, to) == Within(es, from, to)
  {
    if es != [] {
      WithinTrimmed(es[..|es| - 1], bound, from, to);
      if es[|es| - 1].score > bound { WithinSnoc(Trimmed(es[..|es| - 1], bound), es[|es| - 1], from, to); }
    }
  }

  lemma {:induction false} NoneWithin(es: seq<Entry>, from: int, to: int)
    requires forall e <- es :: e.score < from
    ensures Within(es, from, to) == 0
  {
    if es != [] {
      assert es[|es| - 1] in es;
      NoneWithin(es[..|es| - 1], from, to);
    }
  }

  lemma {:induction false} SumChange(clients: seq<Client>, i: nat, client: Client, share: Client -> nat)
    requires i < |clients|
    ensures Sum(clients[i := client], share) == Sum(clients, share) - share(clients[i]) + share(client)
  {
    var n := |clients| - 1;
    if i < n {
      SumChange(clients[..n], i, client, share);
      assert clients[i := client][..n] == clients[..n][i := client];
    } else {
      assert clients[i := client][..n] == clients[..n];
    }
  }

  lemma {:induction false} SumAtMost(clients: seq<Client>, most: nat, share: Client -> nat)
    requires forall c <- clients :: share(c) <= most
    ensures Sum(clients, share) <= |clients| * most
  {
    if clients != [] {
      var n := |clients| - 1;
      assert clients[n] in clients;
      SumAtMost(clients[..n], most, share);
      assert (n + 1) * most == n * most + most;
    }
  }

  predicate Tidy(g: Setting, s: State) {
    && s.floor <= s.now - WindowMicros(g.windowMs)
    && (forall e <- s.key.entries :: e.score <= s.now)
    && (forall c <- s.clients ::
          && (c.Read? ==> c.reading <= s.now)
          && (c.Passed? || c.Added? ==> c.score <= s.now && c.cost <= g.maxCost))
    && (g.limit == 0 ==> s.recorded == [] && forall c <- s.clients :: !c.Passed?)
  }

  /** What the expiry of the key would drop from a window was added by consumers that have still
      to refresh the expiry. */
  predicate Covered(g: Setting, s: State, from: int, to: int) {
    s.key.expiresAt.Some? && s.key.expiresAt.value - WindowMicros(g.windowMs) < from ==>
      Within(s.key.entries, from, to) <= Sum(s.clients, Fresh(from, to))
  }

  /** What `hasties` hasty expiries can let through in addition. */
  function Extra(g: Setting, consumers: nat, hasties: nat): nat { hasties * (consumers * g.maxCost) }

  /** Above the floor, the set still holds what was recorded, but for what hasty expiry dropped. */
  predicate Faithful(g: Setting, s: State, from: int, to: int, hasties: nat) {
    s.floor < from ==>
      Within(s.recorded, from, to) <= Within(s.key.entries, from, to) + Extra(g, |s.clients|, hasties)
  }

  predicate Bounded(g: Setting, s: State, from: int, hasties: nat) {
    var to := from + WindowMicros(g.windowMs) - g.delay;
    Within(s.recorded, from, to) + Sum(s.clients, Owed(from, to))
      <= g.limit - 1 + |s.clients| * g.maxCost + Extra(g, |s.clients|, hasties)
  }

  lemma StepKeepsTidy(g: Setting, s: State, step: Step)
    requires Tidy(g, s) && Enabled(g, s, step)
    ensures Tidy(g, Next(g, s, step)) && |Next(g, s, step).clients| == |s.clients|
  {
    var s' := Next(g, s, step);
    if step.ReadClock? || step.Check? || step.Add? || step.Refresh? {
      assert forall c <- s'.clients :: c in s.clients || c == s'.clients[step.i];
      assert s.clients[step.i] in s.clients;
    }
  }

  lemma ScoresPast(g: Setting, s: State)
    requires Tidy(g, s)
    ensures forall e <- s.key.entries :: e.score <= s.now
  {}

  lemma StepKeepsCovered(g: Setting, s: State, step: Step, from: int, to: int)
    requires Tidy(g, s) && Enabled(g, s, step) && Covered(g, s, from, to)
    ensures Covered(g, Next(g, s, step), from, to)
  {
    hide Trimmed, Tidy, Total;
    var s' := Next(g, s, step);
    if step.ReadClock? || step.Check? || step.Add? || step.Refresh? {
      SumChange(s.clients, step.i, s'.clients[step.i], Fresh(from, to));
    }
    match step {
      case Poll(bound) => WithinTrimmed(s.key.entries, bound, from, to);
      case Check(i, checked, cost) => WithinTrimmed(s.key.entries, checked - WindowMicros(g.windowMs), from, to);
      case Add(i) => WithinSnoc(s.key.entries, Entry(s.clients[i].score, s.clients[i].cost), from, to);
      case Refresh(i) =>
        if s.now < from { ScoresPast(g, s); NoneWithin(s.key.entries, from, to); }
      case _ =>
    }
  }

  /** What an expiry drops from the window: nothing, unless it is hasty. */
  lemma Dropped(g: Setting, s: State, from: int, to: int)
    requires Tidy(g, s) && Enabled(g, s, Expire) && Covered(g, s, from, to) && s.now - WindowMicros(g.windowMs) < from
    ensures Within(s.key.entries, from, to) <= if Hasty(g, s, Expire) then |s.clients| * g.maxCost else 0
  {
    if Hasty(g, s, Expire) {
      SumAtMost(s.clients, g.maxCost, Fresh(from, to));
    } else {
      SumAtMost(s.clients, 0, Fresh(from, to));
    }
  }

  lemma TrimKeepsFaithful(g: Setting, s: State, bound: int, from: int, to: int, hasties: nat)
    requires Faithful(g, s, from, to, hasties)
    ensures Faithful(g, Trim(s, bound), from, to, hasties)
  {
    hide Extra;
    WithinTrimmed(s.key.entries, bound, from, to);
  }

  lemma AddKeepsFaithful(g: Setting, s: State, e: Entry, from: int, to: int, hasties: nat)
    requires Faithful(g, s, from, to, hasties)
    ensures Faithful(g, s.(key := Zadd(s.key, e), recorded := s.recorded + [e]), from, to, hasties)
  {
    hide Extra;
    WithinSnoc(s.key.entries, e, from, to);
    WithinSnoc(s.recorded, e, from, to);
  }

  /** Only the set, the record and the floor matter, and the number of clients. */
  lemma SameFaithful(g: Setting, s: State, s': State, from: int, to: int, hasties: nat)
    requires Faithful(g, s, from, to, hasties) && |s'.clients| == |s.clients|
    requires s'.key.entries == s.key.entries && s'.recorded == s.recorded && s'.floor == s.floor
    ensures Faithful(g, s', from, to, hasties)
  {}

  lemma ExpireKeepsFaithful(g: Setting, s: State, from: int, to: int, hasties: nat)
    requires Tidy(g, s) && Enabled(g, s, Expire) && Covered(g, s, from, to) && Faithful(g, s, from, to, hasties)
    ensures Faithful(g, Next(g, s, Expire), from, to, hasties + if Hasty(g, s, Expire) then 1 else 0)
  {
    hide Extra, Hasty, Tidy, Covered;
    if s.now - WindowMicros(g.windowMs) < from { Dropped(g, s, from, to); }
    OneMore(g, |s.clients|, hasties);
  }

  lemma StepKeepsFaithful(g: Setting, s: State, step: Step, from: int, to: int, hasties: nat)
    requires Tidy(g, s) && Enabled(g, s, step) && Covered(g, s, from, to) && Faithful(g, s, from, to, hasties)
    ensures Faithful(g, Next(g, s, step), from, to, hasties + if Hasty(g, s, step) then 1 else 0)
  {
    hide Extra, Faithful, Tidy, Covered;
    var s' := Next(g, s, step);
    match step {
      case Poll(bound) => TrimKeepsFaithful(g, s, bound, from, to, hasties);
      case Check(i, checked, cost) =>
        TrimKeepsFaithful(g, s, checked - WindowMicros(g.windowMs), from, to, hasties);
        SameFaithful(g, Trim(s, checked - WindowMicros(g.windowMs)), s', from, to, hasties);
      case Add(i) =>
        var e := Entry(s.clients[i].score, s.clients[i].cost);
        AddKeepsFaithful(g, s, e, from, to, hasties);
        SameFaithful(g, s.(key := Zadd(s.key, e), recorded := s.recorded + [e]), s', from, to, hasties);
      case Expire => ExpireKeepsFaithful(g, s, from, to, hasties);
      case _ => SameFaithful(g, s, s', from, to, hasties);
    }
  }

  lemma OneMore(g: Setting, consumers: nat, hasties: nat)
    ensures Extra(g, consumers, hasties + 1) == Extra(g, consumers, hasties) + consumers * g.maxCost
    ensures Extra(g, consumers, 0) == 0
  {
    assert (hasties + 1) * (consumers * g.maxCost) == hasties * (consumers * g.maxCost) + consumers * g.maxCost;
  }

  /** The step that lets a consumer through is the only one that adds to a window, and at that
      time what is recorded in the window is still in the set, which is below the limit. */
  lemma StepKeepsBounded(g: Setting, s: State, step: Step, from: int, hasties: nat)
    requires Tidy(g, s) && Enabled(g, s, step) && g.limit > 0 && Bounded(g, s, from, hasties)
    requires Covered(g, s, from, from + WindowMicros(g.windowMs) - g.delay)
    requires Faithful(g, s, from, from + WindowMicros(g.windowMs) - g.delay, hasties)
    ensures Bounded(g, Next(g, s, step), from, hasties)
  {
    hide Extra, Trimmed, Total, Within, Sum;
    var s', to := Next(g, s, step), from + WindowMicros(g.windowMs) - g.delay;
    if step.ReadClock? || step.Check? || step.Add? || step.Refresh? {
      SumChange(s.clients, step.i, s'.clients[step.i], Owed(from, to));
    }
    match step {
      case Add(i) => WithinSnoc(s.recorded, Entry(s.clients[i].score, s.clients[i].cost), from, to);
      case Check(i, checked, cost) =>
        if s'.clients[i].Passed? && from <= s.clients[i].reading < to {
          StepKeepsTidy(g, s, step);
          StepKeepsFaithful(g, s, step, from, to, hasties);
          SumAtMost(s'.clients, g.maxCost, Owed(from, to));
          WithinTrimmed(s'.key.entries, from - 1, from, to);
        }
      case _ =>
    }
  }

  lemma {:induction false} RunIsBounded(g: Setting, consumers: nat, steps: seq<Step>, from: int)
    requires Run(g, consumers, steps).Some?
    ensures var s, to := Run(g, consumers, steps).value, from + WindowMicros(g.windowMs) - g.delay;
            var hasties := Hasties(g, consumers, steps);
            && Tidy(g, s) && |s.clients| == consumers && Covered(g, s, from, to) && Faithful(g, s, from, to, hasties)
            && (g.limit > 0 ==> Bounded(g, s, from, hasties))
  {
    hide Tidy, Covered, Faithful, Bounded, Enabled, Next, Hasty;
    if steps == [] {
      StartIsBounded(g, consumers, from);
    } else {
      var before, step := Run(g, consumers, steps[..|steps| - 1]).value, steps[|steps| - 1];
      var to, hasties := from + WindowMicros(g.windowMs) - g.delay, Hasties(g, consumers, steps[..|steps| - 1]);
      RunIsBounded(g, consumers, steps[..|steps| - 1], from);
      StepKeepsTidy(g, before, step);
      StepKeepsCovered(g, before, step, from, to);
      StepKeepsFaithful(g, before, step, from, to, hasties);
      if g.limit > 0 {
        StepKeepsBounded(g, before, step, from, hasties);
        MoreAllowed(g, Next(g, before, step), from, hasties);
      }
    }
  }

  lemma StartIsBounded(g: Setting, consumers: nat, from: int)
    ensures var s, to := Start(g, consumers), from + WindowMicros(g.windowMs) - g.delay;
            Tidy(g, s) && Covered(g, s, from, to) && Faithful(g, s, from, to, 0) && (g.limit > 0 ==> Bounded(g, s, from, 0))
  {
    SumAtMost(Start(g, consumers).clients, 0, Owed(from, from + WindowMicros(g.windowMs) - g.delay));
  }

  lemma MoreAllowed(g: Setting, s: State, from: int, hasties: nat)
    requires Bounded(g, s, from, hasties)
    ensures Bounded(g, s, from, hasties + 1)
  {
    OneMore(g, |s.clients|, hasties);
  }

  lemma NothingRecorded(g: Setting, s: State)
    requires Tidy(g, s) && g.limit == 0
    ensures s.recorded == []
  {}

  /** In every run of k interleaved consumers, whatever polls and expiry do in between, the units
      charged in any half-open window are at most limit - 1 + k * maxCost, and k * maxCost more for
      each hasty expiry; nothing is charged when the limit is zero. A check that lags its
      reading shortens the window by that delay. */
  lemma WindowBound(g: Setting, consumers: nat, steps: seq<Step>, from: int, to: int)
    requires Run(g, consumers, steps).Some? && to <= from + WindowMicros(g.windowMs) - g.delay
    ensures Within(Run(g, consumers, steps).value.recorded, from, to) <=
              if g.limit == 0 then 0
              else g.limit - 1 + consumers * g.maxCost + Extra(g, consumers, Hasties(g, consumers, steps))
  {
    hide Tidy, Covered, Faithful, Extra, Run, Within, Sum;
    RunIsBounded(g, consumers, steps, from);
    if g.limit == 0 { NothingRecorded(g, Run(g, consumers, steps).value); }
    Narrower(Run(g, consumers, steps).value.recorded, from, to, from + WindowMicros(g.windowMs) - g.delay);
  }

  lemma {:induction false} Narrower(es: seq<Entry>, from: int, to: int, wider: int)
    requires to <= wider
    ensures Within(es, from, to) <= Within(es, from, wider) && (es == [] ==> Within(es, from, to) == 0)
  {
    if es != [] { Narrower(es[..|es| - 1], from, to, wider); }
  }

  // ----- expiry -----------------------------------------------------------------

  /** An entry that outlives the expiry is that of a consumer that has still to refresh it. */
  predicate Attended(g: Setting, s: State) {
    s.key.expiresAt.Some? ==>
      forall e <- s.key.entries :: e.score > s.key.expiresAt.value - WindowMicros(g.windowMs) ==> Added(e.score, e.cost) in s.clients
  }

  /** What was added and is still in the window is in the set until its expiry is refreshed. */
  predicate Present(g: Setting, s: State) {
    forall c <- s.clients :: c.Added? && c.score > s.now - WindowMicros(g.windowMs) ==> Entry(c.score, c.cost) in s.key.entries
  }

  lemma {:induction false} TrimmedKeeps(es: seq<Entry>, bound: int)
    ensures forall e :: e in Trimmed(es, bound) <==> e in es && e.score > bound
  {
    if es != [] {
      TrimmedKeeps(es[..|es| - 1], bound);
      assert forall e :: e in es <==> e in es[..|es| - 1] || e == es[|es| - 1];
    }
  }

  lemma OthersStay(clients: seq<Client>, i: nat, client: Client)
    requires i < |clients|
    ensures forall c <- clients :: c == clients[i] || c in clients[i := client]
  {
    forall c <- clients | c != clients[i] ensures c in clients[i := client] {
      var j :| 0 <= j < |clients| && clients[j] == c;
      assert clients[i := client][j] == c;
    }
  }

  lemma StepKeepsAttended(g: Setting, s: State, step: Step)
    requires Tidy(g, s) && Enabled(g, s, step) && Attended(g, s)
    ensures Attended(g, Next(g, s, step))
  {
    var s' := Next(g, s, step);
    match step {
      case Add(i) =>
        assert s'.clients[i] == Added(s.clients[i].score, s.clients[i].cost);
        OthersStay(s.clients, i, s'.clients[i]);
      case ReadClock(i) => OthersStay(s.clients, i, s'.clients[i]);
      case Check(i, _, _) => OthersStay(s.clients, i, s'.clients[i]);
      case _ =>
    }
  }

  lemma StepKeepsPresent(g: Setting, s: State, step: Step)
    requires Enabled(g, s, step) && Present(g, s) && !Hasty(g, s, step)
    ensures Present(g, Next(g, s, step))
  {
    var s' := Next(g, s, step);
    if step.ReadClock? || step.Check? || step.Add? || step.Refresh? {
      assert forall c <- s'.clients :: c in s.clients || c == s'.clients[step.i];
    }
    match step {
      case Poll(bound) => TrimmedKeeps(s.key.entries, bound);
      case Check(i, checked, cost) => TrimmedKeeps(s.key.entries, checked - WindowMicros(g.windowMs));
      case _ =>
    }
  }

  lemma {:induction false} RunIsAttended(g: Setting, consumers: nat, steps: seq<Step>)
    requires Run(g, consumers, steps).Some?
    ensures var s := Run(g, consumers, steps).value;
            Tidy(g, s) && Attended(g, s) && (Hasties(g, consumers, steps) == 0 ==> Present(g, s))
  {
    hide Tidy, Attended, Present, Enabled, Next, Hasty;
    if steps == [] {
      StartIsAttended(g, consumers);
    } else {
      var before, step := Run(g, consumers, steps[..|steps| - 1]).value, steps[|steps| - 1];
      RunIsAttended(g, consumers, steps[..|steps| - 1]);
      StepKeepsTidy(g, before, step);
      StepKeepsAttended(g, before, step);
      if Hasties(g, consumers, steps) == 0 { StepKeepsPresent(g, before, step); }
    }
  }

  lemma StartIsAttended(g: Setting, consumers: nat)
    ensures var s := Start(g, consumers); Tidy(g, s) && Attended(g, s) && Present(g, s)
  {}

  /** The first expiry of a run that is not like the trimming of a check, and only such a one, is
      hasty: it drops an entry between its addition and the refresh of the expiry. */
  lemma ExpiryAgrees(g: Setting, consumers: nat, steps: seq<Step>)
    requires var run := Run(g, consumers, steps); run.Some? && Enabled(g, run.value, Expire)
    requires Hasties(g, consumers, steps) == 0
    ensures var s := Run(g, consumers, steps).value;
            Next(g, s, Expire).key.entries == Trimmed(s.key.entries, s.now - WindowMicros(g.windowMs)) <==> !Hasty(g, s, Expire)
  {
    hide Run;
    RunIsAttended(g, consumers, steps);
    var s := Run(g, consumers, steps).value;
    AllTrimmed(s.key.entries, s.now - WindowMicros(g.windowMs));
  }
}
