/** Retrying under a deadline with a jittered, doubling backoff. Durations are nanoseconds for
    the connection of a claimed transition, milliseconds for the read of a claimed payload. */
module Backoff {
  import opened Options

  // ----- the configuration ------------------------------------------------------

  const MILLISECOND := 1_000_000

  const SECOND := 1000 * MILLISECOND

  /** The longest duration, and with it the bound at which doubling saturates. */
  const MAX_DURATION := 0x1_0000_0000_0000_0000 * SECOND - 1

  const MIN_RETRY_WINDOW := 2 * SECOND

  datatype Config = Config(retryWindow: Option<nat>, initialBackoff: nat, maxBackoff: nat)

  /** `horizon` is the longest duration that can still be added to the current instant. */
  predicate Validated(config: Config, horizon: nat) {
    && (config.retryWindow.Some? ==> 0 < config.retryWindow.value <= horizon)
    && MILLISECOND <= config.initialBackoff <= config.maxBackoff <= horizon
  }

  function SaturatingDouble(d: nat): nat { if 2 * d <= MAX_DURATION then 2 * d else MAX_DURATION }

  function Larger(a: nat, b: nat): nat { if a >= b then a else b }

  /** The configured window, or twice the longest pool timeout but at least two seconds. */
  function RetryWindow(config: Config, timeouts: seq<Option<nat>>): nat {
    if config.retryWindow.Some? then config.retryWindow.value
    else Larger(SaturatingDouble(Longest(timeouts)), MIN_RETRY_WINDOW)
  }

  function Longest(timeouts: seq<Option<nat>>): nat {
    if timeouts == [] then 0
    else Larger(Longest(timeouts[1..]), if timeouts[0].Some? then timeouts[0].value else 0)
  }

  /** A configured window is used as it is. Without one it is at least two seconds and twice every
      pool timeout, and no longer than the longest of these, unless the doubling saturates. */
  lemma {:induction false} RetryWindowIs(config: Config, timeouts: seq<Option<nat>>)
    ensures var window := RetryWindow(config, timeouts);
            match config.retryWindow
            case Some(configured) => window == configured
            case None =>
              && window >= MIN_RETRY_WINDOW
              && (forall timeout <- timeouts :: timeout.Some? ==> window >= 2 * timeout.value || window >= MAX_DURATION)
              && (window == MIN_RETRY_WINDOW || window == MAX_DURATION
                  || exists timeout <- timeouts :: timeout.Some? && window == 2 * timeout.value)
  {
    LongestIs(timeouts);
  }

  lemma {:induction false} LongestIs(timeouts: seq<Option<nat>>)
    ensures forall timeout <- timeouts :: timeout.Some? ==> timeout.value <= Longest(timeouts)
    ensures Longest(timeouts) == 0 || exists timeout <- timeouts :: timeout == Some(Longest(timeouts))
  {
    if timeouts != [] {
      LongestIs(timeouts[1..]);
      assert forall timeout <- timeouts :: timeout == timeouts[0] || timeout in timeouts[1..];
      assert timeouts[0] in timeouts;
      var rest := Longest(timeouts[1..]);
      if rest == Longest(timeouts) && rest != 0 { assert Some(rest) in timeouts[1..] && Some(rest) in timeouts; }
    }
  }

  // ----- delays -----------------------------------------------------------------

  /** `jitter` is one random byte; the division comes first, as in the program. */
  function Delay(backoff: nat, jitter: nat): nat
    requires jitter <= 255
  {
    var half := backoff / 2;
    half + (backoff - half) / 255 * jitter
  }

  lemma DelayInRange(backoff: nat, jitter: nat)
    requires jitter <= 255
    ensures backoff / 2 <= Delay(backoff, jitter) <= backoff
    ensures Delay(backoff, 0) == backoff / 2 && backoff - 254 <= Delay(backoff, 255)
    ensures forall more :: jitter <= more <= 255 ==> Delay(backoff, jitter) <= Delay(backoff, more)
  {
    forall more | jitter <= more <= 255 ensures Delay(backoff, jitter) <= Delay(backoff, more) {
      MulMono((backoff - backoff / 2) / 255, jitter, more);
    }
    var half := backoff / 2;
    var unit := (backoff - half) / 255;
    assert 0 <= unit * jitter <= unit * 255 by { MulMono(unit, jitter, 255); }
  }

  lemma MulMono(a: nat, b: nat, c: nat)
    requires b <= c
    ensures 0 <= a * b <= a * c
  {}

  function NextCeiling(backoff: nat, max: nat): nat {
    var doubled := SaturatingDouble(backoff);
    if doubled < max then doubled else max
  }

  /** The ceiling of the n-th delay. */
  function Ceiling(config: Config, n: nat): nat {
    if n == 0 then config.initialBackoff else NextCeiling(Ceiling(config, n - 1), config.maxBackoff)
  }

  lemma {:induction false} CeilingsGrow(config: Config, m: nat, n: nat)
    requires m <= n && config.initialBackoff <= config.maxBackoff <= MAX_DURATION
    ensures config.initialBackoff <= Ceiling(config, m) <= Ceiling(config, n) <= config.maxBackoff
    decreases n
  {
    if m < n { CeilingsGrow(config, m, n - 1); } else if n > 0 { CeilingsGrow(config, n - 1, n - 1); }
  }

  function Power2(n: nat): nat { if n == 0 then 1 else 2 * Power2(n - 1) }

  /** The ceiling doubles until it meets the maximum. */
  lemma {:induction false} CeilingDoubles(config: Config, n: nat)
    requires config.initialBackoff <= config.maxBackoff <= MAX_DURATION
    ensures Ceiling(config, n) == if config.initialBackoff * Power2(n) < config.maxBackoff
                                  then config.initialBackoff * Power2(n) else config.maxBackoff
  {
    if n == 0 {
    } else {
      CeilingDoubles(config, n - 1);
      assert config.initialBackoff * Power2(n) == 2 * (config.initialBackoff * Power2(n - 1)) by {
        Doubled(config.initialBackoff, Power2(n - 1));
      }
    }
  }

  lemma Doubled(a: nat, b: nat)
    ensures a * (2 * b) == 2 * (a * b)
  {}

  // ----- the loop ---------------------------------------------------------------

  /** How one attempt ends, how long it takes without the sleep before it, and the jitter of the
      sleep that follows it. */
  datatype Answer = Connected | Transient | Fatal

  datatype Attempt = Attempt(answer: Answer, took: nat, jitter: nat)

  datatype Verdict = Ok | Exhausted | Broken | OutOfRange

  /** `sleeps` are the delays that were slept to their end, `elapsed` the time that has passed. */
  datatype Trace = Trace(verdict: Verdict, sleeps: seq<nat>, elapsed: nat)

  function Sum(xs: seq<nat>): nat { if xs == [] then 0 else Sum(xs[..|xs| - 1]) + xs[|xs| - 1] }

  lemma SumSnoc(xs: seq<nat>, x: nat)
    ensures Sum(xs + [x]) == Sum(xs) + x
  {
    assert (xs + [x])[..|xs|] == xs;
  }

  /** Every delay was drawn below its own ceiling, after a transient failure. */
  ghost predicate Slept(config: Config, attempts: nat -> Attempt, sleeps: seq<nat>) {
    forall n :: 0 <= n < |sleeps| ==>
      && attempts(n).answer == Transient && attempts(n).jitter <= 255
      && sleeps[n] == Delay(Ceiling(config, n), attempts(n).jitter)
      && Ceiling(config, n) / 2 <= sleeps[n] <= Ceiling(config, n)
  }

  /** The sleeps fit into the window, so there are not many of them. */
  predicate Fits(config: Config, sleeps: seq<nat>, elapsed: nat, window: nat) {
    |sleeps| * (config.initialBackoff / 2) <= Sum(sleeps) <= elapsed <= window
  }

  /** One more delay is slept, and the attempt after it ends before the deadline. */
  lemma SleepFits(config: Config, sleeps: seq<nat>, delay: nat, elapsed: nat, later: nat, window: nat)
    requires Fits(config, sleeps, elapsed, window) && config.initialBackoff / 2 <= delay && elapsed + delay <= later <= window
    ensures Fits(config, sleeps + [delay], later, window)
  {
    SumSnoc(sleeps, delay);
    var n, shortest := |sleeps|, config.initialBackoff / 2;
    assert (n + 1) * shortest == n * shortest + shortest;
  }

  lemma DrawnInRange(config: Config, n: nat, jitter: nat)
    requires MILLISECOND <= config.initialBackoff <= config.maxBackoff <= MAX_DURATION && jitter <= 255
    ensures var ceiling := Ceiling(config, n);
            0 < config.initialBackoff / 2 <= ceiling / 2 <= Delay(ceiling, jitter) <= ceiling
  {
    hide Delay, Ceiling;
    DelayInRange(Ceiling(config, n), jitter);
    CeilingsGrow(config, 0, n);
    FirstCeiling(config);
  }

  lemma SleepDrawn(config: Config, attempts: nat -> Attempt, sleeps: seq<nat>)
    requires MILLISECOND <= config.initialBackoff <= config.maxBackoff <= MAX_DURATION && Slept(config, attempts, sleeps)
    requires attempts(|sleeps|).answer == Transient && attempts(|sleeps|).jitter <= 255
    ensures var delay := Delay(Ceiling(config, |sleeps|), attempts(|sleeps|).jitter);
            0 < config.initialBackoff / 2 <= delay && Slept(config, attempts, sleeps + [delay])
  {
    hide Delay, Ceiling;
    DrawnInRange(config, |sleeps|, attempts(|sleeps|).jitter);
  }

  /** When the n-th attempt would end, were there no deadline. */
  function EndOf(config: Config, attempts: nat -> Attempt, n: nat): nat
    requires forall i :: attempts(i).jitter <= 255
  {
    if n == 0 then attempts(0).took
    else EndOf(config, attempts, n - 1) + Delay(Ceiling(config, n - 1), attempts(n - 1).jitter) + attempts(n).took
  }

  /** The verdict after `n` sleeps is that of the attempt after them; the loop gives up only when
      the deadline cuts the first attempt short, or a sleep after a transient failure together
      with the attempt that follows. */
  ghost predicate RightVerdict(config: Config, attempts: nat -> Attempt, window: nat, n: nat, trace: Trace)
    requires forall i :: attempts(i).jitter <= 255
  {
    match trace.verdict
    case Ok => attempts(n).answer == Connected && trace.elapsed == EndOf(config, attempts, n) <= window
    case Broken => attempts(n).answer == Fatal && trace.elapsed == EndOf(config, attempts, n) <= window
    case Exhausted =>
      && trace.elapsed == window
      && if EndOf(config, attempts, n) > window then n == 0
         else attempts(n).answer == Transient && EndOf(config, attempts, n + 1) > window
    case OutOfRange => n == 0
  }

  /** `attempts(n)` is what the n-th attempt would meet, `horizon` the longest window that still
      has a deadline. A sleep and the attempt after it are given up together at the deadline. */
  method ClaimedConnection(config: Config, timeouts: seq<Option<nat>>, attempts: nat -> Attempt, horizon: nat)
    returns (trace: Trace)
    requires Validated(config, horizon) && horizon <= MAX_DURATION
    requires forall n :: attempts(n).jitter <= 255
    ensures var window := RetryWindow(config, timeouts);
            && (trace.verdict == OutOfRange <==> window > horizon)
            && Slept(config, attempts, trace.sleeps) && Fits(config, trace.sleeps, trace.elapsed, window)
            && RightVerdict(config, attempts, window, |trace.sleeps|, trace)
  {
    var window := RetryWindow(config, timeouts);
    hide RetryWindow, Sum, Ceiling, EndOf;
    NoSleeps();
    FirstEnd(config, attempts);
    if window > horizon { return Trace(OutOfRange, [], 0); }
    if attempts(0).took > window { return Trace(Exhausted, [], window); }
    var elapsed: nat, backoff: nat, sleeps: seq<nat> := attempts(0).took, config.initialBackoff, [];
    FirstCeiling(config);
    while true
      invariant backoff == Ceiling(config, |sleeps|)
      invariant Slept(config, attempts, sleeps) && Fits(config, sleeps, elapsed, window)
      invariant elapsed == EndOf(config, attempts, |sleeps|)
      decreases window - Sum(sleeps)
    {
      var attempt := attempts(|sleeps|);
      match attempt.answer {
        case Connected => return Trace(Ok, sleeps, elapsed);
        case Fatal => return Trace(Broken, sleeps, elapsed);
        case Transient =>
      }
      var half := backoff / 2;
      var delay := half + (backoff - half) / 255 * attempt.jitter;
      SleepDrawn(config, attempts, sleeps);
      NextEnd(config, attempts, |sleeps|);
      if elapsed + delay + attempts(|sleeps| + 1).took > window {
        return Trace(Exhausted, sleeps, window);
      }
      var later := elapsed + delay + attempts(|sleeps| + 1).took;
      SleepFits(config, sleeps, delay, elapsed, later, window);
      SumSnoc(sleeps, delay);
      FollowingCeiling(config, |sleeps|);
      sleeps, elapsed, backoff := sleeps + [delay], later, NextCeiling(backoff, config.maxBackoff);
    }
  }

  lemma FirstEnd(config: Config, attempts: nat -> Attempt)
    requires forall i :: attempts(i).jitter <= 255
    ensures EndOf(config, attempts, 0) == attempts(0).took
  {}

  lemma NextEnd(config: Config, attempts: nat -> Attempt, n: nat)
    requires forall i :: attempts(i).jitter <= 255
    ensures EndOf(config, attempts, n + 1) ==
              EndOf(config, attempts, n) + Delay(Ceiling(config, n), attempts(n).jitter) + attempts(n + 1).took
  {
    hide Ceiling, Delay;
  }

  lemma NoSleeps()
    ensures Sum([]) == 0
  {}

  lemma FirstCeiling(config: Config)
    ensures Ceiling(config, 0) == config.initialBackoff
  {}

  lemma FollowingCeiling(config: Config, n: nat)
    ensures Ceiling(config, n + 1) == NextCeiling(Ceiling(config, n), config.maxBackoff)
  {}

  /** The loop makes at most one attempt more than the window divided by half the initial backoff. */
  lemma AttemptsBounded(config: Config, sleeps: seq<nat>, elapsed: nat, window: nat)
    requires MILLISECOND <= config.initialBackoff && Fits(config, sleeps, elapsed, window)
    ensures |sleeps| + 1 <= 1 + window / (config.initialBackoff / 2)
  {
    var n, d := |sleeps|, config.initialBackoff / 2;
    var q := window / d;
    assert window < (q + 1) * d;
    if n > q {
      MulMono(d, q + 1, n);
      assert false;
    }
  }

  // ----- reading a claimed payload ----------------------------------------------

  const READ_WINDOW_MS := 5000

  const FIRST_READ_BACKOFF_MS := 100

  const MAX_READ_BACKOFF_MS := 1000

  function ReadCeiling(n: nat): nat {
    if n == 0 then FIRST_READ_BACKOFF_MS
    else
      var doubled := 2 * ReadCeiling(n - 1);
      if doubled < MAX_READ_BACKOFF_MS then doubled else MAX_READ_BACKOFF_MS
  }

  /** The first five ceilings are 100, 200, 400, 800 and 1000; none is ever higher. */
  lemma {:induction false} ReadCeilings(n: nat)
    ensures FIRST_READ_BACKOFF_MS <= ReadCeiling(n) <= MAX_READ_BACKOFF_MS
    ensures n >= 4 ==> ReadCeiling(n) == MAX_READ_BACKOFF_MS
    ensures n < 4 ==> ReadCeiling(n) == FIRST_READ_BACKOFF_MS * Power2(n)
  {
    if n > 0 { ReadCeilings(n - 1); }
  }

  ghost predicate ReadSlept(attempts: nat -> Attempt, sleeps: seq<nat>) {
    forall n :: 0 <= n < |sleeps| ==>
      attempts(n).answer == Transient && ReadCeiling(n) / 2 <= sleeps[n] <= ReadCeiling(n)
  }

  function ReadDelay(backoff: nat, random: nat): (delay: nat)
    ensures backoff / 2 <= delay <= backoff
  {
    backoff / 2 + random % (backoff / 2 + 1)
  }

  /** When the n-th read after the first would end; the window starts after the first one. */
  function ReadEnd(attempts: nat -> Attempt, random: nat -> nat, n: nat): nat {
    if n == 0 then 0
    else ReadEnd(attempts, random, n - 1) + ReadDelay(ReadCeiling(n - 1), random(n - 1)) + attempts(n).took
  }

  lemma NextReadEnd(attempts: nat -> Attempt, random: nat -> nat, n: nat)
    ensures ReadEnd(attempts, random, 0) == 0
    ensures ReadEnd(attempts, random, n + 1) ==
              ReadEnd(attempts, random, n) + ReadDelay(ReadCeiling(n), random(n)) + attempts(n + 1).took
  {
    hide ReadDelay, ReadCeiling;
  }

  lemma NoReadSleeps(attempts: nat -> Attempt)
    ensures Sum([]) == 0 && ReadSlept(attempts, [])
  {}

  lemma ReadSleepFits(attempts: nat -> Attempt, sleeps: seq<nat>, delay: nat)
    requires ReadSlept(attempts, sleeps) && |sleeps| * 50 <= Sum(sleeps)
    requires attempts(|sleeps|).answer == Transient && ReadCeiling(|sleeps|) / 2 <= delay <= ReadCeiling(|sleeps|)
    ensures ReadSlept(attempts, sleeps + [delay]) && |sleeps + [delay]| * 50 <= Sum(sleeps + [delay]) == Sum(sleeps) + delay
    ensures delay >= 50
  {
    hide ReadCeiling, Sum;
    ReadCeilings(|sleeps|);
    SumSnoc(sleeps, delay);
  }

  /** `random` is a random word; the window starts after the first failure. */
  method GetClaimedJob(attempts: nat -> Attempt, random: nat -> nat) returns (trace: Trace)
    ensures Sum(trace.sleeps) <= trace.elapsed <= READ_WINDOW_MS && |trace.sleeps| * 50 <= READ_WINDOW_MS
    ensures ReadSlept(attempts, trace.sleeps)
    ensures var n := |trace.sleeps|;
            match trace.verdict
            case Ok => attempts(n).answer == Connected && trace.elapsed == ReadEnd(attempts, random, n)
            case Broken => attempts(n).answer == Fatal && trace.elapsed == ReadEnd(attempts, random, n)
            case Exhausted =>
              attempts(n).answer == Transient && trace.elapsed == READ_WINDOW_MS < ReadEnd(attempts, random, n + 1)
            case OutOfRange => false
  {
    hide Sum, ReadSlept, ReadDelay, ReadEnd;
    NoReadSleeps(attempts);
    NextReadEnd(attempts, random, 0);
    var elapsed: nat, backoff: nat, sleeps: seq<nat> := 0, 100, [];
    while true
      invariant backoff == ReadCeiling(|sleeps|) && |sleeps| * 50 <= Sum(sleeps) <= elapsed <= READ_WINDOW_MS
      invariant ReadSlept(attempts, sleeps) && elapsed == ReadEnd(attempts, random, |sleeps|)
      decreases READ_WINDOW_MS - Sum(sleeps)
    {
      match attempts(|sleeps|).answer {
        case Connected => return Trace(Ok, sleeps, elapsed);
        case Fatal => return Trace(Broken, sleeps, elapsed);
        case Transient =>
      }
      var delay := ReadDelay(backoff, random(|sleeps|));
      ReadSleepFits(attempts, sleeps, delay);
      NextReadEnd(attempts, random, |sleeps|);
      if elapsed + delay + attempts(|sleeps| + 1).took > READ_WINDOW_MS { return Trace(Exhausted, sleeps, READ_WINDOW_MS); }
      elapsed := elapsed + delay + attempts(|sleeps| + 1).took;
      sleeps, backoff := sleeps + [delay], if 2 * backoff < 1000 then 2 * backoff else 1000;
    }
  }
}
