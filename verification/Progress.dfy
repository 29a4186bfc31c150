/** Resumable iteration: a cursor in the stored job says how many items are done, and each run
    of the job goes on from there. A run may crash at any point. */
module Progress {
  import opened Options

  /** The store answers, or fails; a failed write may have been carried out. */
  datatype Answer = Stored | LostWritten | LostUnwritten

  datatype Reply = Item(index: nat) | End | Failed

  /** The iterator: where it is, and the item handed out last, until it is marked. */
  datatype Position = Position(next: nat, current: Option<nat>)

  /** A negative stored cursor counts as zero, a missing one too. */
  function CursorOf(stored: Option<int>): nat {
    if stored.Some? && stored.value > 0 then stored.value else 0
  }

  function Opened(stored: Option<int>): Position { Position(CursorOf(stored), None) }

  /** What `next` does to the position and the stored cursor, and what it returns. */
  function Advanced(count: nat, p: Position, stored: Option<int>, answer: Answer): (Position, Option<int>, Reply) {
    var marked := if p.current.Some? && answer != LostUnwritten then Some(p.current.value + 1) else stored;
    if p.current.Some? && answer != Stored then (p.(current := None), marked, Failed)
    else if p.next < count then (Position(p.next + 1, Some(p.next)), marked, Item(p.next))
    else (p.(current := None), marked, End)
  }

  class JobState {
    var cursor: Option<int>

    constructor (cursor: Option<int>)
      ensures this.cursor == cursor
    {
      this.cursor := cursor;
    }

    method UpdateProgress(cursor: int, answer: Answer) returns (ok: bool)
      modifies this
      ensures this.cursor == if answer == LostUnwritten then old(this.cursor) else Some(cursor)
      ensures ok <==> answer == Stored
    {
      if answer != LostUnwritten { this.cursor := Some(cursor); }
      ok := answer == Stored;
    }
  }

  class JobProgressIterator {
    const state: JobState
    const count: nat
    var next: nat
    var currentIndex: Option<nat>

    ghost function Value(): Position
      reads this
    {
      Position(next, currentIndex)
    }

    constructor (state: JobState, count: nat)
      ensures this.state == state && this.count == count && Value() == Opened(state.cursor)
      ensures currentIndex == None && next == if state.cursor.Some? && state.cursor.value > 0 then state.cursor.value else 0
    {
      this.state, this.count, currentIndex := state, count, None;
      next := match state.cursor case Some(c) => (if c > 0 then c else 0) case None => 0;
    }

    /** The item is forgotten before the write, so that a failed mark is not tried again. */
    method MarkCurrentCompleted(answer: Answer) returns (ok: bool)
      modifies this`currentIndex, state
      ensures currentIndex == None
      ensures old(currentIndex).None? ==> ok && state.cursor == old(state.cursor)
      ensures old(currentIndex).Some? ==>
                && (ok <==> answer == Stored)
                && state.cursor == if answer == LostUnwritten then old(state.cursor) else Some(old(currentIndex).value + 1)
    {
      ok := true;
      var taken := currentIndex;
      currentIndex := None;
      if taken.Some? { ok := state.UpdateProgress(taken.value + 1, answer); }
    }

    method Next(answer: Answer) returns (reply: Reply)
      modifies this, state
      ensures (Value(), state.cursor, reply) == Advanced(count, old(Value()), old(state.cursor), answer)
      ensures reply == if old(currentIndex).Some? && answer != Stored then Failed
                       else if old(next) < count then Item(old(next)) else End
      ensures reply.Item? ==> next == old(next) + 1 && currentIndex == Some(old(next))
      ensures !reply.Item? ==> next == old(next) && currentIndex == None
      ensures state.cursor == if old(currentIndex).Some? && answer != LostUnwritten then Some(old(currentIndex).value + 1)
                              else old(state.cursor)
    {
      var ok := MarkCurrentCompleted(answer);
      if !ok { return Failed; }
      if next < count {
        currentIndex, next := Some(next), next + 1;
        return Item(currentIndex.value);
      }
      reply := End;
    }
  }

  // ----- runs and crashes -------------------------------------------------------

  /** `finished` are the items a run went on from, `handed` all items handed out, in order. */
  datatype State = State(stored: Option<int>, run: Option<Position>, finished: set<nat>, handed: seq<nat>)

  datatype Step = Begin | Next(answer: Answer) | Crash

  function Resumed(s: State): State { s.(run := Some(Opened(s.stored))) }

  function After(count: nat, s: State, step: Step): State {
    match step
    case Begin => if s.run.None? then Resumed(s) else s
    case Crash => s.(run := None)
    case Next(answer) =>
      if s.run.None? then s
      else
        var p := s.run.value;
        var (p', stored, reply) := Advanced(count, p, s.stored, answer);
        State(stored, Some(p'), s.finished + (if p.current.Some? then {p.current.value} else {}),
              s.handed + if reply.Item? then [reply.index] else [])
  }

  function Below(n: nat): (r: set<nat>)
    ensures forall i :: i in r <==> 0 <= i < n
  {
    if n == 0 then {} else Below(n - 1) + {n - 1}
  }

  /** Any sequence of runs, calls and crashes, from any stored cursor on. */
  function History(count: nat, stored: Option<int>, steps: seq<Step>): State {
    if steps == [] then State(stored, None, Below(CursorOf(stored)), [])
    else After(count, History(count, stored, steps[..|steps| - 1]), steps[|steps| - 1])
  }

  ghost predicate AllFinished(s: State, n: nat) { forall i :: 0 <= i < n ==> i in s.finished }

  ghost predicate Inv(s: State) {
    && AllFinished(s, CursorOf(s.stored))
    && (s.run.Some? ==>
          var p := s.run.value;
          && CursorOf(s.stored) <= p.next && (p.current.Some? ==> p.current.value + 1 == p.next && CursorOf(s.stored) < p.next)
          && AllFinished(s, if p.current.Some? then p.current.value else p.next))
  }

  lemma StepKeepsInv(count: nat, s: State, step: Step)
    requires Inv(s)
    ensures Inv(After(count, s, step)) && CursorOf(s.stored) <= CursorOf(After(count, s, step).stored)
  {
    var s' := After(count, s, step);
    assert forall i :: i in s.finished ==> i in s'.finished;
  }

  lemma {:induction false} HistoryKeepsInv(count: nat, stored: Option<int>, steps: seq<Step>)
    ensures Inv(History(count, stored, steps))
  {
    if steps != [] {
      HistoryKeepsInv(count, stored, steps[..|steps| - 1]);
      StepKeepsInv(count, History(count, stored, steps[..|steps| - 1]), steps[|steps| - 1]);
    }
  }

  /** Over any runs and crashes the stored cursor never goes back, */
  lemma {:induction false} CursorNeverDecreases(count: nat, stored: Option<int>, steps: seq<Step>, i: nat)
    requires i <= |steps|
    ensures CursorOf(History(count, stored, steps[..i]).stored) <= CursorOf(History(count, stored, steps).stored)
    decreases |steps| - i
  {
    if i < |steps| {
      HistoryKeepsInv(count, stored, steps[..i]);
      assert steps[..i + 1][..i] == steps[..i];
      StepKeepsInv(count, History(count, stored, steps[..i]), steps[i]);
      CursorNeverDecreases(count, stored, steps, i + 1);
    } else {
      assert steps[..i] == steps;
    }
  }

  /** and never passes an item that is not finished. An item is handed out only when all items
      before it are finished, so none is ever skipped; a run that ends has finished them all. */
  lemma NothingSkipped(count: nat, stored: Option<int>, steps: seq<Step>, answer: Answer)
    ensures var s := History(count, stored, steps);
            && AllFinished(s, CursorOf(s.stored))
            && (s.run.Some? ==>
                  var s', reply := After(count, s, Next(answer)), Advanced(count, s.run.value, s.stored, answer).2;
                  && (reply.Item? ==> AllFinished(s', reply.index))
                  && (reply.End? ==> AllFinished(s', count)))
  {
    HistoryKeepsInv(count, stored, steps);
    var s := History(count, stored, steps);
    StepKeepsInv(count, s, Next(answer));
  }

  /** The first item a run hands out is the one at the stored cursor. */
  lemma ResumesAtCursor(count: nat, stored: Option<int>, steps: seq<Step>, answer: Answer)
    requires History(count, stored, steps).run.None?
    ensures var s := History(count, stored, steps);
            var s' := History(count, stored, steps + [Begin] + [Next(answer)]);
            s'.handed == if CursorOf(s.stored) < count then s.handed + [CursorOf(s.stored)] else s.handed
  {
    assert (steps + [Begin])[..|steps|] == steps;
    assert (steps + [Begin] + [Next(answer)])[..|steps| + 1] == steps + [Begin];
  }

  predicate AllMarked(steps: seq<Step>) { forall step <- steps :: step.Next? ==> step.answer == Stored }

  /** When every mark is stored, the cursor is all that is finished: */
  lemma {:induction false} MarkedIsFinished(count: nat, stored: Option<int>, steps: seq<Step>)
    requires AllMarked(steps)
    ensures var s := History(count, stored, steps);
            && (forall i :: i in s.finished <==> 0 <= i < CursorOf(s.stored))
            && (s.run.Some? ==> s.run.value.next == CursorOf(s.stored) + if s.run.value.current.Some? then 1 else 0)
  {
    if steps != [] {
      var n := |steps| - 1;
      MarkedIsFinished(count, stored, steps[..n]);
      HistoryKeepsInv(count, stored, steps[..n]);
      assert steps[n] in steps;
    }
  }

  /** an item that is handed out was never finished before, so that only the item in flight at a
      crash is ever handed out again. */
  lemma OnlyInFlightRepeats(count: nat, stored: Option<int>, steps: seq<Step>)
    requires AllMarked(steps) && History(count, stored, steps).run.Some?
    ensures var s := History(count, stored, steps);
            var reply := Advanced(count, s.run.value, s.stored, Stored).2;
            reply.Item? ==> reply.index !in After(count, s, Next(Stored)).finished
  {
    MarkedIsFinished(count, stored, steps);
    HistoryKeepsInv(count, stored, steps);
  }

  /** That takes a stored mark: when one is lost, a finished item is handed out again. */
  lemma LostMarkRepeats(count: nat)
    requires count > 0
    ensures var steps := [Begin, Next(Stored), Next(LostUnwritten), Crash, Begin, Next(Stored)];
            && 0 in History(count, None, steps[..4]).finished
            && History(count, None, steps).handed == [0, 0]
  {
    var steps := [Begin, Next(Stored), Next(LostUnwritten), Crash, Begin, Next(Stored)];
    assert steps[..1] == [Begin] && steps[..1][..0] == [];
    assert steps[..2][..1] == steps[..1] && steps[..3][..2] == steps[..2] && steps[..4][..3] == steps[..3];
    assert steps[..5][..4] == steps[..4] && steps[..6][..5] == steps[..5] && steps[..6] == steps;
    assert History(count, None, steps[..1]) == State(None, Some(Position(0, None)), {}, []);
    assert History(count, None, steps[..2]) == State(None, Some(Position(1, Some(0))), {}, [0]);
    assert History(count, None, steps[..3]) == State(None, Some(Position(1, None)), {0}, [0]);
    assert History(count, None, steps[..5]) == State(None, Some(Position(0, None)), {0}, [0]);
  }
}
