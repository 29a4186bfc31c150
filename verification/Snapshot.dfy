/** The snapshot a replacing enqueue takes of a stored payload: the queue it names, and
    enough of its bytes to notice that it has changed. */
module Snapshot {
  import opened Json
  import opened Options

  datatype Comparison = Exact | Suffix | Prefix

  datatype Snapshot = Snapshot(expected: string, queue: string, comparison: Comparison)

  datatype ParseError = Malformed | MissingQueue | DuplicateQueue | QueueNotAString

  datatype Result<+T> = Ok(value: T) | Err(error: ParseError)

  const QUEUE := "queue"
  const QUEUE_KEY := ",\"queue\":"

  function QueueMembers(members: seq<Member>): (r: seq<Member>)
    ensures forall m <- r :: m in members && Decode(m.key) == Some(QUEUE)
  {
    if members == [] then []
    else
      var rest := QueueMembers(members[..|members| - 1]);
      var last := members[|members| - 1];
      if Decode(last.key) == Some(QUEUE) then rest + [last] else rest
  }

  /** The string a raw JSON value stands for, when it is a string. */
  function StringOf(raw: string): Option<string> {
    if |raw| >= 2 && raw[0] == '"' then Decode(raw[1..|raw| - 1]) else None
  }

  /** The field `queue` of a stored payload: its span and the queue it names. */
  function RootQueue(payload: string): (r: Result<(Member, string)>)
    ensures r.Ok? ==>
              var m := r.value.0;
              && m in Final(payload).members && m.start < m.end <= |payload|
              && StringOf(payload[m.start..m.end]) == Some(r.value.1)
              && QueueMembers(Final(payload).members) == [m]
  {
    MembersRecorded(payload, |payload|);
    var members := Final(payload).members;
    var hits := QueueMembers(members);
    if !Valid(payload) || exists m <- members :: Decode(m.key) == None then Err(Malformed)
    else if hits == [] then Err(MissingQueue)
    else if |hits| > 1 then Err(DuplicateQueue)
    else
      var m := hits[0];
      match StringOf(payload[m.start..m.end])
      case Some(queue) => Ok((m, queue))
      case None => Err(QueueNotAString)
  }

  function Parse(payload: string): Result<Snapshot> {
    match RootQueue(payload)
    case Err(error) => Err(error)
    case Ok((m, queue)) =>
      if m.start >= |QUEUE_KEY| && payload[m.start - |QUEUE_KEY|..m.start] == QUEUE_KEY then
        var start := m.start - |QUEUE_KEY|;
        if m.end <= |payload| - start then Ok(Snapshot(payload[..m.end], queue, Prefix))
        else Ok(Snapshot(payload[start..], queue, Suffix))
      else Ok(Snapshot(payload, queue, Exact))
  }

  /** The script's comparison of a stored payload with a snapshot. */
  predicate Matches(payload: string, snapshot: Snapshot) {
    var e := snapshot.expected;
    match snapshot.comparison
    case Exact => payload == e
    case Suffix => |payload| >= |e| && payload[|payload| - |e|..] == e
    case Prefix => |payload| >= |e| && payload[..|e|] == e
  }

  // ----- what a state remembers -------------------------------------------------

  /** The value of a root member is being read. */
  predicate InMember(s: State) {
    && s.stack != [] && s.stack[0] == Object
    && (|s.stack| > 1 || s.mode.InNumber? || s.mode.InLiteral? || s.mode == InString(false)
        || s.mode == InEscape(false) || (s.mode.InHex? && !s.mode.key))
  }

  /** At byte `start` the grammar expects the value of the root member `key`. */
  predicate OpensAt(b: string, start: nat, key: string) {
    start < |b| && var s := StateAt(b, start);
                   s.mode == Value && s.stack == [Object] && s.start == start && s.key == key
  }

  predicate Sane(s: State) {
    && (s.mode == ValueOrClose ==> Top(s.stack) == Some(Array))
    && (s.mode.InLiteral? ==> forall k :: 0 <= k < |s.mode.rest| ==> 'a' <= s.mode.rest[k] <= 'z')
  }

  /** The value of a recorded member goes from where a value is expected to the byte that closes
      it, or, if it is a number, up to the first byte that is no longer part of it. */
  predicate Recorded(b: string, m: Member, i: nat)
    requires i <= |b|
  {
    && m.start < m.end <= i && OpensAt(b, m.start, m.key) && !Space(b[m.start])
    && (ClosesAt(b, m) || (b[m.start] != '"' && m.end < i && NumberEndsAt(b, m)))
  }

  predicate ClosesAt(b: string, m: Member)
    requires 0 < m.end <= |b|
  {
    var last, after := StateAt(b, m.end - 1), StateAt(b, m.end);
    ClosesMember(last, after.mode, after.stack) && last.start == m.start && last.key == m.key
  }

  predicate NumberEndsAt(b: string, m: Member)
    requires m.end < |b|
  {
    var last, after := StateAt(b, m.end), StateAt(b, m.end + 1);
    EndsNumber(last, after.mode) && last.start == m.start && last.key == m.key
  }

  predicate Remembers(b: string, i: nat)
    requires i <= |b|
  {
    var s := StateAt(b, i);
    && (InMember(s) ==> s.start < i && OpensAt(b, s.start, s.key) && !Space(b[s.start])
                        && (s.mode.InNumber? && |s.stack| == 1 ==> b[s.start] != '"'))
    && (s.mode == Value && s.stack == [Object] ==> s.start == i)
    && Sane(s)
  }

  lemma StaysInMember(s: State, pos: nat, c: char)
    requires InMember(Step(s, pos, c)) && Sane(s)
    ensures var t := Step(s, pos, c);
            && t.start == s.start && t.key == s.key
            && if InMember(s) then t.mode.InNumber? && |t.stack| == 1 ==> s.mode.InNumber? && |s.stack| == 1
               else s.mode == Value && s.stack == [Object] && !Space(c)
                    && (t.mode.InNumber? && |t.stack| == 1 ==> c != '"')
  {}

  lemma ExpectsValue(s: State, pos: nat, c: char)
    requires Sane(s)
    ensures var t := Step(s, pos, c);
            (t.mode == Value && t.stack == [Object] ==> t.start == pos + 1) && Sane(t)
  {}

  lemma RecordsMember(s: State, pos: nat, c: char)
    ensures var t := Step(s, pos, c);
            && (ClosesMember(s, t.mode, t.stack) ==>
                  InMember(s) && t.members == s.members + [Member(s.key, s.start, pos + 1)])
            && (EndsNumber(s, t.mode) ==>
                  InMember(s) && s.mode.InNumber? && |s.stack| == 1 && !ClosesMember(s, t.mode, t.stack)
                  && t.members == s.members + [Member(s.key, s.start, pos)])
            && (!ClosesMember(s, t.mode, t.stack) && !EndsNumber(s, t.mode) ==> t.members == s.members)
  {}

  lemma {:induction false} History(b: string, i: nat)
    requires i <= |b|
    ensures Remembers(b, i)
  {
    hide Step;
    if i > 0 {
      History(b, i - 1);
      var s, t, c := StateAt(b, i - 1), StateAt(b, i), b[i - 1];
      ExpectsValue(s, i - 1, c);
      if InMember(t) { StaysInMember(s, i - 1, c); }
    }
  }

  lemma {:induction false} MembersRecorded(b: string, i: nat)
    requires i <= |b|
    ensures forall m <- StateAt(b, i).members :: Recorded(b, m, i)
  {
    hide Step;
    if i > 0 {
      MembersRecorded(b, i - 1);
      var s, t, c := StateAt(b, i - 1), StateAt(b, i), b[i - 1];
      History(b, i - 1);
      RecordsMember(s, i - 1, c);
    }
  }

  // ----- agreement on a prefix --------------------------------------------------

  lemma {:induction false} SamePrefix(a: string, b: string, i: nat)
    requires i <= |a| && i <= |b| && a[..i] == b[..i]
    ensures StateAt(a, i) == StateAt(b, i)
  {
    if i > 0 {
      assert a[..i - 1] == a[..i][..i - 1] == b[..i - 1];
      assert a[i - 1] == a[..i][i - 1] == b[i - 1];
      SamePrefix(a, b, i - 1);
    }
  }

  lemma {:induction false} MembersGrow(b: string, m: Member, i: nat, j: nat)
    requires i <= j <= |b| && m in StateAt(b, i).members
    ensures m in StateAt(b, j).members
  {
    hide Step;
    if i < j {
      MembersGrow(b, m, i, j - 1);
      RecordsMember(StateAt(b, j - 1), j - 1, b[j - 1]);
    }
  }

  lemma BadStep(s: State, pos: nat, c: char)
    requires s.mode == Bad
    ensures Step(s, pos, c).mode == Bad
  {}

  lemma {:induction false} BadStays(b: string, i: nat, j: nat)
    requires i <= j <= |b| && StateAt(b, j).mode != Bad
    ensures StateAt(b, i).mode != Bad
  {
    hide Step;
    if i < j && StateAt(b, j - 1).mode == Bad { BadStep(StateAt(b, j - 1), j - 1, b[j - 1]); }
    if i < j { BadStays(b, i, j - 1); }
  }

  lemma ClosedIsRecorded(b: string, m: Member)
    requires 0 < m.end <= |b| && ClosesAt(b, m)
    ensures m in StateAt(b, m.end).members
  {
    hide Step, ClosesMember;
    RecordsMember(StateAt(b, m.end - 1), m.end - 1, b[m.end - 1]);
  }

  /** The member that names the queue is recorded with the last byte of its value. */
  lemma RecordedAtEnd(b: string, m: Member)
    requires m in Final(b).members && m.start < |b| && b[m.start] == '"'
    ensures m.end <= |b| && m in StateAt(b, m.end).members
  {
    hide StateAt, ClosesAt, NumberEndsAt, OpensAt;
    MembersRecorded(b, |b|);
    ClosedIsRecorded(b, m);
  }

  // ----- agreement on a suffix --------------------------------------------------

  lemma Comma(s: State, pos: nat)
    requires Sane(s) && Step(s, pos, ',').mode != Bad
    ensures var t := Step(s, pos, ',');
            t.mode.InString? || (t.mode == Key && Top(t.stack) == Some(Object)) || (t.mode == Value && Top(t.stack) == Some(Array))
    ensures Step(s, pos, ',').stack == s.stack
  {}

  lemma QuoteLetter(s: State, pos: nat)
    requires s.mode.InString? || (s.mode == Key && Top(s.stack) == Some(Object)) || (s.mode == Value && Top(s.stack) == Some(Array))
    requires Step(Step(s, pos, '"'), pos + 1, 'q').mode != Bad
    ensures var t := Step(Step(s, pos, '"'), pos + 1, 'q');
            && t.mode.InString? && t.stack == s.stack && t.stack != []
            && (t.mode.key <==> Top(t.stack) == Some(Object))
            && (t.stack == [Object] ==> t.key == "q")
  {}

  lemma CommaQuoteLetter(s: State, pos: nat)
    requires Sane(s)
    requires Step(Step(Step(s, pos, ','), pos + 1, '"'), pos + 2, 'q').mode != Bad
    ensures var t := Step(Step(Step(s, pos, ','), pos + 1, '"'), pos + 2, 'q');
            && t.mode.InString? && t.stack == s.stack && t.stack != []
            && (t.mode.key <==> Top(t.stack) == Some(Object))
            && (t.stack == [Object] ==> t.key == "q")
  {
    hide Step;
    if Step(s, pos, ',').mode == Bad {
      BadStep(Step(s, pos, ','), pos + 1, '"');
      BadStep(Step(Step(s, pos, ','), pos + 1, '"'), pos + 2, 'q');
    }
    Comma(s, pos);
    QuoteLetter(Step(s, pos, ','), pos + 1);
  }

  lemma Letters(s: State, pos: nat)
    requires s.mode.InString? && s.stack != [] && (s.stack == [Object] ==> s.mode.key && s.key == "q")
    ensures var t := Step(Step(Step(Step(s, pos, 'u'), pos + 1, 'e'), pos + 2, 'u'), pos + 3, 'e');
            t.mode == s.mode && t.stack == s.stack && (t.stack == [Object] ==> t.key == QUEUE)
  {
    var k := Step(Step(s, pos, 'u'), pos + 1, 'e');
    assert k.mode == s.mode && k.stack == s.stack && (s.stack == [Object] ==> k.key == "que");
  }

  lemma QuoteColon(s: State, pos: nat)
    requires s.mode.InString? && Step(Step(s, pos, '"'), pos + 1, ':').mode != Bad
    ensures var t := Step(Step(s, pos, '"'), pos + 1, ':');
            t.mode == Value && t.stack == s.stack && s.mode.key && t.key == s.key
            && (t.stack == [Object] ==> t.start == pos + 2)
  {}

  lemma Unroll(b: string, i: nat)
    requires i < |b|
    ensures StateAt(b, i + 1) == Step(StateAt(b, i), i, b[i])
  {
    hide Step;
  }

  /** Whatever comes before it, `,"queue":` in a JSON text is a member of an object. */
  lemma QueueKeyOpens(b: string, i: nat)
    requires i + |QUEUE_KEY| <= |b| && b[i..i + |QUEUE_KEY|] == QUEUE_KEY
    requires StateAt(b, i + |QUEUE_KEY|).mode != Bad
    ensures var t := StateAt(b, i + |QUEUE_KEY|);
            && t.mode == Value && Top(t.stack) == Some(Object)
            && (t.stack == [Object] ==> t.key == QUEUE && t.start == i + |QUEUE_KEY|)
  {
    hide Step;
    var k := b[i..i + 9];
    assert b[i] == k[0] && b[i + 1] == k[1] && b[i + 2] == k[2] && b[i + 3] == k[3] && b[i + 4] == k[4];
    assert b[i + 5] == k[5] && b[i + 6] == k[6] && b[i + 7] == k[7] && b[i + 8] == k[8];
    History(b, i);
    BadStays(b, i + 3, i + 9);
    Unroll(b, i); Unroll(b, i + 1); Unroll(b, i + 2);
    CommaQuoteLetter(StateAt(b, i), i);
    Unroll(b, i + 3); Unroll(b, i + 4); Unroll(b, i + 5);
    Letters(StateAt(b, i + 3), i + 3);
    Unroll(b, i + 6); Unroll(b, i + 7); Unroll(b, i + 8);
    QuoteColon(StateAt(b, i + 7), i + 7);
  }

  /** The same bytes are being read, in `t` inside the containers `outer`. */
  predicate Framed(s: State, t: State, outer: seq<Container>) {
    && t.mode == s.mode && t.stack == outer + s.stack
    && (s.stack == [] ==> s.mode == Ended)
  }

  lemma FramedStack(stack: seq<Container>, outer: seq<Container>)
    ensures forall x: Container :: outer + stack + [x] == outer + (stack + [x])
    ensures stack != [] ==>
              && Top(outer + stack) == Top(stack) && outer + stack != []
              && (outer + stack)[..|outer + stack| - 1] == outer + stack[..|stack| - 1]
  {}

  lemma FramedValue(stack: seq<Container>, outer: seq<Container>, c: char)
    requires stack != []
    ensures var (mode, after) := StartValue(stack, c); StartValue(outer + stack, c) == (mode, outer + after) && after != []
    ensures var (mode, after) := AfterValue(stack, c);
            AfterValue(outer + stack, c) == (mode, outer + after) && (after == [] ==> mode == Ended)
  {
    hide Top;
    FramedStack(stack, outer);
  }

  lemma FramedGrammar(mode: Mode, stack: seq<Container>, outer: seq<Container>, c: char)
    requires Grammar(mode, stack, c).0 != Bad && (stack == [] ==> mode == Ended)
    ensures var (next, after) := Grammar(mode, stack, c);
            Grammar(mode, outer + stack, c) == (next, outer + after) && (after == [] ==> next == Ended)
  {
    hide Top, StartValue, StepNumber, Escaped, HexDigit, AfterValue;
    if stack == [] {
      assert AfterValue([], c) == (Ended, []) && AfterValue(outer, c) == (Ended, outer) && outer + stack == outer by { AtEnd(outer, c); }
    } else {
      FramedStack(stack, outer);
      FramedValue(stack, outer, c);
    }
  }

  lemma AtEnd(outer: seq<Container>, c: char)
    ensures AfterValue([], c).0 != Bad ==> AfterValue([], c) == (Ended, []) && AfterValue(outer, c) == (Ended, outer)
  {}

  lemma FramedStep(s: State, t: State, outer: seq<Container>, i: nat, j: nat, c: char)
    requires Framed(s, t, outer) && Step(s, i, c).mode != Bad
    ensures Framed(Step(s, i, c), Step(t, j, c), outer)
  {
    hide Grammar;
    FramedGrammar(s.mode, s.stack, outer, c);
  }

  /** `n` bytes of `a` from `i` on are those of `b` from `j` on. */
  predicate SameBytes(a: string, i: nat, b: string, j: nat, n: nat) {
    i + n <= |a| && j + n <= |b| && forall x :: i <= x < i + n ==> a[x] == b[x + (j - i)]
  }

  lemma {:induction false} FramedAlong(a: string, i: nat, b: string, j: nat, n: nat, outer: seq<Container>)
    requires SameBytes(a, i, b, j, n)
    requires Framed(StateAt(a, i), StateAt(b, j), outer) && StateAt(a, i + n).mode != Bad
    ensures Framed(StateAt(a, i + n), StateAt(b, j + n), outer)
  {
    hide Step;
    if n > 0 {
      assert a[i + n - 1] == b[j + n - 1];
      BadStays(a, i + n - 1, i + n);
      FramedAlong(a, i, b, j, n - 1, outer);
      FramedStep(StateAt(a, i + n - 1), StateAt(b, j + n - 1), outer, i + n - 1, j + n - 1, a[i + n - 1]);
    }
  }

  /** The same root member is being read, `shift` bytes further on in `t`. */
  predicate Aligned(s: State, t: State, shift: int) {
    t.mode == s.mode && t.stack == s.stack && t.key == s.key && t.start == s.start + shift
  }

  lemma AlignedStep(s: State, t: State, i: nat, j: nat, c: char)
    requires Aligned(s, t, j - i)
    ensures Aligned(Step(s, i, c), Step(t, j, c), j - i)
  {}

  lemma {:induction false} AlignedAlong(a: string, i: nat, b: string, j: nat, n: nat)
    requires SameBytes(a, i, b, j, n)
    requires Aligned(StateAt(a, i), StateAt(b, j), j - i)
    ensures Aligned(StateAt(a, i + n), StateAt(b, j + n), j - i)
  {
    hide Step;
    if n > 0 {
      assert a[i + n - 1] == b[j + n - 1];
      AlignedAlong(a, i, b, j, n - 1);
      AlignedStep(StateAt(a, i + n - 1), StateAt(b, j + n - 1), i + n - 1, j + n - 1, a[i + n - 1]);
    }
  }

  /** The common tail closes one container more than it opens; the other text is valid, so its
      tail is read inside one container as well, and that is the root object. */
  lemma SuffixAtRoot(a: string, i: nat, b: string, j: nat)
    requires Valid(a) && Valid(b) && |QUEUE_KEY| <= i <= |a| && |QUEUE_KEY| <= j <= |b|
    requires SameBytes(a, i, b, j, |a| - i) && |a| - i == |b| - j
    requires a[i - |QUEUE_KEY|..i] == QUEUE_KEY == b[j - |QUEUE_KEY|..j]
    requires StateAt(a, i).stack == [Object]
    ensures Aligned(StateAt(a, i), StateAt(b, j), j - i) && StateAt(b, j).key == QUEUE && StateAt(b, j).start == j
  {
    hide Step, StateAt;
    var n := |a| - i;
    BadStays(a, i, |a|);
    BadStays(b, j, |b|);
    QueueKeyOpens(a, i - 9);
    QueueKeyOpens(b, j - 9);
    var stack := StateAt(b, j).stack;
    var outer := stack[..|stack| - 1];
    assert stack == outer + [Object];
    FramedAlong(a, i, b, j, n, outer);
  }

  lemma ClosesAgain(s: State, t: State, i: nat, j: nat, c: char)
    requires Aligned(s, t, j - i) && ClosesMember(s, Step(s, i, c).mode, Step(s, i, c).stack)
    ensures Member(t.key, t.start, j + 1) in Step(t, j, c).members
  {
    hide Step;
    AlignedStep(s, t, i, j, c);
    RecordsMember(t, j, c);
  }

  lemma AlignedIs(s: State, t: State, shift: int)
    requires Aligned(s, t, shift)
    ensures t.key == s.key && t.start == s.start + shift
  {}

  lemma FinalIs(a: string)
    ensures Final(a) == StateAt(a, |a|)
  {}

  /** A member of `a` whose value is a string, read again in `b` from the same start. */
  lemma MemberAgain(a: string, m: Member, b: string, j: nat, n: nat)
    requires m in Final(a).members && m.start < m.end <= |a| && a[m.start] == '"'
    requires n == m.end - m.start && SameBytes(a, m.start, b, j, n)
    requires Aligned(StateAt(a, m.start), StateAt(b, j), j - m.start)
    ensures Member(m.key, j, j + n) in Final(b).members
  {
    hide Step, StateAt, ClosesMember, Final, NumberEndsAt, OpensAt, Aligned;
    FinalIs(a);
    FinalIs(b);
    MembersRecorded(a, |a|);
    var i := m.start + n - 1;
    assert a[i] == b[j + n - 1];
    AlignedAlong(a, m.start, b, j, n - 1);
    AlignedIs(StateAt(a, i), StateAt(b, j + n - 1), j - m.start);
    Unroll(a, i);
    Unroll(b, j + n - 1);
    ClosesAgain(StateAt(a, i), StateAt(b, j + n - 1), i, j + n - 1, a[i]);
    MembersGrow(b, Member(m.key, j, j + n), j + n, |b|);
  }

  lemma TailBytes(a: string, i: nat, b: string, j: nat, k: nat, l: nat)
    requires i <= k <= l <= |a| && j <= |b| && a[i..] == b[j..]
    ensures |a| - i == |b| - j && SameBytes(a, k, b, j + k - i, l - k) && a[k..l] == b[j + k - i..j + l - i]
  {
    assert |a| - i == |a[i..]| == |b[j..]| == |b| - j;
    forall x | i <= x < |a| ensures a[x] == b[x + (j - i)] {
      assert a[x] == a[i..][x - i] == b[j..][x - i];
    }
  }

  lemma {:induction false} InQueueMembers(members: seq<Member>, m: Member)
    requires m in members && Decode(m.key) == Some(QUEUE)
    ensures m in QueueMembers(members)
  {
    if m != members[|members| - 1] { InQueueMembers(members[..|members| - 1], m); }
  }

  // ----- what the queue field is -------------------------------------------------

  predicate KeyIsQueue(members: seq<Member>, i: nat) { i < |members| && Decode(members[i].key) == Some(QUEUE) }

  predicate OnlyQueue(members: seq<Member>, i: nat) {
    KeyIsQueue(members, i) && forall j: nat :: j < |members| && KeyIsQueue(members, j) ==> j == i
  }

  /** The root keys of a JSON text are strings. */
  predicate KeysDecode(payload: string) { Valid(payload) && forall m <- Final(payload).members :: Decode(m.key).Some? }

  function RawOf(payload: string, m: Member): string {
    if m.start <= m.end <= |payload| then payload[m.start..m.end] else ""
  }

  lemma {:induction false} QueueMembersExactly(members: seq<Member>)
    ensures |QueueMembers(members)| == 0 ==> forall i: nat :: !KeyIsQueue(members, i)
    ensures |QueueMembers(members)| == 1 ==> exists i: nat :: OnlyQueue(members, i) && QueueMembers(members)[0] == members[i]
    ensures |QueueMembers(members)| > 1 ==> exists i: nat, j: nat :: i < j && KeyIsQueue(members, i) && KeyIsQueue(members, j)
  {
    hide Decode;
    if members != [] {
      var n := |members| - 1;
      var init := members[..n];
      QueueMembersExactly(init);
      assert forall i: nat :: i < n ==> (KeyIsQueue(members, i) <==> KeyIsQueue(init, i));
      var before := |QueueMembers(init)|;
      if before == 0 {
        assert KeyIsQueue(members, n) ==> OnlyQueue(members, n);
      } else if before == 1 {
        var i: nat :| OnlyQueue(init, i) && QueueMembers(init)[0] == init[i];
        assert KeyIsQueue(members, i);
        if !KeyIsQueue(members, n) { assert OnlyQueue(members, i); }
      } else {
        var i: nat, j: nat :| i < j && KeyIsQueue(init, i) && KeyIsQueue(init, j);
        assert KeyIsQueue(members, i) && KeyIsQueue(members, j);
      }
    }
  }

  /** Exactly when the queue is found, and exactly when each of the four errors is returned: the
      text or a key of its root does not parse, no root key is `queue`, more than one is, or the
      only one has a value that is no string. */
  lemma RootQueueExactly(payload: string)
    ensures var members, parses := Final(payload).members, KeysDecode(payload);
            && (RootQueue(payload) == Err(Malformed) <==> !parses)
            && (RootQueue(payload) == Err(MissingQueue) <==> parses && forall i: nat :: !KeyIsQueue(members, i))
            && (RootQueue(payload) == Err(DuplicateQueue) <==>
                  parses && exists i: nat, j: nat :: i < j && KeyIsQueue(members, i) && KeyIsQueue(members, j))
            && (RootQueue(payload) == Err(QueueNotAString) <==>
                  parses && exists i: nat :: OnlyQueue(members, i) && StringOf(RawOf(payload, members[i])) == None)
            && forall m, queue :: RootQueue(payload) == Ok((m, queue)) <==>
                 parses && exists i: nat ::
                   OnlyQueue(members, i) && members[i] == m && StringOf(RawOf(payload, m)) == Some(queue)
  {
    hide Decode, StateAt, Valid, StringOf;
    QueueMembersExactly(Final(payload).members);
    MembersRecorded(payload, |payload|);
    hide QueueMembers, Recorded;
    SpansInside(payload);
  }

  lemma SpansInside(payload: string)
    ensures forall m <- Final(payload).members :: m.start <= m.end <= |payload|
  {
    MembersRecorded(payload, |payload|);
  }

  /** The stored payload has a root field `queue` with the value `queue`. */
  predicate NamesQueue(payload: string, queue: string) {
    exists m <- Final(payload).members ::
      && Decode(m.key) == Some(QUEUE) && m.start < m.end <= |payload|
      && StringOf(payload[m.start..m.end]) == Some(queue)
  }

  /** A payload that has not changed matches its own snapshot, and a partial snapshot
      keeps the smaller side of the payload. */
  lemma UnchangedMatches(payload: string)
    requires Parse(payload).Ok?
    ensures var snapshot := Parse(payload).value;
            && Matches(payload, snapshot)
            && snapshot.queue == RootQueue(payload).value.1
            && (snapshot.comparison != Exact ==>
                  var m := RootQueue(payload).value.0;
                  2 * |snapshot.expected| <= |payload| + |QUEUE_KEY| + (m.end - m.start))
  {
    hide StateAt;
    var m := RootQueue(payload).value.0;
    var start := m.start - |QUEUE_KEY|;
    if 0 <= start { assert |payload[start..]| == |payload| - start; }
  }

  /** A payload gets a snapshot exactly if its queue is found, with the same error otherwise; the
      whole payload is kept exactly if the field does not follow a comma directly. */
  lemma ParseExactly(payload: string)
    ensures Parse(payload).Ok? <==> RootQueue(payload).Ok?
    ensures Parse(payload).Err? ==> RootQueue(payload) == Err(Parse(payload).error)
    ensures Parse(payload).Ok? ==>
              var m := RootQueue(payload).value.0;
              Parse(payload).value.comparison == Exact <==>
                !(m.start >= |QUEUE_KEY| && payload[m.start - |QUEUE_KEY|..m.start] == QUEUE_KEY)
  {
    hide StateAt, RootQueue;
  }

  lemma PrefixKeepsMember(payload: string, m: Member, stored: string)
    requires m in Final(payload).members && m.start < m.end <= |payload| && payload[m.start] == '"'
    requires m.end <= |stored| && stored[..m.end] == payload[..m.end]
    ensures m in Final(stored).members && stored[m.start..m.end] == payload[m.start..m.end]
  {
    hide Step, StateAt;
    SamePrefix(payload, stored, m.end);
    RecordedAtEnd(payload, m);
    MembersGrow(stored, m, m.end, |stored|);
    assert stored[m.start..m.end] == stored[..m.end][m.start..] == payload[..m.end][m.start..];
  }

  lemma SuffixKeepsMember(payload: string, m: Member, stored: string)
    requires m in Final(payload).members && m.start < m.end <= |payload| && payload[m.start] == '"'
    requires Valid(payload) && Valid(stored) && |QUEUE_KEY| <= m.start
    requires payload[m.start - |QUEUE_KEY|..m.start] == QUEUE_KEY
    requires |payload| - m.start + |QUEUE_KEY| <= |stored|
    requires stored[|stored| - (|payload| - m.start + |QUEUE_KEY|)..] == payload[m.start - |QUEUE_KEY|..]
    ensures var j := m.start + |stored| - |payload|;
            var n := m.end - m.start;
            && 0 <= j && j + n <= |stored| && Member(m.key, j, j + n) in Final(stored).members
            && stored[j..j + n] == payload[m.start..m.end]
  {
    hide Step, StateAt, Valid;
    var i, j := m.start - |QUEUE_KEY|, m.start + |stored| - |payload|;
    TailBytes(payload, i, stored, j - 9, i, m.start);
    TailBytes(payload, i, stored, j - 9, m.start, |payload|);
    TailBytes(payload, i, stored, j - 9, m.start, m.end);
    MembersRecorded(payload, |payload|);
    SuffixAtRoot(payload, m.start, stored, j);
    MemberAgain(payload, m, stored, j, m.end - m.start);
  }

  /** The comparison of a few bytes is enough: a stored JSON text that matches a snapshot
      names the queue in the snapshot, and, as it has one such field, no other. */
  lemma SnapshotSound(payload: string, snapshot: Snapshot, stored: string)
    requires Parse(payload) == Ok(snapshot)
    requires Valid(stored) && Matches(stored, snapshot)
    ensures NamesQueue(stored, snapshot.queue)
    ensures RootQueue(stored).Ok? ==> RootQueue(stored).value.1 == snapshot.queue
  {
    hide Step, StateAt, Decode, QueueMembers;
    var m := RootQueue(payload).value.0;
    var m' := m;
    match snapshot.comparison {
      case Exact =>
      case Prefix => PrefixKeepsMember(payload, m, stored);
      case Suffix =>
        SuffixKeepsMember(payload, m, stored);
        m' := Member(m.key, m.start + |stored| - |payload|, m.end + |stored| - |payload|);
    }
    InQueueMembers(Final(stored).members, m');
  }
}
