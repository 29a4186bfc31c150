/** One sweep of a process: which peers are dead, and what becomes of their claims. */
module Recovery {
  import opened Options
  import opened Protocol
  import opened FieldCodec
  import ProtocolSafety

  function ProcessingKey(prefix: string, process: string): string { prefix + ":" + process }

  /** `rsplit(':').next()`: all of a key without a colon. */
  function LastSegment(key: string): string {
    match RsplitOnce(key, ':') case Some((_, last)) => last case None => key
  }

  /** The process of a processing list is read back from its key exactly when its id has no colon. */
  lemma SegmentIsProcess(prefix: string, process: string)
    ensures LastSegment(ProcessingKey(prefix, process)) == process <==> ':' !in process
  {
    if ':' !in process {
      RsplitOnceIs(prefix, ':', process);
      assert prefix + [':'] + process == ProcessingKey(prefix, process);
    } else {
      assert ProcessingKey(prefix, process)[|prefix|] == ':';
    }
  }

  predicate Distinct<T(==)>(xs: seq<T>) { forall i, j :: 0 <= i < j < |xs| ==> xs[i] != xs[j] }

  /** The members of a sorted set are returned once each. */
  predicate OneScoreEach(members: seq<(string, int)>) {
    forall i, j :: 0 <= i < j < |members| ==> members[i].0 != members[j].0
  }

  function Scores(members: seq<(string, int)>): map<string, int> {
    if members == [] then map[]
    else Scores(members[..|members| - 1])[members[|members| - 1].0 := members[|members| - 1].1]
  }

  lemma {:induction false} ScoresKeys(members: seq<(string, int)>, p: string)
    requires p in Scores(members)
    ensures exists i :: 0 <= i < |members| && members[i].0 == p
  {
    var n := |members| - 1;
    if p != members[n].0 {
      ScoresKeys(members[..n], p);
      var i :| 0 <= i < n && members[..n][i].0 == p;
      assert members[i].0 == p;
    } else {
      assert members[n].0 == p;
    }
  }

  lemma NoScores(members: seq<(string, int)>)
    ensures Scores(members[..0]) == map[]
  {}

  lemma NextScore(members: seq<(string, int)>, i: nat)
    requires OneScoreEach(members) && i < |members|
    ensures Scores(members[..i + 1]) == Scores(members[..i])[members[i].0 := members[i].1]
    ensures members[i].0 !in Scores(members[..i])
  {
    assert members[..i + 1][..i] == members[..i];
    if members[i].0 in Scores(members[..i]) {
      ScoresKeys(members[..i], members[i].0);
      assert false;
    }
  }

  function Processes(keys: set<string>): set<string> { set key <- keys :: LastSegment(key) }

  predicate OneKeyEach(keys: set<string>) {
    forall a, b :: a in keys && b in keys && LastSegment(a) == LastSegment(b) ==> a == b
  }

  /** Keys of processes without colons in their ids name different processes. */
  lemma KeysOfProcesses(prefix: string, keys: set<string>)
    requires forall key <- keys :: exists process :: ':' !in process && key == ProcessingKey(prefix, process)
    ensures OneKeyEach(keys)
  {
    forall a, b | a in keys && b in keys && LastSegment(a) == LastSegment(b) ensures a == b {
      var p :| ':' !in p && a == ProcessingKey(prefix, p);
      var q :| ':' !in q && b == ProcessingKey(prefix, q);
      SegmentIsProcess(prefix, p);
      SegmentIsProcess(prefix, q);
    }
  }

  predicate OldMember(members: seq<(string, int)>, p: string, oldest: int) {
    exists i :: 0 <= i < |members| && members[i].0 == p && members[i].1 < oldest
  }

  predicate IsMember(members: seq<(string, int)>, p: string) { exists i :: 0 <= i < |members| && members[i].0 == p }

  predicate HasList(keys: set<string>, p: string) { exists key <- keys :: LastSegment(key) == p }

  lemma {:induction false} ScoresAre(members: seq<(string, int)>, p: string, oldest: int)
    requires OneScoreEach(members)
    ensures p in Scores(members) <==> IsMember(members, p)
    ensures p in Scores(members) && Scores(members)[p] < oldest <==> OldMember(members, p, oldest)
  {
    if members != [] {
      var n := |members| - 1;
      assert members[..n + 1] == members && members[..n][..n] == members[..n];
      ScoresAre(members[..n], p, oldest);
      assert forall i :: 0 <= i < n ==> members[..n][i] == members[i];
      assert IsMember(members, p) <==> IsMember(members[..n], p) || members[n].0 == p;
      assert OldMember(members, p, oldest) <==> OldMember(members[..n], p, oldest) || (members[n].0 == p && members[n].1 < oldest);
      NextScore(members, n);
    }
  }

  /** Reports exactly the members with an old score and the processes that have a list and are no
      members, and none twice; they are the ones that a sweep of the protocol judges dead. */
  method DeadProcessIdsIn(keys: set<string>, members: seq<(string, int)>, oldest: int) returns (dead: seq<string>)
    requires OneScoreEach(members)
    ensures forall p :: p in dead <==> OldMember(members, p, oldest) || (HasList(keys, p) && !IsMember(members, p))
    ensures forall p :: p in dead <==> p in DeadProcesses(Processes(keys), Scores(members), oldest)
    ensures OneKeyEach(keys) ==> Distinct(dead)
  {
    hide Scores, LastSegment, OldMember, IsMember, Processes, DeadProcesses;
    dead := [];
    var active: set<string> := {};
    NoScores(members);
    for i := 0 to |members|
      invariant active == Scores(members[..i]).Keys && Distinct(dead)
      invariant forall p :: p in dead <==> p in Scores(members[..i]) && Scores(members[..i])[p] < oldest
    {
      var (p, score) := members[i];
      NextScore(members, i);
      if score < oldest { dead := dead + [p]; }
      active := active + {p};
    }
    assert members[..|members|] == members;
    ghost var expired := dead;
    var left := keys;
    while left != {}
      invariant left <= keys
      invariant forall p :: p in dead <==> p in expired || (p !in active && exists key <- keys :: key !in left && LastSegment(key) == p)
      invariant OneKeyEach(keys) ==> Distinct(dead)
      decreases |left|
    {
      var key :| key in left;
      left := left - {key};
      var p := LastSegment(key);
      if p !in active { dead := dead + [p]; }
    }
    forall p
      ensures p in dead <==> OldMember(members, p, oldest) || (HasList(keys, p) && !IsMember(members, p))
      ensures p in dead <==> p in DeadProcesses(Processes(keys), Scores(members), oldest)
    {
      DeadEitherWay(keys, members, p, oldest);
    }
  }

  lemma DeadEitherWay(keys: set<string>, members: seq<(string, int)>, p: string, oldest: int)
    requires OneScoreEach(members)
    ensures var scores := Scores(members);
            var aged, listed := p in scores && scores[p] < oldest, p !in scores && HasList(keys, p);
            && (aged || listed <==> OldMember(members, p, oldest) || (HasList(keys, p) && !IsMember(members, p)))
            && (aged || listed <==> p in DeadProcesses(Processes(keys), scores, oldest))
  {
    hide Scores, LastSegment, OldMember, IsMember;
    ScoresAre(members, p, oldest);
  }

  // ----- recovering the claims of one process -----------------------------------

  /** The claims whose payload cannot be read are skipped and stay where they are. */
  function Skipped(ids: seq<string>, malformed: set<string>): seq<string> {
    if ids == [] then []
    else Skipped(ids[..|ids| - 1], malformed) + if ids[|ids| - 1] in malformed then [ids[|ids| - 1]] else []
  }

  /** The claims that go back to a queue: their payload asks for it. */
  function Returning(jobs: map<string, Payload>, id: string, queue: string): bool {
    id in jobs && jobs[id].resurrect && jobs[id].queue == queue
  }

  /** What has become of an id once the claims in `taken` were dealt with. */
  ghost predicate DealtWith(r: Redis, r': Redis, dead: string, malformed: set<string>, taken: seq<string>, id: string) {
    var n := if id in malformed then 0 else multiset(taken)[id];
    && Count(r', Processing(dead), id) + n == Count(r, Processing(dead), id)
    && (forall queue :: Count(r', Queue(queue), id) == Count(r, Queue(queue), id) + if Returning(r.jobs, id, queue) then n else 0)
    && Lookup(r', id) == if n > 0 && id in r.jobs && !r.jobs[id].resurrect then None else Lookup(r, id)
  }

  ghost predicate Untouched(r: Redis, r': Redis, dead: string) {
    && r'.schedule == r.schedule && r'.retry == r.retry && r'.processes == r.processes
    && forall other :: other != dead ==> ListAt(r'.processing, other) == ListAt(r.processing, other)
  }

  /** The list is read once; each claim is then moved by the script, which checks that it still is
      one. Without other clients every claim that can be read is moved: it goes back to its queue
      once for each time it was held, or its job is dropped, and the record of the process goes
      with its last claim. */
  method RecoverProcess(r: Redis, dead: string, malformed: set<string>) returns (r': Redis, moved: nat)
    ensures var ids := ListAt(r.processing, dead);
            && (forall id :: DealtWith(r, r', dead, malformed, ids, id))
            && multiset(ListAt(r'.processing, dead)) == multiset(Skipped(ids, malformed))
            && moved == |ids| - |Skipped(ids, malformed)|
            && Untouched(r, r'.(processes := r.processes), dead)
            && r'.processes == if Skipped(ids, malformed) == [] then r.processes - {dead} else r.processes
  {
    hide DealtWith, Untouched, Recover, Count;
    r', moved := r, 0;
    var ids := ListAt(r.processing, dead);
    NothingDealtWith(r, dead, malformed);
    for i := 0 to |ids|
      invariant (forall id :: DealtWith(r, r', dead, malformed, ids[..i], id)) && Untouched(r, r', dead)
      invariant moved == i - |Skipped(ids[..i], malformed)|
    {
      assert ids[..i + 1][..i] == ids[..i];
      if ids[i] in malformed {
        ghost var taken := ids[..i + 1];
        forall id ensures DealtWith(r, r', dead, malformed, taken, id) { SkipsOne(r, r', dead, malformed, ids, i, id); }
        continue;
      }
      ghost var before := r';
      r' := Recover(r', dead, ids[i], Lookup(r', ids[i]));
      RecoversOne(r, before, r', dead, malformed, ids, i, ids[..i + 1]);
      moved := moved + 1;
    }
    assert ids[..|ids|] == ids;
    AllDealtWith(r, r', dead, malformed);
    if ListAt(r'.processing, dead) == [] {
      forall id ensures DealtWith(r, r'.(processes := r'.processes - {dead}), dead, malformed, ids, id) {
        ForgottenDealtWith(r, r', r'.processes - {dead}, dead, malformed, ids, id);
      }
      ForgottenUntouched(r, r', dead);
      r' := r'.(processes := r'.processes - {dead});
    }
  }

  lemma NothingDealtWith(r: Redis, dead: string, malformed: set<string>)
    ensures (forall id :: DealtWith(r, r, dead, malformed, [], id)) && Untouched(r, r, dead)
  {
    hide Count;
  }

  lemma ForgottenDealtWith(r: Redis, r': Redis, processes: map<string, int>, dead: string, malformed: set<string>,
                           ids: seq<string>, id: string)
    requires DealtWith(r, r', dead, malformed, ids, id)
    ensures DealtWith(r, r'.(processes := processes), dead, malformed, ids, id)
  {
    assert forall place :: Count(r'.(processes := processes), place, id) == Count(r', place, id);
    hide Count;
  }

  lemma ForgottenUntouched(r: Redis, r': Redis, dead: string)
    requires Untouched(r, r', dead)
    ensures r'.processes == r.processes && Untouched(r, r'.(processes := r'.processes - {dead}).(processes := r.processes), dead)
  {}

  lemma {:induction false} SkippedCount(ids: seq<string>, malformed: set<string>)
    ensures forall id :: multiset(Skipped(ids, malformed))[id] == if id in malformed then multiset(ids)[id] else 0
  {
    if ids != [] {
      SkippedCount(ids[..|ids| - 1], malformed);
      assert ids == ids[..|ids| - 1] + [ids[|ids| - 1]];
    }
  }

  lemma AllDealtWith(r: Redis, r': Redis, dead: string, malformed: set<string>)
    requires Untouched(r, r', dead)
    requires forall id :: DealtWith(r, r', dead, malformed, ListAt(r.processing, dead), id)
    ensures var skipped := Skipped(ListAt(r.processing, dead), malformed);
            && multiset(ListAt(r'.processing, dead)) == multiset(skipped)
            && (ListAt(r'.processing, dead) == [] <==> skipped == [])
            && Untouched(r, r'.(processes := r.processes), dead) && r'.processes == r.processes
  {
    var ids := ListAt(r.processing, dead);
    var left, skipped := ListAt(r'.processing, dead), Skipped(ids, malformed);
    SkippedCount(ids, malformed);
    forall id ensures multiset(left)[id] == multiset(skipped)[id] {
      assert DealtWith(r, r', dead, malformed, ids, id);
    }
    assert multiset(left) == multiset(skipped);
    assert |multiset(left)| == |left| && |multiset(skipped)| == |skipped|;
  }

  lemma Taken(ids: seq<string>, i: nat)
    requires i < |ids|
    ensures multiset(ids[..i + 1]) == multiset(ids[..i]) + multiset{ids[i]} && multiset(ids[..i + 1]) <= multiset(ids)
  {
    assert ids[..i + 1] == ids[..i] + [ids[i]] && ids == ids[..i + 1] + ids[i + 1..];
  }

  lemma SkipsOne(r: Redis, r': Redis, dead: string, malformed: set<string>, ids: seq<string>, i: nat, id: string)
    requires i < |ids| && ids[i] in malformed && DealtWith(r, r', dead, malformed, ids[..i], id)
    ensures DealtWith(r, r', dead, malformed, ids[..i + 1], id)
  {
    hide Count;
    Taken(ids, i);
  }

  lemma InList(r: Redis, dead: string, id: string)
    ensures Count(r, Processing(dead), id) == multiset(ListAt(r.processing, dead))[id]
  {}

  lemma StillHeld(r: Redis, dead: string, id: string)
    requires Count(r, Processing(dead), id) > 0
    ensures id in ListAt(r.processing, dead)
  {}

  lemma RecoverIs(r: Redis, dead: string, id: string, expected: Option<Payload>)
    requires id in ListAt(r.processing, dead) && Lookup(r, id) == expected
    ensures Recover(r, dead, id, expected) == Release(ProtocolSafety.Replaced(r, id, expected), dead, id)
  {
    hide RemoveOne;
  }

  lemma ReplacedTouches(r: Redis, dead: string, id: string, expected: Option<Payload>)
    ensures Untouched(r, ProtocolSafety.Replaced(r, id, expected), dead)
  {}

  lemma ReleaseTouches(r: Redis, placed: Redis, dead: string, id: string)
    requires Untouched(r, placed, dead)
    ensures Untouched(r, Release(placed, dead, id), dead)
  {
    hide RemoveOne;
  }

  /** The id whose claim is moved: it is held once less, and back on its queue if it asks for it. */
  lemma MovedOne(r: Redis, before: Redis, placed: Redis, after: Redis, dead: string, malformed: set<string>,
                 taken: seq<string>, taken': seq<string>, id: string)
    requires DealtWith(r, before, dead, malformed, taken, id) && id !in malformed
    requires multiset(taken')[id] == multiset(taken)[id] + 1 && Count(before, Processing(dead), id) > 0
    requires placed == ProtocolSafety.Replaced(before, id, Lookup(before, id)) && after == Release(placed, dead, id)
    ensures DealtWith(r, after, dead, malformed, taken', id)
  {
    hide Count, ProtocolSafety.Replaced, Release, PushTo;
    ProtocolSafety.ReplacedMoves(before, id, Lookup(before, id));
    ProtocolSafety.ReleaseMoves(placed, dead, id);
  }

  lemma MovedOther(r: Redis, before: Redis, placed: Redis, after: Redis, dead: string, malformed: set<string>,
                   taken: seq<string>, taken': seq<string>, id: string, other: string)
    requires DealtWith(r, before, dead, malformed, taken, other) && other != id
    requires multiset(taken')[other] == multiset(taken)[other]
    requires placed == ProtocolSafety.Replaced(before, id, Lookup(before, id)) && after == Release(placed, dead, id)
    ensures DealtWith(r, after, dead, malformed, taken', other)
  {
    hide Count, ProtocolSafety.Replaced, Release, PushTo;
    ProtocolSafety.ReplacedMoves(before, id, Lookup(before, id));
    ProtocolSafety.ReleaseMoves(placed, dead, id);
  }

  /** The claim is still there, and its payload is the one just read: the script moves it. */
  lemma RecoversOne(r: Redis, before: Redis, after: Redis, dead: string, malformed: set<string>, ids: seq<string>, i: nat,
                    taken: seq<string>)
    requires i < |ids| && ids == ListAt(r.processing, dead) && ids[i] !in malformed && taken == ids[..i + 1]
    requires (forall id :: DealtWith(r, before, dead, malformed, ids[..i], id)) && Untouched(r, before, dead)
    requires after == Recover(before, dead, ids[i], Lookup(before, ids[i]))
    ensures (forall id :: DealtWith(r, after, dead, malformed, taken, id)) && Untouched(r, after, dead)
  {
    var id, expected := ids[i], Lookup(before, ids[i]);
    Taken(ids, i);
    HeldBefore(r, before, dead, malformed, ids, i);
    hide DealtWith, Untouched, Count, Recover, ProtocolSafety.Replaced, Release, PushTo;
    RecoverIs(before, dead, id, expected);
    var placed := ProtocolSafety.Replaced(before, id, expected);
    UntouchedLater(r, before, placed, after, dead, id);
    forall x ensures DealtWith(r, after, dead, malformed, taken, x) {
      assert DealtWith(r, before, dead, malformed, ids[..i], x);
      if x == id { MovedOne(r, before, placed, after, dead, malformed, ids[..i], taken, id); }
      else { MovedOther(r, before, placed, after, dead, malformed, ids[..i], taken, id, x); }
    }
  }

  lemma HeldBefore(r: Redis, before: Redis, dead: string, malformed: set<string>, ids: seq<string>, i: nat)
    requires i < |ids| && ids == ListAt(r.processing, dead) && ids[i] !in malformed
    requires DealtWith(r, before, dead, malformed, ids[..i], ids[i])
    ensures Count(before, Processing(dead), ids[i]) > 0 && ids[i] in ListAt(before.processing, dead)
  {
    InList(r, dead, ids[i]);
    Taken(ids, i);
    hide Count;
    if Count(before, Processing(dead), ids[i]) > 0 { StillHeld(before, dead, ids[i]); }
  }

  lemma UntouchedLater(r: Redis, before: Redis, placed: Redis, after: Redis, dead: string, id: string)
    requires Untouched(r, before, dead) && placed == ProtocolSafety.Replaced(before, id, Lookup(before, id))
    requires after == Release(placed, dead, id)
    ensures Untouched(r, after, dead)
  {
    hide ProtocolSafety.Replaced, Release;
    ReplacedTouches(before, dead, id, Lookup(before, id));
    ReleaseTouches(before, placed, dead, id);
  }
}
