/** The enqueue request as the client runs it: a chunk is compacted, the jobs it replaces are
    snapshotted, and the script is repeated until the snapshots hold. */
module Enqueue {
  import opened Redis
  import opened Options
  import opened EnqueueSpec
  import opened EnqueuePlaces
  import opened EnqueueScript
  import Json
  import Snapshot

  datatype Result = Done | ParseFailed | Refused

  type Snapshots = map<string, Option<Snapshot.Snapshot>>

  const CHUNK_SIZE: nat := 100

  /** What clients that store only their own envelopes keep: every payload names its queue. */
  predicate Sound(server: Server, ks: Keys)
    reads server
  {
    WellFormed(Fields(server.db, ks.Jobs())) && forall s <- server.others :: WellFormed(Fields(s, ks.Jobs()))
  }

  /** The store `db` is what we left, or what another client's write has left since. */
  predicate LeftBy(db: Keyspace, before: Keyspace, others: seq<Keyspace>, remaining: seq<Keyspace>) {
    && |remaining| <= |others| && remaining == others[|others| - |remaining|..]
    && db == if remaining == others then before else others[|others| - |remaining| - 1]
  }

  // ----- compaction -------------------------------------------------------------

  /** Envelope `i` repeats an id of the request and would not replace it. */
  predicate Repeats(es: seq<Envelope>, keep: seq<bool>, written: set<string>, i: nat)
    requires i < |es| && i <= |keep|
  {
    es[i].Conflict() == Skip && (es[i].id in written || exists k :: 0 <= k < i && keep[k] && es[k].id == es[i].id)
  }

  method Compact(es: seq<Envelope>, written: set<string>) returns (keep: seq<bool>)
    ensures |keep| == |es|
    ensures forall i :: 0 <= i < |es| ==> (keep[i] <==> !Repeats(es, keep, written, i))
  {
    var seen: set<string> := {};
    keep := [];
    for i := 0 to |es|
      invariant |keep| == i
      invariant forall id :: id in seen <==> exists k :: 0 <= k < i && keep[k] && es[k].id == id
      invariant forall k :: 0 <= k < i ==> (keep[k] <==> !Repeats(es, keep, written, k))
    {
      var drop := es[i].Conflict() == Skip && (es[i].id in written || es[i].id in seen);
      assert drop <==> Repeats(es, keep, written, i);
      ghost var before := keep;
      if !drop { seen := seen + {es[i].id}; }
      keep := keep + [!drop];
      assert forall k :: 0 <= k < i ==> keep[k] == before[k];
      forall k | 0 <= k <= i ensures Repeats(es, keep, written, k) <==> Repeats(es, before, written, k) {}
    }
  }

  /** The old queue of a kept replacement is in a snapshot or in an earlier unconditional write. */
  predicate QueueKnown(es: seq<Envelope>, keep: seq<bool>, ids: seq<string>, i: nat)
    requires |keep| == |es| && i < |es|
  {
    es[i].id in ids || exists k :: 0 <= k < i && keep[k] && es[k].id == es[i].id && es[k].Conflict() == Default
  }

  /** A kept replacement that no kept unconditional write precedes. */
  predicate ReplacesStored(es: seq<Envelope>, keep: seq<bool>, i: nat)
    requires |keep| == |es| && i < |es|
  {
    && keep[i] && es[i].Conflict() == Replace
    && forall k :: 0 <= k < i && keep[k] && es[k].id == es[i].id ==> es[k].Conflict() != Default
  }

  method ReplacementIds(es: seq<Envelope>, keep: seq<bool>) returns (ids: seq<string>)
    requires |keep| == |es|
    ensures forall i, j :: 0 <= i < j < |ids| ==> ids[i] != ids[j]
    ensures forall i :: 0 <= i < |es| && keep[i] && es[i].Conflict() == Replace ==> QueueKnown(es, keep, ids, i)
    ensures forall id <- ids :: exists i :: 0 <= i < |es| && es[i].id == id && ReplacesStored(es, keep, i)
  {
    var overwritten: set<string> := {};
    ids := [];
    for i := 0 to |es|
      invariant forall k, j :: 0 <= k < j < |ids| ==> ids[k] != ids[j]
      invariant forall id <- ids :: exists k :: 0 <= k < i && es[k].id == id && ReplacesStored(es, keep, k)
      invariant forall k :: 0 <= k < i && keep[k] && es[k].Conflict() == Default ==> es[k].id in overwritten
      invariant forall id <- ids :: id in overwritten
      invariant forall id <- overwritten ::
                  id in ids || exists k :: 0 <= k < i && keep[k] && es[k].id == id && es[k].Conflict() == Default
      invariant forall k :: 0 <= k < i && keep[k] && es[k].Conflict() == Replace ==> QueueKnown(es, keep, ids, k)
    {
      if keep[i] && es[i].Conflict() != Skip && es[i].id !in overwritten {
        overwritten := overwritten + {es[i].id};
        if es[i].unique {
          ids := ids + [es[i].id];
          assert ReplacesStored(es, keep, i);
        }
      }
    }
  }

  lemma {:induction false} SelectContains(es: seq<Envelope>, keep: seq<bool>, k: nat)
    requires |keep| == |es| && k < |es| && keep[k]
    ensures es[k] in Select(es, keep)
  {
    if k < |es| - 1 { SelectContains(es[..|es| - 1], keep[..|es| - 1], k); }
  }

  function EntryOf(ks: Keys, id: string, snapshot: Option<Snapshot.Snapshot>): Entry {
    Entry(id, snapshot, if snapshot.Some? then ks.Queue(snapshot.value.queue) else "")
  }

  function Entries(ks: Keys, ids: seq<string>, snapshots: Snapshots): (r: seq<Entry>)
    requires forall id <- ids :: id in snapshots
    ensures |r| == |ids| && forall i :: 0 <= i < |ids| ==> r[i] == EntryOf(ks, ids[i], snapshots[ids[i]])
  {
    seq(|ids|, i requires 0 <= i < |ids| => EntryOf(ks, ids[i], snapshots[ids[i]]))
  }

  lemma {:induction false} SelectCovered(es: seq<Envelope>, keep: seq<bool>, entries: seq<Entry>, ids: seq<string>)
    requires |keep| == |es| && forall id <- ids :: exists entry <- entries :: entry.id == id
    requires forall i :: 0 <= i < |es| && keep[i] && es[i].Conflict() == Replace ==> QueueKnown(es, keep, ids, i)
    ensures Covered(entries, Select(es, keep))
  {
    if es != [] {
      var n := |es| - 1;
      var init, flags := es[..n], keep[..n];
      forall i | 0 <= i < n && flags[i] && init[i].Conflict() == Replace ensures QueueKnown(init, flags, ids, i) {
        assert QueueKnown(es, keep, ids, i);
      }
      SelectCovered(init, flags, entries, ids);
      var kept, before := Select(es, keep), Select(init, flags);
      forall i | 0 <= i < |kept| && kept[i].Conflict() == Replace ensures Known(entries, kept, i, kept[i].id) {
        if i < |before| {
          assert Known(entries, before, i, before[i].id);
          assert forall k :: 0 <= k < |before| ==> kept[k] == before[k];
        } else if es[n].id !in ids {
          var k :| 0 <= k < n && keep[k] && es[k].id == es[n].id && es[k].Conflict() == Default;
          SelectContains(init, flags, k);
          var j :| 0 <= j < |before| && before[j] == es[k];
          assert kept[j] == es[k];
        }
      }
    }
  }

  // ----- reading before the script ----------------------------------------------

  predicate AllFresh(jobs: map<string, string>, ks: Keys, ids: seq<string>, snapshots: Snapshots) {
    forall id <- ids :: id in snapshots && Fresh(jobs, EntryOf(ks, id, snapshots[id]))
  }

  ghost predicate AllTaken(ks: Keys, snapshots: Snapshots) {
    forall id <- snapshots :: Taken(ks, EntryOf(ks, id, snapshots[id]))
  }

  /** A snapshot taken from a payload, or from its absence, holds while nothing changes. */
  lemma TakenFresh(ks: Keys, jobs: map<string, string>, id: string)
    ensures id !in jobs ==> Taken(ks, EntryOf(ks, id, None)) && Fresh(jobs, EntryOf(ks, id, None))
    ensures id in jobs ==>
              var parsed := Snapshot.Parse(jobs[id]);
              && (parsed.Ok? <==> Snapshot.RootQueue(jobs[id]).Ok?)
              && (parsed.Ok? ==>
                    && Taken(ks, EntryOf(ks, id, Some(parsed.value)))
                    && Fresh(jobs, EntryOf(ks, id, Some(parsed.value))))
  {
    hide Keys.Queue, Snapshot.Matches;
    ParsesWhenRooted(if id in jobs then jobs[id] else "");
    if id in jobs && Snapshot.Parse(jobs[id]).Ok? { Snapshot.UnchangedMatches(jobs[id]); }
  }

  lemma ParsesWhenRooted(payload: string)
    ensures Snapshot.Parse(payload).Ok? <==> Snapshot.RootQueue(payload).Ok?
  {
    hide Json.StateAt;
  }

  /** HMGET, then a snapshot of each payload; one that does not parse ends the request. */
  method TakeSnapshots(jobs: map<string, string>, ks: Keys, ids: seq<string>)
    returns (ok: bool, snapshots: Snapshots)
    ensures ok <==> Readable(jobs, ids)
    ensures ok ==> AllFresh(jobs, ks, ids, snapshots) && AllTaken(ks, snapshots) && forall id <- snapshots :: id in ids
  {
    hide Snapshot.Parse, Snapshot.RootQueue, Keys.Queue, Taken, Fresh;
    snapshots := map[];
    for i := 0 to |ids|
      invariant AllFresh(jobs, ks, ids[..i], snapshots) && AllTaken(ks, snapshots) && forall id <- snapshots :: id in ids
      invariant Readable(jobs, ids[..i])
    {
      assert ids[..i + 1] == ids[..i] + [ids[i]];
      TakenFresh(ks, jobs, ids[i]);
      if ids[i] in jobs {
        var parsed := Snapshot.Parse(jobs[ids[i]]);
        if parsed.Err? { return false, snapshots; }
        snapshots := snapshots[ids[i] := Some(parsed.value)];
      } else {
        snapshots := snapshots[ids[i] := None];
      }
    }
    assert ids[..|ids|] == ids;
    ok := true;
  }

  /** Snapshots the script found stale are taken again, from the payloads it returned. */
  method Refresh(ghost jobs: map<string, string>, ks: Keys, ids: seq<string>, snapshots: Snapshots,
                 changed: seq<(string, Option<string>)>)
    returns (ok: bool, snapshots': Snapshots)
    requires AllTaken(ks, snapshots)
    requires forall c <- changed :: c.1 == Lookup(jobs, c.0)
    requires forall id <- ids :: id in snapshots
    requires forall id <- ids :: Fresh(jobs, EntryOf(ks, id, snapshots[id])) || (id, Lookup(jobs, id)) in changed
    ensures ok <==> forall c <- changed :: c.1.Some? ==> Snapshot.RootQueue(c.1.value).Ok?
    ensures ok ==> AllFresh(jobs, ks, ids, snapshots') && AllTaken(ks, snapshots')
  {
    hide Snapshot.Parse, Snapshot.RootQueue, Keys.Queue, Taken, Fresh;
    snapshots' := snapshots;
    for i := 0 to |changed|
      invariant AllTaken(ks, snapshots') && forall id <- ids :: id in snapshots'
      invariant forall id <- ids :: Fresh(jobs, EntryOf(ks, id, snapshots'[id])) || (id, Lookup(jobs, id)) in changed[i..]
      invariant forall k :: 0 <= k < i && changed[k].1.Some? ==> Snapshot.RootQueue(changed[k].1.value).Ok?
    {
      var (id, payload) := changed[i];
      assert changed[i..] == [changed[i]] + changed[i + 1..];
      TakenFresh(ks, jobs, id);
      if payload.Some? {
        var parsed := Snapshot.Parse(payload.value);
        if parsed.Err? { return false, snapshots'; }
        snapshots' := snapshots'[id := Some(parsed.value)];
      } else {
        snapshots' := snapshots'[id := None];
      }
    }
    ok := true;
  }

  lemma LeftByAgain(db0: Keyspace, db1: Keyspace, db2: Keyspace, o0: seq<Keyspace>, o1: seq<Keyspace>, o2: seq<Keyspace>)
    requires LeftBy(db1, db0, o0, o1) && LeftBy(db2, db1, o1, o2)
    ensures LeftBy(db2, db0, o0, o2)
  {
    assert o1[|o1| - |o2|..] == o0[|o0| - |o2|..];
  }

  method LetOthersWrite(server: Server, ks: Keys)
    modifies server
    ensures old(Sound(server, ks)) ==> Sound(server, ks)
    ensures LeftBy(server.db, old(server.db), old(server.others), server.others)
  {
    hide WellFormed;
    server.Interleave();
    if server.others != old(server.others) {
      var n := |old(server.others)| - |server.others|;
      assert old(server.others)[n - 1] in old(server.others);
    }
    assert forall s <- server.others :: s in old(server.others);
  }

  /** Only envelopes that would skip are left out. */
  predicate Narrows(es: seq<Envelope>, keep: seq<bool>, keep': seq<bool>) {
    && |keep'| == |keep| == |es|
    && forall i :: 0 <= i < |es| ==> (keep'[i] ==> keep[i]) && (es[i].Conflict() != Skip ==> keep'[i] == keep[i])
  }

  predicate KnownStored(jobs: map<string, string>, snapshots: Snapshots, id: string) {
    if id in snapshots then snapshots[id].Some? else id in jobs
  }

  predicate LeftOut(jobs: map<string, string>, snapshots: Snapshots, e: Envelope) {
    e.Conflict() == Skip && KnownStored(jobs, snapshots, e.id)
  }

  /** Whether a Skip is still wanted: a snapshot tells, or else HEXISTS does. */
  method StillWanted(server: Server, ks: Keys, e: Envelope, snapshots: Snapshots) returns (wanted: bool)
    requires e.Conflict() == Skip
    modifies server
    ensures old(Sound(server, ks)) ==> Sound(server, ks)
    ensures LeftBy(server.db, old(server.db), old(server.others), server.others)
    ensures wanted == !LeftOut(Fields(server.db, ks.Jobs()), snapshots, e)
  {
    hide WellFormed, Fields;
    if e.id in snapshots { return snapshots[e.id].None?; }
    LetOthersWrite(server, ks);
    wanted := e.id !in Fields(server.db, ks.Jobs());
  }

  /** Skips whose id is known to be stored are left out before their payload is sent. */
  method LeaveOutExisting(server: Server, ks: Keys, es: seq<Envelope>, keep: seq<bool>, snapshots: Snapshots)
    returns (keep': seq<bool>)
    requires |keep| == |es|
    modifies server
    ensures old(Sound(server, ks)) ==> Sound(server, ks)
    ensures LeftBy(server.db, old(server.db), old(server.others), server.others)
    ensures |keep'| == |es| && Narrows(es, keep, keep')
    ensures old(server.others) == [] ==>
              forall i :: 0 <= i < |es| ==>
                (keep'[i] <==> keep[i] && !LeftOut(Fields(old(server.db), ks.Jobs()), snapshots, es[i]))
    ensures |es| == 1 ==> (keep'[0] <==> keep[0] && !LeftOut(Fields(server.db, ks.Jobs()), snapshots, es[0]))
  {
    hide Fields, Sound, LeftBy, LeftOut;
    keep' := keep;
    NothingWrittenBy(server.db, server.others);
    for i := 0 to |es|
      invariant (old(Sound(server, ks)) ==> Sound(server, ks)) && |keep'| == |es|
      invariant LeftBy(server.db, old(server.db), old(server.others), server.others)
      invariant Narrows(es, keep, keep') && forall k :: i <= k < |es| ==> keep'[k] == keep[k]
      invariant old(server.others) == [] ==>
                  forall k :: 0 <= k < i ==>
                    (keep'[k] <==> keep[k] && !LeftOut(Fields(old(server.db), ks.Jobs()), snapshots, es[k]))
      invariant |es| == 1 == i ==> (keep'[0] <==> keep[0] && !LeftOut(Fields(server.db, ks.Jobs()), snapshots, es[0]))
    {
      if keep[i] && es[i].Conflict() == Skip {
        ghost var db, others := server.db, server.others;
        var wanted := StillWanted(server, ks, es[i], snapshots);
        LeftByAgain(old(server.db), db, server.db, old(server.others), others, server.others);
        LeftByFew(server.db, old(server.db), old(server.others), server.others);
        keep' := keep'[i := wanted];
      } else {
        OnlySkips(Fields(old(server.db), ks.Jobs()), snapshots, es[i]);
        OnlySkips(Fields(server.db, ks.Jobs()), snapshots, es[i]);
      }
    }
  }

  lemma NothingWrittenBy(db: Keyspace, others: seq<Keyspace>)
    ensures LeftBy(db, db, others, others)
  {}

  lemma OnlySkips(jobs: map<string, string>, snapshots: Snapshots, e: Envelope)
    ensures LeftOut(jobs, snapshots, e) ==> e.Conflict() == Skip
  {}

  // ----- the keys of the script --------------------------------------------------

  /** A destination, or the old queue of a snapshot. */
  predicate Used(queue: string, inputs: seq<Envelope>, ids: seq<string>, snapshots: Snapshots)
    requires forall id <- ids :: id in snapshots
  {
    || (exists e <- inputs :: e.queue == queue)
    || (exists id <- ids :: snapshots[id].Some? && snapshots[id].value.queue == queue)
  }

  /** Each index, counted from one, leads to the key of its queue, and each further key to its
      queue. */
  ghost predicate Declares(ks: Keys, keys: seq<string>, queues: map<string, nat>) {
    && |keys| == 3 + |queues| && keys[..3] == [ks.Jobs(), ks.Schedule(), ks.Retry()]
    && (forall queue <- queues :: 4 <= queues[queue] <= |keys| && keys[queues[queue] - 1] == ks.Queue(queue))
    && (forall a, b :: a in queues && b in queues && queues[a] == queues[b] ==> a == b)
    && forall index :: 4 <= index <= |keys| ==> IndexUsed(queues, index)
  }

  predicate IndexUsed(queues: map<string, nat>, index: nat) { exists queue <- queues :: queues[queue] == index }

  method Declare(ks: Keys, keys: seq<string>, queues: map<string, nat>, queue: string)
    returns (keys': seq<string>, queues': map<string, nat>)
    requires Declares(ks, keys, queues)
    ensures Declares(ks, keys', queues') && queues'.Keys == queues.Keys + {queue}
  {
    hide Keys.Queue, Keys.Jobs, Keys.Schedule, Keys.Retry, Declares;
    keys', queues' := keys, queues;
    if queue !in queues {
      keys', queues' := keys + [ks.Queue(queue)], queues[queue := |queues| + 4];
      MoreDeclared(ks, keys, queues, queue);
    }
  }

  lemma MoreDeclared(ks: Keys, keys: seq<string>, queues: map<string, nat>, queue: string)
    requires Declares(ks, keys, queues) && queue !in queues
    ensures Declares(ks, keys + [ks.Queue(queue)], queues[queue := |queues| + 4])
  {
    hide Keys.Queue, Keys.Jobs, Keys.Schedule, Keys.Retry;
    OneMore(queues, queue, |queues| + 4);
    var queues' := queues[queue := |queues| + 4];
    assert (keys + [ks.Queue(queue)])[..3] == keys[..3];
    assert queues'[queue] == |queues| + 4;
    forall index | 4 <= index <= |keys| + 1 ensures IndexUsed(queues', index) {
      if index <= |keys| {
        assert IndexUsed(queues, index);
        var other :| other in queues && queues[other] == index;
        assert queues'[other] == index;
      }
    }
  }

  lemma OneMore(queues: map<string, nat>, queue: string, index: nat)
    requires queue !in queues
    ensures |queues[queue := index]| == |queues| + 1
  {
    assert queues[queue := index].Keys == queues.Keys + {queue};
  }

  /** Every destination and every old queue is declared, and nothing else. */
  method DeclareQueues(ks: Keys, inputs: seq<Envelope>, ids: seq<string>, snapshots: Snapshots)
    returns (keys: seq<string>, queues: map<string, nat>)
    requires forall id <- ids :: id in snapshots
    ensures Declares(ks, keys, queues) && forall queue :: queue in queues <==> Used(queue, inputs, ids, snapshots)
  {
    hide Declares;
    keys, queues := [ks.Jobs(), ks.Schedule(), ks.Retry()], map[];
    assert Declares(ks, keys, queues) by { NoneDeclared(ks); }
    for i := 0 to |inputs|
      invariant Declares(ks, keys, queues) && forall queue :: queue in queues <==> Used(queue, inputs[..i], [], snapshots)
    {
      assert inputs[..i + 1] == inputs[..i] + [inputs[i]];
      keys, queues := Declare(ks, keys, queues, inputs[i].queue);
    }
    assert inputs[..|inputs|] == inputs;
    for i := 0 to |ids|
      invariant Declares(ks, keys, queues) && forall queue :: queue in queues <==> Used(queue, inputs, ids[..i], snapshots)
    {
      assert ids[..i + 1] == ids[..i] + [ids[i]];
      if snapshots[ids[i]].Some? {
        keys, queues := Declare(ks, keys, queues, snapshots[ids[i]].value.queue);
      }
    }
    assert ids[..|ids|] == ids;
  }

  lemma NoneDeclared(ks: Keys)
    ensures Declares(ks, [ks.Jobs(), ks.Schedule(), ks.Retry()], map[])
  {}

  /** What the script finds under the indexes that come with the snapshots. */
  method SnapshotArguments(ks: Keys, keys: seq<string>, queues: map<string, nat>, ghost inputs: seq<Envelope>,
                           ids: seq<string>, snapshots: Snapshots)
    returns (entries: seq<Entry>)
    requires Declares(ks, keys, queues) && forall id <- ids :: id in snapshots
    requires forall queue :: queue in queues <==> Used(queue, inputs, ids, snapshots)
    ensures entries == Entries(ks, ids, snapshots)
  {
    hide Keys.Queue, Keys.Jobs, Keys.Schedule, Keys.Retry;
    entries := [];
    for i := 0 to |ids|
      invariant entries == Entries(ks, ids[..i], snapshots)
    {
      assert ids[..i + 1] == ids[..i] + [ids[i]];
      var snapshot := snapshots[ids[i]];
      assert snapshot.Some? ==> Used(snapshot.value.queue, inputs, ids, snapshots);
      entries := entries + [Entry(ids[i], snapshot, if snapshot.Some? then keys[queues[snapshot.value.queue] - 1] else "")];
    }
    assert ids[..|ids|] == ids;
  }

  // ----- the optimistic loop ----------------------------------------------------

  /** A read of the store whose snapshots are all fresh is stale at the script only if
      another client has written in between. */
  lemma StaleNeedsWrite(ks: Keys, ids: seq<string>, snapshots: Snapshots, jobs: map<string, string>, c: (string, Option<string>))
    requires AllFresh(jobs, ks, ids, snapshots)
    ensures !StaleIn(jobs, Entries(ks, ids, snapshots), c)
  {}

  /** One invocation of the script, with its keys declared anew. */
  method Invoke(server: Server, ks: Keys, dest: Destination, ids: seq<string>, snapshots: Snapshots, inputs: seq<Envelope>)
    returns (reply: Reply)
    requires (forall e <- inputs :: Serialized(e)) && AllTaken(ks, snapshots) && forall id <- ids :: id in snapshots
    requires Covered(Entries(ks, ids, snapshots), inputs)
    modifies server`db
    ensures !reply.Committed? ==> server.db == old(server.db)
    ensures reply.Committed? ==> reply.outcomes == PlanAll(Fields(old(server.db), ks.Jobs()), ks, inputs).outcomes
    ensures reply.Committed? && Readable(Fields(old(server.db), ks.Jobs()), ids) ==>
              && (server.db, reply.outcomes) == ApplyAll(old(server.db), ks, dest, inputs)
              && AllReady(old(server.db), ks, dest, inputs)
              && forall w <- PlanAll(Fields(old(server.db), ks.Jobs()), ks, inputs).writes :: SparesJobs(ks, dest, w)
    ensures old(Sound(server, ks)) ==> Sound(server, ks) && WellFormed(Fields(old(server.db), ks.Jobs()))
    ensures reply.Changed? ==>
              && !AllFresh(Fields(old(server.db), ks.Jobs()), ks, ids, snapshots)
              && (forall c <- reply.changed :: c.1 == Lookup(Fields(old(server.db), ks.Jobs()), c.0))
              && forall id <- ids ::
                   || Fresh(Fields(old(server.db), ks.Jobs()), EntryOf(ks, id, snapshots[id]))
                   || (id, Lookup(Fields(old(server.db), ks.Jobs()), id)) in reply.changed
  {
    hide WellFormed, Fields, Keys.Queue, Keys.Jobs, Keys.Schedule, Keys.Retry, Taken, Fresh, Serialized, Compatible, ApplyAll;
    hide PlanAll, SparesJobs, Covered, Readable, Snapshot.RootQueue, Declares, Used, Entries, EntryIds, AllTaken, AllFresh;
    hide AllReady;
    ghost var base := server.db;
    var keys, queues := DeclareQueues(ks, inputs, ids, snapshots);
    var entries := SnapshotArguments(ks, keys, queues, inputs, ids, snapshots);
    EntriesOf(ks, ids, snapshots);
    reply := Run(server, ks, dest, entries, inputs);
    if reply.Committed? && WellFormed(Fields(base, ks.Jobs())) {
      SoundIsReadable(Fields(base, ks.Jobs()), ids);
      SoundAfter(base, ks, dest, inputs);
    }
    if reply.Changed? {
      if AllFresh(Fields(base, ks.Jobs()), ks, ids, snapshots) {
        StaleNeedsWrite(ks, ids, snapshots, Fields(base, ks.Jobs()), reply.changed[0]);
      }
      RepliesCover(ks, ids, snapshots, Fields(base, ks.Jobs()), reply.changed);
    }
  }

  /** After a stale reply the snapshots are taken again, from the payloads that came with it. */
  method Retake(ghost jobs: map<string, string>, ks: Keys, ids: seq<string>, snapshots: Snapshots,
                changed: seq<(string, Option<string>)>, ghost inputs: seq<Envelope>)
    returns (ok: bool, snapshots': Snapshots)
    requires AllTaken(ks, snapshots) && forall c <- changed :: c.1 == Lookup(jobs, c.0)
    requires (forall id <- ids :: id in snapshots) && Covered(Entries(ks, ids, snapshots), inputs)
    requires forall id <- ids :: Fresh(jobs, EntryOf(ks, id, snapshots[id])) || (id, Lookup(jobs, id)) in changed
    ensures !ok ==> !WellFormed(jobs)
    ensures ok ==> AllFresh(jobs, ks, ids, snapshots') && AllTaken(ks, snapshots') && forall id <- ids :: id in snapshots'
    ensures ok ==> Covered(Entries(ks, ids, snapshots'), inputs)
  {
    hide WellFormed, Fresh, AllTaken, AllFresh, Covered, Entries, Snapshot.RootQueue;
    ok, snapshots' := Refresh(jobs, ks, ids, snapshots, changed);
    if ok {
      AllFreshTaken(jobs, ks, ids, snapshots');
      StillCovered(ks, ids, snapshots, snapshots', inputs);
    } else if WellFormed(jobs) {
      SoundReplies(jobs, changed);
    }
  }

  /** Invoke the script until it does not report a stale snapshot. `read` is the store the
      snapshots come from. Each further round pays for a write of another client. */
  method CommitLoop(server: Server, ks: Keys, dest: Destination, ids: seq<string>, taken: Snapshots, inputs: seq<Envelope>,
                    ghost read: Keyspace, ghost since: seq<Keyspace>)
    returns (result: Result, outcomes: seq<Outcome>, ghost base: Keyspace, ghost rounds: nat)
    requires (forall e <- inputs :: Serialized(e)) && AllTaken(ks, taken)
    requires AllFresh(Fields(read, ks.Jobs()), ks, ids, taken)
    requires Covered(Entries(ks, ids, taken), inputs) && LeftBy(server.db, read, since, server.others)
    modifies server
    ensures old(Sound(server, ks)) ==> Sound(server, ks) && result != ParseFailed
    ensures rounds <= 1 + |since| - |server.others|
    ensures result != Done ==> LeftBy(server.db, old(server.db), old(server.others), server.others)
    ensures result == ParseFailed ==> !WellFormed(Fields(base, ks.Jobs())) && since != []
    ensures result == Done ==>
              && LeftBy(base, old(server.db), old(server.others), server.others)
              && outcomes == PlanAll(Fields(base, ks.Jobs()), ks, inputs).outcomes
    ensures result == Done && Readable(Fields(base, ks.Jobs()), ids) ==>
              && (server.db, outcomes) == ApplyAll(base, ks, dest, inputs) && AllReady(base, ks, dest, inputs)
              && forall w <- PlanAll(Fields(base, ks.Jobs()), ks, inputs).writes :: SparesJobs(ks, dest, w)
  {
    hide WellFormed, Fields, Keys.Queue, Keys.Jobs, Keys.Schedule, Keys.Retry, Taken, Fresh, Serialized, Compatible, ApplyAll;
    hide PlanAll, SparesJobs, Covered, Readable, Snapshot.RootQueue, LeftBy, Entries, AllTaken, AllFresh, Sound;
    hide AllReady;
    AllFreshTaken(Fields(read, ks.Jobs()), ks, ids, taken);
    LeftByNow(server.db, read, since, server.others);
    LeftByFew(server.db, server.db, server.others, server.others);
    var snapshots := taken;
    ghost var origin, others := read, since;
    rounds := 0;
    while true
      invariant (old(Sound(server, ks)) ==> Sound(server, ks)) && AllTaken(ks, snapshots)
      invariant AllFresh(Fields(origin, ks.Jobs()), ks, ids, snapshots) && forall id <- ids :: id in snapshots
      invariant Covered(Entries(ks, ids, snapshots), inputs)
      invariant LeftBy(server.db, old(server.db), old(server.others), server.others)
      invariant LeftBy(server.db, origin, others, server.others) && |others| <= |since|
      invariant rounds <= |since| - |others|
      decreases |others|
    {
      ghost var db, before := server.db, server.others;
      LetOthersWrite(server, ks);
      LeftByAgain(old(server.db), db, server.db, old(server.others), before, server.others);
      LeftByAgain(origin, db, server.db, others, before, server.others);
      LeftByFew(server.db, db, before, server.others);
      LeftByFew(server.db, origin, others, server.others);
      rounds := rounds + 1;
      base := server.db;
      LeftByNow(base, origin, others, server.others);
      var reply := Invoke(server, ks, dest, ids, snapshots, inputs);
      match reply {
        case Committed(done) => return Done, done, base, rounds;
        case WrongType => return Refused, [], base, rounds;
        case Changed(changed) =>
          var ok;
          ok, snapshots := Retake(Fields(base, ks.Jobs()), ks, ids, snapshots, changed, inputs);
          if !ok { return ParseFailed, [], base, rounds; }
          origin, others := server.db, server.others;
      }
    }
  }

  lemma EntriesOf(ks: Keys, ids: seq<string>, snapshots: Snapshots)
    requires AllTaken(ks, snapshots) && forall id <- ids :: id in snapshots
    ensures (forall entry <- Entries(ks, ids, snapshots) :: Taken(ks, entry)) && EntryIds(Entries(ks, ids, snapshots)) == ids
  {
    hide Taken;
  }

  lemma RepliesCover(ks: Keys, ids: seq<string>, snapshots: Snapshots, jobs: map<string, string>,
                     changed: seq<(string, Option<string>)>)
    requires forall id <- ids :: id in snapshots
    requires forall entry <- Entries(ks, ids, snapshots) :: Fresh(jobs, entry) || (entry.id, Lookup(jobs, entry.id)) in changed
    ensures forall id <- ids :: Fresh(jobs, EntryOf(ks, id, snapshots[id])) || (id, Lookup(jobs, id)) in changed
  {
    hide Fresh;
    forall id | id in ids ensures Fresh(jobs, EntryOf(ks, id, snapshots[id])) || (id, Lookup(jobs, id)) in changed {
      var k :| 0 <= k < |ids| && ids[k] == id;
      assert Entries(ks, ids, snapshots)[k] in Entries(ks, ids, snapshots);
    }
  }

  lemma SoundIsReadable(jobs: map<string, string>, ids: seq<string>)
    requires WellFormed(jobs)
    ensures Readable(jobs, ids)
  {
    hide Snapshot.RootQueue;
  }

  lemma SoundReplies(jobs: map<string, string>, changed: seq<(string, Option<string>)>)
    requires WellFormed(jobs) && forall c <- changed :: c.1 == Lookup(jobs, c.0)
    ensures forall c <- changed :: c.1.Some? ==> Snapshot.RootQueue(c.1.value).Ok?
  {
    hide Snapshot.RootQueue;
  }

  lemma StillCovered(ks: Keys, ids: seq<string>, a: Snapshots, b: Snapshots, inputs: seq<Envelope>)
    requires (forall id <- ids :: id in a && id in b) && Covered(Entries(ks, ids, a), inputs)
    ensures Covered(Entries(ks, ids, b), inputs)
  {
    var xs, ys := Entries(ks, ids, a), Entries(ks, ids, b);
    forall i | 0 <= i < |inputs| && inputs[i].Conflict() == Replace ensures Known(ys, inputs, i, inputs[i].id) {
      assert Known(xs, inputs, i, inputs[i].id);
      if x :| x in xs && x.id == inputs[i].id {
        var k :| 0 <= k < |xs| && xs[k] == x;
        assert ys[k] in ys;
      }
    }
  }

  /** Applying envelopes keeps the payloads sound. */
  lemma SoundAfter(db: Keyspace, ks: Keys, dest: Destination, es: seq<Envelope>)
    requires WellFormed(Fields(db, ks.Jobs())) && forall e <- es :: Serialized(e)
    requires forall w <- PlanAll(Fields(db, ks.Jobs()), ks, es).writes :: SparesJobs(ks, dest, w)
    ensures WellFormed(Fields(ApplyAll(db, ks, dest, es).0, ks.Jobs()))
  {
    hide WellFormed, Fields, Serialized, Keys.Queue;
    PlanThenPerform(db, ks, dest, es);
    PlanKeepsWellFormed(Fields(db, ks.Jobs()), ks, es);
  }

  // ----- a chunk ----------------------------------------------------------------

  /** Ids written as unique in this request, after a chunk with these outcomes. */
  function WrittenAfter(es: seq<Envelope>, outcomes: seq<Outcome>, written: set<string>): set<string>
    requires |outcomes| == |es|
  {
    written + set i | 0 <= i < |es| && es[i].unique && outcomes[i] != Skipped :: es[i].id
  }

  /** An id the request has written, as unique, is not written again by a Skip. */
  predicate NoSecondWrite(es: seq<Envelope>, outcomes: seq<Outcome>, written: set<string>)
    requires |outcomes| == |es|
  {
    && (forall j :: 0 <= j < |es| && es[j].Conflict() == Skip && es[j].id in written ==> outcomes[j] == Skipped)
    && (forall i, j :: 0 <= i < j < |es| && es[i].id == es[j].id && es[i].unique && es[j].Conflict() == Skip ==>
          outcomes[i] == Skipped || outcomes[j] == Skipped)
  }

  lemma CompactedOnce(es: seq<Envelope>, compact: seq<bool>, keep: seq<bool>, outcomes: seq<Outcome>, written: set<string>)
    requires |compact| == |es| && Narrows(es, compact, keep)
    requires forall i :: 0 <= i < |es| ==> (compact[i] <==> !Repeats(es, compact, written, i))
    ensures NoSecondWrite(es, Expand(keep, outcomes), written)
  {
    forall i, j | 0 <= i < j < |es| && es[i].id == es[j].id && Expand(keep, outcomes)[i] != Skipped
                  && es[j].Conflict() == Skip
      ensures Expand(keep, outcomes)[j] == Skipped
    {
      assert keep[i] && Repeats(es, compact, written, j);
    }
  }

  /** With nobody else writing, compaction drops only envelopes that would be skipped. */
  lemma CompactionSkips(jobs: map<string, string>, ks: Keys, es: seq<Envelope>, compact: seq<bool>, keep: seq<bool>,
                        written: set<string>)
    requires |compact| == |es| && Narrows(es, compact, keep) && written <= jobs.Keys
    requires forall i :: 0 <= i < |es| ==> (compact[i] <==> !Repeats(es, compact, written, i))
    requires forall i :: 0 <= i < |es| && compact[i] && !keep[i] ==> es[i].id in jobs
    ensures forall i :: 0 <= i < |es| && !keep[i] ==> WouldSkip(jobs, ks, es, i)
  {
    hide PlanAll;
    forall i | 0 <= i < |es| && !keep[i] ensures WouldSkip(jobs, ks, es, i) {
      PlanKeepsJobs(jobs, ks, es[..i], 0);
      if es[i].id !in jobs {
        assert Repeats(es, compact, written, i);
        var k :| 0 <= k < i && compact[k] && es[k].id == es[i].id;
        assert es[..i][k] == es[k];
      }
    }
  }

  /** The script's inputs, and the envelopes left out, come to the request itself. */
  lemma CompactedSame(db: Keyspace, ks: Keys, dest: Destination, es: seq<Envelope>, keep: seq<bool>)
    requires |keep| == |es| && forall i :: 0 <= i < |es| && !keep[i] ==> WouldSkip(Fields(db, ks.Jobs()), ks, es, i)
    requires forall w <- PlanAll(Fields(db, ks.Jobs()), ks, Select(es, keep)).writes :: SparesJobs(ks, dest, w)
    ensures var (after, outcomes) := ApplyAll(db, ks, dest, Select(es, keep));
            ApplyAll(db, ks, dest, es) == (after, Expand(keep, outcomes))
    ensures Fields(ApplyAll(db, ks, dest, es).0, ks.Jobs()) == PlanAll(Fields(db, ks.Jobs()), ks, es).jobs
  {
    hide PlanAll, ApplyAll, WouldSkip;
    LeaveOut(Fields(db, ks.Jobs()), ks, es, keep);
    PlanThenPerform(db, ks, dest, Select(es, keep));
    PlanThenPerform(db, ks, dest, es);
  }

  /** What is left out needs no types. */
  lemma {:induction false} ReadyExpanded(db: Keyspace, ks: Keys, dest: Destination, es: seq<Envelope>, keep: seq<bool>)
    requires |keep| == |es| && forall i :: 0 <= i < |es| && !keep[i] ==> WouldSkip(Fields(db, ks.Jobs()), ks, es, i)
    requires forall w <- PlanAll(Fields(db, ks.Jobs()), ks, Select(es, keep)).writes :: SparesJobs(ks, dest, w)
    requires AllReady(db, ks, dest, Select(es, keep))
    ensures AllReady(db, ks, dest, es)
  {
    hide PlanAll, ApplyAll, SparesJobs, Fields, Keys.Jobs, StoredQueue, Keys.Queue, Ready;
    if es != [] {
      var n := |es| - 1;
      var init, flags, jobs := es[..n], keep[..n], Fields(db, ks.Jobs());
      forall i | 0 <= i < n && !flags[i] ensures WouldSkip(jobs, ks, init, i) {
        assert init[..i] == es[..i] && WouldSkip(jobs, ks, es, i);
      }
      var kept := Select(es, keep);
      if keep[n] {
        assert kept[..|kept| - 1] == Select(init, flags);
        PlanGrows(jobs, ks, kept);
      }
      assert forall w <- PlanAll(jobs, ks, Select(init, flags)).writes :: SparesJobs(ks, dest, w);
      ReadyExpanded(db, ks, dest, init, flags);
      CompactedSame(db, ks, dest, init, flags);
      if !keep[n] { assert WouldSkip(jobs, ks, es, n); }
    }
  }

  lemma {:induction false} ReadyAppend(db: Keyspace, ks: Keys, dest: Destination, a: seq<Envelope>, b: seq<Envelope>)
    requires AllReady(db, ks, dest, a) && AllReady(ApplyAll(db, ks, dest, a).0, ks, dest, b)
    ensures AllReady(db, ks, dest, a + b)
  {
    hide ApplyAll, Decide, Ready, Fields, Keys.Jobs;
    if b == [] {
      assert a + b == a;
    } else {
      var init := b[..|b| - 1];
      ReadyAppend(db, ks, dest, a, init);
      ApplyAppend(db, ks, dest, a, init);
      assert (a + b)[..|a + b| - 1] == a + init;
    }
  }

  function AllWritten(n: nat): (r: seq<Outcome>)
    ensures |r| == n && forall i :: 0 <= i < n ==> r[i] == Enqueued
  {
    if n == 0 then [] else AllWritten(n - 1) + [Enqueued]
  }

  lemma SoundWith(jobs: map<string, string>, e: Envelope)
    requires WellFormed(jobs) && Serialized(e)
    ensures WellFormed(jobs[e.id := e.payload])
  {
    hide StoredQueue, Snapshot.RootQueue;
  }

  lemma StillSound(db: Keyspace, ks: Keys, e: Envelope, key: string, v: Value)
    requires Serialized(e) && !v.Hash?
    ensures WellFormed(Fields(db, ks.Jobs())) ==>
              && WellFormed(Fields(HSet(db, ks.Jobs(), e.id, e.payload), ks.Jobs()))
              && WellFormed(Fields(Store(db, key, v), ks.Jobs()))
  {
    hide Serialized, WellFormed, Keys.Jobs;
    if !WellFormed(Fields(db, ks.Jobs())) { return; }
    SoundWith(Fields(db, ks.Jobs()), e);
    HSetFields(db, ks.Jobs(), e.id, e.payload);
    if key != ks.Jobs() { Elsewhere(db, key, v, ks.Jobs()); } else { NoFields(db, key, v, ks.Jobs()); }
  }

  lemma NoFields(db: Keyspace, key: string, v: Value, jobs: string)
    requires key == jobs && !v.Hash?
    ensures Fields(Store(db, key, v), jobs) == map[] && WellFormed(map[])
  {
    hide Snapshot.RootQueue;
  }

  lemma PlainWrite(db: Keyspace, ks: Keys, dest: Destination, e: Envelope)
    ensures var stored := HSet(db, ks.Jobs(), e.id, e.payload);
            Perform(db, ks, dest, Write(e, None)) ==
              match dest
              case ToQueue => LPush(stored, ks.Queue(e.queue), e.id)
              case ToSchedule => ZAdd(stored, ks.Schedule(), e.scheduledAt, e.id)
  {}

  lemma Placed(db: Keyspace, key: string, id: string, score: int)
    ensures LPush(db, key, id) == Store(db, key, List([id] + Items(db, key)))
    ensures ZAdd(db, key, score, id) == Store(db, key, ZSet(Scores(db, key)[id := score]))
  {}

  /** Two commands of a pipeline: the payload, then its place. */
  method RunPlain(server: Server, ks: Keys, dest: Destination, e: Envelope) returns (ok: bool)
    requires Serialized(e)
    modifies server
    ensures (old(Sound(server, ks)) ==> Sound(server, ks)) && |server.others| <= |old(server.others)|
    ensures old(server.others) == [] ==> server.others == []
    ensures old(server.others) == [] && ok ==>
              && server.db == Perform(old(server.db), ks, dest, Write(e, None)) && Ready(old(server.db), ks, dest, Write(e, None))
              && Fields(old(server.db), ks.Jobs()).Keys <= Fields(server.db, ks.Jobs()).Keys
  {
    hide WellFormed, Fields, Keys.Queue, HSet, LPush, ZAdd, Perform, LeftBy, Serialized, Store, Keys.Jobs, Keys.Schedule, Fits;
    ghost var db0, others0 := server.db, server.others;
    LetOthersWrite(server, ks);
    LeftByFew(server.db, db0, others0, server.others);
    PlainWrite(server.db, ks, dest, e);
    ok := Fits(server.db, ks.Jobs(), HashKind);
    ghost var first := server.db;
    if ok {
      StillSound(server.db, ks, e, "", List([]));
      HSetFields(server.db, ks.Jobs(), e.id, e.payload);
      server.RunHSet(ks.Jobs(), e.id, e.payload);
    }
    ghost var db1, others1 := server.db, server.others;
    LetOthersWrite(server, ks);
    LeftByFew(server.db, db1, others1, server.others);
    match dest {
      case ToQueue =>
        var key := ks.Queue(e.queue);
        if Fits(server.db, key, ListKind) {
          PlaceSpares(first, ks, e, key, List([e.id] + Items(server.db, key)));
          if ok && old(server.others) == [] { PlainReady(db0, ks, dest, e); }
          StillSound(server.db, ks, e, key, List([e.id] + Items(server.db, key)));
          Placed(server.db, key, e.id, e.scheduledAt);
          server.RunLPush(key, e.id);
        } else {
          ok := false;
        }
      case ToSchedule =>
        if Fits(server.db, ks.Schedule(), ZSetKind) {
          var scores := Scores(server.db, ks.Schedule())[e.id := e.scheduledAt];
          PlaceSpares(first, ks, e, ks.Schedule(), ZSet(scores));
          if ok && old(server.others) == [] { PlainReady(db0, ks, dest, e); }
          StillSound(server.db, ks, e, ks.Schedule(), ZSet(scores));
          Placed(server.db, ks.Schedule(), e.id, e.scheduledAt);
          server.RunZAdd(ks.Schedule(), e.scheduledAt, e.id);
        } else {
          ok := false;
        }
    }
  }

  /** The types that the two commands of a pipeline met were there before them. */
  lemma PlainReady(db: Keyspace, ks: Keys, dest: Destination, e: Envelope)
    requires Fits(db, ks.Jobs(), HashKind)
    requires var stored := HSet(db, ks.Jobs(), e.id, e.payload);
             match dest
             case ToQueue => Fits(stored, ks.Queue(e.queue), ListKind)
             case ToSchedule => Fits(stored, ks.Schedule(), ZSetKind)
    ensures Ready(db, ks, dest, Write(e, None))
  {
    hide Keys.Jobs, Keys.Queue, Keys.Schedule;
    KeysDiffer(ks);
    assert e.id in Fields(db, ks.Jobs())[e.id := e.payload];
    var types := if dest == ToQueue then map[ks.Jobs() := HashKind][ks.Queue(e.queue) := ListKind]
                 else map[ks.Jobs() := HashKind][ks.Schedule() := ZSetKind];
    assert AllFit(db, types) && WriteTyped(types, ks, dest, Write(e, None));
  }

  /** Once the payload is stored, a key of another type is not the key of the payloads. */
  lemma PlaceSpares(first: Keyspace, ks: Keys, e: Envelope, key: string, v: Value)
    requires !v.Hash?
    ensures var db := HSet(first, ks.Jobs(), e.id, e.payload);
            Fits(db, key, KindOf(v)) ==> Fields(Store(db, key, v), ks.Jobs()) == Fields(db, ks.Jobs())
  {
    hide Keys.Jobs;
    assert e.id in Fields(first, ks.Jobs())[e.id := e.payload];
    if key != ks.Jobs() { Elsewhere(HSet(first, ks.Jobs(), e.id, e.payload), key, v, ks.Jobs()); }
  }

  /** A chunk without unique jobs is one pipeline: a failed command does not stop the rest. */
  method EnqueuePlain(server: Server, ks: Keys, dest: Destination, es: seq<Envelope>) returns (result: Result)
    requires forall e <- es :: e.Conflict() == Default && Serialized(e)
    modifies server
    ensures (old(Sound(server, ks)) ==> Sound(server, ks)) && result != ParseFailed && |server.others| <= |old(server.others)|
    ensures old(server.others) == [] && result == Done ==>
              && (server.db, AllWritten(|es|)) == ApplyAll(old(server.db), ks, dest, es) && server.others == []
              && AllReady(old(server.db), ks, dest, es)
              && Fields(old(server.db), ks.Jobs()).Keys <= Fields(server.db, ks.Jobs()).Keys
  {
    hide Perform, Fields, WellFormed, Serialized, Ready;
    result := Done;
    for i := 0 to |es|
      invariant (old(Sound(server, ks)) ==> Sound(server, ks)) && |server.others| <= |old(server.others)| && result != ParseFailed
      invariant old(server.others) == [] ==> server.others == []
      invariant old(server.others) == [] && result == Done ==>
                  && (server.db, AllWritten(i)) == ApplyAll(old(server.db), ks, dest, es[..i])
                  && AllReady(old(server.db), ks, dest, es[..i])
                  && Fields(old(server.db), ks.Jobs()).Keys <= Fields(server.db, ks.Jobs()).Keys
    {
      assert es[..i + 1][..i] == es[..i];
      var ok := RunPlain(server, ks, dest, es[i]);
      if !ok { result := Refused; }
    }
    assert es[..|es|] == es;
  }

  lemma NarrowedCovered(ks: Keys, es: seq<Envelope>, compact: seq<bool>, keep: seq<bool>, ids: seq<string>, taken: Snapshots)
    requires Narrows(es, compact, keep) && forall id <- ids :: id in taken
    requires forall i :: 0 <= i < |es| && compact[i] && es[i].Conflict() == Replace ==> QueueKnown(es, compact, ids, i)
    ensures Covered(Entries(ks, ids, taken), Select(es, keep))
  {
    var entries := Entries(ks, ids, taken);
    forall id | id in ids ensures exists entry <- entries :: entry.id == id {
      var k :| 0 <= k < |ids| && ids[k] == id;
      assert entries[k] in entries;
    }
    forall i | 0 <= i < |es| && keep[i] && es[i].Conflict() == Replace ensures QueueKnown(es, keep, ids, i) {
      assert QueueKnown(es, compact, ids, i);
    }
    SelectCovered(es, keep, entries, ids);
  }

  lemma WrittenStored(jobs: map<string, string>, ks: Keys, es: seq<Envelope>, outcomes: seq<Outcome>, written: set<string>)
    requires |outcomes| == |es| && written <= jobs.Keys
    ensures WrittenAfter(es, outcomes, written) <= PlanAll(jobs, ks, es).jobs.Keys
  {
    hide PlanAll;
    PlanKeepsJobs(jobs, ks, es, 0);
  }

  lemma LeftByNow(db: Keyspace, before: Keyspace, others: seq<Keyspace>, remaining: seq<Keyspace>)
    requires LeftBy(db, before, others, remaining)
    ensures |remaining| <= |others| && LeftBy(db, db, remaining, remaining)
  {}

  lemma LeftByFew(db: Keyspace, before: Keyspace, others: seq<Keyspace>, remaining: seq<Keyspace>)
    requires LeftBy(db, before, others, remaining)
    ensures |remaining| <= |others| && (others == [] ==> db == before && remaining == [])
  {}

  lemma AllFreshTaken(jobs: map<string, string>, ks: Keys, ids: seq<string>, snapshots: Snapshots)
    requires AllFresh(jobs, ks, ids, snapshots)
    ensures forall id <- ids :: id in snapshots
  {}

  /** Everything before the script: which envelopes it gets, and the snapshots it compares. */
  method Prepare(server: Server, ks: Keys, es: seq<Envelope>, written: set<string>)
    returns (ok: bool, keep: seq<bool>, ids: seq<string>, snapshots: Snapshots,
             ghost compact: seq<bool>, ghost read: Keyspace, ghost since: seq<Keyspace>)
    modifies server
    ensures (old(Sound(server, ks)) ==> Sound(server, ks) && ok) && |keep| == |es|
    ensures LeftBy(server.db, old(server.db), old(server.others), server.others)
    ensures |since| <= |old(server.others)| && LeftBy(server.db, read, since, server.others)
    ensures (ok <==> Readable(Fields(read, ks.Jobs()), ids)) && |compact| == |es|
    ensures forall id <- ids :: exists i :: 0 <= i < |es| && es[i].id == id && ReplacesStored(es, compact, i)
    ensures ok ==> AllFresh(Fields(read, ks.Jobs()), ks, ids, snapshots)
    ensures ok ==> Narrows(es, compact, keep) && AllTaken(ks, snapshots) && Covered(Entries(ks, ids, snapshots), Select(es, keep))
    ensures forall i :: 0 <= i < |es| ==> (compact[i] <==> !Repeats(es, compact, written, i))
    ensures ok && old(server.others) == [] ==>
              forall i :: 0 <= i < |es| && compact[i] && !keep[i] ==> es[i].id in Fields(old(server.db), ks.Jobs())
    ensures ok && |es| == 1 && compact[0] && !keep[0] ==>
              es[0].Conflict() == Skip && es[0].id in Fields(server.db, ks.Jobs())
  {
    hide WellFormed, AllTaken, AllFresh, Fields, Keys.Queue, Keys.Jobs, Repeats, QueueKnown, Covered, LeftBy, Narrows;
    hide Entries, Select, Readable;
    var flags := Compact(es, written);
    compact := flags;
    ids := ReplacementIds(es, flags);
    LetOthersWrite(server, ks);
    read, since := server.db, server.others;
    ok, snapshots := TakeSnapshots(Fields(server.db, ks.Jobs()), ks, ids);
    keep := flags;
    if old(Sound(server, ks)) { SoundIsReadable(Fields(read, ks.Jobs()), ids); }
    LeftByNow(read, old(server.db), old(server.others), since);
    if !ok { return; }
    keep := LeaveOutExisting(server, ks, es, flags, snapshots);
    LeftByAgain(old(server.db), read, server.db, old(server.others), since, server.others);
    LeftByFew(read, old(server.db), old(server.others), since);
    AllFreshTaken(Fields(read, ks.Jobs()), ks, ids, snapshots);
    NarrowedCovered(ks, es, flags, keep, ids, snapshots);
    if |es| == 1 && compact[0] && !keep[0] {
      SingleLeftOut(Fields(server.db, ks.Jobs()), es, flags, ids, snapshots);
    }
    if old(server.others) == [] {
      forall i | 0 <= i < |es| && compact[i] && !keep[i] ensures es[i].id in Fields(read, ks.Jobs()) {
        assert KnownStored(Fields(read, ks.Jobs()), snapshots, es[i].id);
        if es[i].id in snapshots { SnapshotPresent(Fields(read, ks.Jobs()), ks, ids, snapshots, es[i].id); }
      }
    }
  }

  /** A single envelope that is left out is a Skip whose id was found stored just now. */
  lemma SingleLeftOut(jobs: map<string, string>, es: seq<Envelope>, compact: seq<bool>, ids: seq<string>, snapshots: Snapshots)
    requires |es| == |compact| == 1 && LeftOut(jobs, snapshots, es[0]) && forall id <- snapshots :: id in ids
    requires forall id <- ids :: exists i :: 0 <= i < |es| && es[i].id == id && ReplacesStored(es, compact, i)
    ensures es[0].Conflict() == Skip && es[0].id in jobs
  {}

  /** With nobody else writing, the compacted chunk comes to the chunk. */
  lemma CompactedAlone(db: Keyspace, ks: Keys, dest: Destination, es: seq<Envelope>, compact: seq<bool>, keep: seq<bool>,
                       written: set<string>)
    requires |compact| == |es| && Narrows(es, compact, keep) && written <= Fields(db, ks.Jobs()).Keys
    requires forall i :: 0 <= i < |es| ==> (compact[i] <==> !Repeats(es, compact, written, i))
    requires forall i :: 0 <= i < |es| && compact[i] && !keep[i] ==> es[i].id in Fields(db, ks.Jobs())
    requires forall w <- PlanAll(Fields(db, ks.Jobs()), ks, Select(es, keep)).writes :: SparesJobs(ks, dest, w)
    requires AllReady(db, ks, dest, Select(es, keep))
    ensures AllReady(db, ks, dest, es)
    ensures var (after, verdicts) := ApplyAll(db, ks, dest, Select(es, keep));
            && ApplyAll(db, ks, dest, es) == (after, Expand(keep, verdicts))
            && WrittenAfter(es, Expand(keep, verdicts), written) <= Fields(after, ks.Jobs()).Keys
  {
    hide PlanAll, ApplyAll, SparesJobs, WouldSkip, Fields, Keys.Jobs, AllReady, Select;
    CompactionSkips(Fields(db, ks.Jobs()), ks, es, compact, keep, written);
    CompactedSame(db, ks, dest, es, keep);
    ReadyExpanded(db, ks, dest, es, keep);
    WrittenStored(Fields(db, ks.Jobs()), ks, es, ApplyAll(db, ks, dest, es).1, written);
  }

  /** The stored payloads that the request replaces name their queues. */
  predicate ReadableFor(jobs: map<string, string>, es: seq<Envelope>) {
    forall e <- es :: e.Conflict() == Replace && e.id in jobs ==> Snapshot.RootQueue(jobs[e.id]).Ok?
  }

  lemma ReadableIds(jobs: map<string, string>, es: seq<Envelope>, compact: seq<bool>, ids: seq<string>)
    requires |compact| == |es|
    requires forall id <- ids :: exists i :: 0 <= i < |es| && es[i].id == id && ReplacesStored(es, compact, i)
    ensures ReadableFor(jobs, es) ==> Readable(jobs, ids)
    ensures WellFormed(jobs) ==> Readable(jobs, ids)
  {
    hide Snapshot.RootQueue;
  }

  /** One chunk. With nobody else writing, a chunk that is done has handled its envelopes one
      at a time. Whatever others write, a chunk with a unique job commits in one step, at the
      store `base`, or writes nothing; `kept` says which envelopes reached the script. */
  method EnqueueChunk(server: Server, ks: Keys, dest: Destination, es: seq<Envelope>, written: set<string>)
    returns (result: Result, outcomes: seq<Outcome>, written': set<string>,
             ghost base: Keyspace, ghost kept: seq<bool>, ghost rounds: nat)
    requires forall e <- es :: Serialized(e)
    modifies server
    ensures old(Sound(server, ks)) ==> Sound(server, ks) && result != ParseFailed
    ensures |server.others| <= |old(server.others)|
    ensures result == ParseFailed ==> !WellFormed(Fields(base, ks.Jobs()))
    ensures result == ParseFailed && old(server.others) == [] ==> !ReadableFor(Fields(old(server.db), ks.Jobs()), es)
    ensures result == Done ==> |outcomes| == |es| && written' == WrittenAfter(es, outcomes, written)
    ensures result == Done ==> NoSecondWrite(es, outcomes, written)
    ensures result == Done && old(server.others) == [] && written <= Fields(old(server.db), ks.Jobs()).Keys ==>
              && (server.db, outcomes) == ApplyAll(old(server.db), ks, dest, es) && server.others == []
              && AllReady(old(server.db), ks, dest, es) && written' <= Fields(server.db, ks.Jobs()).Keys
    ensures rounds <= 1 + |old(server.others)| - |server.others|
    ensures (exists e <- es :: e.unique) && result == Done ==>
              && LeftBy(base, old(server.db), old(server.others), server.others) && |kept| == |es|
              && outcomes == Expand(kept, PlanAll(Fields(base, ks.Jobs()), ks, Select(es, kept)).outcomes)
    ensures (exists e <- es :: e.unique) && result == Done && ReadableFor(Fields(base, ks.Jobs()), es) ==>
              && AllReady(base, ks, dest, Select(es, kept)) && server.db == ApplyAll(base, ks, dest, Select(es, kept)).0
              && outcomes == Expand(kept, ApplyAll(base, ks, dest, Select(es, kept)).1)
    ensures (exists e <- es :: e.unique) && result != Done ==>
              LeftBy(server.db, old(server.db), old(server.others), server.others)
    ensures |es| == 1 && es[0].unique && written == {} && result == Done && !kept[0] ==>
              es[0].Conflict() == Skip && es[0].id in Fields(base, ks.Jobs())
  {
    hide WellFormed, Serialized, PlanAll, ApplyAll, SparesJobs, AllTaken, AllFresh, Fields, Keys.Queue, Keys.Jobs, Repeats;
    hide Readable, ReadableFor, ReplacesStored, NoSecondWrite, WrittenAfter, LeftBy, Narrows, Covered, Entries, Select, Sound;
    hide AllReady;
    base, rounds, outcomes, written', kept := server.db, 0, [], written, [];
    if forall e <- es :: !e.unique {
      result := EnqueuePlain(server, ks, dest, es);
      outcomes := AllWritten(|es|);
      PlainWritten(es, outcomes, written);
      return;
    }
    ghost var compact, read, since;
    var ok, keep, ids, snapshots;
    ok, keep, ids, snapshots, compact, read, since := Prepare(server, ks, es, written);
    kept := keep;
    LeftByFew(server.db, read, since, server.others);
    LeftByFew(server.db, old(server.db), old(server.others), server.others);
    ReadableIds(Fields(read, ks.Jobs()), es, compact, ids);
    if !ok {
      result, base := ParseFailed, read;
      return;
    }
    var inputs := Select(es, keep);
    if |es| == 1 && written == {} { FirstIsKept(es, compact, keep); }
    result, base := Done, server.db;
    ghost var db, others := server.db, server.others;
    if inputs == [] {
      EmptyRequest(base, ks, dest);
      LeftByNow(base, old(server.db), old(server.others), others);
    } else {
      result, outcomes, base, rounds := CommitLoop(server, ks, dest, ids, snapshots, inputs, read, since);
    }
    if result == Done { LeftByFew(base, db, others, server.others); } else { LeftByFew(server.db, db, others, server.others); }
    LeftByAgain(old(server.db), db, if result == Done then base else server.db, old(server.others), others, server.others);
    ReadableIds(Fields(base, ks.Jobs()), es, compact, ids);
    if result == Done {
      CompactedOnce(es, compact, keep, outcomes, written);
      if old(server.others) == [] && written <= Fields(old(server.db), ks.Jobs()).Keys {
        CompactedAlone(base, ks, dest, es, compact, keep, written);
      }
      outcomes := Expand(keep, outcomes);
      written' := WrittenAfter(es, outcomes, written);
    }
  }

  lemma FirstIsKept(es: seq<Envelope>, compact: seq<bool>, keep: seq<bool>)
    requires |es| == |compact| == |keep| == 1
    ensures !Repeats(es, compact, {}, 0) && (!keep[0] ==> Select(es, keep) == [])
  {}

  lemma PlainWritten(es: seq<Envelope>, outcomes: seq<Outcome>, written: set<string>)
    requires |outcomes| == |es| && forall e <- es :: !e.unique
    ensures WrittenAfter(es, outcomes, written) == written && NoSecondWrite(es, outcomes, written)
  {}

  lemma EmptyRequest(db: Keyspace, ks: Keys, dest: Destination)
    ensures ApplyAll(db, ks, dest, []) == (db, []) && AllReady(db, ks, dest, [])
    ensures PlanAll(Fields(db, ks.Jobs()), ks, []) == Plan([], [], Fields(db, ks.Jobs()))
  {}

  lemma SnapshotPresent(jobs: map<string, string>, ks: Keys, ids: seq<string>, snapshots: Snapshots, id: string)
    requires AllFresh(jobs, ks, ids, snapshots) && id in ids && snapshots[id].Some?
    ensures id in jobs
  {}

  // ----- a whole request --------------------------------------------------------

  lemma WrittenAppend(a: seq<Envelope>, b: seq<Envelope>, x: seq<Outcome>, y: seq<Outcome>)
    requires |x| == |a| && |y| == |b|
    ensures WrittenAfter(a + b, x + y, {}) == WrittenAfter(b, y, WrittenAfter(a, x, {}))
  {
    var es, os, n := a + b, x + y, |a|;
    var all, later := WrittenAfter(es, os, {}), WrittenAfter(b, y, WrittenAfter(a, x, {}));
    forall id ensures id in all <==> id in later {
      if id in WrittenAfter(a, x, {}) {
        var i :| 0 <= i < n && a[i].unique && x[i] != Skipped && a[i].id == id;
        assert es[i] == a[i] && os[i] == x[i];
      }
      if i :| 0 <= i < |b| && b[i].unique && y[i] != Skipped && b[i].id == id {
        assert es[n + i] == b[i] && os[n + i] == y[i];
      }
      if i :| 0 <= i < |es| && es[i].unique && os[i] != Skipped && es[i].id == id {
        if i >= n { assert es[i] == b[i - n] && os[i] == y[i - n]; }
      }
    }
  }

  lemma NoSecondWriteAppend(a: seq<Envelope>, b: seq<Envelope>, x: seq<Outcome>, y: seq<Outcome>)
    requires |x| == |a| && |y| == |b| && NoSecondWrite(a, x, {}) && NoSecondWrite(b, y, WrittenAfter(a, x, {}))
    ensures NoSecondWrite(a + b, x + y, {}) && WrittenAfter(a + b, x + y, {}) == WrittenAfter(b, y, WrittenAfter(a, x, {}))
  {
    var es, os, n := a + b, x + y, |a|;
    forall i, j | 0 <= i < j < |es| && es[i].id == es[j].id && es[i].unique && es[j].Conflict() == Skip
      ensures os[i] == Skipped || os[j] == Skipped
    {
      if i < n <= j && os[i] != Skipped {
        assert a[i].id in WrittenAfter(a, x, {});
        assert es[j] == b[j - n] && os[j] == y[j - n];
      } else if n <= i {
        assert es[i] == b[i - n] && es[j] == b[j - n] && os[i] == y[i - n] && os[j] == y[j - n];
      } else if j < n {
        assert es[i] == a[i] && es[j] == a[j] && os[i] == x[i] && os[j] == x[j];
      }
    }
    WrittenAppend(a, b, x, y);
  }

  /** A request is sent in chunks. Whatever other clients write between two chunks, no Skip
      writes an id the request has written; with no other client it is `ApplyAll`. */
  method EnqueueList(server: Server, ks: Keys, dest: Destination, es: seq<Envelope>)
    returns (result: Result, outcomes: seq<Outcome>)
    requires forall e <- es :: Serialized(e)
    modifies server
    ensures old(Sound(server, ks)) ==> Sound(server, ks) && result != ParseFailed
    ensures result == Done ==> |outcomes| == |es| && NoSecondWrite(es, outcomes, {})
    ensures result == Done && old(server.others) == [] ==>
              (server.db, outcomes) == ApplyAll(old(server.db), ks, dest, es) && AllReady(old(server.db), ks, dest, es)
  {
    hide WellFormed, Serialized, ApplyAll, Fields, Keys.Jobs, NoSecondWrite, AllReady;
    var written: set<string> := {};
    var sent := 0;
    result, outcomes := Done, [];
    EmptyRequest(server.db, ks, dest);
    assert NoSecondWrite([], [], {}) by { NothingWritten(); }
    while sent < |es| && result == Done
      invariant sent <= |es| && |server.others| <= |old(server.others)|
      invariant old(Sound(server, ks)) ==> Sound(server, ks) && result != ParseFailed
      invariant result == Done ==>
                  |outcomes| == sent && NoSecondWrite(es[..sent], outcomes, {}) && written == WrittenAfter(es[..sent], outcomes, {})
      invariant result == Done && old(server.others) == [] ==>
                  && (server.db, outcomes) == ApplyAll(old(server.db), ks, dest, es[..sent])
                  && AllReady(old(server.db), ks, dest, es[..sent])
                  && written <= Fields(server.db, ks.Jobs()).Keys
      decreases |es| - sent, result == Done
    {
      var next := if |es| - sent <= CHUNK_SIZE then |es| else sent + CHUNK_SIZE;
      var chunk, more := es[sent..next], [];
      assert es[..next] == es[..sent] + chunk;
      if old(server.others) == [] { ApplyAppend(old(server.db), ks, dest, es[..sent], chunk); }
      ghost var base, kept, rounds;
      result, more, written, base, kept, rounds := EnqueueChunk(server, ks, dest, chunk, written);
      if result == Done {
        NoSecondWriteAppend(es[..sent], chunk, outcomes, more);
        if old(server.others) == [] { ReadyAppend(old(server.db), ks, dest, es[..sent], chunk); }
        outcomes, sent := outcomes + more, next;
      }
    }
    assert es[..|es|] == es;
  }

  lemma NothingWritten()
    ensures NoSecondWrite([], [], {}) && WrittenAfter([], [], {}) == {}
  {}

  /** The id comes back exactly when the job has been written. */
  method TryEnqueue(server: Server, ks: Keys, e: Envelope) returns (result: Result, id: Option<string>, ghost base: Keyspace)
    requires Serialized(e)
    modifies server
    ensures old(Sound(server, ks)) ==> Sound(server, ks) && result != ParseFailed
    ensures result == Done && e.unique ==>
              && LeftBy(base, old(server.db), old(server.others), server.others)
              && (id == None <==> e.Conflict() == Skip && e.id in Fields(base, ks.Jobs()))
              && if id == None then server.db == base else id == Some(e.id)
    ensures result == Done && e.unique && id != None && ReadableFor(Fields(base, ks.Jobs()), [e]) ==>
              Relocated(base, server.db, ks, ToQueue, e, OldQueue(Fields(base, ks.Jobs()), ks, e))
    ensures result == Done && !e.unique ==> id == Some(e.id)
    ensures result == Done && old(server.others) == [] ==>
              && (id == None <==> e.Conflict() == Skip && e.id in Fields(old(server.db), ks.Jobs()))
              && if id == None then server.db == old(server.db)
                 else Relocated(old(server.db), server.db, ks, ToQueue, e, OldQueue(Fields(old(server.db), ks.Jobs()), ks, e))
  {
    hide WellFormed, Serialized, Fields, Keys.Jobs, ApplyOne, ApplyAll, PlanAll, Select, Expand, NoSecondWrite, WrittenAfter;
    hide ReadableFor, LeftBy, Sound, AllReady, Relocated, OldQueue;
    ghost var kept, rounds;
    var outcomes, written;
    result, outcomes, written, base, kept, rounds := EnqueueChunk(server, ks, ToQueue, [e], {});
    id := if result == Done && (!e.unique || e.id in written) then Some(e.id) else None;
    if result == Done {
      OneEnvelope(old(server.db), ks, e);
      OneVerdict(old(server.db), ks, e);
      OneReady(old(server.db), ks, e);
      OneWritten(e, outcomes);
      if e.unique {
        assert e in [e];
        UniqueVerdict(base, ks, e, kept, outcomes, server.db);
      }
    }
  }

  lemma OneWritten(e: Envelope, outcomes: seq<Outcome>)
    requires |outcomes| == 1
    ensures WrittenAfter([e], outcomes, {}) == if e.unique && outcomes[0] != Skipped then {e.id} else {}
  {
    assert [e][0] == e;
  }

  /** What a chunk of one unique envelope says about it. */
  lemma UniqueVerdict(base: Keyspace, ks: Keys, e: Envelope, kept: seq<bool>, outcomes: seq<Outcome>, after: Keyspace)
    requires |kept| == 1 && outcomes == Expand(kept, PlanAll(Fields(base, ks.Jobs()), ks, Select([e], kept)).outcomes)
    requires !kept[0] ==> e.Conflict() == Skip && e.id in Fields(base, ks.Jobs())
    requires ReadableFor(Fields(base, ks.Jobs()), [e]) ==>
               AllReady(base, ks, ToQueue, Select([e], kept)) && after == ApplyAll(base, ks, ToQueue, Select([e], kept)).0
    ensures |outcomes| == 1 && outcomes[0] == ApplyOne(base, ks, ToQueue, e).1
    ensures outcomes[0] == Skipped ==> after == base
    ensures outcomes[0] == Skipped <==> e.Conflict() == Skip && e.id in Fields(base, ks.Jobs())
    ensures ReadableFor(Fields(base, ks.Jobs()), [e]) && outcomes[0] != Skipped ==>
              Relocated(base, after, ks, ToQueue, e, OldQueue(Fields(base, ks.Jobs()), ks, e))
  {
    hide ApplyOne, ApplyAll, PlanAll, ReadableFor, Fields, Keys.Jobs, AllReady, Relocated, OldQueue;
    OneEnvelope(base, ks, e);
    OneReady(base, ks, e);
    OneVerdict(base, ks, e);
    assert Select([e], kept) == if kept[0] then [e] else [];
  }

  lemma OneReady(db: Keyspace, ks: Keys, e: Envelope)
    ensures AllReady(db, ks, ToQueue, [e]) && ApplyOne(db, ks, ToQueue, e).1 != Skipped ==>
              Relocated(db, ApplyOne(db, ks, ToQueue, e).0, ks, ToQueue, e, OldQueue(Fields(db, ks.Jobs()), ks, e))
  {
    hide ApplyOne, Relocated, OldQueue, Fields, Keys.Jobs, Decide, Ready;
    var es := [e];
    assert es[..|es| - 1] == [] && es[|es| - 1] == e;
    if AllReady(db, ks, ToQueue, es) { OneRelocates(db, ks, ToQueue, e); }
  }

  lemma OneVerdict(db: Keyspace, ks: Keys, e: Envelope)
    ensures PlanAll(Fields(db, ks.Jobs()), ks, [e]).outcomes == [ApplyOne(db, ks, ToQueue, e).1]
    ensures PlanAll(Fields(db, ks.Jobs()), ks, []).outcomes == []
    ensures ApplyOne(db, ks, ToQueue, e).1 == Skipped <==> e.Conflict() == Skip && e.id in Fields(db, ks.Jobs())
    ensures e.Conflict() != Replace ==> ReadableFor(Fields(db, ks.Jobs()), [e])
  {
    hide Perform, StoredQueue, Fields;
    var es := [e];
    assert es[..|es| - 1] == [] && es[|es| - 1] == e;
  }

  lemma OneEnvelope(db: Keyspace, ks: Keys, e: Envelope)
    ensures var (after, outcome) := ApplyOne(db, ks, ToQueue, e);
            && ApplyAll(db, ks, ToQueue, [e]) == (after, [outcome]) && ApplyAll(db, ks, ToQueue, []) == (db, [])
            && (outcome == Skipped ==> e.unique && after == db)
  {
    hide Perform;
    var es, outcome := [e], ApplyOne(db, ks, ToQueue, e).1;
    assert es[..|es| - 1] == [] && es[|es| - 1] == e;
    assert ApplyAll(db, ks, ToQueue, es).1 == [] + [outcome] == [outcome];
  }
}
