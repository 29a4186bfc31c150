/** A queue served by its gate, dispatchers, channel, batcher and tasks together: the methods of
    `Execution`, `Batcher` and `Gate` in any order of turns. What each turn leaves behind is the
    work of later turns, and an error is noticed only by a later turn. */
module Serving {
  import opened Options
  import opened Execution
  import Batcher
  import Gate
  import Ledger

  datatype Turn =
    | Enter                                    // a dispatcher asks for a permit
    | Pop(next: Option<string>, throttled: bool)
    | Receive(batched: bool)                   // the coordinator takes a job from its channel
    | Arrive                                   // the batcher takes a job from its channel
    | TimerFires
    | Flush                                    // the batcher sees the cancellation
    | RunSpawned(i: nat, name: string, refusal: Option<string>, worker: Worker, decode: string -> Decoded, course: Course)
    | RunSingle(i: nat, worker: Worker, decode: string -> Decoded, course: Course)
    | Notice                                   // an error of a task that has ended reaches `Fail`
    | Stop                                     // cancelled from outside
    | DropChannel                              // the cancelled coordinator drops what it has not taken
    | Configure(config: Gate.Config)
    | OthersWrite(jobs: map<string, Envelope>)

  function Names(es: seq<Envelope>): multiset<string> { multiset(Ids(es)) }

  /** Every claim is held or was lost, but for ids whose claims were erased with a missing payload. */
  ghost predicate Balanced(claims: multiset<string>, held: multiset<string>, lost: multiset<string>, erased: set<string>) {
    forall id :: claims[id] <= held[id] + lost[id] && (id !in erased ==> claims[id] == held[id] + lost[id])
  }

  /** The claims of `ids` that a task has not released. */
  function Unreleased(claims: multiset<string>, claims': multiset<string>, ids: multiset<string>): multiset<string> {
    ids - (claims - claims')
  }

  lemma TaskEnds(claims: multiset<string>, claims': multiset<string>, held: multiset<string>, lost: multiset<string>,
                 erased: set<string>, ids: multiset<string>)
    requires Balanced(claims, held + ids, lost, erased) && claims - ids <= claims' <= claims
    ensures Balanced(claims', held, lost + Unreleased(claims, claims', ids), erased)
    ensures claims' == claims - ids ==> Balanced(claims', held, lost, erased)
  {}

  lemma OneMore(claims: multiset<string>, held: multiset<string>, lost: multiset<string>, erased: set<string>, id: string)
    requires Balanced(claims, held, lost, erased)
    ensures Balanced(claims + multiset{id}, held + multiset{id}, lost, erased)
    ensures Balanced(claims + multiset{id}, held, lost + multiset{id}, erased)
  {}

  lemma OneLess(claims: multiset<string>, held: multiset<string>, lost: multiset<string>, erased: set<string>, id: string)
    requires Balanced(claims, held + multiset{id}, lost, erased)
    ensures Balanced(claims, held, lost + multiset{id}, erased)
    ensures Balanced(claims[id := 0], held, lost, erased + {id})
  {}

  /** What is held in each place, taken together. */
  function Together(channel: seq<string>, buffered: multiset<string>, batched: multiset<string>, single: multiset<string>)
    : multiset<string>
  {
    multiset(channel) + buffered + batched + single
  }

  lemma TogetherSent(channel: seq<string>, a: multiset<string>, b: multiset<string>, c: multiset<string>, id: string)
    ensures Together(channel + [id], a, b, c) == Together(channel, a, b, c) + multiset{id}
  {}

  lemma AllLost(claims: multiset<string>, held: multiset<string>, lost: multiset<string>, erased: set<string>, ids: multiset<string>)
    requires Balanced(claims, held + ids, lost, erased)
    ensures Balanced(claims, held, lost + ids, erased)
  {}

  lemma TogetherMoved(channel: seq<string>, a: multiset<string>, b: multiset<string>, c: multiset<string>, ids: multiset<string>)
    ensures Together(channel, a + ids, b, c) == Together(channel, a, b, c) + ids
    ensures Together(channel, a, b + ids, c) == Together(channel, a, b, c) + ids
    ensures Together(channel, a, b, c + ids) == Together(channel, a, b, c) + ids
    ensures channel != [] ==> Together(channel, a, b, c) == Together(channel[1..], a, b, c) + multiset{channel[0]}
    ensures Together([], a, b, c) + multiset(channel) == Together(channel, a, b, c)
  {
    if channel != [] { ChannelFirst(channel); }
  }

  lemma NamesAppend(es: seq<Envelope>, fs: seq<Envelope>)
    ensures Names(es + fs) == Names(es) + Names(fs) && Names([]) == multiset{}
    ensures forall e: Envelope :: Names([e]) == multiset{e.id}
  {
    assert Ids(es + fs) == Ids(es) + Ids(fs);
    forall e: Envelope ensures Names([e]) == multiset{e.id} { assert Ids([e]) == [e.id]; }
  }

  lemma NamesSnoc(es: seq<Envelope>, e: Envelope)
    ensures Names(es + [e]) == Names(es) + multiset{e.id}
  {
    NamesAppend(es, [e]);
  }

  lemma NamesFirst(es: seq<Envelope>)
    requires es != []
    ensures Names(es) == multiset{es[0].id} + Names(es[1..])
  {
    assert es == [es[0]] + es[1..];
    NamesAppend([es[0]], es[1..]);
  }

  lemma ChannelFirst(channel: seq<string>)
    requires channel != []
    ensures multiset(channel) == multiset{channel[0]} + multiset(channel[1..])
  {
    assert channel == [channel[0]] + channel[1..];
  }

  lemma NamesWithout(es: seq<Envelope>, i: nat)
    requires i < |es|
    ensures Names(es) == Names(es[..i] + es[i + 1..]) + multiset{es[i].id}
  {
    assert Ids(es) == Ids(es[..i]) + [es[i].id] + Ids(es[i + 1..]);
    assert Ids(es[..i] + es[i + 1..]) == Ids(es[..i]) + Ids(es[i + 1..]);
  }

  lemma FlattenSnoc(batches: seq<seq<Envelope>>, batch: seq<Envelope>)
    ensures var flat := Batcher.Flatten(batches + [batch]);
            Names(flat) == Names(Batcher.Flatten(batches)) + Names(batch) && |flat| == |Batcher.Flatten(batches)| + |batch|
  {
    assert (batches + [batch])[..|batches|] == batches;
    NamesAppend(Batcher.Flatten(batches), batch);
  }

  lemma {:induction false} FlattenWithout(batches: seq<seq<Envelope>>, i: nat)
    requires i < |batches|
    ensures var rest := Batcher.Flatten(batches[..i] + batches[i + 1..]);
            && Names(Batcher.Flatten(batches)) == Names(rest) + Names(batches[i])
            && |Batcher.Flatten(batches)| == |rest| + |batches[i]|
  {
    hide Names, Batcher.Flatten;
    var n := |batches| - 1;
    var init, last, without := batches[..n], batches[n], batches[..i] + batches[i + 1..];
    assert batches == init + [last];
    FlattenSnoc(init, last);
    if i == n {
      assert without == init;
    } else {
      FlattenWithout(init, i);
      assert without == (init[..i] + init[i + 1..]) + [last];
      FlattenSnoc(init[..i] + init[i + 1..], last);
    }
  }

  type Batches = Batcher.Batches<Envelope>

  function BatcherHolds(b: Batches): multiset<string> { Names(Batcher.All(b)) }

  /** Running a spawned batch takes its jobs from the batcher. */
  lemma WithoutBatch(b: Batches, i: nat, size: nat, immediate: bool)
    requires i < |b.spawned| && Batcher.Keeps(b, Batcher.All(b), false, size, immediate)
    ensures var rest := b.(spawned := b.spawned[..i] + b.spawned[i + 1..]);
            && Batcher.Keeps(rest, Batcher.All(rest), false, size, immediate)
            && BatcherHolds(b) == BatcherHolds(rest) + Names(b.spawned[i])
            && |Batcher.All(b)| == |Batcher.All(rest)| + |b.spawned[i]|
  {
    var rest := b.(spawned := b.spawned[..i] + b.spawned[i + 1..]);
    FlattenWithout(b.spawned, i);
    NamesAppend(Batcher.Flatten(b.spawned), b.pending);
    NamesAppend(Batcher.Flatten(rest.spawned), b.pending);
  }

  function Taken(e: Batcher.Event<Envelope>): seq<Envelope> {
    match e case Arrive(job) => [job] case Cancel(buffered) => buffered case _ => []
  }

  /** What the batcher observes it takes, and nothing is lost; when it ends, another takes over. */
  lemma BatcherObserves(b: Batches, e: Batcher.Event<Envelope>, size: nat, immediate: bool)
    requires size > 0 && Batcher.Keeps(b, Batcher.All(b), false, size, immediate) && !e.Close?
    ensures var after := Batcher.Observe(b, e, size, immediate).(finished := false);
            && Batcher.Keeps(after, Batcher.All(after), false, size, immediate)
            && BatcherHolds(after) == BatcherHolds(b) + Names(Taken(e)) && |Batcher.All(after)| == |Batcher.All(b)| + |Taken(e)|
  {
    hide Batcher.Observe;
    Batcher.ObserveKeeps(b, e, Batcher.All(b), size, immediate);
    NamesAppend(Batcher.All(b), Taken(e));
  }

  /** All that the turns change. */
  datatype View = View(store: Store, cancelled: bool, errors: seq<string>, control: Gate.Control, idle: nat, channel: seq<string>,
                       buffered: seq<Envelope>, batcher: Batches, singles: seq<Envelope>,
                       lost: multiset<string>, erased: set<string>)

  function HeldIn(v: View): multiset<string> {
    Together(v.channel, Names(v.buffered), BatcherHolds(v.batcher), Names(v.singles))
  }

  /** The permits of the dispatchers and of the claims that are held. */
  function PermitsIn(v: View): nat {
    v.idle + |v.channel| + |v.buffered| + |Batcher.All(v.batcher)| + |v.singles|
  }

  function BookOf(v: View): Ledger.Book { Ledger.Book(HeldIn(v), v.idle, v.lost, |v.errors|, v.cancelled, v.control) }

  /** A turn does only what a runtime of `Claims` may do. */
  ghost predicate Allowed(v: View, w: View) { Ledger.Sanctioned(BookOf(v), BookOf(w)) }

  lemma SameBook(v: View, w: View)
    requires BookOf(w) == BookOf(v)
    ensures Allowed(v, w)
  {
    Ledger.Unchanged(BookOf(v));
  }

  lemma Stays(v: View)
    ensures Allowed(v, v)
  {
    SameBook(v, v);
  }

  lemma AllowedInTurn(u: View, v: View, w: View)
    requires Allowed(u, v) && Allowed(v, w)
    ensures Allowed(u, w)
  {
    Ledger.InTurn(BookOf(u), BookOf(v), BookOf(w));
  }

  lemma EnterBook(v: View, w: View)
    requires v.control.Open() && w == v.(idle := v.idle + 1, control := Gate.Entered(v.control))
    ensures Allowed(v, w)
  {
    Ledger.Entering(BookOf(v));
  }

  lemma ConfigureBook(v: View, w: View, config: Gate.Config)
    requires w == v.(control := Gate.Configured(v.control, config).(notified := v.control.notified + 1))
    ensures Allowed(v, w)
  {
    Ledger.Configuring(BookOf(v), config);
  }

  /** At most one more error, and the permit and the claim of one job gone. */
  lemma OneGone(v: View, w: View, id: string, dropped: bool)
    requires HeldIn(v) == HeldIn(w) + multiset{id} && w.control == Ledger.Released(v.control) && w.idle == v.idle
    requires (|w.errors| == |v.errors| || |w.errors| == |v.errors| + 1) && w.cancelled == v.cancelled
    requires w.lost == if dropped then v.lost + multiset{id} else v.lost
    requires dropped ==> w.cancelled || w.errors != []
    ensures Allowed(v, w)
  {
    hide HeldIn, Ledger.Sanctioned;
    var b1 := BookOf(v).(failures := |w.errors|);
    Ledger.Failing(BookOf(v), |w.errors|, v.cancelled);
    if dropped { Ledger.LettingGo(b1, id); } else { Ledger.Settling(b1, id); }
    assert HeldIn(w) == HeldIn(v) - multiset{id};
    Ledger.InTurn(BookOf(v), b1, BookOf(w));
  }

  /** Each permit in use comes with a dispatcher or a claim, and while the runtime goes on, a lost
      claim has an error that is still to be noticed. */
  ghost predicate Good(v: View, size: nat, immediate: bool) {
    && Keyed(v.store) && Batcher.Keeps(v.batcher, Batcher.All(v.batcher), false, size, immediate)
    && v.control.active == PermitsIn(v) && Balanced(v.store.claims, HeldIn(v), v.lost, v.erased)
    && (v.lost != multiset{} && !v.cancelled ==> v.errors != [])
  }

  lemma LostClaimBook(v: View, w: View, id: string)
    requires v.idle > 0 && w.lost == v.lost + multiset{id} && w.idle == v.idle - 1 && w.control == Ledger.Released(v.control)
    requires HeldIn(w) == HeldIn(v) && w.cancelled == v.cancelled && (v.cancelled || w.errors != [])
    requires |w.errors| == |v.errors| || |w.errors| == |v.errors| + 1
    ensures Allowed(v, w)
  {
    hide HeldIn, Ledger.Sanctioned;
    var b := BookOf(v);
    if |w.errors| == |v.errors| + 1 {
      Ledger.Missing(b, id);
    } else {
      var b1 := b.(idle := b.idle - 1, held := b.held + multiset{id});
      Ledger.Claiming(b, id);
      Ledger.LettingGo(b1, id);
      assert b1.held - multiset{id} == b.held;
      Ledger.InTurn(b, b1, BookOf(w));
    }
  }

  lemma NoClaimBook(v: View, w: View)
    requires v.idle > 0 && w.lost == v.lost && w.idle == v.idle - 1 && w.control == Ledger.Released(v.control)
    requires HeldIn(w) == HeldIn(v) && w.cancelled == v.cancelled
    requires |w.errors| == |v.errors| || |w.errors| == |v.errors| + 1
    ensures Allowed(v, w)
  {
    hide HeldIn, Ledger.Sanctioned;
    var b1 := BookOf(v).(failures := |w.errors|);
    Ledger.Failing(BookOf(v), |w.errors|, v.cancelled);
    Ledger.Returning(b1);
    Ledger.InTurn(BookOf(v), b1, BookOf(w));
  }

  lemma TaskBook(v: View, u: View, w: View, ids: multiset<string>, n: nat)
    requires HeldIn(v) == HeldIn(u) + ids && HeldIn(w) == HeldIn(u) && |ids| == n && w.idle == v.idle
    requires w.control == Ledger.ReleasedBy(v.control, n) && (v.cancelled ==> w.cancelled)
    requires |w.errors| == |v.errors| || |w.errors| == |v.errors| + 1
    requires w.lost != v.lost ==>
               (w.cancelled || w.errors != []) && w.lost == v.lost + Unreleased(v.store.claims, w.store.claims, ids)
    ensures Allowed(v, w)
  {
    hide HeldIn, Ledger.Sanctioned;
    var left := if w.lost == v.lost then multiset{} else Unreleased(v.store.claims, w.store.claims, ids);
    var b1 := BookOf(v).(failures := |w.errors|, cancelled := w.cancelled);
    Ledger.Failing(BookOf(v), |w.errors|, w.cancelled);
    Ledger.Ending(b1, ids, left);
    assert HeldIn(v) - ids == HeldIn(w) && v.lost + multiset{} == v.lost;
    assert Ledger.Ended(b1, ids, left) == BookOf(w);
    Ledger.InTurn(BookOf(v), b1, BookOf(w));
  }

  lemma NoticeBook(v: View, w: View)
    requires HeldIn(w) == HeldIn(v) && w.idle == v.idle && w.lost == v.lost && w.control == v.control
    requires |w.errors| == |v.errors| || |w.errors| + 1 == |v.errors|
    requires w.cancelled || (!v.cancelled && w.errors == v.errors)
    ensures Allowed(v, w)
  {
    hide HeldIn, Ledger.Sanctioned;
    if |w.errors| == |v.errors| { Ledger.Failing(BookOf(v), |w.errors|, w.cancelled); } else { Ledger.Noticing(BookOf(v)); }
  }

  lemma DropBook(v: View, w: View)
    requires HeldIn(v) == HeldIn(w) + multiset(v.channel) && w.idle == 0 && w.lost == v.lost + multiset(v.channel)
    requires w.control == Ledger.ReleasedBy(v.control, |v.channel| + v.idle) && v.cancelled && w.cancelled
    requires |w.errors| == |v.errors|
    ensures Allowed(v, w)
  {
    hide HeldIn, Ledger.Sanctioned;
    var ids := multiset(v.channel);
    var b1 := Ledger.Ended(BookOf(v), ids, ids);
    Ledger.Ending(BookOf(v), ids, ids);
    Ledger.AllReturning(b1, v.idle);
    assert HeldIn(v) - ids == HeldIn(w) && |ids| == |v.channel|;
    Ledger.InTurn(BookOf(v), b1, BookOf(w));
  }

  /** A dispatcher has sent the job it claimed to the coordinator. */
  lemma AfterHanded(v: View, w: View, id: string, size: nat, immediate: bool)
    requires Good(v, size, immediate) && v.idle > 0 && Keyed(w.store)
    requires w == v.(store := w.store, idle := v.idle - 1, channel := v.channel + [id])
    requires w.store.claims == v.store.claims + multiset{id}
    ensures Good(w, size, immediate) && Allowed(v, w)
  {
    hide Batcher.Keeps, BatcherHolds, Names, Batcher.All, Balanced, Together, Keyed;
    OneMore(v.store.claims, HeldIn(v), v.lost, v.erased, id);
    TogetherSent(v.channel, Names(v.buffered), BatcherHolds(v.batcher), Names(v.singles), id);
    assert HeldIn(w) == HeldIn(v) + multiset{id};
    Ledger.Claiming(BookOf(v), id);
  }

  /** It has not, and the claim was made all the same. */
  lemma AfterLostClaim(v: View, w: View, id: string, size: nat, immediate: bool)
    requires Good(v, size, immediate) && v.idle > 0 && Keyed(w.store) && (v.cancelled || w.errors != [])
    requires w == v.(store := w.store, errors := w.errors, idle := v.idle - 1,
                     control := Ledger.Released(v.control), lost := v.lost + multiset{id})
    requires w.store.claims == v.store.claims + multiset{id}
    requires |w.errors| == |v.errors| || |w.errors| == |v.errors| + 1
    ensures Good(w, size, immediate) && Allowed(v, w)
  {
    hide Batcher.Keeps, BatcherHolds, Names, Batcher.All, Balanced, Together, Keyed;
    OneMore(v.store.claims, HeldIn(v), v.lost, v.erased, id);
    LostClaimBook(v, w, id);
  }

  lemma AfterNoClaim(v: View, w: View, size: nat, immediate: bool)
    requires Good(v, size, immediate) && v.idle > 0 && Keyed(w.store) && (v.errors != [] ==> w.errors != [])
    requires w == v.(store := w.store, errors := w.errors, idle := v.idle - 1, control := Ledger.Released(v.control))
    requires w.store.claims == v.store.claims
    requires |w.errors| == |v.errors| || |w.errors| == |v.errors| + 1
    ensures Good(w, size, immediate) && Allowed(v, w)
  {
    hide Batcher.Keeps, BatcherHolds, Names, Batcher.All, Balanced, Together, Keyed;
    NoClaimBook(v, w);
  }

  lemma FoundHeld(v: View, e: Envelope)
    requires v.channel != [] && e.id == v.channel[0]
    ensures HeldIn(v.(channel := v.channel[1..], buffered := v.buffered + [e])) == HeldIn(v)
    ensures HeldIn(v.(channel := v.channel[1..], singles := v.singles + [e])) == HeldIn(v)
  {
    hide BatcherHolds, Names, Together;
    TogetherMoved(v.channel, Names(v.buffered), BatcherHolds(v.batcher), Names(v.singles), multiset{e.id});
    TogetherMoved(v.channel[1..], Names(v.buffered), BatcherHolds(v.batcher), Names(v.singles), multiset{e.id});
    NamesSnoc(v.buffered, e);
    NamesSnoc(v.singles, e);
  }

  /** The payload of the first job in the channel was read. */
  lemma AfterFound(v: View, w: View, e: Envelope, batched: bool, size: nat, immediate: bool)
    requires Good(v, size, immediate) && v.channel != [] && e.id == v.channel[0]
    requires w == if batched then v.(channel := v.channel[1..], buffered := v.buffered + [e])
                  else v.(channel := v.channel[1..], singles := v.singles + [e])
    ensures Good(w, size, immediate) && Allowed(v, w)
  {
    hide Batcher.Keeps, Batcher.All, Balanced, Keyed, Allowed, HeldIn;
    FoundHeld(v, e);
    SameBook(v, w);
  }

  /** It was not, or could not be. */
  lemma AfterLost(v: View, w: View, size: nat, immediate: bool)
    requires Good(v, size, immediate) && v.channel != [] && (v.cancelled || w.errors != [])
    requires w == v.(channel := v.channel[1..], control := Ledger.Released(v.control), errors := w.errors,
                     lost := v.lost + multiset{v.channel[0]})
    requires |w.errors| == |v.errors| || |w.errors| == |v.errors| + 1
    ensures Good(w, size, immediate) && Allowed(v, w)
  {
    hide Batcher.Keeps, BatcherHolds, Names, Batcher.All, Balanced, Together, Keyed;
    TogetherMoved(v.channel, Names(v.buffered), BatcherHolds(v.batcher), Names(v.singles), multiset{});
    OneLess(v.store.claims, HeldIn(w), v.lost, v.erased, v.channel[0]);
    OneGone(v, w, v.channel[0], true);
  }

  /** It was missing, and all claims of the job went with what was left of it. */
  lemma AfterErased(v: View, w: View, size: nat, immediate: bool)
    requires Good(v, size, immediate) && v.channel != [] && (v.errors != [] ==> w.errors != [])
    requires w == v.(channel := v.channel[1..], control := Ledger.Released(v.control), errors := w.errors,
                     store := Deleted(v.store, v.channel[0]),
                     erased := v.erased + {v.channel[0]})
    requires |w.errors| == |v.errors| || |w.errors| == |v.errors| + 1
    ensures Good(w, size, immediate) && Allowed(v, w)
  {
    hide Batcher.Keeps, BatcherHolds, Names, Batcher.All, Balanced, Together;
    TogetherMoved(v.channel, Names(v.buffered), BatcherHolds(v.batcher), Names(v.singles), multiset{});
    OneLess(v.store.claims, HeldIn(w), v.lost, v.erased, v.channel[0]);
    OneGone(v, w, v.channel[0], false);
  }

  /** What is left on the way to the batcher. */
  function Rest(buffered: seq<Envelope>, e: Batcher.Event<Envelope>): seq<Envelope>
    requires e.Arrive? ==> buffered != []
  {
    if e.Arrive? then buffered[1..] else if e.Cancel? then [] else buffered
  }

  lemma RestAndTaken(buffered: seq<Envelope>, e: Batcher.Event<Envelope>)
    requires e.Arrive? ==> buffered != [] && e.job == buffered[0]
    requires e.Cancel? ==> e.buffered == buffered
    ensures Names(buffered) == Names(Rest(buffered, e)) + Names(Taken(e)) && |buffered| == |Rest(buffered, e)| + |Taken(e)|
  {
    hide Names;
    NamesAppend(buffered, []);
    if e.Arrive? { NamesFirst(buffered); }
  }

  lemma AfterObserve(v: View, w: View, e: Batcher.Event<Envelope>, size: nat, immediate: bool)
    requires Good(v, size, immediate) && size > 0 && !e.Close?
    requires e.Arrive? ==> v.buffered != [] && e.job == v.buffered[0]
    requires e.Cancel? ==> e.buffered == v.buffered
    requires w == v.(batcher := Batcher.Observe(v.batcher, e, size, immediate).(finished := false), buffered := Rest(v.buffered, e))
    ensures Good(w, size, immediate) && HeldIn(w) == HeldIn(v) && Allowed(v, w)
  {
    hide Batcher.Keeps, BatcherHolds, Names, Batcher.All, Batcher.Observe, Balanced, Together, Keyed, Rest, Taken;
    BatcherObserves(v.batcher, e, size, immediate);
    RestAndTaken(v.buffered, e);
    TogetherMoved(v.channel, Names(w.buffered), BatcherHolds(v.batcher), Names(v.singles), Names(Taken(e)));
    SameBook(v, w);
  }

  lemma OthersWrote(v: View, w: View, size: nat, immediate: bool)
    requires Good(v, size, immediate) && w == v.(store := w.store)
    requires w.store.claims == v.store.claims && Keyed(w.store)
    ensures Good(w, size, immediate) && Allowed(v, w)
  {
    hide Batcher.Keeps, BatcherHolds, Names, Batcher.All, Balanced, Together;
    SameBook(v, w);
  }

  /** A task has ended; what is left of its claims is lost unless it went well. */
  lemma AfterTask(v: View, u: View, w: View, ids: multiset<string>, n: nat, size: nat, immediate: bool)
    requires Good(v, size, immediate) && Confined(v.store, w.store, ids)
    requires u == v.(batcher := u.batcher, singles := u.singles) && HeldIn(v) == HeldIn(u) + ids && PermitsIn(v) == PermitsIn(u) + n
    requires Batcher.Keeps(u.batcher, Batcher.All(u.batcher), false, size, immediate)
    requires w == u.(store := w.store, cancelled := w.cancelled, errors := w.errors,
                     control := Ledger.ReleasedBy(v.control, n), lost := w.lost)
    requires (v.cancelled ==> w.cancelled) && (w.errors == v.errors || w.errors != [])
    requires if w.cancelled || w.errors != v.errors then w.lost == v.lost + Unreleased(v.store.claims, w.store.claims, ids)
             else w.lost == v.lost && w.store.claims == v.store.claims - ids
    requires |ids| == n && (|w.errors| == |v.errors| || |w.errors| == |v.errors| + 1)
    ensures Good(w, size, immediate) && Allowed(v, w)
  {
    hide Batcher.Keeps, BatcherHolds, Names, Batcher.All, Balanced, Together, Unreleased;
    TaskEnds(v.store.claims, w.store.claims, HeldIn(u), v.lost, v.erased, ids);
    TaskBook(v, u, w, ids, n);
  }

  lemma AfterNotice(v: View, w: View, size: nat, immediate: bool)
    requires Good(v, size, immediate) && w == v.(store := w.store, cancelled := w.cancelled, errors := w.errors)
    requires w.store.claims == v.store.claims && Keyed(w.store)
    requires w.cancelled || (!v.cancelled && w.errors == v.errors)
    requires |w.errors| == |v.errors| || |w.errors| + 1 == |v.errors|
    ensures Good(w, size, immediate) && Allowed(v, w)
  {
    hide Batcher.Keeps, BatcherHolds, Names, Batcher.All, Balanced, Together;
    NoticeBook(v, w);
  }

  lemma AfterDrop(v: View, w: View, size: nat, immediate: bool)
    requires Good(v, size, immediate) && v.cancelled
    requires w == v.(control := Ledger.ReleasedBy(v.control, |v.channel| + v.idle), idle := 0, channel := [],
                     lost := v.lost + multiset(v.channel))
    ensures Good(w, size, immediate) && Allowed(v, w)
  {
    hide Batcher.Keeps, BatcherHolds, Names, Batcher.All, Balanced, Together, Keyed;
    TogetherMoved(v.channel, Names(v.buffered), BatcherHolds(v.batcher), Names(v.singles), multiset{});
    AllLost(v.store.claims, HeldIn(w), v.lost, v.erased, multiset(v.channel));
    DropBook(v, w);
  }

  class Coordinator {
    const rt: Runtime
    const gate: Gate.QueueControl
    const size: nat
    const immediate: bool
    var idle: nat                                // dispatchers that have a permit and no claim
    var channel: seq<string>                     // from the dispatchers
    var buffered: seq<Envelope>                  // on their way to the batcher
    var batcher: Batches                         // with the batches that are spawned and have still to run
    var singles: seq<Envelope>                   // spawned jobs that are not batched
    ghost var lost: multiset<string>
    ghost var erased: set<string>

    ghost function Now(): View
      reads this, rt, gate
    {
      View(rt.store, rt.cancelled, rt.errors, gate.Value(), idle, channel, buffered, batcher, singles, lost, erased)
    }

    ghost predicate Valid()
      reads this, rt, gate
    {
      size > 0 && Good(Now(), size, immediate)
    }

    constructor (rt: Runtime, gate: Gate.QueueControl, size: nat, immediate: bool)
      requires size > 0 && Keyed(rt.store) && rt.store.claims == multiset{} && gate.active == 0
      ensures Valid() && this.rt == rt && this.gate == gate && lost == multiset{} && erased == {} && HeldIn(Now()) == multiset{}
      ensures BookOf(Now()) == Ledger.Book(multiset{}, 0, multiset{}, |rt.errors|, rt.cancelled, gate.Value())
    {
      this.rt, this.gate, this.size, this.immediate := rt, gate, size, immediate;
      idle, channel, buffered, singles := 0, [], [], [];
      batcher := Batcher.Nothing();
      lost, erased := multiset{}, {};
      new;
      NamesAppend([], []);
    }

    /** The permits of a task go back to the gate when it ends. */
    method Release(n: nat)
      modifies gate
      ensures gate.Value() == Ledger.ReleasedBy(old(gate.Value()), n)
    {
      for i := 0 to n
        invariant gate.Value() == Ledger.ReleasedBy(old(gate.Value()), i)
      {
        gate.Leave();
        gate.NotifyWaiters();
      }
    }

    method Enter()
      requires Valid()
      modifies this`idle, gate
      ensures Allowed(old(Now()), Now())
      ensures Valid() && idle <= old(idle) + 1
    {
      hide Allowed;
      ghost var v := Now();
      Stays(v);
      if rt.cancelled { return; }
      var granted := gate.TryEnter();
      if granted {
        idle := idle + 1;
        EnterBook(v, Now());
      }
    }

    method Pop(next: Option<string>, throttled: bool)
      requires Valid()
      modifies this, gate, rt
      ensures Allowed(old(Now()), Now())
      ensures Valid() && erased == old(erased)
    {
      hide Good, Smooth, Keyed, Allowed;
      Stays(Now());
      if idle == 0 { return; }
      ghost var v := Now();
      assert v.control.active >= v.idle by { Covered(v, size, immediate); }
      var handed := rt.Dispatch(next, throttled);
      idle := idle - 1;
      assert Keyed(rt.store) by { SameKeyed(v, rt.store, size, immediate); }
      if handed.Some? {
        channel := channel + [handed.value];
        AfterHanded(v, Now(), handed.value, size, immediate);
      } else {
        Unhanded(next, v);
      }
    }

    /** The permit of a dispatcher that has handed nothing on is given back. */
    method Unhanded(ghost next: Option<string>, ghost v: View)
      requires size > 0 && Good(v, size, immediate) && v.idle > 0 && gate.active > 0 && Keyed(rt.store)
      requires Now() == v.(store := rt.store, errors := rt.errors, idle := v.idle - 1)
      requires |rt.errors| == |v.errors| || |rt.errors| == |v.errors| + 1
      requires rt.store.claims == v.store.claims
               || (next.Some? && rt.store.claims == v.store.claims + multiset{next.value} && (v.cancelled || rt.errors != []))
      modifies this`lost, gate
      ensures Allowed(v, Now())
      ensures Valid() && erased == old(erased)
    {
      hide Good, Keyed, Allowed;
      Release(1);
      if rt.store.claims != v.store.claims {
        lost := lost + multiset{next.value};
        AfterLostClaim(v, Now(), next.value, size, immediate);
      } else {
        AfterNoClaim(v, Now(), size, immediate);
      }
    }

    /** The payload is read: the job goes on to the batcher or to a task of its own, or its claim
        was erased with the missing payload, or is lost. */
    method Receive(batched: bool)
      requires Valid()
      modifies this, gate, rt
      ensures Allowed(old(Now()), Now())
      ensures Valid()
      ensures forall id <- erased :: id in old(erased) || (old(channel) != [] && id == old(channel)[0] && id !in old(rt.store.jobs))
    {
      hide Good, Smooth, Deleted, Keyed, Allowed;
      Stays(Now());
      if channel == [] { return; }
      ghost var v := Now();
      assert v.control.active >= |v.channel| by { Covered(v, size, immediate); }
      var id := channel[0];
      channel := channel[1..];
      KeyedIs(v, id, size, immediate);
      var ok, found := rt.LoadPendingJob(id);
      match found {
        case Some(e) =>
          if batched { buffered := buffered + [e]; } else { singles := singles + [e]; }
          AfterFound(v, Now(), e, batched, size, immediate);
        case None => Missing(ok, v);
      }
    }

    /** The payload was missing, or could not be read: the permit is given back. */
    method Missing(ok: bool, ghost v: View)
      requires size > 0 && Good(v, size, immediate) && v.channel != [] && gate.active > 0
      requires Now() == v.(store := rt.store, channel := v.channel[1..])
      requires rt.store == v.store || rt.store == Deleted(v.store, v.channel[0])
      requires ok && !v.cancelled ==> rt.store == Deleted(v.store, v.channel[0])
      modifies this`lost, this`erased, gate, rt`errors
      ensures Allowed(v, Now())
      ensures Valid()
      ensures forall id <- erased :: id in old(erased) || (id == v.channel[0] && ((ok && !v.cancelled) || rt.store != v.store))
    {
      hide Good, Deleted, Keyed, Allowed;
      ghost var id := v.channel[0];
      if !ok { rt.Raise("job failed"); }
      Release(1);
      if (ok && !rt.cancelled) || rt.store != v.store {
        erased := erased + {id};
        AfterErased(v, Now(), size, immediate);
      } else {
        lost := lost + multiset{id};
        AfterLost(v, Now(), size, immediate);
      }
    }

    method Observe(e: Batcher.Event<Envelope>)
      requires Valid() && !e.Close?
      requires e.Arrive? ==> buffered != [] && e.job == buffered[0]
      requires e.Cancel? ==> e.buffered == buffered
      modifies this`batcher, this`buffered
      ensures Allowed(old(Now()), Now())
      ensures Valid() && HeldIn(Now()) == old(HeldIn(Now()))
    {
      hide Good, HeldIn, Batcher.Observe, Allowed;
      ghost var v := Now();
      batcher := Batcher.Observe(batcher, e, size, immediate).(finished := false);
      buffered := Rest(buffered, e);
      AfterObserve(v, Now(), e, size, immediate);
    }

    /** A spawned batch runs to its end. */
    method RunSpawned(i: nat, name: string, refusal: Option<string>, worker: Worker, decode: string -> Decoded, course: Course)
      requires Valid()
      modifies this, gate, rt
      ensures Allowed(old(Now()), Now())
      ensures Valid() && erased == old(erased)
    {
      hide Good, Smooth, Confined, Ids, Unreleased, HeldIn, PermitsIn, Batcher.Keeps, Batcher.All, Allowed;
      Stays(Now());
      if i >= |batcher.spawned| { return; }
      ghost var v := Now();
      var batch := batcher.spawned[i];
      batcher := batcher.(spawned := batcher.spawned[..i] + batcher.spawned[i + 1..]);
      ghost var u := Now();
      SpawnedTaken(v, u, i, size, immediate);
      rt.RunBatchTask(name, refusal, worker, batch, decode, course);
      Finish(v, u, Names(batch), |batch|);
    }

    /** A task that has taken these claims from `v`, which leaves `u`, has ended. */
    method Finish(ghost v: View, ghost u: View, ghost ids: multiset<string>, n: nat)
      requires size > 0 && Good(v, size, immediate) && Confined(v.store, rt.store, ids) && |ids| == n && v.control.active >= n
      requires u == v.(batcher := u.batcher, singles := u.singles) && HeldIn(v) == HeldIn(u) + ids && PermitsIn(v) == PermitsIn(u) + n
      requires Batcher.Keeps(u.batcher, Batcher.All(u.batcher), false, size, immediate)
      requires Now() == u.(store := rt.store, cancelled := rt.cancelled, errors := rt.errors)
      requires (v.cancelled ==> rt.cancelled) && (|rt.errors| == |v.errors| || |rt.errors| == |v.errors| + 1)
      requires !rt.cancelled && rt.errors == v.errors ==> rt.store.claims == v.store.claims - ids
      requires rt.errors == v.errors || |rt.errors| > |v.errors|
      modifies this`lost, gate
      ensures Allowed(v, Now())
      ensures Valid()
    {
      hide Good, Confined, Unreleased, HeldIn, PermitsIn, Batcher.Keeps, Batcher.All, Allowed;
      if rt.cancelled || rt.errors != v.errors {
        lost := lost + Unreleased(v.store.claims, rt.store.claims, ids);
      }
      Release(n);
      AfterTask(v, u, Now(), ids, n, size, immediate);
    }

    method RunSingle(i: nat, worker: Worker, decode: string -> Decoded, course: Course)
      requires Valid()
      modifies this, gate, rt
      ensures Allowed(old(Now()), Now())
      ensures Valid() && erased == old(erased)
    {
      hide Good, Smooth, Confined, Ids, Unreleased, HeldIn, PermitsIn, Batcher.Keeps, Batcher.All, Allowed;
      Stays(Now());
      if i >= |singles| { return; }
      ghost var v := Now();
      var e := singles[i];
      singles := singles[..i] + singles[i + 1..];
      ghost var u := Now();
      SingleTaken(v, u, i, size, immediate);
      rt.RunJobTask(worker, e, decode, course);
      Finish(v, u, multiset{e.id}, 1);
    }

    method Notice()
      requires Valid()
      modifies rt
      ensures Allowed(old(Now()), Now())
      ensures Valid() && (old(rt.errors) != [] ==> rt.cancelled)
    {
      hide Good, Allowed;
      ghost var v := Now();
      Stays(v);
      KeyedIs(v, "", size, immediate);
      rt.Deliver();
      if old(rt.errors) != [] { AfterNotice(v, Now(), size, immediate); }
    }

    /** The cancelled coordinator and its dispatchers give back what they have not passed on. */
    method DropChannel()
      requires Valid()
      modifies this, gate
      ensures Allowed(old(Now()), Now())
      ensures Valid() && erased == old(erased) && (rt.cancelled ==> channel == [] && idle == 0)
    {
      hide Good, Allowed;
      Stays(Now());
      if !rt.cancelled { return; }
      ghost var v := Now();
      Covered(v, size, immediate);
      lost := lost + multiset(channel);
      Release(|channel| + idle);
      channel, idle := [], 0;
      AfterDrop(v, Now(), size, immediate);
    }

    /** Jobs come and go in Redis by the hands of others. */
    method OthersWrite(jobs: map<string, Envelope>)
      requires Valid() && forall id <- jobs :: jobs[id].id == id
      modifies rt`store
      ensures Allowed(old(Now()), Now())
      ensures Valid()
    {
      hide Good;
      ghost var v := Now();
      rt.store := rt.store.(jobs := jobs);
      OthersWrote(v, Now(), size, immediate);
    }

    method Stop()
      requires Valid()
      modifies rt`cancelled
      ensures Allowed(old(Now()), Now())
      ensures Valid() && rt.cancelled
    {
      hide Good;
      ghost var v := Now();
      KeyedIs(v, "", size, immediate);
      rt.cancelled := true;
      AfterNotice(v, Now(), size, immediate);
    }

    method Configure(config: Gate.Config)
      requires Valid()
      modifies gate
      ensures Allowed(old(Now()), Now())
      ensures Valid()
    {
      hide Allowed;
      ghost var v := Now();
      gate.ApplyConfig(config);
      gate.NotifyWaiters();
      ConfigureBook(v, Now(), config);
    }

    method Take(turn: Turn)
      requires Valid() && (turn.OthersWrite? ==> forall id <- turn.jobs :: turn.jobs[id].id == id)
      modifies this, gate, rt
      ensures Allowed(old(Now()), Now())
      ensures Valid()
      ensures forall id <- erased ::
                || id in old(erased)
                || (turn.Receive? && old(channel) != [] && id == old(channel)[0] && id !in old(rt.store.jobs))
    {
      hide Good, Allowed;
      Stays(Now());
      match turn {
        case Enter => Enter();
        case Pop(next, throttled) => Pop(next, throttled);
        case Receive(batched) => Receive(batched);
        case Arrive => if buffered != [] { Observe(Batcher.Arrive(buffered[0])); }
        case TimerFires => Observe(Batcher.Timer);
        case Flush => if rt.cancelled { Observe(Batcher.Cancel(buffered)); }
        case RunSpawned(i, name, refusal, worker, decode, course) => RunSpawned(i, name, refusal, worker, decode, course);
        case RunSingle(i, worker, decode, course) => RunSingle(i, worker, decode, course);
        case Notice => Notice();
        case Stop => Stop();
        case DropChannel => DropChannel();
        case Configure(config) => Configure(config);
        case OthersWrite(jobs) => OthersWrite(jobs);
      }
    }

    /** Any turns in any order. While the runtime is not cancelled and no error is still to be
        noticed, the claims in Redis are exactly those that are held, each as often, but for ids
        whose claims were erased with a missing payload; and the gate counts every one of them. */
    method Serve(turns: seq<Turn>)
      requires Valid() && forall turn <- turns :: turn.OthersWrite? ==> forall id <- turn.jobs :: turn.jobs[id].id == id
      modifies this, gate, rt
      ensures Allowed(old(Now()), Now())
      ensures Valid() && gate.active == PermitsIn(Now())
      ensures !rt.cancelled && rt.errors == [] ==> forall id :: id !in erased ==> rt.store.claims[id] == HeldIn(Now())[id]
      ensures forall id :: rt.store.claims[id] <= HeldIn(Now())[id] + lost[id]
    {
      hide Batcher.Keeps, HeldIn, PermitsIn, Keyed, Allowed;
      Stays(Now());
      for i := 0 to |turns|
        invariant Valid() && Allowed(old(Now()), Now())
      {
        ghost var before := Now();
        Take(turns[i]);
        AllowedInTurn(old(Now()), before, Now());
      }
    }
  }

  lemma Covered(v: View, size: nat, immediate: bool)
    requires Good(v, size, immediate)
    ensures v.control.active >= v.idle + |v.channel|
  {}

  lemma KeyedIs(v: View, id: string, size: nat, immediate: bool)
    requires Good(v, size, immediate)
    ensures (id in v.store.jobs ==> v.store.jobs[id].id == id) && Keyed(v.store)
  {}

  lemma SameKeyed(v: View, store: Store, size: nat, immediate: bool)
    requires Good(v, size, immediate) && store.jobs == v.store.jobs
    ensures Keyed(store)
  {}

  lemma SpawnedTaken(v: View, u: View, i: nat, size: nat, immediate: bool)
    requires Good(v, size, immediate) && i < |v.batcher.spawned|
    requires u == v.(batcher := v.batcher.(spawned := v.batcher.spawned[..i] + v.batcher.spawned[i + 1..]))
    ensures var batch := v.batcher.spawned[i];
            && HeldIn(v) == HeldIn(u) + Names(batch) && PermitsIn(v) == PermitsIn(u) + |batch| && v.control.active >= |batch|
            && Batcher.Keeps(u.batcher, Batcher.All(u.batcher), false, size, immediate)
            && Names(batch) == multiset(Ids(batch)) && |Names(batch)| == |batch|
  {
    hide Batcher.Keeps, BatcherHolds, Batcher.All, Balanced, Together, Keyed;
    WithoutBatch(v.batcher, i, size, immediate);
    TogetherMoved(v.channel, Names(v.buffered), BatcherHolds(u.batcher), Names(v.singles), Names(v.batcher.spawned[i]));
  }

  lemma SingleTaken(v: View, u: View, i: nat, size: nat, immediate: bool)
    requires Good(v, size, immediate) && i < |v.singles|
    requires u == v.(singles := v.singles[..i] + v.singles[i + 1..])
    ensures && HeldIn(v) == HeldIn(u) + multiset{v.singles[i].id} && PermitsIn(v) == PermitsIn(u) + 1 && v.control.active >= 1
            && Batcher.Keeps(u.batcher, Batcher.All(u.batcher), false, size, immediate)
  {
    hide Batcher.Keeps, BatcherHolds, Batcher.All, Balanced, Together, Keyed, Names;
    NamesWithout(v.singles, i);
    TogetherMoved(v.channel, Names(v.buffered), BatcherHolds(v.batcher), Names(u.singles), multiset{v.singles[i].id});
  }
}
