/** The part of Redis that the scripts use: a keyspace of typed values. The functions say
    what a command does to a key of the right type; the methods of `Server` run it, and
    require that type, so that a proof about a script shows that none of its commands
    raises WRONGTYPE. */
module Redis {

  datatype Value = Hash(fields: map<string, string>) | ZSet(scores: map<string, int>) | List(items: seq<string>)

  datatype Kind = HashKind | ZSetKind | ListKind

  type Keyspace = map<string, Value>

  function KindOf(v: Value): Kind {
    match v case Hash(_) => HashKind case ZSet(_) => ZSetKind case List(_) => ListKind
  }

  predicate Fits(db: Keyspace, key: string, kind: Kind) { key !in db || KindOf(db[key]) == kind }

  function Fields(db: Keyspace, key: string): map<string, string> {
    if key in db && db[key].Hash? then db[key].fields else map[]
  }

  function Scores(db: Keyspace, key: string): map<string, int> {
    if key in db && db[key].ZSet? then db[key].scores else map[]
  }

  function Items(db: Keyspace, key: string): seq<string> {
    if key in db && db[key].List? then db[key].items else []
  }

  /** Redis drops a key with its last element. */
  function Store(db: Keyspace, key: string, v: Value): Keyspace {
    if v == Hash(map[]) || v == ZSet(map[]) || v == List([]) then db - {key} else db[key := v]
  }

  function HSet(db: Keyspace, key: string, field: string, value: string): Keyspace {
    Store(db, key, Hash(Fields(db, key)[field := value]))
  }

  function ZAdd(db: Keyspace, key: string, score: int, member: string): Keyspace {
    Store(db, key, ZSet(Scores(db, key)[member := score]))
  }

  function ZRem(db: Keyspace, key: string, member: string): Keyspace {
    Store(db, key, ZSet(Scores(db, key) - {member}))
  }

  function LPush(db: Keyspace, key: string, item: string): Keyspace {
    Store(db, key, List([item] + Items(db, key)))
  }

  function Without(items: seq<string>, item: string): (r: seq<string>)
    ensures item !in r
    ensures forall x :: x != item ==> multiset(r)[x] == multiset(items)[x]
    ensures item !in items ==> r == items
  {
    if items == [] then []
    else
      assert items == [items[0]] + items[1..];
      if items[0] == item then Without(items[1..], item) else [items[0]] + Without(items[1..], item)
  }

  /** LREM with count 0: every occurrence goes. */
  function LRem(db: Keyspace, key: string, item: string): Keyspace {
    Store(db, key, List(Without(Items(db, key), item)))
  }

  lemma Elsewhere(db: Keyspace, key: string, v: Value, other: string)
    requires other != key
    ensures Fields(Store(db, key, v), other) == Fields(db, other)
    ensures forall kind :: Fits(Store(db, key, v), other, kind) <==> Fits(db, other, kind)
  {}

  lemma HSetFields(db: Keyspace, key: string, field: string, value: string)
    ensures Fields(HSet(db, key, field, value), key) == Fields(db, key)[field := value]
  {
    assert field in Fields(db, key)[field := value];
  }

  /** `others` are the stores that writes of other clients are still to leave, in order. */
  class Server {
    var db: Keyspace
    var others: seq<Keyspace>

    /** Some of those writes land between two of our commands. */
    method Interleave()
      modifies this
      ensures |others| <= |old(others)| && others == old(others)[|old(others)| - |others|..]
      ensures db == if others == old(others) then old(db) else old(others)[|old(others)| - |others| - 1]
    {
      var n :| 0 <= n <= |others|;
      if n > 0 { db := others[n - 1]; }
      others := others[n..];
    }

    method RunHSet(key: string, field: string, value: string)
      requires Fits(db, key, HashKind)
      modifies this`db
      ensures db == HSet(old(db), key, field, value)
    {
      db := HSet(db, key, field, value);
    }

    method RunZAdd(key: string, score: int, member: string)
      requires Fits(db, key, ZSetKind)
      modifies this`db
      ensures db == ZAdd(old(db), key, score, member)
    {
      db := ZAdd(db, key, score, member);
    }

    method RunZRem(key: string, member: string)
      requires Fits(db, key, ZSetKind)
      modifies this`db
      ensures db == ZRem(old(db), key, member)
    {
      db := ZRem(db, key, member);
    }

    method RunLPush(key: string, item: string)
      requires Fits(db, key, ListKind)
      modifies this`db
      ensures db == LPush(old(db), key, item)
    {
      db := LPush(db, key, item);
    }

    method RunLRem(key: string, item: string)
      requires Fits(db, key, ListKind)
      modifies this`db
      ensures db == LRem(old(db), key, item)
    {
      db := LRem(db, key, item);
    }
  }
}
