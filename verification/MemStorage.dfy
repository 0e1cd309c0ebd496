/** The in-memory store: databases of ordered string entries, each with a 32-bit byte counter. */
module MemStorage {
  import opened Messages
  import opened Strings
  import opened Words

  const MAX_KEY_SIZE: nat := 4096
  const MAX_VALUE_SIZE: nat := 256000

  type Entries = map<string, string>

  /** All databases; one that is missing is empty. */
  type Stores = map<string, Entries>

  function At(w: Stores, uuid: string): Entries { if uuid in w then w[uuid] else map[] }

  datatype Db = Db(counter: nat, entries: Entries)

  datatype Result = Ok | Exists | NotFound | ValueTooLarge | KeyTooLarge

  function CreateResult(m: Entries, key: string, value: string): Result
  {
    if |value| > MAX_VALUE_SIZE then ValueTooLarge
    else if |key| > MAX_KEY_SIZE then KeyTooLarge
    else if key in m then Exists
    else Ok
  }

  function UpdateResult(m: Entries, key: string, value: string): Result
  {
    if |value| > MAX_VALUE_SIZE then ValueTooLarge else if key in m then Ok else NotFound
  }

  // ---- Sizes ----

  /** The bytes of all keys and values. */
  ghost function Bytes(m: Entries): nat
    decreases |m|
  {
    if m == map[] then 0
    else
      var k :| k in m;
      assert m.Keys == (m - {k}).Keys + {k};
      |k| + |m[k]| + Bytes(m - {k})
  }

  lemma {:induction false} BytesWithout(m: Entries, k: string)
    requires k in m
    ensures Bytes(m) == |k| + |m[k]| + Bytes(m - {k})
    decreases |m|
  {
    var j :| j in m && Bytes(m) == |j| + |m[j]| + Bytes(m - {j});
    if j != k {
      assert m.Keys == (m - {j}).Keys + {j} && m.Keys == (m - {k}).Keys + {k};
      BytesWithout(m - {j}, k);
      BytesWithout(m - {k}, j);
      assert m - {j} - {k} == m - {k} - {j};
    }
  }

  lemma BytesPut(m: Entries, k: string, v: string)
    ensures Bytes(m[k := v]) == |k| + |v| + Bytes(m - {k})
    ensures k !in m ==> m - {k} == m
  {
    BytesWithout(m[k := v], k);
    assert m[k := v] - {k} == m - {k};
    if k !in m { assert m - {k} == m; }
  }

  /** The counter is the number of bytes modulo 2^32. */
  ghost predicate Exact(db: Db) { db.counter == Bytes(db.entries) % U32 }

  /** The three ways the counter is moved; uint32_t addition and subtraction. */
  function Insert(db: Db, k: string, v: string): Db
  {
    Db((db.counter + (|v| + |k|)) % U32, db.entries[k := v])
  }

  function Replace(db: Db, k: string, v: string): Db
    requires k in db.entries
  {
    Db(((db.counter - |db.entries[k]|) % U32 + |v|) % U32, db.entries[k := v])
  }

  function Erase(db: Db, k: string): Db
    requires k in db.entries
  {
    Db((db.counter - (|db.entries[k]| + |k|)) % U32, db.entries - {k})
  }

  lemma Wraps(total: int, change: int)
    ensures (total % U32 + change) % U32 == (total + change) % U32
  {
  }

  lemma InsertExact(db: Db, k: string, v: string)
    requires Exact(db) && k !in db.entries
    ensures Exact(Insert(db, k, v))
  {
    BytesPut(db.entries, k, v);
    Wraps(Bytes(db.entries), |v| + |k|);
  }

  lemma ReplaceExact(db: Db, k: string, v: string)
    requires Exact(db) && k in db.entries
    ensures Exact(Replace(db, k, v))
  {
    var size := |db.entries[k]|;
    BytesWithout(db.entries, k);
    BytesPut(db.entries, k, v);
    Wraps(Bytes(db.entries), -size);
    Wraps(Bytes(db.entries) - size, |v|);
  }

  lemma EraseExact(db: Db, k: string)
    requires Exact(db) && k in db.entries
    ensures Exact(Erase(db, k))
  {
    BytesWithout(db.entries, k);
    Wraps(Bytes(db.entries), -(|db.entries[k]| + |k|));
  }

  /** The counter can be trusted exactly as long as the database is smaller than 4 GiB. */
  lemma CounterIsBytesIff(db: Db)
    requires Exact(db)
    ensures db.counter == Bytes(db.entries) <==> Bytes(db.entries) < U32
  {
    if db.counter == Bytes(db.entries) { assert Bytes(db.entries) % U32 < U32; }
  }

  // ---- Ranges ----

  /** An empty last means no upper bound. */
  predicate InRange(first: string, last: string, k: string)
  {
    !Less(k, first) && (last == "" || Less(k, last))
  }

  type Condition = Option<(string, string) -> bool>

  function Matches(m: Entries, first: string, last: string, condition: Condition): set<string>
  {
    set k | k in m && InRange(first, last, k) && (condition.None? || condition.value(k, m[k]))
  }

  /** ks are the members of s in key order. */
  ghost predicate Listing(ks: seq<string>, s: set<string>)
  {
    && (forall k :: k in ks <==> k in s)
    && (forall i, j | 0 <= i < j < |ks| :: Less(ks[i], ks[j]))
  }

  /** A set has one listing, as long as the set is large. */
  lemma {:induction false} ListingIsUnique(a: seq<string>, b: seq<string>, s: set<string>)
    requires Listing(a, s) && Listing(b, s)
    ensures a == b && |a| == |s|
    decreases |a|
  {
    EmptyListing(a, s);
    EmptyListing(b, s);
    if a != [] {
      HeadIsLeast(a, b, s);
      var rest := s - {a[0]};
      TailListing(a, s);
      TailListing(b, s);
      ListingIsUnique(a[1..], b[1..], rest);
    }
  }

  lemma EmptyListing(a: seq<string>, s: set<string>)
    requires Listing(a, s)
    ensures a == [] <==> s == {}
  {
    if a != [] { assert a[0] in s; }
  }

  lemma HeadIsLeast(a: seq<string>, b: seq<string>, s: set<string>)
    requires Listing(a, s) && Listing(b, s) && a != [] && b != []
    ensures a[0] == b[0]
  {
    assert a[0] in b && b[0] in a;
    LessTotal(a[0], b[0]);
  }

  lemma TailListing(a: seq<string>, s: set<string>)
    requires Listing(a, s) && a != []
    ensures Listing(a[1..], s - {a[0]})
  {
    forall k ensures k in a[1..] <==> k in s - {a[0]} {
      assert a == [a[0]] + a[1..];
      if k in a[1..] {
        var i :| 0 <= i < |a[1..]| && a[1..][i] == k;
        assert Less(a[0], a[i + 1]);
        LessTotal(k, k);
      }
    }
  }

  ghost predicate IsLeast(s: set<string>, x: string) { x in s && forall y | y in s :: !Less(y, x) }

  lemma LeastWith(s: set<string>, z: string, y: string)
    requires z in s && IsLeast(s - {z}, y)
    ensures IsLeast(s, if Less(z, y) then z else y)
  {
    hide Less;
    LessTotal(y, z);
    LessTotal(z, z);
    forall w | w in s && Less(z, y) ensures !Less(w, z) {
      if Less(w, z) { LessTransitive(w, z, y); }
    }
  }

  lemma {:induction false} LeastExists(s: set<string>)
    requires s != {}
    ensures exists x :: IsLeast(s, x)
    decreases |s|
  {
    hide Less;
    var z :| z in s;
    if s == {z} {
      LessTotal(z, z);
      assert IsLeast(s, z);
    } else {
      LeastExists(s - {z});
      var y :| IsLeast(s - {z}, y);
      hide IsLeast;
      LeastWith(s, z, y);
    }
  }

  lemma Incomparable(s: set<string>)
    ensures forall y, z | y in s && z in s && !Less(y, z) && !Less(z, y) :: y == z
  {
    forall y, z | y in s && z in s && !Less(y, z) && !Less(z, y) ensures y == z { LessTotal(y, z); }
  }

  /** begin() of an ordered range. */
  function LeastKey(s: set<string>): (x: string)
    requires s != {}
    ensures x in s && forall y | y in s :: y == x || Less(x, y)
  {
    LeastExists(s);
    Incomparable(s);
    assert exists x :: IsLeast(s, x);
    var x :| x in s && forall y | y in s :: !Less(y, x);
    x
  }

  class MemStore {
    var store: map<string, Db>

    ghost predicate Valid()
      reads this
    {
      forall u | u in store :: Exact(store[u])
    }

    function View(uuid: string): Entries
      reads this
    {
      if uuid in store then store[uuid].entries else map[]
    }

    ghost function Views(): (w: Stores)
      reads this
      ensures forall u :: At(w, u) == View(u)
    {
      map u | u in store :: store[u].entries
    }

    constructor ()
      ensures Valid() && forall u :: View(u) == map[]
    {
      store := map[];
    }

    method Create(uuid: string, key: string, value: string) returns (r: Result)
      requires Valid()
      modifies this
      ensures Valid() && r == CreateResult(old(View(uuid)), key, value)
      ensures View(uuid) == if r == Ok then old(View(uuid))[key := value] else old(View(uuid))
      ensures forall u | u != uuid :: View(u) == old(View(u))
    {
      if |value| > MAX_VALUE_SIZE {
        return ValueTooLarge;
      }
      if |key| > MAX_KEY_SIZE {
        return KeyTooLarge;
      }
      if uuid in store && key in store[uuid].entries {
        return Exists;
      }
      var db := if uuid in store then store[uuid] else Db(0, map[]);
      assert Exact(db);
      InsertExact(db, key, value);
      hide Exact;
      store := store[uuid := Insert(db, key, value)];
      return Ok;
    }

    method Read(uuid: string, key: string) returns (value: Option<string>)
      ensures value == if key in View(uuid) then Some(View(uuid)[key]) else None
    {
      if uuid !in store || key !in store[uuid].entries {
        return None;
      }
      return Some(store[uuid].entries[key]);
    }

    method Update(uuid: string, key: string, value: string) returns (r: Result)
      requires Valid()
      modifies this
      ensures Valid() && r == UpdateResult(old(View(uuid)), key, value)
      ensures View(uuid) == if r == Ok then old(View(uuid))[key := value] else old(View(uuid))
      ensures forall u | u != uuid :: View(u) == old(View(u))
    {
      if |value| > MAX_VALUE_SIZE {
        return ValueTooLarge;
      }
      if uuid !in store || key !in store[uuid].entries {
        return NotFound;
      }
      var db := store[uuid];
      ReplaceExact(db, key, value);
      hide Exact;
      store := store[uuid := Replace(db, key, value)];
      return Ok;
    }

    method Remove(uuid: string, key: string) returns (r: Result)
      requires Valid()
      modifies this
      ensures Valid() && r == if key in old(View(uuid)) then Ok else NotFound
      ensures View(uuid) == old(View(uuid)) - {key}
      ensures forall u | u != uuid :: View(u) == old(View(u))
    {
      if uuid !in store || key !in store[uuid].entries {
        assert View(uuid) == View(uuid) - {key};
        return NotFound;
      }
      var db := store[uuid];
      EraseExact(db, key);
      hide Exact;
      store := store[uuid := Erase(db, key)];
      return Ok;
    }

    method RemoveDatabase(uuid: string) returns (r: Result)
      requires Valid()
      modifies this
      ensures Valid() && View(uuid) == map[] && r == if uuid in old(store) then Ok else NotFound
      ensures forall u | u != uuid :: View(u) == old(View(u))
    {
      if uuid in store {
        store := store - {uuid};
        return Ok;
      }
      return NotFound;
    }

    /** The number of keys and the byte counter. */
    method GetSize(uuid: string) returns (keys: nat, bytes: nat)
      requires Valid()
      ensures keys == |View(uuid)| && bytes == Bytes(View(uuid)) % U32
    {
      if uuid !in store {
        return 0, 0;
      }
      return |store[uuid].entries|, store[uuid].counter;
    }

    method GetKeySize(uuid: string, key: string) returns (size: Option<nat>)
      ensures size == if key in View(uuid) then Some(|key| + |View(uuid)[key]|) else None
    {
      if uuid !in store || key !in store[uuid].entries {
        return None;
      }
      return Some(|key| + |store[uuid].entries[key]|);
    }

    /** The loop runs from the lower bound of first to that of last. If a stored key lies from last
        up to first, that is before it, and the loop of the code runs off the end of the table. */
    method RemoveRange(uuid: string, first: string, last: string) returns (defined: bool)
      requires Valid()
      modifies this
      ensures Valid()
      ensures defined <==> forall k | k in old(View(uuid)) :: Less(k, first) ==> Less(k, last)
      ensures defined ==>
                View(uuid) ==
                map k | k in old(View(uuid)) && !(!Less(k, first) && Less(k, last)) :: old(View(uuid))[k]
      ensures forall u | u != uuid :: View(u) == old(View(u))
    {
      hide Exact, Less;
      defined := true;
      if uuid in store {
        var between := set k | k in store[uuid].entries && Less(k, first) && !Less(k, last);
        if between != {} {
          ghost var k :| k in between;
          assert k in old(View(uuid)) && Less(k, first) && !Less(k, last);
          return false;
        }
        assert forall k | k in View(uuid) :: k !in between;
        ghost var gone := set k | k in store[uuid].entries && !Less(k, first) && Less(k, last);
        var rest := set k | k in store[uuid].entries && !Less(k, first) && Less(k, last);
        while rest != {}
          invariant Valid() && uuid in store && rest <= gone
          invariant store[uuid].entries == old(View(uuid)) - (gone - rest)
          invariant forall u | u != uuid :: View(u) == old(View(u))
          decreases rest
        {
          var k := LeastKey(rest);
          var db := store[uuid];
          EraseExact(db, k);
          store := store[uuid := Erase(db, k)];
          rest := rest - {k};
        }
        assert gone - rest == gone;
      }
    }

    /** The keys that do_if acts on, in the order in which it does. */
    method DoIf(uuid: string, first: string, last: string, condition: Condition) returns (keys: seq<string>)
      ensures Listing(keys, Matches(View(uuid), first, last, condition))
    {
      keys := [];
      if last != "" && !Less(first, last) {
        NothingInRange(first, last);
        return;
      }
      if uuid !in store {
        return;
      }
      var entries := store[uuid].entries;
      ghost var wanted := Matches(entries, first, last, condition);
      var rest := set k | k in entries && !Less(k, first);
      while rest != {}
        invariant rest <= entries.Keys && Listing(keys, wanted - rest)
        invariant forall k, r | k in keys && r in rest :: Less(k, r)
        decreases rest
      {
        var k := LeastKey(rest);
        if last != "" && !Less(k, last) {
          BeyondRange(wanted, rest, first, last, k);
          break;
        }
        if condition.None? || condition.value(k, entries[k]) {
          keys := keys + [k];
        }
        rest := rest - {k};
      }
    }

    /** Exactly the matching keys of [first, last), in key order. */
    method GetKeysIf(uuid: string, first: string, last: string, condition: Condition) returns (keys: seq<string>)
      ensures Listing(keys, Matches(View(uuid), first, last, condition))
    {
      keys := DoIf(uuid, first, last, condition);
    }

    /** Exactly the matching entries of [first, last), in key order. */
    method ReadIf(uuid: string, first: string, last: string, condition: Condition)
      returns (keys: seq<string>, values: seq<string>)
      ensures Listing(keys, Matches(View(uuid), first, last, condition))
      ensures |values| == |keys| && forall i | 0 <= i < |keys| ::
                keys[i] in View(uuid) && values[i] == View(uuid)[keys[i]]
    {
      keys := DoIf(uuid, first, last, condition);
      assert forall k | k in keys :: k in View(uuid);
      values := [];
      for i := 0 to |keys|
        invariant |values| == i && forall j | 0 <= j < |keys| :: keys[j] in View(uuid)
        invariant forall j | 0 <= j < i :: values[j] == View(uuid)[keys[j]]
      {
        values := values + [View(uuid)[keys[i]]];
      }
    }
  }

  lemma NothingInRange(first: string, last: string)
    requires last != "" && !Less(first, last)
    ensures forall k :: !InRange(first, last, k)
  {
    forall k ensures !InRange(first, last, k) {
      if InRange(first, last, k) { LessTransitive(k, last, first); }
    }
  }

  /** Past the least remaining key not below last there is nothing left to find. */
  lemma BeyondRange(wanted: set<string>, rest: set<string>, first: string, last: string, k: string)
    requires last != "" && !Less(k, last) && forall y | y in rest :: y == k || Less(k, y)
    requires forall y | y in wanted :: InRange(first, last, y)
    ensures wanted - rest == wanted
  {
    forall y | y in wanted ensures y !in rest {
      if y in rest && y != k {
        LessTransitive(y, last, k);
        LessTotal(k, y);
      }
    }
  }
}
