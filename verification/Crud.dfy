/** The handlers that write entries into a database with a size limit. */
module Crud {
  import opened Messages
  import opened MemStorage
  import opened Words
  import opened Quota
  import opened Eviction
  import V = VolatileTtl

  datatype Policy = NoEviction | Random | VolatileTtl

  /** Maximum size, 0 for none, and what to do when it is reached. */
  datatype Limit = Limit(max: nat, policy: Policy)

  /** Threw: the entry is stored, but its time to live could not be recorded. */
  datatype Reply = Done | Threw | EntryTooLarge | DeletePending | DbFull | Refused(result: Result) {
    predicate Stored() { Done? || Threw? }
  }

  /** What storage takes; a key that is updated is there already. */
  predicate Storable(req: Request) { |req.value| <= MAX_VALUE_SIZE && (req.Create? ==> |req.key| <= MAX_KEY_SIZE) }

  /** The policy chose to evict these keys for the request. */
  ghost predicate Evicts(t: V.TtlCodec, ttl: Entries, m: Entries, uuid: string, limit: Limit, req: Request,
                         gone: set<string>)
  {
    match limit.policy
    case NoEviction => false
    case Random =>
      var need := ToFree(Bytes(m) % U32, limit.max, req);
      && gone <= m.Keys && IgnoreKey(req) !in gone
      && Weight(m, gone) >= need && exists k :: k in gone && Weight(m, gone - {k}) < need
    case VolatileTtl => V.Selects(t, ttl, m, uuid, IgnoreKey(req), Required(Bytes(m) % U32, limit.max, req), gone)
  }

  /** Whether the policy finds anything to evict for the request. */
  ghost predicate CanEvict(t: V.TtlCodec, ttl: Entries, m: Entries, uuid: string, limit: Limit, req: Request)
  {
    match limit.policy
    case NoEviction => false
    case Random => 0 < ToFree(Bytes(m) % U32, limit.max, req) <= Weight(m, m.Keys - {IgnoreKey(req)})
    case VolatileTtl => V.Suffices(t, ttl, m, uuid, IgnoreKey(req), Required(Bytes(m) % U32, limit.max, req))
  }

  /** The request seems to fit, or the policy makes room. */
  ghost predicate HasRoom(t: V.TtlCodec, ttl: Entries, m: Entries, uuid: string, limit: Limit, req: Request)
  {
    !Exceeds(m, Bytes(m) % U32, limit.max, req) || CanEvict(t, ttl, m, uuid, limit, req)
  }

  /** An entry to create may not be larger than the whole database may be. */
  predicate TooLarge(limit: Limit, req: Request)
  {
    req.Create? && limit.max != 0 && |req.key| + |req.value| > limit.max
  }

  /** What the handlers guarantee about a write to the entries m: gone are the evicted keys, ok says
      whether the entry was stored. */
  ghost predicate WriteStep(t: V.TtlCodec, ttl: Entries, m: Entries, uuid: string, limit: Limit, req: Request, ok: bool,
                            gone: set<string>)
  {
    && (ok ==> Storable(req) && (req.key in m - gone <==> req.Update?))
    && (ok && req.Create? && limit.max != 0 ==> |req.key| + |req.value| <= limit.max)
    && (if Exceeds(m, Bytes(m) % U32, limit.max, req)
        then ok || gone != {} ==> Evicts(t, ttl, m, uuid, limit, req, gone)
        else gone == {})
  }

  /** The entries afterwards. */
  function Wrote(m: Entries, req: Request, ok: bool, gone: set<string>): Entries
  {
    if ok then Outcome(m - gone, req) else m - gone
  }

  /** update_expiration_entry; an entry that storage does not take is an exception. */
  function Expiry(ttl: Entries, e: string, expires: Option<string>): Entries
  {
    if expires.None? then ttl - {e}
    else if CreateResult(ttl, e, expires.value) == Ok || UpdateResult(ttl, e, expires.value) == Ok
    then ttl[e := expires.value]
    else ttl
  }

  /** Database u after a write to uuid: the entry, and then its time to live. */
  function Written(t: V.TtlCodec, w: Stores, uuid: string, req: Request, expires: Option<string>, ok: bool,
                   gone: set<string>, u: string): Entries
  {
    var m := if u == uuid then Wrote(At(w, uuid), req, ok, gone) else At(w, u);
    if ok && u == V.TTL_UUID then Expiry(m, t.generate(uuid, req.key), expires) else m
  }

  // ---- One write ----

  /** The volatile-ttl policy frees what it counted, unless texts read alike. */
  lemma SelectsFrees(t: V.TtlCodec, ttl: Entries, m: Entries, uuid: string, ignore: string, need: nat,
                     gone: set<string>)
    requires V.NoneAlike(t, ttl, uuid) && V.Selects(t, ttl, m, uuid, ignore, need, gone)
    ensures Weight(m, gone) >= need
  {
    hide V.NoneAlike, V.ItemsOf, V.Total, V.KeysOf, V.Descending, Weight;
    var ours, items, sorted, taken :|
      V.ItemsOf(t, ttl, m, uuid, ignore, ours, items) && V.TakesFrom(items, sorted, taken, need)
      && gone == V.KeysOf(sorted[..taken]);
    V.ItemsAreReal(t, ttl, m, uuid, ignore, ours, items);
    RealOnceSorted(m, items, sorted);
    V.FirstItemsFree(m, sorted, taken);
  }

  lemma RealOnceSorted(m: Entries, items: seq<V.TtlItem>, sorted: seq<V.TtlItem>)
    requires V.Real(m, items) && multiset(sorted) == multiset(items)
    ensures V.Real(m, sorted)
  {
    forall x ensures x in sorted <==> x in items { assert x in sorted <==> x in multiset(sorted); }
  }

  lemma RequestIsSmall(m: Entries, req: Request)
    requires Storable(req) && Bytes(m) < U32 && (req.Update? ==> req.key in m)
    ensures Small(req)
  {
    if req.Update? { BytesWithout(m, req.key); }
  }

  /** A write that is carried out leaves the database within its limit, if the counter is exact and
      no two time-to-live entries read alike. */
  lemma WithinLimit(t: V.TtlCodec, ttl: Entries, m: Entries, uuid: string, limit: Limit, req: Request,
                    gone: set<string>)
    requires WriteStep(t, ttl, m, uuid, limit, req, true, gone) && Bytes(m) < U32 && 0 < limit.max < U64
    requires limit.policy.VolatileTtl? ==> V.NoneAlike(t, ttl, uuid)
    ensures Bytes(Wrote(m, req, true, gone)) <= limit.max
  {
    hide V.NoneAlike, V.Selects;
    RequestIsSmall(m, req);
    assert Bytes(m) % U32 == Bytes(m);
    if Exceeds(m, Bytes(m), limit.max, req) {
      Shortage(m, limit.max, req);
      if limit.policy.VolatileTtl? {
        SelectsFrees(t, ttl, m, uuid, IgnoreKey(req), Required(Bytes(m), limit.max, req), gone);
      }
      RoomAfter(m, limit.max, req, gone);
    } else {
      assert m - gone == m;
      RoomNow(m, limit.max, req);
    }
  }

  // ---- The handlers ----

  /** The store has this time to live for the entry. */
  predicate Expires(t: V.TtlCodec, store: MemStore, uuid: string, key: string, text: string)
    reads store
  {
    var ttl, e := store.View(V.TTL_UUID), t.generate(uuid, key);
    e in ttl && ttl[e] == text && |text| <= MAX_VALUE_SIZE
  }

  class Handlers {
    const store: MemStore

    constructor (store: MemStore)
      ensures this.store == store
    {
      this.store := store;
    }

    /** Removes the evicted keys one by one; an empty choice means that no room could be made. */
    method DoEviction(uuid: string, req: Request, limit: Limit, choose: nat -> nat, t: V.TtlCodec)
      returns (ok: bool, ghost gone: set<string>)
      requires store.Valid()
      modifies store
      ensures store.Valid() && store.View(uuid) == old(store.View(uuid)) - gone
      ensures forall u | u != uuid :: store.View(u) == old(store.View(u))
      ensures ok <==> CanEvict(t, old(store.View(V.TTL_UUID)), old(store.View(uuid)), uuid, limit, req)
      ensures !ok ==> gone == {}
      ensures req.Update? && req.key != "" ==> req.key !in gone
      ensures ok ==> Evicts(t, old(store.View(V.TTL_UUID)), old(store.View(uuid)), uuid, limit, req, gone)
    {
      hide ToFree, Required, Weight, Bytes, V.NoneAlike, V.Fewest, V.Values, V.HasTtl, V.Selects, V.Suffices;
      ghost var m := store.View(uuid);
      gone := {};
      assert m - {} == m;
      var keys;
      match limit.policy {
        case NoEviction => return false, {};
        case Random => keys := RandomKeysToEvict(store, uuid, req, limit.max, choose);
        case VolatileTtl => keys := V.VolatileKeysToEvict(t, store, uuid, req, limit.max);
      }
      NothingFreed(m);
      if keys == {} {
        return false, {};
      }
      gone := keys;
      var rest := keys;
      while rest != {}
        invariant store.Valid() && rest <= keys && store.View(uuid) == m - (keys - rest)
        invariant forall u | u != uuid :: store.View(u) == old(store.View(u))
        decreases rest
      {
        var key :| key in rest;
        var _ := store.Remove(uuid, key);
        rest := rest - {key};
      }
      assert keys - rest == keys;
      ok := true;
    }

    method ExceedsAvailableSpace(uuid: string, max: nat, req: Request) returns (exceeds: bool)
      requires store.Valid()
      ensures exceeds <==> Exceeds(store.View(uuid), Bytes(store.View(uuid)) % U32, max, req)
    {
      if max == 0 {
        return false;
      }
      var _, size := store.GetSize(uuid);
      match req
      case Create(k, v) => return Add64(Add64(size, |k|), |v|) > max;
      case Update(k, v) =>
        var previous := store.GetKeySize(uuid, k);
        return previous.Some? && Add64(Add64(Sub64(size, previous.value), |k|), |v|) > max;
    }

    /** Evicts if the request does not fit. */
    method MakeRoom(uuid: string, req: Request, limit: Limit, choose: nat -> nat, t: V.TtlCodec)
      returns (ok: bool, ghost gone: set<string>)
      requires store.Valid()
      modifies store
      ensures store.Valid() && store.View(uuid) == old(store.View(uuid)) - gone
      ensures forall u | u != uuid :: store.View(u) == old(store.View(u))
      ensures ok <==> HasRoom(t, old(store.View(V.TTL_UUID)), old(store.View(uuid)), uuid, limit, req)
      ensures !ok ==> gone == {}
      ensures req.Update? && req.key != "" ==> req.key !in gone
      ensures var m := old(store.View(uuid));
              if Exceeds(m, Bytes(m) % U32, limit.max, req)
              then ok ==> Evicts(t, old(store.View(V.TTL_UUID)), m, uuid, limit, req, gone)
              else ok && gone == {}
    {
      hide Bytes, Exceeds, Evicts, CanEvict;
      assert store.View(uuid) - {} == store.View(uuid);
      ok, gone := true, {};
      var exceeds := ExceedsAvailableSpace(uuid, limit.max, req);
      if exceeds {
        ok, gone := DoEviction(uuid, req, limit, choose, t);
      }
    }

    /** expires is the text of the expiry time, if the request has one. */
    method UpdateExpirationEntry(e: string, expires: Option<string>) returns (ok: bool)
      requires store.Valid()
      modifies store
      ensures store.Valid() && store.View(V.TTL_UUID) == Expiry(old(store.View(V.TTL_UUID)), e, expires)
      ensures forall u | u != V.TTL_UUID :: store.View(u) == old(store.View(u))
      ensures forall e' | e' != e ::
                && (e' in store.View(V.TTL_UUID) <==> e' in old(store.View(V.TTL_UUID)))
                && (e' in store.View(V.TTL_UUID) ==> store.View(V.TTL_UUID)[e'] == old(store.View(V.TTL_UUID)[e']))
      ensures expires.None? ==> e !in store.View(V.TTL_UUID)
      ensures ok <==> expires.None? || (e in store.View(V.TTL_UUID) && store.View(V.TTL_UUID)[e] == expires.value
                                        && |expires.value| <= MAX_VALUE_SIZE)
    {
      if expires.Some? {
        var r := store.Create(V.TTL_UUID, e, expires.value);
        if r == Ok {
          return true;
        }
        r := store.Update(V.TTL_UUID, e, expires.value);
        return r == Ok;
      }
      var _ := store.Remove(V.TTL_UUID, e);
      return true;
    }

    /** handle_create for a writer of an existing database. */
    method HandleCreate(uuid: string, limit: Limit, expired: bool, req: Request, expires: Option<string>,
                        choose: nat -> nat, t: V.TtlCodec)
      returns (reply: Reply, ghost gone: set<string>)
      requires store.Valid() && req.Create?
      modifies store
      ensures store.Valid()
      ensures WriteStep(t, old(store.View(V.TTL_UUID)), old(store.View(uuid)), uuid, limit, req, reply.Stored(), gone)
      ensures forall u :: store.View(u) == Written(t, old(store.Views()), uuid, req, expires, reply.Stored(), gone, u)
      ensures reply == EntryTooLarge <==> TooLarge(limit, req)
      ensures reply == DeletePending <==> !TooLarge(limit, req) && expired
      ensures var room := HasRoom(t, old(store.View(V.TTL_UUID)), old(store.View(uuid)), uuid, limit, req);
              && (reply == DbFull <==> !TooLarge(limit, req) && !expired && !room)
              && (reply.Stored() <==> && !TooLarge(limit, req) && !expired && room && |req.value| <= MAX_VALUE_SIZE
                                      && |req.key| <= MAX_KEY_SIZE && req.key !in old(store.View(uuid)) - gone)
      ensures reply.Refused? ==> reply.result == CreateResult(old(store.View(uuid)) - gone, req.key, req.value)
      ensures reply == Threw <==> reply.Stored() && expires.Some? && !Expires(t, store, uuid, req.key, expires.value)
    {
      hide Bytes, Exceeds, Evicts, HasRoom, Expiry, MemStore.Views, At;
      assert store.View(uuid) - {} == store.View(uuid);
      gone := {};
      if limit.max != 0 && |req.key| + |req.value| > limit.max {
        return EntryTooLarge, {};
      }
      if expired {
        return DeletePending, {};
      }
      var ok;
      ok, gone := MakeRoom(uuid, req, limit, choose, t);
      if !ok {
        return DbFull, gone;
      }
      var r := store.Create(uuid, req.key, req.value);
      if r != Ok {
        return Refused(r), gone;
      }
      var recorded := UpdateExpirationEntry(t.generate(uuid, req.key), expires);
      reply := if recorded then Done else Threw;
    }

    /** handle_update for a writer of an existing database. Its check for large entries looks at
        the create part of the request, which is empty. A key that is not empty survives. */
    method HandleUpdate(uuid: string, limit: Limit, expired: bool, req: Request, expires: Option<string>,
                        choose: nat -> nat, t: V.TtlCodec)
      returns (reply: Reply, ghost gone: set<string>)
      requires store.Valid() && req.Update?
      modifies store
      ensures store.Valid()
      ensures WriteStep(t, old(store.View(V.TTL_UUID)), old(store.View(uuid)), uuid, limit, req, reply.Stored(), gone)
      ensures forall u :: store.View(u) == Written(t, old(store.Views()), uuid, req, expires, reply.Stored(), gone, u)
      ensures req.key != "" ==> req.key !in gone
      ensures reply != EntryTooLarge
      ensures reply == DeletePending <==> expired
      ensures var room := HasRoom(t, old(store.View(V.TTL_UUID)), old(store.View(uuid)), uuid, limit, req);
              && (reply == DbFull <==> !expired && !room)
              && (reply.Stored() <==> && !expired && room && |req.value| <= MAX_VALUE_SIZE
                                      && req.key in old(store.View(uuid)) - gone)
      ensures reply.Refused? ==> reply.result == UpdateResult(old(store.View(uuid)) - gone, req.key, req.value)
      ensures reply == Threw <==> reply.Stored() && expires.Some? && !Expires(t, store, uuid, req.key, expires.value)
    {
      hide Bytes, Exceeds, Evicts, HasRoom, Expiry, MemStore.Views, At;
      assert store.View(uuid) - {} == store.View(uuid);
      gone := {};
      if expired {
        return DeletePending, {};
      }
      var ok;
      ok, gone := MakeRoom(uuid, req, limit, choose, t);
      if !ok {
        return DbFull, gone;
      }
      var r := store.Update(uuid, req.key, req.value);
      if r != Ok {
        return Refused(r), gone;
      }
      var recorded := UpdateExpirationEntry(t.generate(uuid, req.key), expires);
      reply := if recorded then Done else Threw;
    }
  }
}
