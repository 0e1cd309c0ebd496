/** Runs of the whole store: databases with limits, their entries, and the time-to-live entries,
    which live in a store of their own. Nothing reserves its name, nor that of the permissions. */
module Limits {
  import opened Messages
  import opened MemStorage
  import opened Words
  import opened Quota
  import opened Crud

  const PERMS_UUID: string := "PERMS"

  /** The texts of time-to-live entries, and of the limits in the permission records. */
  datatype Codecs = Codecs(ttl: V.TtlCodec, encode: Limit -> string, decode: string -> Option<Limit>)

  function LimitOf(x: Codecs, w: Stores, uuid: string): Option<Limit>
  {
    if uuid in At(w, PERMS_UUID) then x.decode(At(w, PERMS_UUID)[uuid]) else None
  }

  /** expires is the text of an expiry time; texts are time-to-live entries that are found stale. */
  datatype Event =
    | Write(uuid: string, req: Request, expires: Option<string>, ok: bool, gone: set<string>)
    | Remove(uuid: string, key: string)
    | SetExpiry(uuid: string, key: string, expires: Option<string>)
    | DropExpiries(texts: set<string>)
    | SetLimit(uuid: string, text: string)
    | DropDatabase(uuid: string, texts: set<string>)

  /** A database must exist for its handlers to act; a write does what the handlers guarantee. */
  ghost predicate Allowed(x: Codecs, w: Stores, e: Event)
  {
    match e
    case Write(uuid, req, _, ok, gone) =>
      var limit := LimitOf(x, w, uuid);
      limit.Some? && WriteStep(x.ttl, At(w, V.TTL_UUID), At(w, uuid), uuid, limit.value, req, ok, gone)
    case Remove(uuid, _) => LimitOf(x, w, uuid).Some?
    case SetExpiry(uuid, _, _) => LimitOf(x, w, uuid).Some?
    case DropExpiries(_) => true
    case SetLimit(uuid, text) => x.decode(text).Some? && |uuid| <= MAX_KEY_SIZE && |text| <= MAX_VALUE_SIZE
    case DropDatabase(uuid, _) => LimitOf(x, w, uuid).Some?
  }

  /** Database u afterwards. */
  function Becomes(x: Codecs, w: Stores, e: Event, u: string): Entries
  {
    match e
    case Write(uuid, req, expires, ok, gone) => Written(x.ttl, w, uuid, req, expires, ok, gone, u)
    case Remove(uuid, key) =>
      var m := if u == uuid then At(w, u) - {key} else At(w, u);
      if u == V.TTL_UUID && key in At(w, uuid) then m - {x.ttl.generate(uuid, key)} else m
    case SetExpiry(uuid, key, expires) =>
      if u == V.TTL_UUID then Expiry(At(w, u), x.ttl.generate(uuid, key), expires) else At(w, u)
    case DropExpiries(texts) => if u == V.TTL_UUID then At(w, u) - texts else At(w, u)
    case SetLimit(uuid, text) => if u == PERMS_UUID then At(w, u)[uuid := text] else At(w, u)
    case DropDatabase(uuid, texts) =>
      var m := if u == PERMS_UUID then At(w, u) - {uuid} else At(w, u);
      var m1 := if u == uuid then map[] else m;
      if u == V.TTL_UUID then m1 - texts else m1
  }

  ghost predicate Happens(x: Codecs, w: Stores, e: Event, w': Stores)
  {
    Allowed(x, w, e) && forall u :: At(w', u) == Becomes(x, w, e, u)
  }

  ghost predicate IsRun(x: Codecs, states: seq<Stores>, events: seq<Event>)
  {
    && |states| == |events| + 1 && states[0] == map[]
    && forall i | 0 <= i < |events| :: Happens(x, states[i], events[i], states[i + 1])
  }

  /** The write to u that stores an entry. */
  predicate StoresIn(e: Event, u: string) { e.Write? && e.uuid == u && e.ok }

  /** Every entry stored in u leaves u within the limit that was in force. */
  ghost predicate KeepsLimit(x: Codecs, states: seq<Stores>, events: seq<Event>, u: string)
  {
    && |states| == |events| + 1
    && forall n | 0 <= n < |events| && StoresIn(events[n], u) ::
         var limit := LimitOf(x, states[n], u);
         limit.Some? && (limit.value.max != 0 ==> Bytes(At(states[n + 1], u)) <= limit.value.max)
  }

  // ---- Time-to-live entries stay genuine unless there is a database with their name ----

  /** What is generated is read back. */
  ghost predicate ReadsBack(t: V.TtlCodec) { forall u, k :: t.parse(t.generate(u, k)) == Some((u, k)) }

  lemma ExpiryGenuine(t: V.TtlCodec, ttl: Entries, u: string, k: string, expires: Option<string>)
    requires ReadsBack(t) && V.AllGenuine(t, ttl)
    ensures V.AllGenuine(t, Expiry(ttl, t.generate(u, k), expires))
  {
    assert t.parse(t.generate(u, k)) == Some((u, k));
  }

  /** Kept by every step but a write to a database called "TTL". */
  lemma GenuineStep(x: Codecs, w: Stores, e: Event, w': Stores)
    requires Happens(x, w, e, w') && ReadsBack(x.ttl) && V.AllGenuine(x.ttl, At(w, V.TTL_UUID))
    requires !(e.Write? && e.uuid == V.TTL_UUID)
    ensures V.AllGenuine(x.ttl, At(w', V.TTL_UUID))
  {
    var ttl, ttl' := At(w, V.TTL_UUID), At(w', V.TTL_UUID);
    assert ttl' == Becomes(x, w, e, V.TTL_UUID);
    hide Allowed, Happens, ReadsBack, Expiry, At;
    match e
    case Write(uuid, req, expires, ok, gone) => if ok { ExpiryGenuine(x.ttl, ttl, uuid, req.key, expires); }
    case SetExpiry(uuid, key, expires) => ExpiryGenuine(x.ttl, ttl, uuid, key, expires);
    case _ => assert ttl'.Keys <= ttl.Keys;
  }

  ghost predicate NoTtlDatabase(x: Codecs, states: seq<Stores>)
  {
    forall i | 0 <= i < |states| :: LimitOf(x, states[i], V.TTL_UUID).None?
  }

  lemma {:induction false} AlwaysGenuine(x: Codecs, states: seq<Stores>, events: seq<Event>, n: nat)
    requires IsRun(x, states, events) && ReadsBack(x.ttl) && NoTtlDatabase(x, states) && n < |states|
    ensures V.AllGenuine(x.ttl, At(states[n], V.TTL_UUID))
  {
    if n > 0 {
      AlwaysGenuine(x, states, events, n - 1);
      assert Happens(x, states[n - 1], events[n - 1], states[n]);
      assert LimitOf(x, states[n - 1], V.TTL_UUID).None?;
      hide Becomes, WriteStep, V.AllGenuine;
      GenuineStep(x, states[n - 1], events[n - 1], states[n]);
    }
  }

  // ---- Keeping the limit ----

  /** The name is not one that the code itself writes to. */
  predicate Ordinary(u: string) { u != V.TTL_UUID && u != PERMS_UUID }

  lemma NeverGrows(m: Entries, keys: set<string>)
    ensures Bytes(m - keys) <= Bytes(m)
  {
    WeightSplit(m, keys);
  }

  /** Only a write to u makes u larger. */
  lemma OthersShrink(x: Codecs, w: Stores, e: Event, w': Stores, u: string)
    requires Happens(x, w, e, w') && Ordinary(u) && !StoresIn(e, u)
    ensures Bytes(At(w', u)) <= Bytes(At(w, u))
  {
    var m, m' := At(w, u), At(w', u);
    assert m' == Becomes(x, w, e, u);
    hide Allowed, Happens, Bytes, At;
    match e
    case Write(uuid, _, _, _, gone) => if uuid == u { NeverGrows(m, gone); }
    case Remove(uuid, key) => if uuid == u { NeverGrows(m, {key}); }
    case DropDatabase(uuid, _) => if uuid == u { NeverGrows(m, m.Keys); assert m - m.Keys == map[]; }
    case _ =>
  }

  /** Below 4 GiB, and, under the volatile-ttl policy, no two of its time-to-live entries read alike. */
  ghost predicate Safe(x: Codecs, w: Stores, u: string)
  {
    var limit := LimitOf(x, w, u);
    limit.Some? ==> && 0 < limit.value.max < U32
                    && (limit.value.policy.VolatileTtl? ==> V.NoneAlike(x.ttl, At(w, V.TTL_UUID), u))
  }

  lemma StoredWithin(x: Codecs, w: Stores, e: Event, w': Stores, u: string)
    requires Happens(x, w, e, w') && Ordinary(u) && StoresIn(e, u) && Safe(x, w, u) && Bytes(At(w, u)) < U32
    ensures LimitOf(x, w, u).Some? && Bytes(At(w', u)) <= LimitOf(x, w, u).value.max < U32
  {
    assert At(w', u) == Becomes(x, w, e, u);
    hide WriteStep, V.NoneAlike, Bytes, At;
    WithinLimit(x.ttl, At(w, V.TTL_UUID), At(w, u), u, LimitOf(x, w, u).value, e.req, e.gone);
  }

  /** In every run of the store, whatever the other databases do: as long as the limit of u is below
      4 GiB and none of its time-to-live entries read alike, every entry stored in u leaves u
      within its limit, however limit and policy are moved. */
  lemma {:induction false} AlwaysWithinLimit(x: Codecs, states: seq<Stores>, events: seq<Event>, u: string, n: nat)
    requires IsRun(x, states, events) && Ordinary(u) && n < |states|
    requires forall i | 0 <= i < |states| :: Safe(x, states[i], u)
    ensures Bytes(At(states[n], u)) < U32
    ensures n > 0 && StoresIn(events[n - 1], u)
            ==> LimitOf(x, states[n - 1], u).Some? && Bytes(At(states[n], u)) <= LimitOf(x, states[n - 1], u).value.max
  {
    if n > 0 {
      AlwaysWithinLimit(x, states, events, u, n - 1);
      var w, e, w' := states[n - 1], events[n - 1], states[n];
      assert Happens(x, w, e, w') && Safe(x, w, u);
      hide Happens, Safe, Bytes, At, LimitOf;
      if StoresIn(e, u) { StoredWithin(x, w, e, w', u); } else { OthersShrink(x, w, e, w', u); }
    }
  }
}
