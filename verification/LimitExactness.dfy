/** When the limit of a database is kept in every run: exactly below 4 GiB, and under the volatile-ttl
    policy only if nobody owns a database with the name of the time-to-live entries. */
module LimitExactness {
  import opened Messages
  import opened MemStorage
  import opened Strings
  import opened Words
  import opened Quota
  import opened Crud
  import opened Limits

  /** Whenever u exists it has this limit; shared says whether a database called "TTL" may exist. */
  ghost predicate UnderState(x: Codecs, w: Stores, u: string, limit: Limit, shared: bool)
  {
    && (LimitOf(x, w, u).Some? ==> LimitOf(x, w, u).value == limit)
    && (shared || LimitOf(x, w, V.TTL_UUID).None?)
  }

  ghost predicate Under(x: Codecs, states: seq<Stores>, u: string, limit: Limit, shared: bool)
  {
    forall i | 0 <= i < |states| :: UnderState(x, states[i], u, limit, shared)
  }

  ghost predicate AllKeepLimit(x: Codecs, u: string, limit: Limit, shared: bool)
  {
    forall states, events | IsRun(x, states, events) && Under(x, states, u, limit, shared) ::
      KeepsLimit(x, states, events, u)
  }

  /** Texts read back, and are not too long for storage. */
  ghost predicate Faithful(x: Codecs)
  {
    ReadsBack(x.ttl) && forall l :: x.decode(x.encode(l)) == Some(l) && |x.encode(l)| <= MAX_VALUE_SIZE
  }

  /** Other texts, by their white space, that are read as the empty key of u. */
  ghost predicate Aliases(t: V.TtlCodec, u: string, a: string, b: string, d: string)
  {
    && t.parse(a) == t.parse(b) == t.parse(d) == Some((u, "")) && a != b && a != d && b != d
    && t.generate(u, "") !in {a, b, d}
    && |a| <= MAX_KEY_SIZE && |b| <= MAX_KEY_SIZE && |d| <= MAX_KEY_SIZE && |t.generate(u, "")| <= MAX_KEY_SIZE
  }

  ghost predicate HasAliases(t: V.TtlCodec, u: string) { exists a, b, d :: Aliases(t, u, a, b, d) }

  // ---- Where it is kept ----

  lemma RunShape(x: Codecs, states: seq<Stores>, events: seq<Event>)
    requires IsRun(x, states, events)
    ensures |states| == |events| + 1
  {
  }

  lemma KeptBelow(x: Codecs, states: seq<Stores>, events: seq<Event>, u: string, limit: Limit, shared: bool)
    requires IsRun(x, states, events) && Under(x, states, u, limit, shared) && Ordinary(u) && ReadsBack(x.ttl)
    requires 0 < limit.max < U32 && !(limit.policy.VolatileTtl? && shared)
    ensures KeepsLimit(x, states, events, u)
  {
    RunShape(x, states, events);
    hide IsRun, Bytes;
    forall i | 0 <= i < |states| ensures Safe(x, states[i], u) {
      assert UnderState(x, states[i], u, limit, shared);
      if limit.policy.VolatileTtl? {
        assert NoTtlDatabase(x, states);
        AlwaysGenuine(x, states, events, i);
        V.GenuineNoneAlike(x.ttl, At(states[i], V.TTL_UUID), u);
      }
    }
    hide Safe, LimitOf;
    forall n | 0 <= n < |events| && StoresIn(events[n], u)
      ensures LimitOf(x, states[n], u).Some? && Bytes(At(states[n + 1], u)) <= LimitOf(x, states[n], u).value.max
    {
      AlwaysWithinLimit(x, states, events, u, n + 1);
    }
  }

  /** An item that counts stands for an entry. */
  lemma SelectedEntry(t: V.TtlCodec, ttl: Entries, m: Entries, uuid: string, ignore: string, need: nat,
                      gone: set<string>)
    returns (k: string)
    requires V.Selects(t, ttl, m, uuid, ignore, need, gone) && need > 0
    ensures k in gone && k in m && k != ignore && m[k] != ""
  {
    hide V.KeysOf, V.Descending;
    var ours, items, sorted, taken :|
      V.ItemsOf(t, ttl, m, uuid, ignore, ours, items) && V.TakesFrom(items, sorted, taken, need)
      && gone == V.KeysOf(sorted[..taken]);
    var item := CountingItem(sorted[..taken]);
    assert item in sorted && item in multiset(sorted) && item in multiset(items) && item in items;
    var i :| 0 <= i < |items| && items[i] == item;
    assert ours[i] in ours;
    k := item.key;
    assert k in gone by { KeyOfItem(sorted[..taken], item); }
  }

  lemma KeyOfItem(items: seq<V.TtlItem>, item: V.TtlItem)
    requires item in items
    ensures item.key in V.KeysOf(items)
  {
  }

  lemma {:induction false} CountingItem(items: seq<V.TtlItem>) returns (item: V.TtlItem)
    requires V.Total(items) > 0
    ensures item in items && item.size > 0
    decreases |items|
  {
    item := items[|items| - 1];
    if item.size == 0 { item := CountingItem(items[..|items| - 1]); }
  }

  /** A limit of one byte leaves no room for two entries to be mistaken. */
  lemma OneByte(x: Codecs, w: Stores, e: Event, w': Stores, u: string, limit: Limit)
    requires Happens(x, w, e, w') && Ordinary(u) && StoresIn(e, u) && LimitOf(x, w, u) == Some(limit)
    requires limit == Limit(1, VolatileTtl) && Bytes(At(w, u)) <= 1
    ensures Bytes(At(w', u)) <= 1
  {
    var m := At(w, u);
    assert At(w', u) == Becomes(x, w, e, u) == Wrote(m, e.req, true, e.gone);
    assert WriteStep(x.ttl, At(w, V.TTL_UUID), m, u, limit, e.req, true, e.gone);
    hide At, Happens, Becomes, LimitOf;
    OneByteWrite(x.ttl, At(w, V.TTL_UUID), m, u, e.req, e.gone);
  }

  lemma OneByteWrite(t: V.TtlCodec, ttl: Entries, m: Entries, u: string, req: Request, gone: set<string>)
    requires WriteStep(t, ttl, m, u, Limit(1, VolatileTtl), req, true, gone) && Bytes(m) <= 1
    ensures Bytes(Wrote(m, req, true, gone)) <= 1
  {
    hide V.Selects;
    assert Bytes(m) % U32 == Bytes(m);
    if req.Update? { NeverGrows(m, gone); assert req.key in m; }
    RequestIsSmall(m, req);
    if Exceeds(m, Bytes(m), 1, req) {
      Shortage(m, 1, req);
      var k := SelectedEntry(t, ttl, m, u, IgnoreKey(req), Required(Bytes(m), 1, req), gone);
      TwoEntries(m, k, req);
      FreesAll(m, k, gone);
      RoomAfter(m, 1, req, gone);
    } else {
      assert m - gone == m;
      RoomNow(m, 1, req);
    }
  }

  /** With one byte in all, an entry with a value is the only one. */
  lemma TwoEntries(m: Entries, k: string, req: Request)
    requires k in m && m[k] != "" && Bytes(m) <= 1 && k != IgnoreKey(req) && (req.Update? ==> req.key in m)
    ensures req.Create?
  {
    BytesWithout(m, k);
    if req.Update? { BytesWithout(m - {k}, req.key); }
  }

  lemma FreesAll(m: Entries, k: string, gone: set<string>)
    requires k in m && k in gone && m[k] != ""
    ensures Weight(m, gone) >= 1
  {
    WeightMonotone(m, {k}, gone);
    assert {} + {k} == {k};
    WeightAdd(m, {}, k);
  }

  lemma {:induction false} KeptAtOne(x: Codecs, states: seq<Stores>, events: seq<Event>, u: string, limit: Limit,
                                     shared: bool, n: nat)
    requires IsRun(x, states, events) && Under(x, states, u, limit, shared) && Ordinary(u) && n < |states|
    requires limit == Limit(1, VolatileTtl)
    ensures Bytes(At(states[n], u)) <= 1
  {
    if n > 0 {
      KeptAtOne(x, states, events, u, limit, shared, n - 1);
      var w, e, w' := states[n - 1], events[n - 1], states[n];
      assert Happens(x, w, e, w') && UnderState(x, w, u, limit, shared);
      assert StoresIn(e, u) ==> LimitOf(x, w, u).Some?;
      hide Happens, Bytes, At, LimitOf;
      if StoresIn(e, u) { OneByte(x, w, e, w', u, limit); } else { OthersShrink(x, w, e, w', u); }
    }
  }

  // ---- Where it is not ----

  ghost predicate RunTo(x: Codecs, states: seq<Stores>, events: seq<Event>, u: string, limit: Limit, shared: bool,
                        w: Stores)
  {
    IsRun(x, states, events) && Under(x, states, u, limit, shared) && states[|states| - 1] == w
  }

  ghost predicate Reached(x: Codecs, u: string, limit: Limit, shared: bool, w: Stores)
  {
    exists states, events :: RunTo(x, states, events, u, limit, shared, w)
  }

  lemma OneMoreStep(x: Codecs, states: seq<Stores>, events: seq<Event>, u: string, limit: Limit, shared: bool,
                    w: Stores, e: Event, w': Stores)
    requires RunTo(x, states, events, u, limit, shared, w) && Happens(x, w, e, w')
    requires UnderState(x, w', u, limit, shared)
    ensures RunTo(x, states + [w'], events + [e], u, limit, shared, w')
  {
    hide Happens, UnderState;
    var states', events' := states + [w'], events + [e];
    forall i | 0 <= i < |events'| ensures Happens(x, states'[i], events'[i], states'[i + 1]) {
      if i < |events| {
        assert states'[i] == states[i] && states'[i + 1] == states[i + 1] && events'[i] == events[i];
      } else {
        assert states'[i] == w && states'[i + 1] == w' && events'[i] == e;
      }
    }
    forall i | 0 <= i < |states'| ensures UnderState(x, states'[i], u, limit, shared) {
      if i < |states| { assert states'[i] == states[i]; }
    }
  }

  lemma Extend(x: Codecs, u: string, limit: Limit, shared: bool, w: Stores, e: Event, w': Stores)
    requires Reached(x, u, limit, shared, w) && Happens(x, w, e, w') && UnderState(x, w', u, limit, shared)
    ensures Reached(x, u, limit, shared, w')
  {
    hide Happens, UnderState, RunTo;
    var states, events :| RunTo(x, states, events, u, limit, shared, w);
    OneMoreStep(x, states, events, u, limit, shared, w, e, w');
  }

  /** A write that passes the limit at the end of a run. */
  lemma PassedBy(x: Codecs, u: string, limit: Limit, shared: bool, w: Stores, e: Event, w': Stores)
    requires Reached(x, u, limit, shared, w) && Happens(x, w, e, w') && UnderState(x, w', u, limit, shared)
    requires StoresIn(e, u) && LimitOf(x, w, u) == Some(limit) && Bytes(At(w', u)) > limit.max > 0
    ensures !AllKeepLimit(x, u, limit, shared)
  {
    hide Happens, UnderState, LimitOf, Bytes, At;
    var states, events :| RunTo(x, states, events, u, limit, shared, w);
    OneMoreStep(x, states, events, u, limit, shared, w, e, w');
    RunShape(x, states, events);
    hide IsRun;
    var states', events', n := states + [w'], events + [e], |events|;
    assert states'[n] == w && states'[n + 1] == w' && events'[n] == e;
    assert !KeepsLimit(x, states', events', u);
  }

  /** The store of permissions, of time-to-live entries, and of u. */
  function World(u: string, perms: Entries, ttl: Entries, m: Entries): Stores
  {
    map[PERMS_UUID := perms, V.TTL_UUID := ttl, u := m]
  }

  lemma InWorld(u: string, perms: Entries, ttl: Entries, m: Entries)
    requires Ordinary(u)
    ensures var w := World(u, perms, ttl, m);
            && At(w, PERMS_UUID) == perms && At(w, V.TTL_UUID) == ttl && At(w, u) == m
            && forall v | v != PERMS_UUID && v != V.TTL_UUID && v != u :: At(w, v) == map[]
  {
  }

  const FREE: Limit := Limit(0, NoEviction)

  /** The permission records: of u, and of a database called "TTL" if there may be one. */
  function Records(x: Codecs, u: string, limit: Limit, shared: bool): Entries
  {
    if shared then map[u := x.encode(limit), V.TTL_UUID := x.encode(FREE)] else map[u := x.encode(limit)]
  }

  lemma InRecords(x: Codecs, u: string, limit: Limit, shared: bool, ttl: Entries, m: Entries)
    requires Ordinary(u) && Faithful(x)
    ensures var w := World(u, Records(x, u, limit, shared), ttl, m);
            && LimitOf(x, w, u) == Some(limit) && UnderState(x, w, u, limit, shared)
            && (shared ==> LimitOf(x, w, V.TTL_UUID) == Some(FREE))
  {
    InWorld(u, Records(x, u, limit, shared), ttl, m);
    hide World, At;
  }

  lemma Opened(x: Codecs, u: string, limit: Limit, shared: bool)
    requires Ordinary(u) && Faithful(x) && |u| <= MAX_KEY_SIZE
    ensures Reached(x, u, limit, shared, World(u, Records(x, u, limit, shared), map[], map[]))
  {
    var w0: Stores := map[];
    assert RunTo(x, [w0], [], u, limit, shared, w0);
    var one := World(u, Records(x, u, limit, false), map[], map[]);
    InRecords(x, u, limit, false, map[], map[]);
    InWorld(u, Records(x, u, limit, false), map[], map[]);
    var e := SetLimit(u, x.encode(limit));
    forall v ensures At(one, v) == Becomes(x, w0, e, v) { }
    assert LimitOf(x, one, V.TTL_UUID).None?;
    Extend(x, u, limit, shared, w0, e, one);
    if shared {
      var two := World(u, Records(x, u, limit, true), map[], map[]);
      InRecords(x, u, limit, true, map[], map[]);
      InWorld(u, Records(x, u, limit, true), map[], map[]);
      var e2 := SetLimit(V.TTL_UUID, x.encode(FREE));
      forall v ensures At(two, v) == Becomes(x, one, e2, v) { }
      Extend(x, u, limit, shared, one, e2, two);
    }
  }

  /** Storing a new entry that fits, with or without a time to live. */
  lemma Adds(x: Codecs, u: string, limit: Limit, shared: bool, ttl: Entries, m: Entries, k: string, v: string,
             expires: Option<string>)
    requires Ordinary(u) && Faithful(x) && k !in m && |k| <= MAX_KEY_SIZE && |v| <= MAX_VALUE_SIZE
    requires !Exceeds(m, Bytes(m) % U32, limit.max, Create(k, v)) && |k| + |v| <= limit.max
    ensures var perms := Records(x, u, limit, shared);
            Happens(x, World(u, perms, ttl, m), Write(u, Create(k, v), expires, true, {}),
                    World(u, perms, Expiry(ttl, x.ttl.generate(u, k), expires), m[k := v]))
  {
    var perms := Records(x, u, limit, shared);
    var w, w' := World(u, perms, ttl, m), World(u, perms, Expiry(ttl, x.ttl.generate(u, k), expires), m[k := v]);
    var e := Write(u, Create(k, v), expires, true, {});
    InWorld(u, perms, ttl, m);
    InWorld(u, perms, Expiry(ttl, x.ttl.generate(u, k), expires), m[k := v]);
    InRecords(x, u, limit, shared, ttl, m);
    assert m - {} == m;
    hide World, At, Records, Exceeds, Bytes, Expiry, Faithful;
    assert Allowed(x, w, e);
    forall z ensures At(w', z) == Becomes(x, w, e, z) { }
  }

  // ---- At 4 GiB and above ----

  /** n entries of 32 bytes each. */
  function Filled(n: nat): Entries
    requires n <= U64
  {
    if n == 0 then map[] else Filled(n - 1)[Pad(n - 1) := Zeros(12)]
  }

  lemma {:induction false} FilledKeys(n: nat, i: nat)
    requires n <= i < U64
    ensures Pad(i) !in Filled(n)
  {
    if n > 0 {
      FilledKeys(n - 1, i);
      PadOrder(n - 1, i, "", "");
    }
  }

  lemma {:induction false} FilledLong(n: nat)
    requires n <= U64
    ensures forall k | k in Filled(n) :: |k| == 20
  {
    if n > 0 {
      FilledLong(n - 1);
      PadValue(n - 1);
    }
  }

  lemma {:induction false} FilledBytes(n: nat)
    requires n <= U64
    ensures Bytes(Filled(n)) == 32 * n
  {
    hide Pad;
    if n > 0 {
      FilledBytes(n - 1);
      FilledKeys(n - 1, n - 1);
      PadValue(n - 1);
      BytesPut(Filled(n - 1), Pad(n - 1), Zeros(12));
    }
  }

  /** What get_size reports leaves 32 bytes below 4 GiB. */
  lemma WrappedSize(n: nat)
    ensures 32 * n % U32 + 32 <= U32 && (32 * n < U32 ==> 32 * n % U32 == 32 * n)
  {
    var q, r := 32 * n / U32, 32 * n % U32;
    assert r == 32 * (n - q * 0x800_0000);
    assert r <= U32 - 32;
  }

  lemma FitsBy(m: Entries, size: nat, max: nat, k: string, v: string)
    requires size < U32 && |k| == 20 && |v| == 12 && size + 32 <= max
    ensures !Exceeds(m, size, max, Create(k, v))
  {
    Add64Exact(size, 20);
    Add64Exact(size + 20, 12);
    hide Add64;
  }

  /** The next one seems to fit, because get_size wraps or because it does. */
  lemma SeemsToFit(n: nat, max: nat)
    requires n < U64 && 32 <= max && (U32 <= max || 32 * n + 32 <= max)
    ensures !Exceeds(Filled(n), Bytes(Filled(n)) % U32, max, Create(Pad(n), Zeros(12)))
    ensures Pad(n) !in Filled(n) && |Pad(n)| == 20 && |Zeros(12)| == 12
  {
    hide Pad, Filled, Bytes, Exceeds;
    FilledBytes(n);
    FilledKeys(n, n);
    PadValue(n);
    var size := 32 * n % U32;
    assert size + 32 <= max by { WrappedSize(n); }
    FitsBy(Filled(n), size, max, Pad(n), Zeros(12));
  }

  lemma {:induction false} Fills(x: Codecs, u: string, limit: Limit, shared: bool, n: nat)
    requires Ordinary(u) && Faithful(x) && |u| <= MAX_KEY_SIZE && n <= U64 && (n > 0 ==> 32 <= limit.max)
    requires U32 <= limit.max || 32 * n <= limit.max
    ensures Reached(x, u, limit, shared, World(u, Records(x, u, limit, shared), map[], Filled(n)))
  {
    if n == 0 {
      Opened(x, u, limit, shared);
    } else {
      Fills(x, u, limit, shared, n - 1);
      SeemsToFit(n - 1, limit.max);
      var e := FillStep(x, u, limit, shared, n - 1);
      InRecords(x, u, limit, shared, map[], Filled(n));
      hide Reached, Happens, UnderState, Records, World, Filled;
      Extend(x, u, limit, shared, World(u, Records(x, u, limit, shared), map[], Filled(n - 1)), e,
             World(u, Records(x, u, limit, shared), map[], Filled(n)));
    }
  }

  lemma FillStep(x: Codecs, u: string, limit: Limit, shared: bool, n: nat) returns (e: Event)
    requires Ordinary(u) && Faithful(x) && n < U64 && 32 <= limit.max
    requires U32 <= limit.max || 32 * n + 32 <= limit.max
    ensures var perms := Records(x, u, limit, shared);
            Happens(x, World(u, perms, map[], Filled(n)), e, World(u, perms, map[], Filled(n + 1))) && StoresIn(e, u)
  {
    SeemsToFit(n, limit.max);
    hide Happens, Exceeds, Bytes, Faithful, Pad;
    Adds(x, u, limit, shared, map[], Filled(n), Pad(n), Zeros(12), None);
    e := Write(u, Create(Pad(n), Zeros(12)), None, true, {});
    assert Expiry(map[], x.ttl.generate(u, Pad(n)), None) == map[];
  }

  lemma PassedAbove(x: Codecs, u: string, limit: Limit, shared: bool)
    requires Ordinary(u) && Faithful(x) && |u| <= MAX_KEY_SIZE && U32 <= limit.max < U64
    ensures !AllKeepLimit(x, u, limit, shared)
  {
    var n := limit.max / 32;
    assert n < U64 && 32 * (n + 1) > limit.max;
    Fills(x, u, limit, shared, n);
    var e := FillStep(x, u, limit, shared, n);
    var perms := Records(x, u, limit, shared);
    InRecords(x, u, limit, shared, map[], Filled(n));
    InRecords(x, u, limit, shared, map[], Filled(n + 1));
    InWorld(u, perms, map[], Filled(n + 1));
    FilledBytes(n + 1);
    hide Reached, Happens, UnderState, Records, World, Filled, Bytes, AllKeepLimit;
    PassedBy(x, u, limit, shared, World(u, perms, map[], Filled(n)), e, World(u, perms, map[], Filled(n + 1)));
  }

  // ---- Texts that read alike ----

  /** The entries that the aliases are used against: filled up to the limit, r bytes of it here. */
  function Trap(n: nat, r: nat): Entries
    requires n <= U64 && r > 0
  {
    Filled(n)["" := Zeros(r - 1)]["u" := ""]
  }

  lemma TrapBytes(n: nat, r: nat)
    requires n <= U64 && r > 0
    ensures "" !in Filled(n) && "u" !in Filled(n)
    ensures Bytes(Filled(n)["" := Zeros(r - 1)]) == 32 * n + r - 1 && Bytes(Trap(n, r)) == 32 * n + r
    ensures Bytes((Trap(n, r) - {""})["u" := Zeros(r)]) == 32 * n + 1 + r
  {
    FilledLong(n);
    FilledBytes(n);
    var m := Filled(n);
    hide Filled, Bytes;
    BytesPut(m, "", Zeros(r - 1));
    BytesPut(m["" := Zeros(r - 1)], "u", "");
    BytesPut(m, "u", Zeros(r));
    assert (Trap(n, r) - {""})["u" := Zeros(r)] == m["u" := Zeros(r)];
  }

  /** Four texts for one entry. */
  function FourTexts(t: V.TtlCodec, u: string, a: string, b: string, d: string): Entries
  {
    map[t.generate(u, "") := "1", a := "", b := "", d := ""]
  }

  lemma {:induction false} SameItems(n: nat, size: nat)
    ensures V.Total(seq(n, _ => V.TtlItem("", size))) == n * size
  {
    var items := seq(n, _ => V.TtlItem("", size));
    if n > 0 {
      assert items[..n - 1] == seq(n - 1, _ => V.TtlItem("", size));
      SameItems(n - 1, size);
    }
  }

  /** How many of the four are counted before 2r bytes seem to be free. */
  function Counted(r: nat): nat { if r == 2 then 4 else 3 }

  lemma CountedIsEnough(r: nat)
    requires r >= 2
    ensures Counted(r) * (r - 1) >= 2 * r > (Counted(r) - 1) * (r - 1)
  {
  }

  /** Counted once for each text, the one value seems to set enough free. */
  lemma CountedTwice(t: V.TtlCodec, u: string, a: string, b: string, d: string, m: Entries, r: nat)
    requires Aliases(t, u, a, b, d) && ReadsBack(t) && r >= 2 && "" in m && m[""] == Zeros(r - 1)
    ensures V.Selects(t, FourTexts(t, u, a, b, d), m, u, "u", 2 * r, {""})
  {
    var ttl := FourTexts(t, u, a, b, d);
    var ours, item := [t.generate(u, ""), a, b, d], V.TtlItem("", r - 1);
    var items := seq(4, _ => item);
    FourItems(t, u, a, b, d, m, r, items);
    hide V.ItemsOf, FourTexts, Aliases;
    var taken := Counted(r);
    CountedIsEnough(r);
    TakesSame(items, item, taken, 2 * r);
    assert V.KeysOf(items[..taken]) == {""} by { assert items[..taken][0] == item; }
  }

  lemma FourItems(t: V.TtlCodec, u: string, a: string, b: string, d: string, m: Entries, r: nat, items: seq<V.TtlItem>)
    requires Aliases(t, u, a, b, d) && ReadsBack(t) && r >= 2 && "" in m && m[""] == Zeros(r - 1)
    requires items == seq(4, _ => V.TtlItem("", r - 1))
    ensures V.ItemsOf(t, FourTexts(t, u, a, b, d), m, u, "u", [t.generate(u, ""), a, b, d], items)
  {
    var ttl, g := FourTexts(t, u, a, b, d), t.generate(u, "");
    var ours := [g, a, b, d];
    assert t.parse(g) == Some((u, ""));
    forall e ensures e in ours <==> e in ttl && V.Ours(t, e, u, "u") { }
    forall i | 0 <= i < 4 ensures items[i] == V.ItemOf(t, ttl, m, u, ours[i]) { assert ours[i] in ttl; }
  }

  lemma TakesSame(items: seq<V.TtlItem>, item: V.TtlItem, taken: nat, need: nat)
    requires items == seq(4, _ => item) && item.key == "" && 0 < taken <= 4
    requires taken * item.size >= need > (taken - 1) * item.size
    ensures V.TakesFrom(items, items, taken, need)
  {
    SameItems(taken, item.size);
    SameItems(taken - 1, item.size);
    assert items[..taken] == seq(taken, _ => V.TtlItem("", item.size));
    assert items[..taken - 1] == seq(taken - 1, _ => V.TtlItem("", item.size));
  }

  lemma NeedIsTwice(max: nat, r: nat)
    requires max < U32 && 0 < r <= 64
    ensures Required(max, max, Update("u", Zeros(r))) == 2 * r
  {
    Sub64Nested(r, 0, r);
    Sub64Exact(r + r, 0);
    assert Sub64(max, max) == 0;
  }

  lemma TrapStep(t: V.TtlCodec, u: string, limit: Limit, a: string, b: string, d: string, n: nat, r: nat)
    requires ReadsBack(t) && Aliases(t, u, a, b, d) && limit.policy == VolatileTtl
    requires 2 <= r <= 33 && limit.max == 32 * n + r < U32
    ensures WriteStep(t, FourTexts(t, u, a, b, d), Trap(n, r), u, limit, Update("u", Zeros(r)), true, {""})
  {
    var m, req := Trap(n, r), Update("u", Zeros(r));
    TrapBytes(n, r);
    CountedTwice(t, u, a, b, d, m, r);
    assert "u" in m - {""} && "u" in m && m["u"] == "" && Storable(req);
    hide V.Selects, Bytes, Trap, FourTexts, Filled, Required, Aliases, Exceeds, ReadsBack;
    NeedIsTwice(limit.max, r);
    assert Bytes(m) == limit.max;
    SmallMod(Bytes(m));
    ExceedsExactly(m, limit.max, req);
  }

  lemma SmallMod(k: nat)
    requires k < U32
    ensures k % U32 == k
  {
  }

  /** The update that is let in: what is evicted is r - 1 bytes, what is needed is more. */
  lemma LetsIn(x: Codecs, u: string, limit: Limit, a: string, b: string, d: string, n: nat, r: nat)
    requires Ordinary(u) && Faithful(x) && Aliases(x.ttl, u, a, b, d) && limit.policy == VolatileTtl
    requires 2 <= r <= 33 && limit.max == 32 * n + r < U32
    ensures var perms, ttl, m := Records(x, u, limit, true), FourTexts(x.ttl, u, a, b, d), Trap(n, r);
            var m' := (m - {""})["u" := Zeros(r)];
            Happens(x, World(u, perms, ttl, m), Write(u, Update("u", Zeros(r)), None, true, {""}),
                    World(u, perms, ttl - {x.ttl.generate(u, "u")}, m'))
  {
    var perms, ttl, m := Records(x, u, limit, true), FourTexts(x.ttl, u, a, b, d), Trap(n, r);
    var m', ttl' := (m - {""})["u" := Zeros(r)], ttl - {x.ttl.generate(u, "u")};
    var w, w' := World(u, perms, ttl, m), World(u, perms, ttl', m');
    var e := Write(u, Update("u", Zeros(r)), None, true, {""});
    TrapStep(x.ttl, u, limit, a, b, d, n, r);
    InWorld(u, perms, ttl, m);
    InWorld(u, perms, ttl', m');
    InRecords(x, u, limit, true, ttl, m);
    hide World, At, Records, WriteStep, Faithful, Aliases, Trap, FourTexts;
    assert Allowed(x, w, e);
    forall z ensures At(w', z) == Becomes(x, w, e, z) { }
  }

  /** Anybody who owns the database called "TTL" may store a text in it. */
  lemma Plants(x: Codecs, u: string, limit: Limit, ttl: Entries, m: Entries, text: string)
    requires Ordinary(u) && Faithful(x) && text !in ttl && |text| <= MAX_KEY_SIZE
    requires x.ttl.generate(V.TTL_UUID, text) !in ttl && x.ttl.generate(V.TTL_UUID, text) != text
    ensures var perms := Records(x, u, limit, true);
            Happens(x, World(u, perms, ttl, m), Write(V.TTL_UUID, Create(text, ""), None, true, {}),
                    World(u, perms, ttl[text := ""], m))
  {
    var perms := Records(x, u, limit, true);
    var w, w' := World(u, perms, ttl, m), World(u, perms, ttl[text := ""], m);
    var e := Write(V.TTL_UUID, Create(text, ""), None, true, {});
    InWorld(u, perms, ttl, m);
    InWorld(u, perms, ttl[text := ""], m);
    InRecords(x, u, limit, true, ttl, m);
    assert ttl - {} == ttl;
    assert ttl[text := ""] - {x.ttl.generate(V.TTL_UUID, text)} == ttl[text := ""];
    hide World, At, Records, Faithful, Bytes;
    assert Allowed(x, w, e);
    forall z ensures At(w', z) == Becomes(x, w, e, z) { }
  }

  /** The run: u is filled up, one entry gets a time to live, and three more texts for it are stored
      in the database called "TTL". */
  lemma TrapReached(x: Codecs, u: string, limit: Limit, a: string, b: string, d: string, n: nat, r: nat)
    requires Ordinary(u) && Faithful(x) && |u| <= MAX_KEY_SIZE && Aliases(x.ttl, u, a, b, d)
    requires 2 <= r <= 33 && limit.max == 32 * n + r < U32
    ensures Reached(x, u, limit, true, World(u, Records(x, u, limit, true), FourTexts(x.ttl, u, a, b, d), Trap(n, r)))
  {
    var perms, m, g := Records(x, u, limit, true), Trap(n, r), x.ttl.generate(u, "");
    BaitReached(x, u, limit, n, r, g);
    assert forall s, v :: x.ttl.parse(x.ttl.generate(s, v)) == Some((s, v));
    var t0: Entries := map[g := "1"];
    Planted(x, u, limit, t0, m, a);
    Planted(x, u, limit, t0[a := ""], m, b);
    Planted(x, u, limit, t0[a := ""][b := ""], m, d);
    assert t0[a := ""][b := ""][d := ""] == FourTexts(x.ttl, u, a, b, d);
  }

  lemma Planted(x: Codecs, u: string, limit: Limit, ttl: Entries, m: Entries, text: string)
    requires Ordinary(u) && Faithful(x) && text !in ttl && |text| <= MAX_KEY_SIZE && V.OfDatabase(x.ttl, text, u)
    requires forall e | e in ttl :: V.OfDatabase(x.ttl, e, u)
    requires Reached(x, u, limit, true, World(u, Records(x, u, limit, true), ttl, m))
    ensures Reached(x, u, limit, true, World(u, Records(x, u, limit, true), ttl[text := ""], m))
  {
    assert x.ttl.parse(x.ttl.generate(V.TTL_UUID, text)) == Some((V.TTL_UUID, text));
    Plants(x, u, limit, ttl, m, text);
    InRecords(x, u, limit, true, ttl[text := ""], m);
    hide Reached, Happens, UnderState, Records, World;
    Extend(x, u, limit, true, World(u, Records(x, u, limit, true), ttl, m),
           Write(V.TTL_UUID, Create(text, ""), None, true, {}),
           World(u, Records(x, u, limit, true), ttl[text := ""], m));
  }

  lemma FitsExactly(m: Entries, max: nat, k: string, v: string)
    requires Bytes(m) + |k| + |v| <= max < U32
    ensures !Exceeds(m, Bytes(m) % U32, max, Create(k, v))
  {
    SmallMod(Bytes(m));
    hide Bytes, Add64, Sub64;
    if max > 0 { ExceedsExactly(m, max, Create(k, v)); }
  }

  lemma BaitReached(x: Codecs, u: string, limit: Limit, n: nat, r: nat, g: string)
    requires Ordinary(u) && Faithful(x) && |u| <= MAX_KEY_SIZE && 2 <= r <= 33 && limit.max == 32 * n + r < U32
    requires g == x.ttl.generate(u, "") && |g| <= MAX_KEY_SIZE
    ensures Reached(x, u, limit, true, World(u, Records(x, u, limit, true), map[g := "1"], Trap(n, r)))
  {
    hide Bytes, Records, World, Reached, Happens, UnderState, Exceeds, Zeros;
    Fills(x, u, limit, true, n);
    Added1(x, u, limit, n, r, g);
    Added2(x, u, limit, n, r, g);
  }

  lemma Added1(x: Codecs, u: string, limit: Limit, n: nat, r: nat, g: string)
    requires Ordinary(u) && Faithful(x) && 2 <= r <= 33 && limit.max == 32 * n + r < U32
    requires g == x.ttl.generate(u, "") && |g| <= MAX_KEY_SIZE
    requires Reached(x, u, limit, true, World(u, Records(x, u, limit, true), map[], Filled(n)))
    ensures Reached(x, u, limit, true,
                    World(u, Records(x, u, limit, true), map[g := "1"], Filled(n)["" := Zeros(r - 1)]))
  {
    hide Filled, Bytes, Records, World, Reached, Exceeds, Faithful;
    FilledBytes(n);
    TrapBytes(n, r);
    FitsExactly(Filled(n), limit.max, "", Zeros(r - 1));
    Added(x, u, limit, map[], Filled(n), "", Zeros(r - 1), Some("1"));
    assert Expiry(map[], g, Some("1")) == map[g := "1"];
  }

  lemma Added2(x: Codecs, u: string, limit: Limit, n: nat, r: nat, g: string)
    requires Ordinary(u) && Faithful(x) && 2 <= r <= 33 && limit.max == 32 * n + r < U32 && g == x.ttl.generate(u, "")
    requires Reached(x, u, limit, true,
                     World(u, Records(x, u, limit, true), map[g := "1"], Filled(n)["" := Zeros(r - 1)]))
    ensures Reached(x, u, limit, true, World(u, Records(x, u, limit, true), map[g := "1"], Trap(n, r)))
  {
    assert x.ttl.parse(g) == Some((u, "")) && x.ttl.parse(x.ttl.generate(u, "u")) == Some((u, "u"));
    hide Filled, Bytes, Records, World, Reached, Exceeds, Faithful;
    var m := Filled(n)["" := Zeros(r - 1)];
    TrapBytes(n, r);
    FitsExactly(m, limit.max, "u", "");
    Added(x, u, limit, map[g := "1"], m, "u", "", None);
    assert Expiry(map[g := "1"], x.ttl.generate(u, "u"), None) == map[g := "1"];
  }

  lemma Added(x: Codecs, u: string, limit: Limit, ttl: Entries, m: Entries, k: string, v: string,
              expires: Option<string>)
    requires Ordinary(u) && Faithful(x) && k !in m && |k| <= MAX_KEY_SIZE && |v| <= MAX_VALUE_SIZE
    requires !Exceeds(m, Bytes(m) % U32, limit.max, Create(k, v)) && |k| + |v| <= limit.max
    requires Reached(x, u, limit, true, World(u, Records(x, u, limit, true), ttl, m))
    ensures Reached(x, u, limit, true,
                    World(u, Records(x, u, limit, true), Expiry(ttl, x.ttl.generate(u, k), expires), m[k := v]))
  {
    hide Reached, Happens, UnderState, Records, World, Exceeds, Bytes, Expiry, Faithful;
    Adds(x, u, limit, true, ttl, m, k, v, expires);
    InRecords(x, u, limit, true, Expiry(ttl, x.ttl.generate(u, k), expires), m[k := v]);
    Extend(x, u, limit, true, World(u, Records(x, u, limit, true), ttl, m), Write(u, Create(k, v), expires, true, {}),
           World(u, Records(x, u, limit, true), Expiry(ttl, x.ttl.generate(u, k), expires), m[k := v]));
  }

  /** From two bytes on, the limit is passed with texts that read alike. */
  lemma PassedByAliases(x: Codecs, u: string, limit: Limit)
    requires Ordinary(u) && Faithful(x) && |u| <= MAX_KEY_SIZE && HasAliases(x.ttl, u)
    requires 2 <= limit.max < U32 && limit.policy == VolatileTtl
    ensures !AllKeepLimit(x, u, limit, true)
  {
    var a, b, d :| Aliases(x.ttl, u, a, b, d);
    var n := (limit.max - 2) / 32;
    var r := limit.max - 32 * n;
    var perms, ttl, m := Records(x, u, limit, true), FourTexts(x.ttl, u, a, b, d), Trap(n, r);
    var m', ttl' := (m - {""})["u" := Zeros(r)], ttl - {x.ttl.generate(u, "u")};
    TrapReached(x, u, limit, a, b, d, n, r);
    LetsIn(x, u, limit, a, b, d, n, r);
    TrapBytes(n, r);
    InWorld(u, perms, ttl', m');
    InRecords(x, u, limit, true, ttl, m);
    InRecords(x, u, limit, true, ttl', m');
    hide Reached, Happens, UnderState, Records, World, Bytes, AllKeepLimit, Aliases, FourTexts, Trap, Filled;
    PassedBy(x, u, limit, true, World(u, perms, ttl, m), Write(u, Update("u", Zeros(r)), None, true, {""}),
             World(u, perms, ttl', m'));
  }

  /** The limit of a database is kept in every run exactly if it is below 4 GiB and, under the
      volatile-ttl policy, there may be no database called "TTL" (or no room for a mistake). */
  lemma LimitKeptIff(x: Codecs, u: string, limit: Limit, shared: bool)
    requires Ordinary(u) && Faithful(x) && |u| <= MAX_KEY_SIZE && HasAliases(x.ttl, u) && 0 < limit.max < U64
    ensures AllKeepLimit(x, u, limit, shared)
            <==> limit.max < U32 && (limit.policy.VolatileTtl? && shared ==> limit.max == 1)
  {
    hide IsRun, Under, KeepsLimit, HasAliases;
    if U32 <= limit.max {
      PassedAbove(x, u, limit, shared);
    } else if limit.policy.VolatileTtl? && shared && limit.max > 1 {
      PassedByAliases(x, u, limit);
    } else {
      forall states: seq<Stores>, events: seq<Event> | IsRun(x, states, events) && Under(x, states, u, limit, shared)
        ensures KeepsLimit(x, states, events, u)
      {
        if limit.policy.VolatileTtl? && shared {
          KeptAtOneByte(x, states, events, u, limit, shared);
        } else {
          KeptBelow(x, states, events, u, limit, shared);
        }
      }
    }
  }

  lemma KeptAtOneByte(x: Codecs, states: seq<Stores>, events: seq<Event>, u: string, limit: Limit, shared: bool)
    requires IsRun(x, states, events) && Under(x, states, u, limit, shared) && Ordinary(u)
    requires limit == Limit(1, VolatileTtl)
    ensures KeepsLimit(x, states, events, u)
  {
    forall n | 0 <= n < |events| && StoresIn(events[n], u)
      ensures LimitOf(x, states[n], u) == Some(limit) && Bytes(At(states[n + 1], u)) <= 1
    {
      assert Happens(x, states[n], events[n], states[n + 1]) && UnderState(x, states[n], u, limit, shared);
      KeptAtOne(x, states, events, u, limit, shared, n + 1);
    }
  }

  /** The smallest mistake: with two texts for one entry, 61 bytes are freed where 100 are needed, and
      139 bytes are stored under a limit of 100. */
  lemma FreedTooLittle(t: V.TtlCodec, u: string, text: string)
    requires ReadsBack(t) && t.parse(text) == Some((u, "k")) && text != t.generate(u, "k")
    ensures var ttl := map[t.generate(u, "k") := "1", text := ""];
            var m := map["k" := Zeros(60), "x" := Zeros(38)];
            var limit, req := Limit(100, VolatileTtl), Create("n", Zeros(99));
            && Bytes(m) == 100 && WriteStep(t, ttl, m, u, limit, req, true, {"k"})
            && Weight(m, {"k"}) == 61 && Bytes(Wrote(m, req, true, {"k"})) == 139
  {
    var ttl, g := map[t.generate(u, "k") := "1", text := ""], t.generate(u, "k");
    var m := map["k" := Zeros(60), "x" := Zeros(38)];
    var req := Create("n", Zeros(99));
    SmallBytes();
    TwoItems(t, u, text, m);
    Sub64Nested(100, 100, 100);
    Sub64Exact(100 + 100, 100);
    assert Sub64(Sub64(100, 100), 0) == Sub64(100, 100);
    assert Required(100, 100, req) == 100;
    ExceedsExactly(m, 100, req);
    hide Exceeds, Bytes, V.Selects, Required;
  }

  lemma SmallBytes()
    ensures var m := map["k" := Zeros(60), "x" := Zeros(38)];
            && Bytes(m) == 100 && Weight(m, {"k"}) == 61 && Bytes(Wrote(m, Create("n", Zeros(99)), true, {"k"})) == 139
  {
    var none: Entries := map[];
    var m := map["k" := Zeros(60), "x" := Zeros(38)];
    BytesPut(none, "k", Zeros(60));
    BytesPut(none["k" := Zeros(60)], "x", Zeros(38));
    assert none["k" := Zeros(60)]["x" := Zeros(38)] == m && none - {"k"} == none;
    assert Only(m, {"k"}) == none["k" := Zeros(60)];
    BytesPut(none, "x", Zeros(38));
    BytesPut(none["x" := Zeros(38)], "n", Zeros(99));
    assert (m - {"k"})["n" := Zeros(99)] == none["x" := Zeros(38)]["n" := Zeros(99)] && none - {"x"} == none;
  }

  lemma TwoItems(t: V.TtlCodec, u: string, text: string, m: Entries)
    requires ReadsBack(t) && t.parse(text) == Some((u, "k")) && text != t.generate(u, "k")
    requires "k" in m && m["k"] == Zeros(60)
    ensures V.Selects(t, map[t.generate(u, "k") := "1", text := ""], m, u, "", 100, {"k"})
  {
    var ttl, g := map[t.generate(u, "k") := "1", text := ""], t.generate(u, "k");
    var ours, item := [g, text], V.TtlItem("k", 60);
    var items := [item, item];
    assert t.parse(g) == Some((u, "k"));
    forall e ensures e in ours <==> e in ttl && V.Ours(t, e, u, "") { }
    assert V.ItemsOf(t, ttl, m, u, "", ours, items);
    assert items[..2] == items && items[..1] == [item] && [item][..0] == [];
    assert V.Total([item]) == V.Total([item][..0]) + 60 == 60;
    assert V.Total(items) == V.Total(items[..1]) + 60 == 120;
    assert V.TakesFrom(items, items, 2, 100);
    assert V.KeysOf(items[..2]) == {"k"} by { assert items[..2][0] == item; }
  }
}
