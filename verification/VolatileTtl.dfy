/** The eviction policy that takes entries with a time to live, those with the largest values first. */
module VolatileTtl {
  import opened Messages
  import opened MemStorage
  import opened Words
  import opened Quota
  import opened Eviction

  const TTL_UUID: string := "TTL"

  /** The JSON text that stands for an entry of a database, and what a text is read as. */
  datatype TtlCodec = TtlCodec(generate: (string, string) -> string, parse: string -> Option<(string, string)>)

  /** A text that can be read is the one generated for what it is read as. */
  ghost predicate AllGenuine(t: TtlCodec, ttl: Entries)
  {
    forall e | e in ttl && t.parse(e).Some? :: t.generate(t.parse(e).value.0, t.parse(e).value.1) == e
  }

  /** No two texts are read as the same entry of the database. */
  ghost predicate NoneAlike(t: TtlCodec, ttl: Entries, uuid: string)
  {
    forall e, e' | e in ttl && e' in ttl && OfDatabase(t, e, uuid) && t.parse(e) == t.parse(e') :: e == e'
  }

  predicate OfDatabase(t: TtlCodec, e: string, uuid: string)
  {
    t.parse(e).Some? && t.parse(e).value.0 == uuid
  }

  lemma GenuineNoneAlike(t: TtlCodec, ttl: Entries, uuid: string)
    requires AllGenuine(t, ttl)
    ensures NoneAlike(t, ttl, uuid)
  {
  }

  predicate Ours(t: TtlCodec, e: string, uuid: string, ignore: string)
  {
    t.parse(e).Some? && t.parse(e).value.1 != ignore && t.parse(e).value.0 == uuid
  }

  /** Whether filter_ttls leaves anything. */
  ghost predicate AnyOurs(t: TtlCodec, ttl: Entries, uuid: string, ignore: string)
  {
    exists e :: e in ttl && Ours(t, e, uuid, ignore)
  }

  /** The entries of the database that the policy may evict. */
  ghost function Evictable(t: TtlCodec, ttl: Entries, m: Entries, uuid: string, ignore: string): set<string>
  {
    set k | k in m && k != ignore && HasTtl(t, ttl, uuid, k)
  }

  ghost predicate HasTtl(t: TtlCodec, ttl: Entries, uuid: string, k: string)
  {
    t.generate(uuid, k) in ttl && exists e :: e in ttl && t.parse(e) == Some((uuid, k))
  }

  // ---- The items ----

  datatype TtlItem = TtlItem(key: string, size: nat)

  const Blank: TtlItem := TtlItem("", 0)

  function ItemOf(t: TtlCodec, ttl: Entries, m: Entries, uuid: string, e: string): TtlItem
  {
    if t.parse(e).None? then Blank
    else
      var key := t.parse(e).value.1;
      if key !in m || t.generate(uuid, key) !in ttl then Blank else TtlItem(key, |m[key]|)
  }

  function Total(items: seq<TtlItem>): nat
  {
    if items == [] then 0 else Total(items[..|items| - 1]) + items[|items| - 1].size
  }

  function KeysOf(items: seq<TtlItem>): set<string> { set x | x in items :: x.key }

  /** The keys that set bytes free. */
  function RealKeys(items: seq<TtlItem>): set<string> { set x | x in items && x.size > 0 :: x.key }

  /** The list shows each value with its size, and none twice. */
  ghost predicate Real(m: Entries, items: seq<TtlItem>)
  {
    forall x | x in items && x.size > 0 :: x.key in m && x.size == |m[x.key]| && multiset(items)[x] == 1
  }

  ghost predicate Descending(items: seq<TtlItem>)
  {
    forall i, j | 0 <= i < j < |items| :: items[i].size >= items[j].size
  }

  // ---- Bytes of values ----

  function Emptied(m: Entries): Entries { map k | k in m :: "" }

  /** The bytes of the values under the keys. */
  ghost function Values(m: Entries, keys: set<string>): int { Weight(m, keys) - Weight(Emptied(m), keys) }

  lemma ValuesAdd(m: Entries, keys: set<string>, k: string)
    requires k in m && k !in keys
    ensures Values(m, keys + {k}) == Values(m, keys) + |m[k]|
  {
    WeightAdd(m, keys, k);
    WeightAdd(Emptied(m), keys, k);
  }

  lemma NoValues(m: Entries)
    ensures Values(m, {}) == 0
  {
    NothingFreed(m);
    NothingFreed(Emptied(m));
  }

  lemma FewerReal(m: Entries, items: seq<TtlItem>)
    requires Real(m, items) && items != []
    ensures Real(m, items[..|items| - 1])
    ensures var x := items[|items| - 1];
            x.size > 0 ==> x.key in m && x.size == |m[x.key]| && x.key !in RealKeys(items[..|items| - 1])
  {
    var before, x := items[..|items| - 1], items[|items| - 1];
    assert items == before + [x];
    assert multiset(items) == multiset(before) + multiset{x};
  }

  /** What the list adds up to. */
  lemma {:induction false} TotalIsValues(m: Entries, items: seq<TtlItem>)
    requires Real(m, items)
    ensures Total(items) == Values(m, RealKeys(items))
    decreases |items|
  {
    hide Values;
    if items == [] {
      assert RealKeys(items) == {};
      NoValues(m);
    } else {
      var before, x := items[..|items| - 1], items[|items| - 1];
      FewerReal(m, items);
      TotalIsValues(m, before);
      assert items == before + [x];
      if x.size > 0 {
        assert RealKeys(items) == RealKeys(before) + {x.key};
        ValuesAdd(m, RealKeys(before), x.key);
      } else {
        assert RealKeys(items) == RealKeys(before);
      }
    }
  }

  lemma FewerKeys(items: seq<TtlItem>, keys: set<string>)
    requires Descending(items) && items != [] && keys <= RealKeys(items)
    ensures var before, x := items[..|items| - 1], items[|items| - 1];
            && Descending(before) && keys - {x.key} <= RealKeys(before)
            && (x.size == 0 || x.key !in keys ==> keys <= RealKeys(before))
            && forall y | y in items :: y.size >= x.size
  {
    var before, x := items[..|items| - 1], items[|items| - 1];
    assert items == before + [x];
  }

  /** No other keys, as many as the first items, have larger values. */
  lemma {:induction false} TopIsMost(m: Entries, items: seq<TtlItem>, keys: set<string>)
    requires Real(m, items) && Descending(items) && keys <= RealKeys(items)
    ensures |keys| <= |items| && Values(m, keys) <= Total(items[..|keys|])
    decreases |items|
  {
    hide Real, Descending, Values, Total;
    if items == [] {
      assert keys == {};
      NoValues(m);
    } else {
      FewerReal(m, items);
      FewerKeys(items, keys);
      hide RealKeys;
      var before, x := items[..|items| - 1], items[|items| - 1];
      if x.size > 0 && x.key in keys {
        TopIsMost(m, before, keys - {x.key});
        TopStep(m, items, keys);
      } else {
        TopIsMost(m, before, keys);
        Shorten(items, |keys|);
      }
    }
  }

  lemma Shorten(items: seq<TtlItem>, n: nat)
    requires items != [] && n < |items|
    ensures items[..|items| - 1][..n] == items[..n]
  {
  }

  lemma TopStep(m: Entries, items: seq<TtlItem>, keys: set<string>)
    requires items != [] && items[|items| - 1].key in keys && items[|items| - 1].key in m
    requires items[|items| - 1].size == |m[items[|items| - 1].key]| && forall y | y in items ::
               y.size >= items[|items| - 1].size
    requires var before, rest := items[..|items| - 1], keys - {items[|items| - 1].key};
             |rest| <= |before| && Values(m, rest) <= Total(before[..|rest|])
    ensures |keys| <= |items| && Values(m, keys) <= Total(items[..|keys|])
  {
    hide Values, Total, KeysOf;
    var before, x := items[..|items| - 1], items[|items| - 1];
    var rest := keys - {x.key};
    var n := |rest|;
    assert keys == rest + {x.key};
    ValuesAdd(m, rest, x.key);
    assert before[..n] == items[..n];
    OneMore(items, n);
    assert items[n] in items;
  }

  // ---- The steps of the policy ----

  method FilterTtls(t: TtlCodec, all: seq<string>, uuid: string, ignore: string) returns (ours: seq<string>)
    ensures forall e :: e in ours <==> e in all && Ours(t, e, uuid, ignore)
    ensures NoRepeats(all) ==> NoRepeats(ours)
  {
    ours := [];
    for i := 0 to |all|
      invariant forall e :: e in ours <==> e in all[..i] && Ours(t, e, uuid, ignore)
      invariant NoRepeats(all) ==> NoRepeats(ours)
    {
      if Ours(t, all[i], uuid, ignore) {
        ours := ours + [all[i]];
      }
    }
    assert all[..|all|] == all;
  }

  method GetTtlItems(t: TtlCodec, store: MemStore, uuid: string, ours: seq<string>) returns (items: seq<TtlItem>)
    ensures |items| == |ours|
    ensures forall i | 0 <= i < |ours| :: items[i] == ItemOf(t, store.View(TTL_UUID), store.View(uuid), uuid, ours[i])
  {
    items := [];
    for i := 0 to |ours|
      invariant |items| == i
      invariant forall j | 0 <= j < i :: items[j] == ItemOf(t, store.View(TTL_UUID), store.View(uuid), uuid, ours[j])
    {
      var item := Blank;
      if t.parse(ours[i]).Some? {
        var key := t.parse(ours[i]).value.1;
        var expire := store.Read(TTL_UUID, t.generate(uuid, key));
        var value := store.Read(uuid, key);
        if value.Some? && expire.Some? {
          item := TtlItem(key, |value.value|);
        }
      }
      items := items + [item];
    }
  }

  /** Where an item belongs in a descending list. */
  method PlaceOf(items: seq<TtlItem>, x: TtlItem) returns (n: nat)
    requires Descending(items)
    ensures n <= |items| && (forall i | 0 <= i < n :: items[i].size >= x.size)
            && (forall i | n <= i < |items| :: items[i].size <= x.size)
  {
    n := 0;
    while n < |items| && items[n].size > x.size
      invariant n <= |items| && forall i | 0 <= i < n :: items[i].size >= x.size
    {
      n := n + 1;
    }
  }

  /** The list with an item put in its place. */
  lemma PutInPlace(items: seq<TtlItem>, x: TtlItem, n: nat)
    requires Descending(items) && n <= |items| && (forall i | 0 <= i < n :: items[i].size >= x.size)
    requires forall i | n <= i < |items| :: items[i].size <= x.size
    ensures Descending(items[..n] + [x] + items[n..])
    ensures multiset(items[..n] + [x] + items[n..]) == multiset(items) + multiset{x}
  {
    assert items == items[..n] + items[n..];
  }

  method SortBySize(items: seq<TtlItem>) returns (sorted: seq<TtlItem>)
    ensures Descending(sorted) && multiset(sorted) == multiset(items)
  {
    sorted := [];
    for i := 0 to |items|
      invariant Descending(sorted) && multiset(sorted) == multiset(items[..i])
    {
      var n := PlaceOf(sorted, items[i]);
      PutInPlace(sorted, items[i], n);
      assert items[..i + 1] == items[..i] + [items[i]];
      sorted := sorted[..n] + [items[i]] + sorted[n..];
    }
    assert items[..|items|] == items;
  }

  /** The selection loop: items from the top of the list until enough is set free. */
  method TakeItems(items: seq<TtlItem>, need: nat) returns (keys: set<string>, required: nat, ghost taken: nat)
    ensures taken <= |items| && keys == KeysOf(items[..taken]) && required == Left(need, Total(items[..taken]))
    ensures required > 0 ==> taken == |items|
    ensures required == 0 && need > 0 ==> taken > 0 && Total(items[..taken - 1]) < need
    ensures items != [] ==> taken > 0
  {
    keys, required := {}, need;
    var i := 0;
    taken := 0;
    while i < |items|
      invariant 0 <= i <= |items| && taken == i && keys == KeysOf(items[..i])
                && required == Left(need, Total(items[..i]))
      invariant i > 0 ==> required > 0
    {
      OneMore(items, i);
      keys := keys + {items[i].key};
      required := required - if items[i].size < required then items[i].size else required;
      i := i + 1;
      taken := i;
      if required == 0 {
        break;
      }
    }
  }

  lemma OneMore(items: seq<TtlItem>, i: nat)
    requires i < |items|
    ensures KeysOf(items[..i + 1]) == KeysOf(items[..i]) + {items[i].key}
    ensures Total(items[..i + 1]) == Total(items[..i]) + items[i].size
  {
    var more := items[..i + 1];
    assert more[..i] == items[..i] && more == items[..i] + [items[i]];
  }

  // ---- What the items stand for ----

  lemma {:induction false} CountOnce(items: seq<TtlItem>, x: TtlItem)
    requires x in items && forall i, j | 0 <= i < j < |items| :: !(items[i] == x && items[j] == x)
    ensures multiset(items)[x] == 1
    decreases |items|
  {
    var before, last := items[..|items| - 1], items[|items| - 1];
    assert items == before + [last];
    assert multiset(items) == multiset(before) + multiset{last};
    if last == x {
      assert x !in before;
    } else {
      CountOnce(before, x);
    }
  }

  /** items are those of all our entries. */
  ghost predicate ItemsOf(t: TtlCodec, ttl: Entries, m: Entries, uuid: string, ignore: string, ours: seq<string>,
                          items: seq<TtlItem>)
  {
    && NoRepeats(ours) && |items| == |ours| && (forall e :: e in ours <==> e in ttl && Ours(t, e, uuid, ignore))
    && forall i | 0 <= i < |ours| :: items[i] == ItemOf(t, ttl, m, uuid, ours[i])
  }

  lemma ItemsAreReal(t: TtlCodec, ttl: Entries, m: Entries, uuid: string, ignore: string, ours: seq<string>,
                     items: seq<TtlItem>)
    requires NoneAlike(t, ttl, uuid) && ItemsOf(t, ttl, m, uuid, ignore, ours, items)
    ensures Real(m, items)
  {
    forall x | x in items && x.size > 0 ensures x.key in m && x.size == |m[x.key]| && multiset(items)[x] == 1 {
      forall i, j | 0 <= i < j < |items| ensures !(items[i] == x && items[j] == x) {
        assert ours[i] in ours && ours[j] in ours && ours[i] != ours[j];
      }
      CountOnce(items, x);
    }
  }

  lemma ItemKeysEvictable(t: TtlCodec, ttl: Entries, m: Entries, uuid: string, ignore: string, ours: seq<string>,
                          items: seq<TtlItem>)
    requires ItemsOf(t, ttl, m, uuid, ignore, ours, items)
    ensures KeysOf(items) <= Evictable(t, ttl, m, uuid, ignore) + {""}
    ensures RealKeys(items) <= Evictable(t, ttl, m, uuid, ignore)
    ensures forall k | k in Evictable(t, ttl, m, uuid, ignore) && m[k] != "" :: k in RealKeys(items)
  {
    forall x | x in items ensures x == Blank || x.key in Evictable(t, ttl, m, uuid, ignore) {
      var i :| 0 <= i < |items| && items[i] == x;
      assert ours[i] in ours;
      assert x != Blank ==> t.parse(ours[i]) == Some((uuid, x.key));
    }
    forall k | k in Evictable(t, ttl, m, uuid, ignore) && m[k] != "" ensures k in RealKeys(items) {
      var e :| e in ttl && t.parse(e) == Some((uuid, k));
      assert e in ours;
      var i :| 0 <= i < |ours| && ours[i] == e;
      assert items[i] == TtlItem(k, |m[k]|) && items[i] in items;
    }
  }

  // ---- What all our texts add up to ----

  ghost function Texts(t: TtlCodec, ttl: Entries, uuid: string, ignore: string): set<string>
  {
    set e | e in ttl && Ours(t, e, uuid, ignore)
  }

  /** The values that the texts stand for; texts that read alike count once each. */
  ghost function Counted(t: TtlCodec, ttl: Entries, m: Entries, uuid: string, texts: set<string>): nat
    decreases |texts|
  {
    if texts == {} then 0
    else
      var e :| e in texts;
      ItemOf(t, ttl, m, uuid, e).size + Counted(t, ttl, m, uuid, texts - {e})
  }

  /** Our texts add up to what is needed. */
  ghost predicate Suffices(t: TtlCodec, ttl: Entries, m: Entries, uuid: string, ignore: string, need: nat)
  {
    Texts(t, ttl, uuid, ignore) != {} && Counted(t, ttl, m, uuid, Texts(t, ttl, uuid, ignore)) >= need
  }

  lemma {:induction false} CountedWithout(t: TtlCodec, ttl: Entries, m: Entries, uuid: string, texts: set<string>,
                                          e: string)
    requires e in texts
    ensures Counted(t, ttl, m, uuid, texts)
            == ItemOf(t, ttl, m, uuid, e).size + Counted(t, ttl, m, uuid, texts - {e})
    decreases |texts|
  {
    hide ItemOf;
    var d :| d in texts && Counted(t, ttl, m, uuid, texts)
                           == ItemOf(t, ttl, m, uuid, d).size + Counted(t, ttl, m, uuid, texts - {d});
    if d != e {
      CountedWithout(t, ttl, m, uuid, texts - {d}, e);
      CountedWithout(t, ttl, m, uuid, texts - {e}, d);
      assert texts - {d} - {e} == texts - {e} - {d};
    }
  }

  function AsSet(texts: seq<string>): set<string> { set e | e in texts }

  lemma LastText(texts: seq<string>)
    requires NoRepeats(texts) && texts != []
    ensures texts[|texts| - 1] in AsSet(texts)
    ensures AsSet(texts) - {texts[|texts| - 1]} == AsSet(texts[..|texts| - 1])
  {
    assert texts == texts[..|texts| - 1] + [texts[|texts| - 1]];
  }

  lemma {:induction false} ListCounted(t: TtlCodec, ttl: Entries, m: Entries, uuid: string, ours: seq<string>,
                                       items: seq<TtlItem>)
    requires NoRepeats(ours) && |items| == |ours|
    requires forall i | 0 <= i < |ours| :: items[i] == ItemOf(t, ttl, m, uuid, ours[i])
    ensures Total(items) == Counted(t, ttl, m, uuid, AsSet(ours))
    decreases |ours|
  {
    hide ItemOf;
    if ours != [] {
      ListCounted(t, ttl, m, uuid, ours[..|ours| - 1], items[..|items| - 1]);
      LastText(ours);
      hide AsSet;
      CountedWithout(t, ttl, m, uuid, AsSet(ours), ours[|ours| - 1]);
    }
  }

  lemma {:induction false} TotalJoin(a: seq<TtlItem>, b: seq<TtlItem>)
    ensures Total(a + b) == Total(a) + Total(b)
    decreases |b|
  {
    if b == [] {
      assert a + b == a;
    } else {
      var last := |b| - 1;
      TotalJoin(a, b[..last]);
      assert (a + b)[..|a + b| - 1] == a + b[..last];
    }
  }

  /** A list without one of its items. */
  lemma TakenOut(b: seq<TtlItem>, i: nat)
    requires i < |b|
    ensures b == b[..i] + ([b[i]] + b[i + 1..]) && multiset(b[..i] + b[i + 1..]) == multiset(b) - multiset{b[i]}
  {
    assert b == b[..i] + [b[i]] + b[i + 1..];
  }

  lemma Member(b: seq<TtlItem>, x: TtlItem) returns (i: nat)
    requires x in multiset(b)
    ensures i < |b| && b[i] == x
  {
    i :| 0 <= i < |b| && b[i] == x;
  }

  lemma PlaceIn(before: seq<TtlItem>, x: TtlItem, b: seq<TtlItem>) returns (i: nat)
    requires multiset(before) + multiset{x} == multiset(b)
    ensures i < |b| && b == b[..i] + ([x] + b[i + 1..]) && multiset(before) == multiset(b[..i] + b[i + 1..])
  {
    i := Member(b, x);
    TakenOut(b, i);
  }

  lemma {:induction false} TotalPermuted(a: seq<TtlItem>, b: seq<TtlItem>)
    requires multiset(a) == multiset(b)
    ensures Total(a) == Total(b)
    decreases |a|
  {
    SameLength(a, b);
    if a != [] {
      var before, x := a[..|a| - 1], a[|a| - 1];
      assert a == before + [x];
      var i := PlaceIn(before, x, b);
      hide Total;
      TotalPermuted(before, b[..i] + b[i + 1..]);
      TotalJoin(b[..i], b[i + 1..]);
      TotalJoin(b[..i], [x] + b[i + 1..]);
      TotalJoin([x], b[i + 1..]);
      TotalJoin(before, [x]);
    }
  }

  lemma AllCounted(t: TtlCodec, ttl: Entries, m: Entries, uuid: string, ignore: string, ours: seq<string>,
                   items: seq<TtlItem>, sorted: seq<TtlItem>)
    requires ItemsOf(t, ttl, m, uuid, ignore, ours, items) && multiset(sorted) == multiset(items)
    ensures Total(sorted) == Counted(t, ttl, m, uuid, Texts(t, ttl, uuid, ignore))
  {
    ListCounted(t, ttl, m, uuid, ours, items);
    TotalPermuted(sorted, items);
    assert AsSet(ours) == Texts(t, ttl, uuid, ignore);
  }

  lemma {:induction false} EmptyValues(m: Entries, keys: set<string>, more: set<string>)
    requires keys <= more <= m.Keys && forall k | k in more - keys :: m[k] == ""
    ensures Values(m, keys) == Values(m, more)
    decreases more - keys
  {
    hide Values;
    if more - keys != {} {
      var k :| k in more - keys;
      ValuesAdd(m, more - {k}, k);
      assert more == more - {k} + {k};
      EmptyValues(m, keys, more - {k});
    } else {
      forall k | k in more ensures k in keys { assert k !in more - keys; }
      assert more == keys;
    }
  }

  lemma {:induction false} PrefixReal(m: Entries, items: seq<TtlItem>, n: nat)
    requires Real(m, items) && n <= |items|
    ensures Real(m, items[..n])
    decreases |items|
  {
    if n == |items| {
      assert items[..n] == items;
    } else {
      FewerReal(m, items);
      PrefixReal(m, items[..|items| - 1], n);
      assert items[..|items| - 1][..n] == items[..n];
    }
  }

  lemma {:induction false} FewKeys(items: seq<TtlItem>)
    ensures |KeysOf(items)| <= |items|
    decreases |items|
  {
    if items == [] {
      assert KeysOf(items) == {};
    } else {
      FewKeys(items[..|items| - 1]);
      OneMore(items, |items| - 1);
      assert items[..|items|] == items;
    }
  }

  /** The first items set free what they add up to. */
  lemma FirstItemsFree(m: Entries, items: seq<TtlItem>, n: nat)
    requires Real(m, items) && n <= |items|
    ensures Weight(m, KeysOf(items[..n])) >= Total(items[..n])
  {
    PrefixReal(m, items, n);
    TotalIsValues(m, items[..n]);
    hide Weight, Real;
    assert RealKeys(items[..n]) <= KeysOf(items[..n]);
    WeightMonotone(m, RealKeys(items[..n]), KeysOf(items[..n]));
  }

  /** Fewer keys would not do. */
  lemma NoFewer(m: Entries, items: seq<TtlItem>, n: nat, need: nat, keys: set<string>)
    requires Real(m, items) && Descending(items) && 0 < n <= |items| && Total(items[..n - 1]) < need
    requires keys <= m.Keys && (forall k | k in keys && m[k] != "" :: k in RealKeys(items)) && Values(m, keys) >= need
    ensures |keys| >= |KeysOf(items[..n])|
  {
    hide Values, Total, Real, RealKeys, Descending, KeysOf;
    var some := keys * RealKeys(items);
    assert some <= keys && some <= RealKeys(items);
    EmptyValues(m, some, keys);
    TopIsMost(m, items, some);
    FewKeys(items[..n]);
    SubsetSmaller(some, keys);
    if |some| < n { TotalGrows(items, |some|, n - 1); }
  }

  lemma {:induction false} TotalGrows(items: seq<TtlItem>, i: nat, j: nat)
    requires i <= j <= |items|
    ensures Total(items[..i]) <= Total(items[..j])
    decreases j
  {
    hide Total, KeysOf;
    if i < j {
      TotalGrows(items, i, j - 1);
      OneMore(items, j - 1);
    }
  }

  lemma SubsetSmaller(a: set<string>, b: set<string>)
    requires a <= b
    ensures |a| <= |b|
  {
    assert b == a + (b - a);
  }

  /** keys are those of the first items of a list of all our entries, largest values first, that
      add up to what is needed. Texts that read alike are counted once each. */
  ghost predicate Selects(t: TtlCodec, ttl: Entries, m: Entries, uuid: string, ignore: string, need: nat,
                          keys: set<string>)
  {
    exists ours, items, sorted, taken ::
      && ItemsOf(t, ttl, m, uuid, ignore, ours, items) && TakesFrom(items, sorted, taken, need)
      && keys == KeysOf(sorted[..taken])
  }

  ghost predicate TakesFrom(items: seq<TtlItem>, sorted: seq<TtlItem>, taken: nat, need: nat)
  {
    && Descending(sorted) && multiset(sorted) == multiset(items) && 0 < taken <= |sorted|
    && Total(sorted[..taken]) >= need && (need > 0 ==> Total(sorted[..taken - 1]) < need)
  }

  /** volatile_ttl::keys_to_evict. Only entries with a time to live, or the empty key, are evicted.
      If no two texts read alike, enough is set free whenever the values suffice, and with as few
      keys as possible. */
  method VolatileKeysToEvict(t: TtlCodec, store: MemStore, uuid: string, req: Request, max: nat)
    returns (keys: set<string>)
    requires store.Valid()
    ensures keys <= Evictable(t, store.View(TTL_UUID), store.View(uuid), uuid, IgnoreKey(req)) + {""}
    ensures keys == {} || Selects(t, store.View(TTL_UUID), store.View(uuid), uuid, IgnoreKey(req),
                                  Required(Bytes(store.View(uuid)) % U32, max, req), keys)
    ensures keys != {} <==> Suffices(t, store.View(TTL_UUID), store.View(uuid), uuid, IgnoreKey(req),
                                     Required(Bytes(store.View(uuid)) % U32, max, req))
    ensures NoneAlike(t, store.View(TTL_UUID), uuid) ==>
              EvictsEnough(t, store.View(TTL_UUID), store.View(uuid), uuid, IgnoreKey(req),
                           Required(Bytes(store.View(uuid)) % U32, max, req), keys)
  {
    hide Counted, Required, Weight, Bytes, Values, Total, NoneAlike, NoRepeats, Real, Descending, Evictable;
    hide KeysOf, RealKeys;
    ghost var ttl, m, ignore := store.View(TTL_UUID), store.View(uuid), IgnoreKey(req);
    var all := store.GetKeysIf(TTL_UUID, "", "", None);
    AllKeys(ttl, all);
    var ours := FilterTtls(t, all, uuid, IgnoreKey(req));
    if ours == [] {
      assert forall e :: e !in ours;
      return {};
    }
    assert ours[0] in ours && ours[0] in Texts(t, ttl, uuid, ignore);
    var items := GetTtlItems(t, store, uuid, ours);
    var sorted := SortBySize(items);
    SameLength(sorted, items);
    var _, size := store.GetSize(uuid);
    var required;
    ghost var taken;
    keys, required, taken := TakeItems(sorted, Required(size, max, req));
    Selected(t, ttl, m, uuid, ignore, ours, items, sorted, taken, Required(size, max, req));
    AllCounted(t, ttl, m, uuid, ignore, ours, items, sorted);
    TotalGrows(sorted, taken, |sorted|);
    assert sorted[..|sorted|] == sorted;
    SomeKey(sorted[..taken]);
    if required > 0 {
      keys := {};
    }
  }

  lemma SomeKey(items: seq<TtlItem>)
    requires items != []
    ensures KeysOf(items) != {}
  {
    assert items[0].key in KeysOf(items);
  }

  lemma SameLength(a: seq<TtlItem>, b: seq<TtlItem>)
    requires multiset(a) == multiset(b)
    ensures |a| == |b|
  {
    assert |multiset(a)| == |a| && |multiset(b)| == |b|;
  }

  /** What the policy promises about the keys it returns. */
  ghost predicate EvictsEnough(t: TtlCodec, ttl: Entries, m: Entries, uuid: string, ignore: string, need: nat,
                               keys: set<string>)
  {
    if AnyOurs(t, ttl, uuid, ignore) && Values(m, Evictable(t, ttl, m, uuid, ignore)) >= need
    then Weight(m, keys) >= need && (need > 0 ==> Fewest(t, ttl, m, uuid, ignore, need, keys))
    else keys == {}
  }

  ghost predicate Fewest(t: TtlCodec, ttl: Entries, m: Entries, uuid: string, ignore: string, need: nat,
                         keys: set<string>)
  {
    forall others | others <= Evictable(t, ttl, m, uuid, ignore) && Values(m, others) >= need :: |keys| <= |others|
  }

  lemma Selected(t: TtlCodec, ttl: Entries, m: Entries, uuid: string, ignore: string, ours: seq<string>,
                 items: seq<TtlItem>, sorted: seq<TtlItem>, taken: nat, need: nat)
    requires ItemsOf(t, ttl, m, uuid, ignore, ours, items) && ours != [] && taken <= |sorted|
    requires Descending(sorted) && multiset(sorted) == multiset(items)
    ensures KeysOf(sorted[..taken]) <= Evictable(t, ttl, m, uuid, ignore) + {""}
    ensures NoneAlike(t, ttl, uuid) && Total(sorted[..taken]) >= need
            && (need > 0 ==> taken > 0 && Total(sorted[..taken - 1]) < need)
            ==> EvictsEnough(t, ttl, m, uuid, ignore, need, KeysOf(sorted[..taken]))
    ensures NoneAlike(t, ttl, uuid) && taken == |sorted| && Total(sorted[..taken]) < need
            ==> EvictsEnough(t, ttl, m, uuid, ignore, need, {})
  {
    ItemKeysEvictable(t, ttl, m, uuid, ignore, ours, items);
    forall x ensures x in sorted <==> x in items { assert x in sorted <==> x in multiset(sorted); }
    assert RealKeys(sorted) == RealKeys(items) && KeysOf(sorted[..taken]) <= KeysOf(items);
    if NoneAlike(t, ttl, uuid) {
      ItemsAreReal(t, ttl, m, uuid, ignore, ours, items);
      assert Real(m, sorted);
      assert AnyOurs(t, ttl, uuid, ignore) by { assert ours[0] in ours; }
      hide ItemsOf, NoneAlike, AnyOurs;
      SelectedEnough(t, ttl, m, uuid, ignore, sorted, taken, need);
    }
  }

  lemma SelectedEnough(t: TtlCodec, ttl: Entries, m: Entries, uuid: string, ignore: string, sorted: seq<TtlItem>,
                       taken: nat, need: nat)
    requires AnyOurs(t, ttl, uuid, ignore) && Real(m, sorted) && Descending(sorted) && taken <= |sorted|
    requires var all := Evictable(t, ttl, m, uuid, ignore);
             RealKeys(sorted) <= all && forall k | k in all && m[k] != "" :: k in RealKeys(sorted)
    ensures Total(sorted[..taken]) >= need && (need > 0 ==> taken > 0 && Total(sorted[..taken - 1]) < need)
            ==> EvictsEnough(t, ttl, m, uuid, ignore, need, KeysOf(sorted[..taken]))
    ensures taken == |sorted| && Total(sorted[..taken]) < need ==> EvictsEnough(t, ttl, m, uuid, ignore, need, {})
  {
    var all := Evictable(t, ttl, m, uuid, ignore);
    assert all <= m.Keys;
    EmptyValues(m, RealKeys(sorted), all);
    TotalIsValues(m, sorted);
    TotalGrows(sorted, taken, |sorted|);
    assert sorted[..|sorted|] == sorted;
    FirstItemsFree(m, sorted, taken);
    hide Values, Weight, Evictable, AnyOurs;
    if Total(sorted[..taken]) >= need && need > 0 && taken > 0 && Total(sorted[..taken - 1]) < need {
      forall others | others <= all && Values(m, others) >= need ensures |KeysOf(sorted[..taken])| <= |others| {
        NoFewer(m, sorted, taken, need, others);
      }
    }
    if taken == |sorted| { assert sorted[..taken] == sorted; }
  }
}
