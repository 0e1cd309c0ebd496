/** Persistent variables and containers of them: a value is written through to storage, and a
    container is rebuilt from storage when a node starts. */
module PersistentVars {
  import opened Messages
  import opened Strings
  import opened Words
  import opened MemStorage
  import opened PersistentState

  // ---- Values and keys as text ----

  function LogKeyText(view: nat, sequence: nat): string { Pad(view) + "_" + Pad(sequence) }

  function ReadLogKey(text: string): Option<(nat, nat)>
  {
    var at := FindFirst(text, '_');
    if at == |text| then None
    else
      var a, b := Parse(text[..at]), Parse(text[at + 1..]);
      if a.Some? && b.Some? && a.value != 0 && b.value != 0 then Some((a.value, b.value)) else None
  }

  function OperationKeyText(view: nat, sequence: nat, hash: string): string
  {
    Pad(view) + "_" + (Pad(sequence) + "_" + hash)
  }

  function ReadOperationKey(text: string): Option<(nat, nat, string)>
  {
    var at := FindFirst(text, '_');
    if at == |text| then None
    else
      var rest := text[at + 1..];
      var then' := FindFirst(rest, '_');
      if then' == |rest| then None
      else
        var a, b, h := Parse(text[..at]), Parse(rest[..then']), rest[then' + 1..];
        if a.Some? && b.Some? && a.value != 0 && b.value != 0 && h != "" then Some((a.value, b.value, h)) else None
  }

  function CheckpointText(cp: Checkpoint): string { Pad(cp.sequence) + "_" + cp.hash }

  function ReadCheckpoint(text: string): Option<Checkpoint>
  {
    var at := FindFirst(text, '_');
    if at == |text| then None
    else
      var a := Parse(text[..at]);
      if a.Some? then Some(Checkpoint(a.value, text[at + 1..])) else None
  }

  /** The first field of a key ends at its first underscore. */
  lemma FirstField(n: nat, rest: string)
    requires n < U64
    ensures var text := Pad(n) + "_" + rest;
            && FindFirst(text, '_') == 20 && Parse(text[..20]) == Some(n) && text[21..] == rest
  {
    PadValue(n);
    var text := Pad(n) + "_" + rest;
    var at := FindFirst(text, '_');
    assert text[..20] == Pad(n);
    assert at >= 20 by { assert forall i | 0 <= i < 20 :: text[i] in Pad(n); }
    assert text[20] == '_';
  }

  /** A log key is read back unless a number in it is zero; then reading fails. */
  lemma LogKeyReadsBackIff(view: nat, sequence: nat)
    requires view < U64 && sequence < U64
    ensures ReadLogKey(LogKeyText(view, sequence)) == if view != 0 && sequence != 0 then Some((view, sequence))
            else None
  {
    FirstField(view, Pad(sequence));
    PadValue(sequence);
  }

  /** An operation key is read back, whatever is in its hash, unless a number is zero or the hash empty. */
  lemma OperationKeyReadsBackIff(view: nat, sequence: nat, hash: string)
    requires view < U64 && sequence < U64
    ensures ReadOperationKey(OperationKeyText(view, sequence, hash))
            == if view != 0 && sequence != 0 && hash != "" then Some((view, sequence, hash)) else None
  {
    FirstField(view, Pad(sequence) + "_" + hash);
    FirstField(sequence, hash);
  }

  lemma CheckpointReadsBack(cp: Checkpoint)
    requires cp.sequence < U64
    ensures ReadCheckpoint(CheckpointText(cp)) == Some(cp)
  {
    FirstField(cp.sequence, cp.hash);
  }

  // ---- One variable ----

  class Persistent {
    const store: MemStore
    const key: string
    var value: string

    constructor (store: MemStore, key: string, value: string)
      ensures this.store == store && this.key == key && this.value == value
    {
      this.store := store;
      this.key := key;
      this.value := value;
    }

    /** Memory and storage hold the same value. */
    ghost predicate InSync()
      reads this, store
    {
      key in store.View(STATE_UUID) && store.View(STATE_UUID)[key] == value
    }

    /** Assignment writes through; it fails when storage refuses the new value. */
    method Assign(v: string) returns (ok: bool)
      requires store.Valid()
      modifies this, store
      ensures store.Valid() && value == v
      ensures ok <==> key in old(store.View(STATE_UUID)) && |v| <= MAX_VALUE_SIZE
      ensures ok ==> InSync() && store.View(STATE_UUID) == old(store.View(STATE_UUID))[key := v]
      ensures !ok ==> store.View(STATE_UUID) == old(store.View(STATE_UUID))
      ensures forall u | u != STATE_UUID :: store.View(u) == old(store.View(u))
    {
      value := v;
      var r := store.Update(STATE_UUID, key, v);
      ok := r == Ok;
    }

    method Destroy()
      requires store.Valid()
      modifies store
      ensures store.Valid() && store.View(STATE_UUID) == old(store.View(STATE_UUID)) - {key}
      ensures forall u | u != STATE_UUID :: store.View(u) == old(store.View(u))
    {
      var _ := store.Remove(STATE_UUID, key);
    }
  }

  /** Constructing a variable: a value already in storage wins over the default. A member of a
      container that was not initialized, or a default that storage refuses, is an error. */
  method Open(store: MemStore, initialized: set<string>, default: string, name: string, ks: seq<string>)
    returns (p: Option<Persistent>)
    requires store.Valid()
    modifies store
    ensures store.Valid()
    ensures p.Some? <==> && (ks == [] || name in initialized)
                         && (StateKey(name, ks) in old(store.View(STATE_UUID))
                             || (|default| <= MAX_VALUE_SIZE && |StateKey(name, ks)| <= MAX_KEY_SIZE))
    ensures p.Some?
            ==> fresh(p.value) && p.value.store == store && p.value.key == StateKey(name, ks) && p.value.InSync()
    ensures p.Some? ==> p.value.value == if StateKey(name, ks) in old(store.View(STATE_UUID))
                                         then old(store.View(STATE_UUID))[StateKey(name, ks)] else default
    ensures forall k | k in old(store.View(STATE_UUID)) ::
              k in store.View(STATE_UUID) && store.View(STATE_UUID)[k] == old(store.View(STATE_UUID))[k]
    ensures forall k | k in store.View(STATE_UUID) ::
              k in old(store.View(STATE_UUID)) || (p.Some? && k == StateKey(name, ks))
  {
    var key := StateKey(name, ks);
    if ks != [] && name !in initialized {
      return None;
    }
    var found := store.Read(STATE_UUID, key);
    if found.Some? {
      var v := new Persistent(store, key, found.value);
      return Some(v);
    }
    var r := store.Create(STATE_UUID, key, default);
    if r != Ok {
      return None;
    }
    var v := new Persistent(store, key, default);
    return Some(v);
  }

  // ---- A container with two subkeys ----

  /** Every key in storage was made from a name and subkeys, two of them under this name. */
  ghost predicate TwoSubkeysUnder(m: Entries, name: string)
  {
    forall key | key in m :: MadeFor(name, key)
  }

  ghost predicate MadeFor(name: string, key: string)
  {
    exists n: string, ks: seq<string> :: key == StateKey(n, ks) && (n == name ==> |ks| == 2)
  }

  function First(name: string): string { Escape(name) + SEPARATOR }
  function Last(name: string): string { Escape(name) + SEPARATOR_END }

  /** A scanned key splits into the two subkeys it was made from. */
  lemma ScannedKey(name: string, key: string)
    requires MadeFor(name, key) && InRange(First(name), Last(name), key)
    ensures |First(name)| <= |key|
    ensures var r := Split(key[|First(name)|..]); r.Some? && key == StateKey(name, [r.value.0, r.value.1])
  {
    var n: string, ks: seq<string> :| key == StateKey(n, ks) && (n == name ==> |ks| == 2);
    ScanFindsContainer(n, ks, name);
    assert ks == [ks[0], ks[1]];
    PairKey(name, ks[0], ks[1]);
    SplitsBack(ks[0], ks[1]);
  }

  lemma PairKey(name: string, a: string, b: string)
    ensures StateKey(name, [a, b]) == First(name) + Pair(a, b)
  {
    assert Subkeys([b]) == SEPARATOR + Escape(b) by { assert [b][1..] == []; }
    assert [a, b][1..] == [b];
    Regroup(SEPARATOR, Escape(a), Subkeys([b]));
    Regroup(Escape(a), SEPARATOR, Escape(b));
    Regroup(Escape(name), SEPARATOR, Pair(a, b));
  }

  /** The container as it was written. */
  ghost predicate IsContainer(m: Entries, name: string, c: map<(string, string), string>)
  {
    && (forall a, b :: (a, b) in c <==> StateKey(name, [a, b]) in m)
    && (forall a, b | (a, b) in c && StateKey(name, [a, b]) in m :: c[(a, b)] == m[StateKey(name, [a, b])])
  }

  /** initialize: the reloaded container is the one that was written, when the subkeys are read in
      the order in which they were written. */
  method Reload(store: MemStore, name: string) returns (c: map<(string, string), string>)
    requires TwoSubkeysUnder(store.View(STATE_UUID), name)
    ensures IsContainer(store.View(STATE_UUID), name, c)
  {
    var keys := store.GetKeysIf(STATE_UUID, First(name), Last(name), None);
    ghost var m := store.View(STATE_UUID);
    c := map[];
    for i := 0 to |keys|
      invariant store.View(STATE_UUID) == m
      invariant forall a, b :: (a, b) in c <==> StateKey(name, [a, b]) in keys[..i]
      invariant forall a, b | (a, b) in c :: StateKey(name, [a, b]) in m && c[(a, b)] == m[StateKey(name, [a, b])]
    {
      var key := keys[i];
      assert key in Matches(m, First(name), Last(name), None);
      ScannedKey(name, key);
      var subkeys := ExtractSubkeys(key[|First(name)|..]);
      var value := store.Read(STATE_UUID, StateKey(name, [subkeys.value.0, subkeys.value.1]));
      OneMoreKey(name, keys[..i], key, subkeys.value);
      assert keys[..i + 1] == keys[..i] + [key];
      c := c[subkeys.value := value.value];
    }
    assert keys[..|keys|] == keys;
    forall a, b ensures StateKey(name, [a, b]) in keys <==> StateKey(name, [a, b]) in m {
      ScanFindsContainer(name, [a, b], name);
    }
  }

  lemma OneMoreKey(name: string, keys: seq<string>, key: string, subkeys: (string, string))
    requires key == StateKey(name, [subkeys.0, subkeys.1])
    ensures forall a, b ::
              StateKey(name, [a, b]) in keys + [key] <==> StateKey(name, [a, b]) in keys || (a, b) == subkeys
  {
    forall a, b ensures StateKey(name, [a, b]) == key <==> (a, b) == subkeys {
      if StateKey(name, [a, b]) == key {
        KeysInjective(name, [a, b], name, [subkeys.0, subkeys.1]);
        assert [a, b][0] == subkeys.0 && [a, b][1] == subkeys.1;
      }
    }
  }
}
