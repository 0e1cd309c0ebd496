/** The random eviction policy. */
module Eviction {
  import opened Messages
  import opened MemStorage
  import opened Words
  import opened Quota
  import opened Strings

  ghost predicate NoRepeats(ks: seq<string>) { forall i, j | 0 <= i < j < |ks| :: ks[i] != ks[j] }

  function Without(ks: seq<string>, i: nat): seq<string>
    requires i < |ks|
  {
    ks[..i] + ks[i + 1..]
  }

  lemma WithoutOne(ks: seq<string>, i: nat)
    requires i < |ks| && NoRepeats(ks)
    ensures NoRepeats(Without(ks, i)) && forall k :: k in Without(ks, i) <==> k in ks && k != ks[i]
  {
    var rest := Without(ks, i);
    assert forall j | 0 <= j < |rest| :: rest[j] == ks[if j < i then j else j + 1];
    forall k ensures k in rest <==> k in ks && k != ks[i] {
      if k in ks && k != ks[i] {
        var j :| 0 <= j < |ks| && ks[j] == k;
        assert rest[if j < i then j else j - 1] == k;
      }
    }
  }

  /** What is left of an amount after freed bytes were taken off. */
  function Left(amount: nat, freed: nat): nat { if freed < amount then amount - freed else 0 }

  /** The keys picked so far and the keys still to pick from make up all that may be evicted. */
  ghost predicate Picking(m: Entries, ignore: string, available: seq<string>, picked: set<string>)
  {
    && NoRepeats(available) && picked <= m.Keys && ignore !in picked
    && (forall k | k in available :: k in m && k !in picked)
    && (forall k | k in m && k != ignore :: k in available || k in picked)
  }

  lemma PickOne(m: Entries, ignore: string, available: seq<string>, picked: set<string>, i: nat)
    requires Picking(m, ignore, available, picked) && i < |available|
    ensures available[i] == ignore ==> Picking(m, ignore, Without(available, i), picked)
    ensures available[i] != ignore ==> Picking(m, ignore, Without(available, i), picked + {available[i]})
                                       && Weight(m, picked + {available[i]})
                                         == Weight(m, picked) + |available[i]| + |m[available[i]]|
  {
    WithoutOne(available, i);
    assert available[i] in available;
    if available[i] != ignore { WeightAdd(m, picked, available[i]); }
  }

  /** random::keys_to_evict. Enough bytes are set free, without touching the spared key, and the last
      key was needed for it; nothing is evicted exactly when there is nothing to free or all other
      entries together are too small. */
  method RandomKeysToEvict(store: MemStore, uuid: string, req: Request, max: nat, choose: nat -> nat)
    returns (keys: set<string>)
    requires store.Valid()
    ensures keys <= store.View(uuid).Keys && IgnoreKey(req) !in keys
    ensures var m := store.View(uuid); var need := ToFree(Bytes(m) % U32, max, req);
            if Weight(m, m.Keys - {IgnoreKey(req)}) >= need > 0
            then Weight(m, keys) >= need && exists k :: k in keys && Weight(m, keys - {k}) < need
            else keys == {}
  {
    hide ToFree, Weight, Bytes;
    ghost var m := store.View(uuid);
    var ignore := IgnoreKey(req);
    var _, size := store.GetSize(uuid);
    var storageToFree := ToFree(size, max, req);
    ghost var need := storageToFree;
    var available := store.GetKeysIf(uuid, "", "", None);
    AllKeys(m, available);
    var picked: set<string> := {};
    var turn := 0;
    NothingFreed(m);
    while storageToFree > 0 && available != []
      invariant store.View(uuid) == m
      invariant Picking(m, ignore, available, picked) && storageToFree == Left(need, Weight(m, picked))
      invariant need == 0 ==> picked == {}
      invariant picked != {} ==> exists k :: k in picked && Weight(m, picked - {k}) < need
      decreases |available|
    {
      var i := choose(turn) % |available|;
      PickOne(m, ignore, available, picked, i);
      if available[i] != ignore {
        var evicted := store.GetKeySize(uuid, available[i]);
        if evicted.Some? {
          assert picked + {available[i]} - {available[i]} == picked;
          storageToFree := storageToFree - if evicted.value < storageToFree then evicted.value else storageToFree;
          picked := picked + {available[i]};
        }
      }
      available := Without(available, i);
      turn := turn + 1;
    }
    ghost var most := m.Keys - {ignore};
    WeightMonotone(m, picked, most);
    if storageToFree == 0 {
      keys := picked;
    } else {
      assert picked == most;
      keys := {};
    }
  }

  lemma NothingFreed(m: Entries)
    ensures Weight(m, {}) == 0
  {
    assert Only(m, {}) == map[];
  }

  /** get_keys lists every key once. */
  lemma AllKeys(m: Entries, ks: seq<string>)
    requires Listing(ks, Matches(m, "", "", None))
    ensures NoRepeats(ks) && forall k :: k in ks <==> k in m
  {
    forall k | k in m ensures k in Matches(m, "", "", None) { assert InRange("", "", k); }
    forall i, j | 0 <= i < j < |ks| ensures ks[i] != ks[j] { LessTotal(ks[i], ks[j]); }
  }
}
