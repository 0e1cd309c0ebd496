/** The size limit of a database, and making room by evicting entries. */
module Quota {
  import opened MemStorage
  import opened Words

  datatype Request = Create(key: string, value: string) | Update(key: string, value: string)

  /** A request is held in memory, so its size is far from the 64-bit limit. */
  predicate Small(req: Request) { |req.key| + |req.value| < 0x4000_0000_0000_0000 }

  /** What a policy takes the request to need: an update counts the value only. */
  function KeyValueSize(req: Request): nat
  {
    if req.Update? then |req.value| else |req.key| + |req.value|
  }

  /** The key a policy must spare. */
  function IgnoreKey(req: Request): string { if req.Update? then req.key else "" }

  /** operation_exceeds_available_space; size is what get_size reports. */
  predicate Exceeds(m: Entries, size: nat, max: nat, req: Request)
  {
    && max != 0
    && match req
       case Create(k, v) => Add64(Add64(size, |k|), |v|) > max
       case Update(k, v) => k in m && Add64(Add64(Sub64(size, |k| + |m[k]|), |k|), |v|) > max
  }

  /** The shortage as the random policy computes it. */
  function ToFree(size: nat, max: nat, req: Request): nat
  {
    Sub64(KeyValueSize(req), Sub64(max, size))
  }

  /** The shortage as the volatile-ttl policy computes it: an update's value is counted twice. */
  function Required(size: nat, max: nat, req: Request): nat
  {
    Sub64(KeyValueSize(req), Sub64(Sub64(max, size), if req.Update? then |req.value| else 0))
  }

  /** The database after the request, if it is carried out. */
  function Outcome(m: Entries, req: Request): Entries { m[req.key := req.value] }

  // ---- Weights ----

  function Only(m: Entries, keys: set<string>): Entries { map k | k in m && k in keys :: m[k] }

  /** The bytes that removing the keys sets free. */
  ghost function Weight(m: Entries, keys: set<string>): nat { Bytes(Only(m, keys)) }

  lemma WeightAdd(m: Entries, keys: set<string>, k: string)
    requires k in m && k !in keys
    ensures Weight(m, keys + {k}) == Weight(m, keys) + |k| + |m[k]|
  {
    BytesPut(Only(m, keys), k, m[k]);
    assert Only(m, keys + {k}) == Only(m, keys)[k := m[k]];
  }

  lemma {:induction false} WeightSplit(m: Entries, keys: set<string>)
    ensures Bytes(m) == Weight(m, keys) + Bytes(m - keys)
    decreases keys
  {
    if keys == {} {
      assert m - keys == m && Only(m, keys) == map[];
    } else {
      var k :| k in keys;
      var rest := keys - {k};
      WeightSplit(m, rest);
      assert keys == rest + {k} && (m - rest) - {k} == m - keys;
      if k in m {
        WeightAdd(m, rest, k);
        BytesWithout(m - rest, k);
      } else {
        assert Only(m, keys) == Only(m, rest) && m - keys == m - rest;
      }
    }
  }

  lemma WeightMonotone(m: Entries, keys: set<string>, more: set<string>)
    requires keys <= more
    ensures Weight(m, keys) <= Weight(m, more)
  {
    WeightSplit(Only(m, more), keys);
    assert Only(Only(m, more), keys) == Only(m, keys);
  }

  // ---- Arithmetic ----

  /** What the admission test compares, when the counter is exact. */
  lemma ExceedsExactly(m: Entries, max: nat, req: Request)
    requires Bytes(m) < U32 && Small(req) && max != 0
    ensures req.Create? ==> (Exceeds(m, Bytes(m), max, req) <==> Bytes(m) + |req.key| + |req.value| > max)
    ensures req.Update? && req.key in m ==>
              (Exceeds(m, Bytes(m), max, req) <==> Bytes(m) - |m[req.key]| + |req.value| > max)
                && |m[req.key]| <= Bytes(m)
  {
    hide Add64, Sub64;
    var size, k, v := Bytes(m), |req.key|, |req.value|;
    Add64Exact(size, k);
    Add64Exact(size + k, v);
    if req.Update? && req.key in m {
      var old' := |m[req.key]|;
      BytesWithout(m, req.key);
      Sub64Exact(size, k + old');
      Add64Exact(size - (k + old'), k);
      Add64Exact(size - old', v);
    }
  }

  /** With an exact counter the wrapping subtractions give the true shortage; the volatile-ttl policy
      asks for the value of an update on top of it. */
  lemma Shortage(m: Entries, max: nat, req: Request)
    requires Bytes(m) < U32 && max < U64 && Small(req) && Exceeds(m, Bytes(m), max, req)
    ensures ToFree(Bytes(m), max, req) == Bytes(m) + KeyValueSize(req) - max > 0
    ensures Required(Bytes(m), max, req) == ToFree(Bytes(m), max, req) + if req.Update? then |req.value| else 0
  {
    ExceedsExactly(m, max, req);
    hide Exceeds, Sub64;
    var size, kvs, twice := Bytes(m), KeyValueSize(req), if req.Update? then |req.value| else 0;
    Sub64Nested(kvs, max, size);
    Sub64Exact(kvs + size, max);
    Sub64Again(max, size, twice);
    Sub64Nested(kvs, max, size + twice);
    Sub64Exact(kvs + (size + twice), max);
  }

  /** Freeing the shortage makes room for the request. */
  lemma RoomAfter(m: Entries, max: nat, req: Request, keys: set<string>)
    requires Bytes(m) < U32 && max < U64 && Small(req) && Exceeds(m, Bytes(m), max, req)
    requires Weight(m, keys) >= ToFree(Bytes(m), max, req)
    requires req.key in m - keys <==> req.Update?
    ensures Bytes(Outcome(m - keys, req)) <= max
  {
    Shortage(m, max, req);
    WeightSplit(m, keys);
    BytesPut(m - keys, req.key, req.value);
    if req.Update? { BytesWithout(m - keys, req.key); }
  }

  /** A request that does not exceed the limit fits. */
  lemma RoomNow(m: Entries, max: nat, req: Request)
    requires Bytes(m) < U32 && max != 0 && Small(req) && !Exceeds(m, Bytes(m), max, req)
    requires req.key in m <==> req.Update?
    ensures Bytes(Outcome(m, req)) <= max
  {
    ExceedsExactly(m, max, req);
    hide Exceeds;
    BytesPut(m, req.key, req.value);
    if req.Update? { BytesWithout(m, req.key); }
  }

  /** The admission test is right for every limit and every new entry exactly when the counter has
      not wrapped: from 4 GiB on it admits entries that do not fit. */
  lemma AdmissionIsRightIff(m: Entries)
    requires Bytes(m) < 0x8000_0000_0000_0000
    ensures (forall max: nat, req: Request | 0 < max < U64 && req.Create? && Small(req) ::
               Exceeds(m, Bytes(m) % U32, max, req) <==> Bytes(m) + |req.key| + |req.value| > max)
            <==> Bytes(m) < U32
  {
    var bytes := Bytes(m);
    if bytes < U32 {
      assert bytes % U32 == bytes;
      forall max: nat, req: Request | 0 < max < U64 && req.Create? && Small(req)
        ensures Exceeds(m, bytes, max, req) <==> bytes + |req.key| + |req.value| > max
      {
        ExceedsExactly(m, max, req);
      }
    } else {
      var req := Create("", "");
      Add64Exact(bytes % U32, 0);
      assert !Exceeds(m, bytes % U32, bytes - 1, req);
    }
    hide Exceeds;
  }
}
