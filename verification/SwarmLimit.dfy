/** Creating, resizing and deleting databases under a limit for the whole swarm. */
module SwarmLimit {
  import opened Strings
  import opened Words

  /** Permission data of a database. */
  datatype Perms = Perms(owner: string, writers: set<string>, maxSize: nat)

  type Databases = map<string, Perms>

  /** limit 0 means no limit; an empty ownerKey lets anybody create and delete. */
  datatype Swarm = Swarm(limit: nat, ownerKey: string)

  datatype Reply = Ok | AccessDenied | DbExists | DbNotFound | InvalidSize | DbFull

  /** The sum of all maximum sizes. */
  ghost function Total(dbs: Databases): nat
    decreases |dbs|
  {
    if dbs == map[] then 0
    else
      var u :| u in dbs;
      assert dbs.Keys == (dbs - {u}).Keys + {u};
      dbs[u].maxSize + Total(dbs - {u})
  }

  lemma {:induction false} TotalWithout(dbs: Databases, u: string)
    requires u in dbs
    ensures Total(dbs) == dbs[u].maxSize + Total(dbs - {u})
    decreases |dbs|
  {
    var w :| w in dbs && Total(dbs) == dbs[w].maxSize + Total(dbs - {w});
    if w != u {
      assert dbs.Keys == (dbs - {w}).Keys + {w} && dbs.Keys == (dbs - {u}).Keys + {u};
      TotalWithout(dbs - {w}, u);
      TotalWithout(dbs - {u}, w);
      assert dbs - {w} - {u} == dbs - {u} - {w};
    }
  }

  lemma TotalPut(dbs: Databases, u: string, p: Perms)
    ensures Total(dbs[u := p]) == p.maxSize + Total(dbs - {u})
    ensures u !in dbs ==> dbs - {u} == dbs
  {
    TotalWithout(dbs[u := p], u);
    assert dbs[u := p] - {u} == dbs - {u};
    if u !in dbs { assert dbs - {u} == dbs; }
  }

  // ---- Requests ----

  datatype Request =
    | CreateDb(uuid: string, maxSize: nat)
    | UpdateDb(uuid: string, maxSize: nat)
    | DeleteDb(uuid: string)
    | SetWriters(uuid: string, writers: set<string>)

  /** The reckoning of operation_exceeds_available_space, in 64-bit arithmetic. */
  ghost predicate Exceeds(s: Swarm, dbs: Databases, req: Request)
    requires req.CreateDb? || (req.UpdateDb? && req.uuid in dbs)
  {
    var usage := Total(dbs) % U64;
    s.limit != 0 && (if req.CreateDb? then Add64(usage, req.maxSize)
      else Add64(Sub64(usage, dbs[req.uuid].maxSize), req.maxSize)) > s.limit
  }

  ghost function ReplyTo(s: Swarm, dbs: Databases, caller: string, req: Request): Reply
  {
    match req
    case CreateDb(uuid, maxSize) =>
      if s.ownerKey != "" && s.ownerKey != caller then AccessDenied
      else if uuid in dbs then DbExists
      else if maxSize == 0 && s.limit != 0 then InvalidSize
      else if Exceeds(s, dbs, req) then DbFull
      else Ok
    case UpdateDb(uuid, maxSize) =>
      if uuid !in dbs then DbNotFound
      else if dbs[uuid].owner != caller then AccessDenied
      else if maxSize == 0 && s.limit != 0 then InvalidSize
      else if maxSize > dbs[uuid].maxSize && Exceeds(s, dbs, req) then DbFull
      else Ok
    case DeleteDb(uuid) =>
      if s.ownerKey != "" && s.ownerKey != caller then AccessDenied
      else if uuid !in dbs then DbNotFound
      else if dbs[uuid].owner != caller then AccessDenied
      else Ok
    case SetWriters(uuid, _) =>
      if uuid !in dbs then DbNotFound
      else if dbs[uuid].owner != caller then AccessDenied
      else Ok
  }

  ghost function After(s: Swarm, dbs: Databases, caller: string, req: Request): Databases
  {
    if ReplyTo(s, dbs, caller, req) != Ok then dbs
    else
      match req
      case CreateDb(uuid, maxSize) => dbs[uuid := Perms(caller, {}, maxSize)]
      case UpdateDb(uuid, maxSize) => dbs[uuid := dbs[uuid].(maxSize := maxSize)]
      case DeleteDb(uuid) => dbs - {uuid}
      case SetWriters(uuid, writers) => dbs[uuid := dbs[uuid].(writers := writers)]
  }

  /** Nothing is unlimited and everything together fits. */
  ghost predicate WithinLimit(s: Swarm, dbs: Databases)
  {
    s.limit != 0 ==> Total(dbs) <= s.limit && forall u | u in dbs :: dbs[u].maxSize > 0
  }

  /** What the sum of sizes would become. */
  ghost function Asked(dbs: Databases, req: Request): int
    requires req.CreateDb? || (req.UpdateDb? && req.uuid in dbs)
  {
    if req.CreateDb? then Total(dbs) + req.maxSize else Total(dbs) - dbs[req.uuid].maxSize + req.maxSize
  }

  lemma ResizeArithmetic(s: Swarm, dbs: Databases, req: Request)
    requires WithinLimit(s, dbs) && 0 < s.limit < U64
    requires (req.CreateDb? || (req.UpdateDb? && req.uuid in dbs)) && req.maxSize < U64
    ensures 0 <= Asked(dbs, req) < 2 * U64
    ensures Exceeds(s, dbs, req)
            <==> (if Asked(dbs, req) < U64 then Asked(dbs, req) else Asked(dbs, req) - U64) > s.limit
  {
    var total := Total(dbs);
    assert total % U64 == total;
    if req.UpdateDb? {
      TotalWithout(dbs, req.uuid);
      Sub64Exact(total, dbs[req.uuid].maxSize);
    }
    Reduced(Asked(dbs, req));
  }

  lemma Reduced(x: int)
    requires 0 <= x < 2 * U64
    ensures x % U64 == if x < U64 then x else x - U64
  {
    if x >= U64 { Unique(x, 1, x - U64); }
  }

  lemma AskedIsTotal(s: Swarm, dbs: Databases, caller: string, req: Request)
    requires (req.CreateDb? || req.UpdateDb?) && ReplyTo(s, dbs, caller, req) == Ok
    ensures Total(After(s, dbs, caller, req)) == Asked(dbs, req)
  {
    var dbs' := After(s, dbs, caller, req);
    TotalPut(dbs, req.uuid, dbs'[req.uuid]);
    if req.UpdateDb? { TotalWithout(dbs, req.uuid); }
  }

  /** A create or update that is answered ok keeps the swarm within its limit exactly when the new
      sum of sizes does not wrap around 2^64. */
  lemma ResizeKeepsLimitIff(s: Swarm, dbs: Databases, caller: string, req: Request)
    requires WithinLimit(s, dbs) && 0 < s.limit < U64
    requires (req.CreateDb? || req.UpdateDb?) && req.maxSize < U64 && ReplyTo(s, dbs, caller, req) == Ok
    ensures WithinLimit(s, After(s, dbs, caller, req)) <==> Asked(dbs, req) < U64
  {
    AskedIsTotal(s, dbs, caller, req);
    ResizeArithmetic(s, dbs, req);
    hide Total, Exceeds;
  }

  lemma OtherKeepsLimit(s: Swarm, dbs: Databases, caller: string, req: Request)
    requires WithinLimit(s, dbs) && (req.DeleteDb? || req.SetWriters?)
    ensures WithinLimit(s, After(s, dbs, caller, req))
  {
    if ReplyTo(s, dbs, caller, req) == Ok {
      TotalWithout(dbs, req.uuid);
      if req.SetWriters? { TotalPut(dbs, req.uuid, After(s, dbs, caller, req)[req.uuid]); }
    }
    hide Total;
  }

  // ---- Runs ----

  ghost function AfterAll(s: Swarm, callers: seq<string>, reqs: seq<Request>): Databases
    requires |callers| == |reqs|
    decreases |reqs|
  {
    if reqs == [] then map[]
    else
      var n := |reqs| - 1;
      After(s, AfterAll(s, callers[..n], reqs[..n]), callers[n], reqs[n])
  }

  /** The state after the first i requests. */
  ghost function StateAt(s: Swarm, callers: seq<string>, reqs: seq<Request>, i: nat): Databases
    requires |callers| == |reqs| && i <= |reqs|
  {
    AfterAll(s, callers[..i], reqs[..i])
  }

  /** A new size that is answered ok does not make the sum of sizes wrap around 2^64. */
  ghost predicate NoWrap(s: Swarm, dbs: Databases, caller: string, req: Request)
  {
    (req.CreateDb? || req.UpdateDb?) && ReplyTo(s, dbs, caller, req) == Ok ==> Asked(dbs, req) < U64
  }

  lemma StepKeepsLimitIff(s: Swarm, dbs: Databases, caller: string, req: Request)
    requires WithinLimit(s, dbs) && 0 < s.limit < U64 && (req.CreateDb? || req.UpdateDb? ==> req.maxSize < U64)
    ensures WithinLimit(s, After(s, dbs, caller, req)) <==> NoWrap(s, dbs, caller, req)
  {
    if req.CreateDb? || req.UpdateDb? {
      if ReplyTo(s, dbs, caller, req) == Ok { ResizeKeepsLimitIff(s, dbs, caller, req); }
    } else {
      OtherKeepsLimit(s, dbs, caller, req);
    }
    hide Total;
  }

  lemma NextState(s: Swarm, callers: seq<string>, reqs: seq<Request>, i: nat)
    requires |callers| == |reqs| && i < |reqs|
    ensures StateAt(s, callers, reqs, i + 1) == After(s, StateAt(s, callers, reqs, i), callers[i], reqs[i])
  {
    assert callers[..i + 1][..i] == callers[..i] && reqs[..i + 1][..i] == reqs[..i];
  }

  lemma {:induction false} WithinUntilWrap(s: Swarm, callers: seq<string>, reqs: seq<Request>, n: nat)
    requires |callers| == |reqs| && 0 < s.limit < U64 && n <= |reqs|
    requires forall i | 0 <= i < |reqs| :: reqs[i].CreateDb? || reqs[i].UpdateDb? ==> reqs[i].maxSize < U64
    requires forall i | 0 <= i < n :: NoWrap(s, StateAt(s, callers, reqs, i), callers[i], reqs[i])
    ensures WithinLimit(s, StateAt(s, callers, reqs, n))
  {
    hide StateAt, NoWrap;
    if n == 0 {
      EmptyStart(s, callers, reqs);
    } else {
      WithinUntilWrap(s, callers, reqs, n - 1);
      StepKeepsLimitIff(s, StateAt(s, callers, reqs, n - 1), callers[n - 1], reqs[n - 1]);
      NextState(s, callers, reqs, n - 1);
    }
  }

  lemma EmptyStart(s: Swarm, callers: seq<string>, reqs: seq<Request>)
    requires |callers| == |reqs|
    ensures WithinLimit(s, StateAt(s, callers, reqs, 0))
  {
  }

  /** Over every run of requests by any callers the sizes of all databases together stay within the
      swarm limit, and none is unlimited, exactly if no accepted size makes the sum wrap. */
  lemma SwarmLimitKeptIff(s: Swarm, callers: seq<string>, reqs: seq<Request>)
    requires |callers| == |reqs| && 0 < s.limit < U64
    requires forall i | 0 <= i < |reqs| :: reqs[i].CreateDb? || reqs[i].UpdateDb? ==> reqs[i].maxSize < U64
    ensures (forall n | 0 <= n <= |reqs| :: WithinLimit(s, StateAt(s, callers, reqs, n)))
            <==> forall i | 0 <= i < |reqs| :: NoWrap(s, StateAt(s, callers, reqs, i), callers[i], reqs[i])
  {
    hide StateAt, NoWrap, WithinLimit;
    if forall n | 0 <= n <= |reqs| :: WithinLimit(s, StateAt(s, callers, reqs, n)) {
      forall i | 0 <= i < |reqs| ensures NoWrap(s, StateAt(s, callers, reqs, i), callers[i], reqs[i]) {
        NextState(s, callers, reqs, i);
        assert WithinLimit(s, StateAt(s, callers, reqs, i)) && WithinLimit(s, StateAt(s, callers, reqs, i + 1));
        StepKeepsLimitIff(s, StateAt(s, callers, reqs, i), callers[i], reqs[i]);
      }
    }
    if forall i | 0 <= i < |reqs| :: NoWrap(s, StateAt(s, callers, reqs, i), callers[i], reqs[i]) {
      forall n | 0 <= n <= |reqs| ensures WithinLimit(s, StateAt(s, callers, reqs, n)) {
        WithinUntilWrap(s, callers, reqs, n);
      }
    }
  }

  /** A requested size so small that adding it to the limit does not wrap. */
  predicate Sensible(s: Swarm, req: Request) { req.CreateDb? || req.UpdateDb? ==> s.limit + req.maxSize < U64 }

  /** Over every run of requests of sensible sizes by any callers, the sizes of all databases
      together stay within the swarm limit and none is unlimited. */
  lemma {:induction false} AlwaysWithinSwarmLimit(s: Swarm, callers: seq<string>, reqs: seq<Request>)
    requires |callers| == |reqs| && s.limit < U64 && forall i | 0 <= i < |reqs| :: Sensible(s, reqs[i])
    ensures WithinLimit(s, AfterAll(s, callers, reqs))
    decreases |reqs|
  {
    if reqs != [] {
      var n := |reqs| - 1;
      AlwaysWithinSwarmLimit(s, callers[..n], reqs[..n]);
      KeepsLimit(s, AfterAll(s, callers[..n], reqs[..n]), callers[n], reqs[n]);
    }
  }

  lemma KeepsLimit(s: Swarm, dbs: Databases, caller: string, req: Request)
    requires WithinLimit(s, dbs) && s.limit < U64 && Sensible(s, req)
    ensures WithinLimit(s, After(s, dbs, caller, req))
  {
    if s.limit != 0 && (req.CreateDb? || req.UpdateDb?) {
      if ReplyTo(s, dbs, caller, req) == Ok { ResizeKeepsLimitIff(s, dbs, caller, req); }
    } else if s.limit != 0 {
      OtherKeepsLimit(s, dbs, caller, req);
    }
    hide Total, ReplyTo, After;
  }

  /** Without the condition the limit does not hold: one size near 2^64 passes the test. */
  lemma OversizeDatabaseAccepted()
    ensures var s, dbs := Swarm(100, ""), map["a" := Perms("me", {}, 60)]; var req := CreateDb("b", U64 - 10);
            WithinLimit(s, dbs) && ReplyTo(s, dbs, "me", req) == Ok && !WithinLimit(s, After(s, dbs, "me", req))
  {
    var s, dbs := Swarm(100, ""), map["a" := Perms("me", {}, 60)];
    TotalWithout(dbs, "a");
    assert dbs - {"a"} == map[];
    var req := CreateDb("b", U64 - 10);
    ResizeArithmetic(s, dbs, req);
    ResizeKeepsLimitIff(s, dbs, "me", req);
  }

  // ---- The sizes a caller may ask for ----

  predicate AtMost(req: Request, bound: nat) { req.CreateDb? || req.UpdateDb? ==> req.maxSize <= bound }

  /** Every run of requests with sizes up to the bound keeps the limit. */
  ghost predicate AllKeepSwarmLimit(s: Swarm, bound: nat)
  {
    forall callers: seq<string>, reqs: seq<Request>
      | |callers| == |reqs| && (forall i | 0 <= i < |reqs| :: AtMost(reqs[i], bound)) ::
      WithinLimit(s, AfterAll(s, callers, reqs))
  }

  /** n databases of one byte each. */
  ghost function Ones(s: Swarm, n: nat): Databases
    requires n <= U64
  {
    if n == 0 then map[] else Ones(s, n - 1)[Pad(n - 1) := Perms(s.ownerKey, {}, 1)]
  }

  lemma {:induction false} OnesNames(s: Swarm, n: nat, i: nat)
    requires n <= i < U64
    ensures Pad(i) !in Ones(s, n)
  {
    if n > 0 {
      OnesNames(s, n - 1, i);
      PadOrder(n - 1, i, "", "");
    }
  }

  lemma {:induction false} OnesTotal(s: Swarm, n: nat)
    requires n <= U64
    ensures Total(Ones(s, n)) == n
  {
    hide Pad;
    if n > 0 {
      OnesTotal(s, n - 1);
      OnesNames(s, n - 1, n - 1);
      TotalPut(Ones(s, n - 1), Pad(n - 1), Perms(s.ownerKey, {}, 1));
    }
  }

  /** A request by the owner of the swarm that does not exceed by the code's reckoning. */
  lemma Grants(s: Swarm, dbs: Databases, uuid: string, size: nat)
    requires uuid !in dbs && size > 0 && Add64(Total(dbs) % U64, size) <= s.limit
    ensures After(s, dbs, s.ownerKey, CreateDb(uuid, size)) == dbs[uuid := Perms(s.ownerKey, {}, size)]
  {
    hide Total, Add64;
  }

  lemma OneMoreRequest(s: Swarm, callers: seq<string>, reqs: seq<Request>, caller: string, req: Request)
    requires |callers| == |reqs|
    ensures AfterAll(s, callers + [caller], reqs + [req]) == After(s, AfterAll(s, callers, reqs), caller, req)
  {
    hide After;
    assert (callers + [caller])[..|reqs|] == callers && (reqs + [req])[..|reqs|] == reqs;
  }

  lemma {:induction false} FillsSwarm(s: Swarm, n: nat) returns (callers: seq<string>, reqs: seq<Request>)
    requires 0 < s.limit < U64 && n <= s.limit
    ensures |callers| == |reqs| && AfterAll(s, callers, reqs) == Ones(s, n)
    ensures forall i | 0 <= i < |reqs| :: AtMost(reqs[i], 1)
  {
    callers, reqs := [], [];
    if n > 0 {
      callers, reqs := FillsSwarm(s, n - 1);
      OnesTotal(s, n - 1);
      OnesNames(s, n - 1, n - 1);
      hide Total, Pad, After, AfterAll;
      Add64Exact(n - 1, 1);
      assert (n - 1) % U64 == n - 1;
      Grants(s, Ones(s, n - 1), Pad(n - 1), 1);
      OneMoreRequest(s, callers, reqs, s.ownerKey, CreateDb(Pad(n - 1), 1));
      callers, reqs := callers + [s.ownerKey], reqs + [CreateDb(Pad(n - 1), 1)];
    }
  }

  /** With the limit filled, the size that makes the sum 2^64 is granted. */
  lemma SwarmLimitPassed(s: Swarm, bound: nat)
    requires 0 < s.limit < U64 && s.limit + bound >= U64
    ensures !AllKeepSwarmLimit(s, bound)
  {
    var callers, reqs := FillsSwarm(s, s.limit);
    var dbs, size := Ones(s, s.limit), U64 - s.limit;
    var req := CreateDb(Pad(s.limit), size);
    OnesTotal(s, s.limit);
    OnesNames(s, s.limit, s.limit);
    assert s.limit % U64 == s.limit && Add64(s.limit, size) == 0;
    Grants(s, dbs, Pad(s.limit), size);
    OneMoreRequest(s, callers, reqs, s.ownerKey, req);
    TotalPut(dbs, Pad(s.limit), Perms(s.ownerKey, {}, size));
    hide Total, Pad, After, AfterAll, Ones;
    var callers', reqs' := callers + [s.ownerKey], reqs + [req];
    assert forall i | 0 <= i < |reqs'| :: AtMost(reqs'[i], bound);
    assert !WithinLimit(s, AfterAll(s, callers', reqs'));
  }

  /** The swarm limit is kept in every run of requests with sizes up to a bound exactly if the bound
      does not wrap when it is added to the limit. */
  lemma SafeSizesIff(s: Swarm, bound: nat)
    requires 0 < s.limit < U64
    ensures AllKeepSwarmLimit(s, bound) <==> s.limit + bound < U64
  {
    if s.limit + bound < U64 {
      forall callers: seq<string>, reqs: seq<Request>
        | |callers| == |reqs| && (forall i | 0 <= i < |reqs| :: AtMost(reqs[i], bound))
        ensures WithinLimit(s, AfterAll(s, callers, reqs))
      {
        AlwaysWithinSwarmLimit(s, callers, reqs);
      }
    } else {
      SwarmLimitPassed(s, bound);
    }
  }

  // ---- The object ----

  class Manager {
    const swarm: Swarm
    var dbs: Databases

    constructor (swarm: Swarm)
      ensures this.swarm == swarm && dbs == map[]
    {
      this.swarm := swarm;
      dbs := map[];
    }

    /** The sum of all maximum sizes, in 64-bit arithmetic. */
    method GetSwarmStorageUsage() returns (usage: nat)
      ensures usage == Total(dbs) % U64
    {
      usage := 0;
      var rest := dbs.Keys;
      assert dbs - {} == dbs && dbs - dbs.Keys == map[];
      ghost var done: set<string> := {};
      while rest != {}
        invariant rest + done == dbs.Keys && rest !! done
        invariant (usage + Total(dbs - done)) % U64 == Total(dbs) % U64
        invariant usage < U64
        decreases rest
      {
        var u :| u in rest;
        TotalWithout(dbs - done, u);
        assert dbs - done - {u} == dbs - (done + {u});
        AddThenAdd(usage, dbs[u].maxSize, Total(dbs - (done + {u})));
        usage := Add64(usage, dbs[u].maxSize);
        rest, done := rest - {u}, done + {u};
      }
      assert done == dbs.Keys && usage % U64 == usage;
    }

    method HandleCreateDb(caller: string, uuid: string, maxSize: nat) returns (reply: Reply)
      modifies this
      ensures reply == ReplyTo(swarm, old(dbs), caller, CreateDb(uuid, maxSize))
      ensures dbs == After(swarm, old(dbs), caller, CreateDb(uuid, maxSize))
    {
      hide Total;
      if swarm.ownerKey != "" && swarm.ownerKey != caller {
        return AccessDenied;
      }
      if uuid in dbs {
        return DbExists;
      }
      if maxSize == 0 && swarm.limit != 0 {
        return InvalidSize;
      }
      if swarm.limit != 0 {
        var usage := GetSwarmStorageUsage();
        if Add64(usage, maxSize) > swarm.limit {
          return DbFull;
        }
      }
      dbs := dbs[uuid := Perms(caller, {}, maxSize)];
      return Ok;
    }

    /** The sum is looked at only when the database grows. */
    method HandleUpdateDb(caller: string, uuid: string, maxSize: nat) returns (reply: Reply)
      modifies this
      ensures reply == ReplyTo(swarm, old(dbs), caller, UpdateDb(uuid, maxSize))
      ensures dbs == After(swarm, old(dbs), caller, UpdateDb(uuid, maxSize))
    {
      hide Total;
      if uuid !in dbs {
        return DbNotFound;
      }
      if dbs[uuid].owner != caller {
        return AccessDenied;
      }
      if maxSize == 0 && swarm.limit != 0 {
        return InvalidSize;
      }
      if maxSize > dbs[uuid].maxSize && swarm.limit != 0 {
        var usage := GetSwarmStorageUsage();
        if Add64(Sub64(usage, dbs[uuid].maxSize), maxSize) > swarm.limit {
          return DbFull;
        }
      }
      dbs := dbs[uuid := dbs[uuid].(maxSize := maxSize)];
      return Ok;
    }

    method HandleDeleteDb(caller: string, uuid: string) returns (reply: Reply)
      modifies this
      ensures reply == ReplyTo(swarm, old(dbs), caller, DeleteDb(uuid))
      ensures dbs == After(swarm, old(dbs), caller, DeleteDb(uuid))
    {
      if swarm.ownerKey != "" && swarm.ownerKey != caller {
        return AccessDenied;
      }
      if uuid !in dbs {
        return DbNotFound;
      }
      if dbs[uuid].owner != caller {
        return AccessDenied;
      }
      dbs := dbs - {uuid};
      return Ok;
    }
  }

  lemma AddThenAdd(usage: nat, x: nat, rest: nat)
    ensures (Add64(usage, x) + rest) % U64 == (usage + (x + rest)) % U64
  {
    var q := (usage + x) / U64;
    assert Add64(usage, x) == usage + x - q * U64;
    Shifted(usage + x + rest, -q);
  }
}
