/** What is known of a database is what the last request that set it said, over every run of requests. */
module Ownership {
  import opened Words
  import opened SwarmLimit

  datatype Fact = Owner(name: string) | Size(bytes: nat) | Writers(names: set<string>)

  predicate Shows(dbs: Databases, u: string, x: Fact)
  {
    && u in dbs
    && match x
       case Owner(name) => dbs[u].owner == name
       case Size(bytes) => dbs[u].maxSize == bytes
       case Writers(names) => dbs[u].writers == names
  }

  /** The request, if it is answered ok, sets the fact: whoever creates a database owns it, and it
      has no other writers at first. */
  predicate Sets(caller: string, req: Request, u: string, x: Fact)
  {
    && req.uuid == u
    && match x
       case Owner(name) => req.CreateDb? && caller == name
       case Size(bytes) => (req.CreateDb? || req.UpdateDb?) && req.maxSize == bytes
       case Writers(names) => (req.CreateDb? && names == {}) || (req.SetWriters? && req.writers == names)
  }

  /** The request, if it is answered ok, ends what was known: the database goes, or it is set anew. */
  predicate Ends(req: Request, u: string, x: Fact)
  {
    req.uuid == u && (req.DeleteDb? || (x.Size? && req.UpdateDb?) || (x.Writers? && req.SetWriters?))
  }

  lemma StepShows(s: Swarm, dbs: Databases, caller: string, req: Request, u: string, x: Fact)
    ensures Shows(After(s, dbs, caller, req), u, x) <==>
            var ok := ReplyTo(s, dbs, caller, req) == Ok;
            (ok && Sets(caller, req, u, x)) || (Shows(dbs, u, x) && !(ok && Ends(req, u, x)))
  {
    hide Exceeds;
  }

  // ---- Runs ----

  ghost predicate Accepted(s: Swarm, callers: seq<string>, reqs: seq<Request>, i: nat)
    requires |callers| == |reqs| && i < |reqs|
  {
    ReplyTo(s, StateAt(s, callers, reqs, i), callers[i], reqs[i]) == Ok
  }

  ghost predicate SetsAt(s: Swarm, callers: seq<string>, reqs: seq<Request>, i: nat, u: string, x: Fact)
    requires |callers| == |reqs|
  {
    i < |reqs| && Accepted(s, callers, reqs, i) && Sets(callers[i], reqs[i], u, x)
  }

  ghost predicate EndsAt(s: Swarm, callers: seq<string>, reqs: seq<Request>, i: nat, u: string, x: Fact)
    requires |callers| == |reqs|
  {
    i < |reqs| && Accepted(s, callers, reqs, i) && Ends(reqs[i], u, x)
  }

  ghost predicate Lasts(s: Swarm, callers: seq<string>, reqs: seq<Request>, i: nat, n: nat, u: string, x: Fact)
    requires |callers| == |reqs|
  {
    forall l | i < l < n :: !EndsAt(s, callers, reqs, l, u, x)
  }

  /** Some accepted request before the n-th set the fact, and none since ended it. */
  ghost predicate Stands(s: Swarm, callers: seq<string>, reqs: seq<Request>, n: nat, u: string, x: Fact)
    requires |callers| == |reqs|
  {
    exists i: nat :: i < n && SetsAt(s, callers, reqs, i, u, x) && Lasts(s, callers, reqs, i, n, u, x)
  }

  lemma StandsMore(s: Swarm, callers: seq<string>, reqs: seq<Request>, n: nat, u: string, x: Fact)
    requires |callers| == |reqs|
    ensures Stands(s, callers, reqs, n + 1, u, x) <==>
            || SetsAt(s, callers, reqs, n, u, x)
            || (Stands(s, callers, reqs, n, u, x) && !EndsAt(s, callers, reqs, n, u, x))
  {
    hide SetsAt, EndsAt;
    forall i: nat | i < n
      ensures Lasts(s, callers, reqs, i, n + 1, u, x)
              <==> Lasts(s, callers, reqs, i, n, u, x) && !EndsAt(s, callers, reqs, n, u, x)
    {
    }
    assert Lasts(s, callers, reqs, n, n + 1, u, x);
    hide Lasts;
  }

  /** A database has this owner, size or set of writers if and only if an accepted request said so and
      none has changed it since. */
  lemma {:induction false} FactIff(s: Swarm, callers: seq<string>, reqs: seq<Request>, n: nat, u: string, x: Fact)
    requires |callers| == |reqs| && n <= |reqs|
    ensures Shows(StateAt(s, callers, reqs, n), u, x) <==> Stands(s, callers, reqs, n, u, x)
  {
    if n > 0 {
      FactIff(s, callers, reqs, n - 1, u, x);
      hide StateAt, Shows, Stands;
      FactNext(s, callers, reqs, n - 1, u, x);
    }
  }

  lemma FactNext(s: Swarm, callers: seq<string>, reqs: seq<Request>, n: nat, u: string, x: Fact)
    requires |callers| == |reqs| && n < |reqs|
    requires Shows(StateAt(s, callers, reqs, n), u, x) <==> Stands(s, callers, reqs, n, u, x)
    ensures Shows(StateAt(s, callers, reqs, n + 1), u, x) <==> Stands(s, callers, reqs, n + 1, u, x)
  {
    hide StateAt, Shows, Stands, Sets, Ends, After, ReplyTo;
    NextState(s, callers, reqs, n);
    StepShows(s, StateAt(s, callers, reqs, n), callers[n], reqs[n], u, x);
    StandsMore(s, callers, reqs, n, u, x);
  }

  /** Only the one who created a database has it changed or deleted. */
  lemma OnlyOwnerChanges(s: Swarm, callers: seq<string>, reqs: seq<Request>, i: nat)
    requires |callers| == |reqs| && i < |reqs| && Accepted(s, callers, reqs, i) && !reqs[i].CreateDb?
    ensures Stands(s, callers, reqs, i, reqs[i].uuid, Owner(callers[i]))
  {
    hide StateAt;
    FactIff(s, callers, reqs, i, reqs[i].uuid, Owner(callers[i]));
  }

  /** A size is accepted if and only if the caller may set it, it is not zero, and the new sum of
      sizes is within the limit, as long as that sum does not wrap. */
  lemma SizeAcceptedIff(s: Swarm, dbs: Databases, caller: string, req: Request)
    requires WithinLimit(s, dbs) && 0 < s.limit < U64 && (req.CreateDb? || req.UpdateDb?)
    requires req.CreateDb? || req.uuid in dbs ==> req.maxSize < U64 && Asked(dbs, req) < U64
    ensures ReplyTo(s, dbs, caller, req) == Ok <==>
            && req.maxSize > 0
            && if req.CreateDb?
               then (s.ownerKey == "" || s.ownerKey == caller) && req.uuid !in dbs && Asked(dbs, req) <= s.limit
               else Shows(dbs, req.uuid, Owner(caller)) && Asked(dbs, req) <= s.limit
  {
    if req.CreateDb? || req.uuid in dbs { ResizeArithmetic(s, dbs, req); }
    hide Total, Exceeds;
  }

  /** The owner may shrink a database however large the sum of sizes is. */
  lemma ShrinkAccepted(s: Swarm, dbs: Databases, caller: string, u: string, size: nat)
    requires Shows(dbs, u, Owner(caller)) && 0 < size <= dbs[u].maxSize
    ensures ReplyTo(s, dbs, caller, UpdateDb(u, size)) == Ok
    ensures Shows(After(s, dbs, caller, UpdateDb(u, size)), u, Size(size))
  {
    hide Exceeds;
  }
}
