/** How the primary admits requests: at most one sequence number for each request, remembered for
    as long as the request's timestamp is acceptable. */
module Admission {
  import opened Messages
  import opened Words

  const MAX_REQUEST_AGE_MS: nat := 3600000
  const MAX_BODY: nat := 256000 - 512

  datatype Seen = Seen(sender: string, hash: Hash)

  /** One call of handle_request: the request, what else the code looks at, and the three readings
      of the clock (twice for the age check, once when old entries are pruned). */
  datatype Presentation = Presentation(
    seen: Seen, timestamp: nat, bodySize: nat, verifies: bool,
    isPrimary: bool, lastExecuted: nat, window: nat,
    now: nat, now': nat, pruneAt: nat)

  /** recent is a multimap: the requests seen with each timestamp. */
  datatype State = State(next: nat, recent: map<nat, seq<Seen>>)

  const Start: State := State(1, map[])

  function SeenAt(recent: map<nat, seq<Seen>>, timestamp: nat): seq<Seen>
  {
    if timestamp in recent then recent[timestamp] else []
  }

  predicate InWindow(p: Presentation)
  {
    !(p.timestamp < Sub64(p.now, MAX_REQUEST_AGE_MS) || p.timestamp > Add64(p.now', MAX_REQUEST_AGE_MS))
  }

  predicate Acceptable(s: State, p: Presentation)
  {
    && InWindow(p) && (p.bodySize > 0 ==> p.bodySize < MAX_BODY) && p.isPrimary
    && Sub64(s.next, p.lastExecuted) <= p.window
    && (p.seen.sender != "" ==> p.verifies)
  }

  predicate AlreadySeen(s: State, p: Presentation) { p.seen in SeenAt(s.recent, p.timestamp) }

  /** saw_request: remember, then forget everything not newer than the bound. */
  function Remember(recent: map<nat, seq<Seen>>, p: Presentation): map<nat, seq<Seen>>
  {
    var more := recent[p.timestamp := SeenAt(recent, p.timestamp) + [p.seen]];
    map t | t in more && t > Sub64(p.pruneAt, MAX_REQUEST_AGE_MS) :: more[t]
  }

  predicate Assigns(s: State, p: Presentation) { Acceptable(s, p) && !AlreadySeen(s, p) }

  function Handle(s: State, p: Presentation): State
  {
    if Assigns(s, p) then State(s.next + 1, Remember(s.recent, p)) else s
  }

  function After(ps: seq<Presentation>): State
  {
    if ps == [] then Start else Handle(After(ps[..|ps| - 1]), ps[|ps| - 1])
  }

  predicate AssignedAt(ps: seq<Presentation>, i: nat)
    requires i < |ps|
  {
    Assigns(After(ps[..i]), ps[i])
  }

  // ---- Clocks ----

  /** Readings of one call do not go back, and are far enough from the ends of the 64-bit range. */
  predicate Steady(p: Presentation)
  {
    MAX_REQUEST_AGE_MS <= p.now <= p.now' <= p.pruneAt && p.pruneAt + MAX_REQUEST_AGE_MS < U64
  }

  ghost predicate ClockMovesForward(ps: seq<Presentation>)
  {
    && (forall i | 0 <= i < |ps| :: Steady(ps[i]))
    && (forall i, j | 0 <= i < j < |ps| :: ps[i].pruneAt <= ps[j].now)
  }

  /** The clock at the last pruning, as a timestamp bound; nothing was pruned before the first. */
  function Bound(ps: seq<Presentation>): int
  {
    if ps == [] then -1
    else if AssignedAt(ps, |ps| - 1) then ps[|ps| - 1].pruneAt - MAX_REQUEST_AGE_MS
    else Bound(ps[..|ps| - 1])
  }

  /** A request with this timestamp was given a sequence number. */
  ghost predicate Assigned(ps: seq<Presentation>, timestamp: nat, seen: Seen)
  {
    exists i: nat :: i < |ps| && AssignedAt(ps, i) && ps[i].timestamp == timestamp && ps[i].seen == seen
  }

  lemma AssignedMore(ps: seq<Presentation>, timestamp: nat, seen: Seen)
    requires ps != []
    ensures Assigned(ps, timestamp, seen) <==>
            || Assigned(ps[..|ps| - 1], timestamp, seen)
            || (AssignedAt(ps, |ps| - 1) && ps[|ps| - 1].timestamp == timestamp && ps[|ps| - 1].seen == seen)
  {
    hide AssignedAt;
    var before := ps[..|ps| - 1];
    if Assigned(before, timestamp, seen) {
      var i: nat :| i < |before| && AssignedAt(before, i) && before[i].timestamp == timestamp && before[i].seen == seen;
      SameBefore(ps, i);
    }
    if Assigned(ps, timestamp, seen) {
      var i: nat :| i < |ps| && AssignedAt(ps, i) && ps[i].timestamp == timestamp && ps[i].seen == seen;
      if i < |before| { SameBefore(ps, i); }
    }
  }

  lemma SameBefore(ps: seq<Presentation>, i: nat)
    requires i + 1 < |ps|
    ensures AssignedAt(ps[..|ps| - 1], i) <==> AssignedAt(ps, i)
  {
    hide Assigns;
    assert ps[..|ps| - 1][..i] == ps[..i];
  }

  lemma BoundInPast(ps: seq<Presentation>, now: nat)
    requires forall i | 0 <= i < |ps| :: Steady(ps[i]) && ps[i].pruneAt <= now
    requires MAX_REQUEST_AGE_MS <= now
    ensures Bound(ps) <= now - MAX_REQUEST_AGE_MS
  {
    if ps != [] && !AssignedAt(ps, |ps| - 1) { BoundInPast(ps[..|ps| - 1], now); }
  }

  /** What is remembered is exactly what was assigned with a timestamp above the last bound. */
  lemma {:induction false} RecentIsExact(ps: seq<Presentation>, timestamp: nat, seen: Seen)
    requires ClockMovesForward(ps)
    ensures seen in SeenAt(After(ps).recent, timestamp) <==> Assigned(ps, timestamp, seen) && timestamp > Bound(ps)
    decreases |ps|
  {
    if ps != [] {
      var before, p := ps[..|ps| - 1], ps[|ps| - 1];
      RecentIsExact(before, timestamp, seen);
      AssignedMore(ps, timestamp, seen);
      BoundInPast(before, p.now);
      hide Assigned;
      if AssignedAt(ps, |ps| - 1) { Remembered(After(before), p, timestamp, seen); }
    }
  }

  lemma Remembered(s: State, p: Presentation, timestamp: nat, seen: Seen)
    requires Steady(p)
    ensures seen in SeenAt(Remember(s.recent, p), timestamp) <==>
            timestamp > p.pruneAt - MAX_REQUEST_AGE_MS
              && (seen in SeenAt(s.recent, timestamp) || (p.timestamp == timestamp && p.seen == seen))
  {
  }

  /** A request that was assigned a number before is assigned another exactly when it passes every
      other check, it is as old as a request may be, and a pruning fell in the same millisecond. */
  lemma DuplicateAssignedIff(ps: seq<Presentation>, p: Presentation)
    requires ClockMovesForward(ps + [p]) && Assigned(ps, p.timestamp, p.seen)
    ensures Assigns(After(ps), p) <==>
            Acceptable(After(ps), p) && p.timestamp == p.now - MAX_REQUEST_AGE_MS == Bound(ps)
  {
    hide Assigned, After, Bound, Acceptable;
    OneMore(ps, p);
    RecentIsExact(ps, p.timestamp, p.seen);
    BoundInPast(ps, p.now);
    if Acceptable(After(ps), p) { NotTooOld(After(ps), p); }
  }

  lemma OneMore(ps: seq<Presentation>, p: Presentation)
    requires ClockMovesForward(ps + [p])
    ensures ClockMovesForward(ps) && Steady(p) && forall i | 0 <= i < |ps| :: Steady(ps[i]) && ps[i].pruneAt <= p.now
  {
    var all := ps + [p];
    Prefixes(all, |ps|);
    assert all[..|ps|] == ps && all[|ps|] == p;
    forall i | 0 <= i < |ps| ensures Steady(ps[i]) && ps[i].pruneAt <= p.now { assert all[i] == ps[i]; }
  }

  lemma NotTooOld(s: State, p: Presentation)
    requires Steady(p) && Acceptable(s, p)
    ensures p.timestamp >= p.now - MAX_REQUEST_AGE_MS
  {
  }

  /** No request is given two sequence numbers, if its timestamp is strictly above the age limit
      when it is presented again. */
  lemma NeverAssignedTwice(ps: seq<Presentation>, i: nat, j: nat)
    requires ClockMovesForward(ps) && i < j < |ps| && AssignedAt(ps, i) && AssignedAt(ps, j)
    requires ps[i].seen == ps[j].seen && ps[i].timestamp == ps[j].timestamp
    ensures ps[j].timestamp == ps[j].now - MAX_REQUEST_AGE_MS
  {
    hide Assigns, After;
    var before := ps[..j];
    assert before[..i] == ps[..i] && before[i] == ps[i];
    assert AssignedAt(before, i) && Assigned(before, ps[j].timestamp, ps[j].seen);
    hide Assigned;
    assert ps[..j + 1] == before + [ps[j]];
    Prefixes(ps, j + 1);
    hide ClockMovesForward;
    DuplicateAssignedIff(before, ps[j]);
  }

  lemma Prefixes(ps: seq<Presentation>, n: nat)
    requires ClockMovesForward(ps) && n <= |ps|
    ensures ClockMovesForward(ps[..n])
  {
  }

  /** Different assignments get different numbers, later ones larger. */
  lemma {:induction false} NumbersIncrease(ps: seq<Presentation>, i: nat, j: nat)
    requires i <= j <= |ps|
    ensures After(ps[..i]).next <= After(ps[..j]).next
    ensures i < j && AssignedAt(ps, i) ==> After(ps[..i]).next < After(ps[..j]).next
    decreases j
  {
    if i < j {
      assert ps[..j][..j - 1] == ps[..j - 1] && ps[..j][j - 1] == ps[j - 1];
      NumbersIncrease(ps, i, j - 1);
    }
  }

  /** How many of the presentations were given a number. */
  function Count(ps: seq<Presentation>): nat
  {
    if ps == [] then 0 else Count(ps[..|ps| - 1]) + if AssignedAt(ps, |ps| - 1) then 1 else 0
  }

  lemma {:induction false} NextIsCount(ps: seq<Presentation>)
    ensures After(ps).next == 1 + Count(ps)
  {
    if ps != [] { NextIsCount(ps[..|ps| - 1]); }
  }

  /** The next number is at most window ahead of what was executed; if more was executed than numbered
      here, the difference wraps. */
  predicate InReach(next: nat, executed: nat, window: nat)
  {
    if executed <= next then next <= executed + window else next + U64 <= executed + window
  }

  /** A presentation is given a number if and only if its timestamp is at most an hour from the clock on
      either side, its body is small, this peer leads, the number is within the window, the
      signature verifies unless the sender is anonymous, and it was not numbered before, as
      far as that is remembered. */
  lemma AdmittedIff(ps: seq<Presentation>, p: Presentation)
    requires ClockMovesForward(ps + [p]) && 1 + Count(ps) < U64 && p.lastExecuted < U64
    ensures Assigns(After(ps), p) <==>
            && p.now - 3600000 <= p.timestamp <= p.now' + 3600000
            && (p.bodySize == 0 || p.bodySize < 255488)
            && p.isPrimary && InReach(1 + Count(ps), p.lastExecuted, p.window)
            && (p.seen.sender == "" || p.verifies)
            && !(Assigned(ps, p.timestamp, p.seen) && p.timestamp > Bound(ps))
  {
    OneMore(ps, p);
    RecentIsExact(ps, p.timestamp, p.seen);
    NextIsCount(ps);
    hide Assigned, After, Bound, Count, Acceptable, ClockMovesForward;
    AcceptableIff(After(ps), p);
  }

  lemma AcceptableIff(s: State, p: Presentation)
    requires Steady(p) && s.next < U64 && p.lastExecuted < U64
    ensures Acceptable(s, p) <==>
            && p.now - 3600000 <= p.timestamp <= p.now' + 3600000
            && (p.bodySize == 0 || p.bodySize < 255488)
            && p.isPrimary && InReach(s.next, p.lastExecuted, p.window)
            && (p.seen.sender == "" || p.verifies)
  {
    Apart(s.next, p.lastExecuted, p.window);
    hide InReach;
  }

  lemma Apart(next: nat, executed: nat, window: nat)
    requires next < U64 && executed < U64
    ensures Sub64(next, executed) <= window <==> InReach(next, executed, window)
  {
  }

  // A request as old as it may be, presented twice within one millisecond.
  const Edge: Presentation := Presentation(Seen("client", "hash"), MAX_REQUEST_AGE_MS, 1, true, true, 0, 10,
                                           2 * MAX_REQUEST_AGE_MS, 2 * MAX_REQUEST_AGE_MS, 2 * MAX_REQUEST_AGE_MS)

  lemma AssignedTwiceAtTheEdge()
    ensures ClockMovesForward([Edge, Edge]) && AssignedAt([Edge, Edge], 0) && AssignedAt([Edge, Edge], 1)
  {
    assert [Edge, Edge][..0] == [] && [Edge, Edge][..1] == [Edge] && [Edge][..0] == [];
    assert After([Edge]) == Handle(Start, Edge);
  }

  // ---- The object ----

  class Primary {
    var next: nat
    var recent: map<nat, seq<Seen>>

    ghost function Model(): State
      reads this
    {
      State(next, recent)
    }

    constructor ()
      ensures Model() == Start
    {
      next, recent := 1, map[];
    }

    method AlreadySeenRequest(p: Presentation) returns (seen: bool)
      ensures seen <==> AlreadySeen(Model(), p)
    {
      var range := SeenAt(recent, p.timestamp);
      for i := 0 to |range|
        invariant p.seen !in range[..i]
      {
        if range[i] == p.seen {
          return true;
        }
      }
      return false;
    }

    /** The sequence number given to the request, if it is admitted. */
    method HandleRequest(p: Presentation) returns (number: Option<nat>)
      modifies this
      ensures Model() == Handle(old(Model()), p)
      ensures number == if Assigns(old(Model()), p) then Some(old(next)) else None
    {
      if p.timestamp < Sub64(p.now, MAX_REQUEST_AGE_MS) || p.timestamp > Add64(p.now', MAX_REQUEST_AGE_MS) {
        return None;
      }
      if p.bodySize > 0 && p.bodySize >= MAX_BODY {
        return None;
      }
      if !p.isPrimary {
        return None;
      }
      if Sub64(next, p.lastExecuted) > p.window {
        return None;
      }
      var duplicate := AlreadySeenRequest(p);
      if duplicate {
        return None;
      }
      if p.seen.sender != "" && !p.verifies {
        return None;
      }
      recent := recent[p.timestamp := SeenAt(recent, p.timestamp) + [p.seen]];
      recent := map t | t in recent && t > Sub64(p.pruneAt, MAX_REQUEST_AGE_MS) :: recent[t];
      number := Some(next);
      next := next + 1;
    }
  }
}
