/** From agreement to equal databases: the protocol and the execution service together. */
module Replication {
  import opened Messages
  import opened Operations
  import opened Protocol
  import opened Agreement
  import S = Service

  /** Some correct replica handed a request with hash h to its service for sequence s. */
  ghost predicate PostedAs(c: Config, states: seq<System>, steps: seq<Step>, s: nat, h: Hash)
    requires c.HasPeers() && IsRun(c, states, steps)
  {
    exists i: nat, r: Uuid, k: OpKey :: PostedBy(c, states, steps, i, r, k) && k.sequence == s && k.hash == h
  }

  ghost predicate PostedBy(c: Config, states: seq<System>, steps: seq<Step>, i: nat, r: Uuid, k: OpKey)
    requires c.HasPeers() && IsRun(c, states, steps)
  {
    c.Correct(r) && i < |steps| && Posts(c, states, steps, i, r, k)
  }

  /** The conditions of agreement, for every sequence. */
  ghost predicate AllWellBehaved(c: Config, states: seq<System>, steps: seq<Step>)
    requires c.HasPeers() && IsRun(c, states, steps)
  {
    forall s: nat :: WellBehaved(c, states, steps, s)
  }

  lemma PostedOnce(c: Config, states: seq<System>, steps: seq<Step>, s: nat, h1: Hash, h2: Hash)
    requires c.Tolerable() && IsRun(c, states, steps) && AllWellBehaved(c, states, steps)
    requires PostedAs(c, states, steps, s, h1) && PostedAs(c, states, steps, s, h2)
    ensures h1 == h2
  {
    hide IsRun, WellBehaved, Posts;
    var i: nat, r: Uuid, k: OpKey :| PostedBy(c, states, steps, i, r, k) && k.sequence == s && k.hash == h1;
    var j: nat, q: Uuid, l: OpKey :| PostedBy(c, states, steps, j, q, l) && l.sequence == s && l.hash == h2;
    assert WellBehaved(c, states, steps, s);
    ServicesAgree(c, states, steps, i, j, r, q, k, l);
  }

  /** The log the swarm has agreed on; request gives the request of a hash, which is injective. */
  ghost function LogOf(c: Config, states: seq<System>, steps: seq<Step>, request: Hash -> S.Request): nat -> S.Request
    requires c.HasPeers() && IsRun(c, states, steps)
  {
    (s: nat) => LogEntry(c, states, steps, request, s)
  }

  ghost function LogEntry(c: Config, states: seq<System>, steps: seq<Step>, request: Hash -> S.Request,
                          s: nat): S.Request
  {
    if c.HasPeers() && IsRun(c, states, steps) && exists h :: PostedAs(c, states, steps, s, h)
    then var h :| PostedAs(c, states, steps, s, h); request(h)
    else request("")
  }

  // ---- The services of all correct replicas ----

  /** A call that reaches the service of replica r. */
  datatype Event<Db> = Event(r: Uuid, call: S.Call<Db>)

  function CallsOf<Db>(history: seq<Event<Db>>, r: Uuid): seq<S.Call<Db>>
  {
    if history == [] then []
    else
      var last := history[|history| - 1];
      CallsOf(history[..|history| - 1], r) + if last.r == r then [last.call] else []
  }

  /** The service of r after the history. */
  function ServiceAfter<Db>(env: S.Env<Db>, history: seq<Event<Db>>, r: Uuid): S.State<Db>
  {
    S.After(env, CallsOf(history, r))
  }

  /** What GetServiceState of replica q would return for sequence k. */
  predicate Serves<Db(==)>(env: S.Env<Db>, history: seq<Event<Db>>, q: Uuid, k: nat, data: Db)
  {
    var s := ServiceAfter(env, history, q);
    s.lastCheckpoint == k && s.snapshot == Some(data)
  }

  /** An operation reaches a replica's service only because that replica handed it over; a state
      reaches it from the service of a correct replica, which had it at the time. */
  ghost predicate Backed<Db>(c: Config, states: seq<System>, steps: seq<Step>, request: Hash -> S.Request,
                             env: S.Env<Db>, before: seq<Event<Db>>, event: Event<Db>)
    requires c.HasPeers() && IsRun(c, states, steps)
  {
    match event.call
    case Apply(s, op, _) =>
      exists i: nat, k: OpKey :: PostedBy(c, states, steps, i, event.r, k) && k.sequence == s && op == request(k.hash)
    case Transfer(k, data, _) => exists q :: c.Correct(q) && Serves(env, before, q, k, data)
    case SaveAt(_) => true
  }

  ghost predicate AllBacked<Db>(c: Config, states: seq<System>, steps: seq<Step>, request: Hash -> S.Request,
                                env: S.Env<Db>, history: seq<Event<Db>>)
    requires c.HasPeers() && IsRun(c, states, steps)
  {
    forall i | 0 <= i < |history| :: Backed(c, states, steps, request, env, history[..i], history[i])
  }

  lemma BackedIsSound<Db>(c: Config, states: seq<System>, steps: seq<Step>, request: Hash -> S.Request,
                          env: S.Env<Db>, before: seq<Event<Db>>, event: Event<Db>)
    requires c.Tolerable() && IsRun(c, states, steps) && AllWellBehaved(c, states, steps)
    requires Backed(c, states, steps, request, env, before, event)
    requires forall q :: S.AllSound(env, LogOf(c, states, steps, request), CallsOf(before, q))
    ensures S.Sound(env, LogOf(c, states, steps, request), event.call)
  {
    hide IsRun, AllWellBehaved, PostedBy, S.IsPrefix, S.AllSound, S.After;
    match event.call
    case Apply(s, op, _) =>
      var i: nat, k: OpKey :| PostedBy(c, states, steps, i, event.r, k) && k.sequence == s && op == request(k.hash);
      assert PostedAs(c, states, steps, k.sequence, k.hash);
      var h :| PostedAs(c, states, steps, k.sequence, h)
        && LogEntry(c, states, steps, request, k.sequence) == request(h);
      PostedOnce(c, states, steps, k.sequence, h, k.hash);
    case Transfer(k, data, _) =>
      var log := LogOf(c, states, steps, request);
      var q :| c.Correct(q) && Serves(env, before, q, k, data);
      S.AlwaysAPrefix(env, log, CallsOf(before, q));
      SnapshotIsFold(env, log, ServiceAfter(env, before, q));
    case SaveAt(_) =>
  }

  lemma SnapshotIsFold<Db>(env: S.Env<Db>, log: nat -> S.Request, s: S.State<Db>)
    requires S.IsPrefix(env, log, s) && s.snapshot.Some?
    ensures s.snapshot.value == S.Fold(env, log, s.lastCheckpoint)
  {
  }

  /** Whatever reaches a service is what the agreed log says, transferred states included. */
  lemma {:induction false} AlwaysSound<Db>(c: Config, states: seq<System>, steps: seq<Step>, request: Hash -> S.Request,
                                           env: S.Env<Db>, history: seq<Event<Db>>, r: Uuid)
    requires c.Tolerable() && IsRun(c, states, steps) && AllWellBehaved(c, states, steps)
    requires AllBacked(c, states, steps, request, env, history)
    ensures S.AllSound(env, LogOf(c, states, steps, request), CallsOf(history, r))
    decreases |history|
  {
    hide IsRun, AllWellBehaved, Backed, LogOf, S.Sound;
    if history != [] {
      var before, last := history[..|history| - 1], history[|history| - 1];
      forall i | 0 <= i < |before| ensures Backed(c, states, steps, request, env, before[..i], before[i]) {
        assert before[..i] == history[..i] && before[i] == history[i];
      }
      forall q ensures S.AllSound(env, LogOf(c, states, steps, request), CallsOf(before, q)) {
        AlwaysSound(c, states, steps, request, env, before, q);
      }
      BackedIsSound(c, states, steps, request, env, before, last);
    }
  }

  /** Any two correct replicas that have executed the same number of operations hold the same
      database, in whatever order, with whatever duplicates and gaps and state transfers each got there. */
  lemma DatabasesAgree<Db>(c: Config, states: seq<System>, steps: seq<Step>, request: Hash -> S.Request, env: S.Env<Db>,
                           history: seq<Event<Db>>, r1: Uuid, r2: Uuid)
    requires c.Tolerable() && IsRun(c, states, steps) && AllWellBehaved(c, states, steps)
    requires AllBacked(c, states, steps, request, env, history)
    requires ServiceAfter(env, history, r1).next == ServiceAfter(env, history, r2).next
    ensures ServiceAfter(env, history, r1).db == ServiceAfter(env, history, r2).db
  {
    var log := LogOf(c, states, steps, request);
    AlwaysSound(c, states, steps, request, env, history, r1);
    AlwaysSound(c, states, steps, request, env, history, r2);
    hide IsRun, AllWellBehaved, AllBacked, LogOf, S.AllSound;
    S.AlwaysAPrefix(env, log, CallsOf(history, r1));
    S.AlwaysAPrefix(env, log, CallsOf(history, r2));
  }
}
