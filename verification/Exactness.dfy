/** Agreement across views, exactly: of the three conditions on a run any may be asked for or not,
    and all runs that keep what is asked for agree if and only if all three are asked for. This holds
    for what is committed, for what the replicas hand to their services, and for their databases. */
module Exactness {
  import opened Messages
  import opened Operations
  import opened Protocol
  import opened Agreement
  import opened Posting
  import opened Replication
  import opened Scenes
  import opened Disagreement
  import opened LowWater

  /** Which of the three conditions are asked for. */
  datatype Conditions = Conditions(disciplined: bool, latest: bool, guarded: bool)

  predicate Complete(want: Conditions) { want.disciplined && want.latest && want.guarded }

  ghost predicate Keeps(want: Conditions, c: Config, states: seq<System>, steps: seq<Step>)
    requires c.HasPeers() && IsRun(c, states, steps)
  {
    && (want.disciplined ==> Disciplined(c, states, steps))
    && (want.latest ==> forall s: nat :: AllLatest(c, states, steps, s))
    && (want.guarded ==> Guarded(c, states, steps))
  }

  /** A run with n = 3f+1 peers, at most f of them faulty, that keeps what is asked for. */
  ghost predicate Fair(want: Conditions, c: Config, states: seq<System>, steps: seq<Step>)
  {
    c.Tolerable() && IsRun(c, states, steps) && Keeps(want, c, states, steps)
  }

  ghost predicate CommitsAlike(want: Conditions)
  {
    forall c: Config, states: seq<System>, steps: seq<Step>, k1: OpKey, k2: OpKey
      | Fair(want, c, states, steps) && k1.sequence == k2.sequence
        && CommittedInRun(c, states, k1) && CommittedInRun(c, states, k2) :: k1.hash == k2.hash
  }

  ghost predicate ServicesAlike(want: Conditions)
  {
    forall c: Config, states: seq<System>, steps: seq<Step>, r: Uuid, q: Uuid, k1: OpKey, k2: OpKey
      | Fair(want, c, states, steps) && c.Correct(r) && c.Correct(q) && k1.sequence == k2.sequence
        && PostsIn(c, states, steps, r, k1) && PostsIn(c, states, steps, q, k2) :: k1.hash == k2.hash
  }

  /** Replicas whose services have come equally far hold the same database. */
  ghost predicate DatabasesAlike<Db(!new)>(want: Conditions, request: Hash -> S.Request, env: S.Env<Db>)
  {
    forall c: Config, states: seq<System>, steps: seq<Step>, history: seq<Event<Db>>, r: Uuid, q: Uuid
      | Fair(want, c, states, steps) && AllBacked(c, states, steps, request, env, history)
        && ServiceAfter(env, history, r).next == ServiceAfter(env, history, q).next ::
        ServiceAfter(env, history, r).db == ServiceAfter(env, history, q).db
  }

  lemma FairIsWellBehaved(want: Conditions, c: Config, states: seq<System>, steps: seq<Step>)
    requires Complete(want) && Fair(want, c, states, steps)
    ensures AllWellBehaved(c, states, steps)
  {
    hide IsRun, Disciplined, AllLatest, Guarded;
  }

  /** Without one of the conditions there is a run in which two services are handed different
      requests for the first sequence. */
  lemma Unfair(want: Conditions) returns (states: seq<System>, steps: seq<Step>, k1: OpKey, k2: OpKey)
    requires !Complete(want)
    ensures Fair(want, Four, states, steps) && Disagrees(states, k1, k2) && ServicesDiffer(states, steps, k1, k2)
    ensures k1.sequence == 1
  {
    hide IsRun, Disciplined, AllLatest, Guarded, Disagrees, ServicesDiffer;
    if !want.disciplined {
      states, steps, k1, k2 := UndisciplinedDisagree();
    } else if !want.latest {
      states, steps, k1, k2 := EarlierCertificateDisagree();
    } else {
      states, steps, k1, k2 := LowPreprepareDisagree(1);
    }
  }

  /** All runs that keep what is asked for commit one request for each sequence if and only if all
      three conditions are asked for. */
  lemma CommitsAlikeIff(want: Conditions)
    ensures CommitsAlike(want) <==> Complete(want)
  {
    if Complete(want) {
      forall c: Config, states: seq<System>, steps: seq<Step>, k1: OpKey, k2: OpKey
        | Fair(want, c, states, steps) && k1.sequence == k2.sequence
          && CommittedInRun(c, states, k1) && CommittedInRun(c, states, k2)
        ensures k1.hash == k2.hash
      {
        hide IsRun, Keeps, CommittedInRun, WellBehaved;
        FairIsWellBehaved(want, c, states, steps);
        CommittedAgree(c, states, steps, k1, k2);
      }
    } else {
      hide IsRun, Keeps, CommittedInRun, ServicesDiffer;
      var states, steps, k1, k2 := Unfair(want);
      assert !CommitsAlike(want);
    }
  }

  /** The same for the requests that correct replicas hand to their services. */
  lemma ServicesAlikeIff(want: Conditions)
    ensures ServicesAlike(want) <==> Complete(want)
  {
    if Complete(want) {
      forall c: Config, states: seq<System>, steps: seq<Step>, r: Uuid, q: Uuid, k1: OpKey, k2: OpKey
        | Fair(want, c, states, steps) && c.Correct(r) && c.Correct(q) && k1.sequence == k2.sequence
          && PostsIn(c, states, steps, r, k1) && PostsIn(c, states, steps, q, k2)
        ensures k1.hash == k2.hash
      {
        FairIsWellBehaved(want, c, states, steps);
        hide IsRun, Keeps, Posts, WellBehaved;
        var i :| 0 <= i < |steps| && Posts(c, states, steps, i, r, k1);
        var j :| 0 <= j < |steps| && Posts(c, states, steps, j, q, k2);
        ServicesAgree(c, states, steps, i, j, r, q, k1, k2);
      }
    } else {
      hide IsRun, Keeps, PostsIn, Disagrees;
      var states, steps, k1, k2 := Unfair(want);
      assert !ServicesAlike(want);
    }
  }

  // ---- Databases ----

  /** The first request that a database has executed can be told from the database. */
  ghost predicate TellsFirst<Db>(request: Hash -> S.Request, env: S.Env<Db>)
  {
    forall h1: Hash, h2: Hash | h1 != h2 :: env.exec(env.empty, request(h1)) != env.exec(env.empty, request(h2))
  }

  function OneEach<Db>(r: Uuid, op1: S.Request, q: Uuid, op2: S.Request): seq<Event<Db>>
  {
    [Event(r, S.Apply(1, op1, true)), Event(q, S.Apply(1, op2, true))]
  }

  /** A service that is given its first operation executes it. */
  lemma OneApplied<Db>(env: S.Env<Db>, op: S.Request)
    ensures var s := S.After(env, [S.Apply(1, op, true)]); s.next == 2 && s.db == env.exec(env.empty, op)
  {
    var calls: seq<S.Call<Db>> := [S.Apply(1, op, true)];
    assert calls[..0] == [];
    var s := S.Start(env).(backlog := map[1 := op.body], awaiting := map[1 := op]);
    assert S.After(env, calls) == S.Process(env, s);
    assert op.(body := op.body) == op;
    assert S.ExecuteNext(env, s).backlog == map[];
  }

  lemma CallsOfEach<Db>(r: Uuid, op1: S.Request, q: Uuid, op2: S.Request)
    requires r != q
    ensures CallsOf<Db>(OneEach(r, op1, q, op2), r) == [S.Apply(1, op1, true)]
    ensures CallsOf<Db>(OneEach(r, op1, q, op2), q) == [S.Apply(1, op2, true)]
  {
    var history: seq<Event<Db>> := OneEach(r, op1, q, op2);
    var first := history[..1];
    assert first[..0] == [] && first[0] == history[0];
    assert CallsOf(first, r) == [S.Apply(1, op1, true)] && CallsOf(first, q) == [];
  }

  /** Two replicas whose services were handed different first requests have different databases. */
  lemma FirstRequestsDiffer<Db>(states: seq<System>, steps: seq<Step>, k1: OpKey, k2: OpKey, request: Hash -> S.Request,
                                env: S.Env<Db>) returns (history: seq<Event<Db>>, r: Uuid, q: Uuid)
    requires IsRun(Four, states, steps) && ServicesDiffer(states, steps, k1, k2) && k1.sequence == 1
    requires TellsFirst(request, env)
    ensures AllBacked(Four, states, steps, request, env, history)
    ensures ServiceAfter(env, history, r).next == ServiceAfter(env, history, q).next
    ensures ServiceAfter(env, history, r).db != ServiceAfter(env, history, q).db
  {
    hide IsRun, Posts;
    r, q :| Four.Correct(r) && Four.Correct(q) && r != q
            && PostsIn(Four, states, steps, r, k1) && PostsIn(Four, states, steps, q, k2);
    var i :| 0 <= i < |steps| && Posts(Four, states, steps, i, r, k1);
    var j :| 0 <= j < |steps| && Posts(Four, states, steps, j, q, k2);
    assert PostedBy(Four, states, steps, i, r, k1) && PostedBy(Four, states, steps, j, q, k2);
    history := OneEach(r, request(k1.hash), q, request(k2.hash));
    hide S.After, CallsOf;
    CallsOfEach<Db>(r, request(k1.hash), q, request(k2.hash));
    OneApplied(env, request(k1.hash));
    OneApplied(env, request(k2.hash));
  }

  /** The same for the databases of the replicas. */
  lemma DatabasesAlikeIff<Db(!new)>(want: Conditions, request: Hash -> S.Request, env: S.Env<Db>)
    requires TellsFirst(request, env)
    ensures DatabasesAlike(want, request, env) <==> Complete(want)
  {
    if Complete(want) {
      forall c: Config, states: seq<System>, steps: seq<Step>, history: seq<Event<Db>>, r: Uuid, q: Uuid
        | Fair(want, c, states, steps) && AllBacked(c, states, steps, request, env, history)
          && ServiceAfter(env, history, r).next == ServiceAfter(env, history, q).next
        ensures ServiceAfter(env, history, r).db == ServiceAfter(env, history, q).db
      {
        hide IsRun, Keeps, AllBacked, ServiceAfter, AllWellBehaved;
        FairIsWellBehaved(want, c, states, steps);
        DatabasesAgree(c, states, steps, request, env, history, r, q);
      }
    } else {
      hide IsRun, Keeps, AllBacked, ServiceAfter, ServicesDiffer, Disagrees, TellsFirst;
      var states, steps, k1, k2 := Unfair(want);
      var history, r, q := FirstRequestsDiffer(states, steps, k1, k2, request, env);
      assert !DatabasesAlike(want, request, env);
    }
  }
}
