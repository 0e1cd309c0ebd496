/** What waits in the backlog of the execution service, over every history of calls. */
module Backlog {
  import opened Service

  /** The last call takes next past k. */
  predicate Passes<Db>(env: Env<Db>, calls: seq<Call<Db>>, k: nat)
  {
    calls != [] && After(env, calls[..|calls| - 1]).next <= k < After(env, calls).next
  }

  predicate Delivers<Db>(call: Call<Db>, k: nat) { call.Apply? && call.k == k && call.stored }

  /** Whatever a call delivers waits, and whatever next passes, by execution or by a transfer, leaves. */
  lemma CallLeaves<Db>(env: Env<Db>, calls: seq<Call<Db>>, k: nat)
    requires calls != []
    ensures var s, t := After(env, calls[..|calls| - 1]), After(env, calls);
            k in t.backlog <==>
            (k in s.backlog || Delivers(calls[|calls| - 1], k)) && !Passes(env, calls, k)
  {
    var s, last := After(env, calls[..|calls| - 1]), calls[|calls| - 1];
    hide Process;
    match last
    case Apply(j, op, stored) =>
      if j !in s.backlog && stored {
        ProcessTakesRun(env, s.(backlog := s.backlog[j := op.body], awaiting := s.awaiting[j := op]));
      }
    case Transfer(j, data, loads) =>
      if s.next <= j && loads { ProcessTakesRun(env, Loaded(s, j, data)); }
    case SaveAt(_) =>
  }

  predicate PassesAt<Db>(env: Env<Db>, calls: seq<Call<Db>>, l: nat, k: nat)
    requires l < |calls|
  {
    Passes(env, calls[..l + 1], k)
  }

  ghost predicate Stays<Db>(env: Env<Db>, calls: seq<Call<Db>>, i: nat, j: nat, k: nat)
    requires j <= |calls|
  {
    forall l: nat | i <= l < j :: !PassesAt(env, calls, l, k)
  }

  /** Sequence k was delivered, and next has not passed it since. */
  ghost predicate Waits<Db>(env: Env<Db>, calls: seq<Call<Db>>, j: nat, k: nat)
    requires j <= |calls|
  {
    exists i: nat :: i < j && Delivers(calls[i], k) && Stays(env, calls, i, j, k)
  }

  lemma WaitsMore<Db>(env: Env<Db>, calls: seq<Call<Db>>, j: nat, k: nat)
    requires j < |calls|
    ensures Waits(env, calls, j + 1, k) <==>
            (Waits(env, calls, j, k) || Delivers(calls[j], k)) && !PassesAt(env, calls, j, k)
  {
    hide PassesAt, Delivers;
    forall i: nat | i <= j
      ensures Stays(env, calls, i, j + 1, k) <==> Stays(env, calls, i, j, k) && !PassesAt(env, calls, j, k)
    {
    }
    assert Stays(env, calls, j, j, k);
    hide Stays;
  }

  /** A sequence is in the backlog if and only if it was delivered and next has not passed it since. */
  lemma {:induction false} BacklogIff<Db>(env: Env<Db>, calls: seq<Call<Db>>, j: nat, k: nat)
    requires j <= |calls|
    ensures k in After(env, calls[..j]).backlog <==> Waits(env, calls, j, k)
  {
    if j > 0 {
      BacklogIff(env, calls, j - 1, k);
      assert calls[..j][..j - 1] == calls[..j - 1] && calls[..j][j - 1] == calls[j - 1];
      CallLeaves(env, calls[..j], k);
      WaitsMore(env, calls, j - 1, k);
      hide Waits, After, Passes, Delivers;
    }
  }
}
