/** The execution service: it is handed committed operations in any order, with duplicates and
    gaps, and must look as if it had executed a prefix of the log. */
module Service {
  import opened Messages

  /** The sender and the request hash travel in memory, the body goes through the backlog on disk. */
  datatype Request = Request(sender: Uuid, hash: Hash, body: string)

  /** What the service is built on: the effect of one request on the database, and whether
      saving the state after a given sequence succeeds. */
  datatype Env<!Db> = Env(exec: (Db, Request) -> Db, saves: nat -> bool, empty: Db)

  datatype State<Db> = State(
    next: nat,                            // next_request_sequence
    backlog: map<nat, string>,            // unstable storage
    awaiting: map<nat, Request>,          // operations_awaiting_result
    db: Db,
    snapshot: Option<Db>,
    nextCheckpoint: nat,
    lastCheckpoint: nat,
    posted: seq<nat>)                     // sequences whose execute handler was posted

  function Start<Db>(env: Env<Db>): State<Db>
  {
    State(1, map[], map[], env.empty, None, 0, 0, [])
  }

  /** Execute the backlog entry at next, if its operation is known, and move on. */
  function ExecuteNext<Db>(env: Env<Db>, s: State<Db>): State<Db>
    requires s.next in s.backlog
  {
    var s1 :=
      if s.next !in s.awaiting then s
      else
        var op := s.awaiting[s.next];
        var db := env.exec(s.db, op.(body := s.backlog[s.next]));
        var saved := s.next == s.nextCheckpoint && env.saves(s.next);
        s.(db := db, posted := s.posted + [s.next],
           snapshot := if saved then Some(db) else s.snapshot,
           lastCheckpoint := if saved then s.next else s.lastCheckpoint);
    s1.(backlog := s.backlog - {s.next}, next := s.next + 1)
  }

  /** process_awaiting_operations */
  function Process<Db>(env: Env<Db>, s: State<Db>): State<Db>
    decreases |s.backlog|
  {
    if s.next !in s.backlog then s
    else
      assert s.backlog.Keys == (s.backlog - {s.next}).Keys + {s.next};
      Process(env, ExecuteNext(env, s))
  }

  /** apply_operation; stored is false when the backlog refuses the entry for any reason but a duplicate. */
  function ApplyOp<Db>(env: Env<Db>, s: State<Db>, k: nat, op: Request, stored: bool): State<Db>
  {
    if k in s.backlog || !stored then s
    else Process(env, s.(backlog := s.backlog[k := op.body], awaiting := s.awaiting[k := op]))
  }

  /** What set_service_state leaves before it processes the backlog. */
  function Loaded<Db>(s: State<Db>, k: nat, data: Db): State<Db>
  {
    s.(db := data, snapshot := Some(data), lastCheckpoint := k, next := k + 1,
       backlog := map j | j in s.backlog && !(s.next <= j <= k) :: s.backlog[j])
  }

  /** set_service_state; loads is false when the database refuses the data. */
  function SetState<Db>(env: Env<Db>, s: State<Db>, k: nat, data: Db, loads: bool): State<Db>
  {
    if s.next > k || !loads then s
    else
      Process(env, Loaded(s, k, data))
  }

  datatype Call<Db> =
    | Apply(k: nat, op: Request, stored: bool)
    | Transfer(k: nat, data: Db, loads: bool)
    | SaveAt(k: nat)

  function Perform<Db>(env: Env<Db>, s: State<Db>, call: Call<Db>): State<Db>
  {
    match call
    case Apply(k, op, stored) => ApplyOp(env, s, k, op, stored)
    case Transfer(k, data, loads) => SetState(env, s, k, data, loads)
    case SaveAt(k) => s.(nextCheckpoint := k)
  }

  function After<Db>(env: Env<Db>, calls: seq<Call<Db>>): State<Db>
  {
    if calls == [] then Start(env) else Perform(env, After(env, calls[..|calls| - 1]), calls[|calls| - 1])
  }

  // ---- The reference: folding a log ----

  ghost function Fold<Db>(env: Env<Db>, log: nat -> Request, n: nat): Db
  {
    if n == 0 then env.empty else env.exec(Fold(env, log, n - 1), log(n))
  }

  /** What the caller guarantees: one request for each sequence, transferred states are folds. */
  ghost predicate Sound<Db>(env: Env<Db>, log: nat -> Request, call: Call<Db>)
  {
    match call
    case Apply(k, op, _) => op == log(k)
    case Transfer(k, data, _) => data == Fold(env, log, k)
    case SaveAt(_) => true
  }

  /** The call accounts for sequence k: it delivers it, or a transferred state includes it. */
  predicate Accounts<Db>(call: Call<Db>, k: nat)
  {
    match call
    case Apply(j, _, stored) => j == k && stored
    case Transfer(j, _, loads) => k <= j && loads
    case SaveAt(_) => false
  }

  ghost predicate Covers<Db>(calls: seq<Call<Db>>, k: nat)
  {
    exists i :: 0 <= i < |calls| && Accounts(calls[i], k)
  }

  ghost predicate AllSound<Db>(env: Env<Db>, log: nat -> Request, calls: seq<Call<Db>>)
  {
    forall i | 0 <= i < |calls| :: Sound(env, log, calls[i])
  }

  ghost predicate Stored<Db>(log: nat -> Request, s: State<Db>)
  {
    && s.backlog.Keys <= s.awaiting.Keys
    && (forall k | k in s.backlog :: s.backlog[k] == log(k).body)
    && (forall k | k in s.awaiting :: s.awaiting[k] == log(k))
  }

  ghost predicate Increasing(ks: seq<nat>, bound: nat)
  {
    && (forall i | 0 <= i < |ks| :: 0 < ks[i] < bound)
    && (forall i, j | 0 <= i < j < |ks| :: ks[i] < ks[j])
  }

  /** Holds between calls and inside process_awaiting_operations. */
  ghost predicate IsPrefix<Db>(env: Env<Db>, log: nat -> Request, s: State<Db>)
  {
    && s.next > 0 && Stored(log, s)
    && s.db == Fold(env, log, s.next - 1)
    && (s.snapshot.Some? ==> s.lastCheckpoint < s.next && s.snapshot.value == Fold(env, log, s.lastCheckpoint))
    && Increasing(s.posted, s.next)
  }

  /** One turn of the loop of process_awaiting_operations. */
  lemma ExecuteNextIsPrefix<Db>(env: Env<Db>, log: nat -> Request, s: State<Db>)
    requires IsPrefix(env, log, s) && s.next in s.backlog
    ensures IsPrefix(env, log, ExecuteNext(env, s))
    ensures ExecuteNext(env, s).posted == s.posted + [s.next]
  {
    var t := ExecuteNext(env, s);
    var op := s.awaiting[s.next];
    assert op.(body := s.backlog[s.next]) == log(s.next);
    assert Fold(env, log, s.next) == env.exec(Fold(env, log, s.next - 1), log(s.next));
    assert Stored(log, t);
    assert Increasing(t.posted, t.next);
  }

  lemma ProcessTurn<Db>(env: Env<Db>, s: State<Db>)
    requires s.next in s.backlog
    ensures Process(env, s) == Process(env, ExecuteNext(env, s))
    ensures |ExecuteNext(env, s).backlog| < |s.backlog|
    ensures ExecuteNext(env, s).next == s.next + 1 && ExecuteNext(env, s).backlog == s.backlog - {s.next}
  {
    assert s.backlog.Keys == (s.backlog - {s.next}).Keys + {s.next};
  }

  lemma {:induction false} ProcessIsPrefix<Db>(env: Env<Db>, log: nat -> Request, s: State<Db>)
    requires IsPrefix(env, log, s)
    ensures IsPrefix(env, log, Process(env, s))
    ensures var t := Process(env, s);
            t.next >= s.next && t.posted == s.posted + Range(s.next, t.next)
    decreases |s.backlog|
  {
    hide IsPrefix, ExecuteNext;
    if s.next in s.backlog {
      ProcessTurn(env, s);
      ExecuteNextIsPrefix(env, log, s);
      hide Process;
      var u := ExecuteNext(env, s);
      ProcessIsPrefix(env, log, u);
      var t := Process(env, s);
      assert [s.next] + Range(u.next, t.next) == Range(s.next, t.next);
    }
  }

  /** process_awaiting_operations takes away the run of entries that starts at next, nothing else. */
  lemma {:induction false} ProcessTakesRun<Db>(env: Env<Db>, s: State<Db>)
    ensures var t := Process(env, s);
            && t.next >= s.next && t.next !in t.backlog
            && (forall k | s.next <= k < t.next :: k in s.backlog)
            && (forall k: nat :: k in t.backlog <==> k in s.backlog && !(s.next <= k < t.next))
    decreases |s.backlog|
  {
    hide ExecuteNext;
    if s.next in s.backlog {
      ProcessTurn(env, s);
      hide Process;
      var t, u := Process(env, s), ExecuteNext(env, s);
      ProcessTakesRun(env, u);
      forall k: nat | s.next <= k < t.next ensures k in s.backlog {
        assert k == s.next || k in u.backlog;
      }
    }
  }

  /** Between calls nothing is waiting that could be executed, and what is still waiting or has
      been passed is exactly what has been delivered or transferred. */
  ghost predicate Settled<Db>(calls: seq<Call<Db>>, s: State<Db>)
  {
    && s.next !in s.backlog
    && (forall k | 0 < k < s.next :: Covers(calls, k))
    && (forall k | k >= s.next :: k in s.backlog <==> Covers(calls, k))
  }

  lemma CoversMore<Db>(calls: seq<Call<Db>>, call: Call<Db>, k: nat)
    ensures Covers(calls + [call], k) <==> Covers(calls, k) || Accounts(call, k)
  {
    var more := calls + [call];
    assert more[|calls|] == call;
    if Covers(calls, k) {
      var i :| 0 <= i < |calls| && Accounts(calls[i], k);
      assert more[i] == calls[i];
    }
    if Covers(more, k) {
      var i :| 0 <= i < |more| && Accounts(more[i], k);
      assert i < |calls| ==> more[i] == calls[i];
    }
  }

  lemma ApplyStep<Db>(env: Env<Db>, log: nat -> Request, s: State<Db>, calls: seq<Call<Db>>, call: Call<Db>)
    requires IsPrefix(env, log, s) && Settled(calls, s) && Sound(env, log, call) && call.Apply?
    ensures IsPrefix(env, log, Perform(env, s, call))
    ensures Settled(calls + [call], Perform(env, s, call))
  {
    hide Covers, Process;
    forall k: nat ensures Covers(calls + [call], k) <==> Covers(calls, k) || Accounts(call, k) {
      CoversMore(calls, call, k);
    }
    if call.k !in s.backlog && call.stored {
      var s1 := s.(backlog := s.backlog[call.k := call.op.body], awaiting := s.awaiting[call.k := call.op]);
      ProcessIsPrefix(env, log, s1);
      ProcessTakesRun(env, s1);
      var t := Process(env, s1);
      forall k: nat ensures 0 < k < t.next ==> Covers(calls + [call], k) {
        assert s.next <= k < t.next ==> k in s1.backlog;
      }
      forall k: nat | k >= t.next ensures k in t.backlog <==> Covers(calls + [call], k) {
        assert k in t.backlog <==> k in s1.backlog;
      }
    }
  }

  lemma TransferStep<Db>(env: Env<Db>, log: nat -> Request, s: State<Db>, calls: seq<Call<Db>>, call: Call<Db>)
    requires IsPrefix(env, log, s) && Settled(calls, s) && Sound(env, log, call) && call.Transfer?
    ensures IsPrefix(env, log, Perform(env, s, call))
    ensures Settled(calls + [call], Perform(env, s, call))
  {
    hide Covers, Process;
    forall k: nat ensures Covers(calls + [call], k) <==> Covers(calls, k) || Accounts(call, k) {
      CoversMore(calls, call, k);
    }
    if s.next <= call.k && call.loads {
      var s1 := Loaded(s, call.k, call.data);
      ProcessIsPrefix(env, log, s1);
      hide IsPrefix;
      TransferSettles(env, s, calls, call);
    }
  }

  lemma TransferSettles<Db>(env: Env<Db>, s: State<Db>, calls: seq<Call<Db>>, call: Call<Db>)
    requires Settled(calls, s) && call.Transfer? && s.next <= call.k && call.loads
    requires forall k: nat :: Covers(calls + [call], k) <==> Covers(calls, k) || Accounts(call, k)
    ensures Settled(calls + [call], Process(env, Loaded(s, call.k, call.data)))
  {
    hide Covers, Process;
    var s1 := Loaded(s, call.k, call.data);
    ProcessTakesRun(env, s1);
    var t := Process(env, s1);
    forall k: nat | 0 < k < t.next ensures Covers(calls + [call], k) {
      assert call.k < k ==> k in s1.backlog;
    }
    forall k: nat | k >= t.next ensures k in t.backlog <==> Covers(calls + [call], k) {
      assert k in t.backlog <==> k in s1.backlog;
    }
  }

  lemma PerformStep<Db>(env: Env<Db>, log: nat -> Request, s: State<Db>, calls: seq<Call<Db>>, call: Call<Db>)
    requires IsPrefix(env, log, s) && Settled(calls, s) && Sound(env, log, call)
    ensures IsPrefix(env, log, Perform(env, s, call))
    ensures Settled(calls + [call], Perform(env, s, call))
  {
    match call
    case Apply(_, _, _) => ApplyStep(env, log, s, calls, call);
    case Transfer(_, _, _) => TransferStep(env, log, s, calls, call);
    case SaveAt(_) =>
      hide Covers;
      forall k: nat ensures Covers(calls + [call], k) <==> Covers(calls, k) { CoversMore(calls, call, k); }
  }

  /** For every order, duplication and gap pattern of deliveries mixed with state transfers: the
      database is the fold of the log up to next - 1, each entry was executed at most once and in
      order, a saved snapshot is the fold up to its checkpoint. */
  lemma {:induction false} AlwaysAPrefix<Db>(env: Env<Db>, log: nat -> Request, calls: seq<Call<Db>>)
    requires AllSound(env, log, calls)
    ensures IsPrefix(env, log, After(env, calls)) && Settled(calls, After(env, calls))
    decreases |calls|
  {
    if calls == [] {
      assert forall k: nat :: !Covers<Db>([], k);
    } else {
      var before, last := calls[..|calls| - 1], calls[|calls| - 1];
      AlwaysAPrefix(env, log, before);
      PerformStep(env, log, After(env, before), before, last);
      assert before + [last] == calls;
    }
  }

  /** next is the least positive sequence that no call accounts for. */
  lemma NextIsLeastUncovered<Db>(env: Env<Db>, log: nat -> Request, calls: seq<Call<Db>>)
    requires AllSound(env, log, calls)
    ensures var s := After(env, calls);
            s.next > 0 && !Covers(calls, s.next) && forall k | 0 < k < s.next :: Covers(calls, k)
  {
    AlwaysAPrefix(env, log, calls);
  }

  /** Two histories that account for the same sequences leave the same database, whatever the
      order, the duplicates and the mix of deliveries and transfers. */
  lemma OrderDoesNotMatter<Db>(env: Env<Db>, log: nat -> Request, calls: seq<Call<Db>>, others: seq<Call<Db>>)
    requires AllSound(env, log, calls) && AllSound(env, log, others)
    requires forall k: nat | k > 0 :: Covers(calls, k) <==> Covers(others, k)
    ensures After(env, calls).next == After(env, others).next
    ensures After(env, calls).db == After(env, others).db
  {
    AlwaysAPrefix(env, log, calls);
    AlwaysAPrefix(env, log, others);
    hide AllSound, After, Covers, Stored, Increasing;
    var a, b := After(env, calls).next, After(env, others).next;
    assert a < b ==> Covers(others, a);
    assert b < a ==> Covers(calls, b);
  }

  /** The sequences lo, lo + 1, ..., hi - 1. */
  function Range(lo: nat, hi: nat): seq<nat>
    requires lo <= hi
  {
    seq(hi - lo, i requires 0 <= i < hi - lo => lo + i)
  }

  lemma ApplyExecutesRun<Db>(env: Env<Db>, log: nat -> Request, s: State<Db>, call: Call<Db>)
    requires IsPrefix(env, log, s) && Sound(env, log, call) && !call.Transfer?
    ensures var t := Perform(env, s, call); t.next >= s.next && t.posted == s.posted + Range(s.next, t.next)
  {
    hide Process;
    if call.Apply? && call.k !in s.backlog && call.stored {
      var s1 := s.(backlog := s.backlog[call.k := call.op.body], awaiting := s.awaiting[call.k := call.op]);
      ProcessIsPrefix(env, log, s1);
    }
  }

  /** With no state transfer every sequence below next was executed, once and in order. */
  lemma {:induction false} WithoutTransferAllExecuted<Db>(env: Env<Db>, log: nat -> Request, calls: seq<Call<Db>>)
    requires AllSound(env, log, calls) && forall i | 0 <= i < |calls| :: !calls[i].Transfer?
    ensures var s := After(env, calls); s.next > 0 && s.posted == Range(1, s.next)
    decreases |calls|
  {
    hide Perform;
    if calls != [] {
      var before, last := calls[..|calls| - 1], calls[|calls| - 1];
      WithoutTransferAllExecuted(env, log, before);
      AlwaysAPrefix(env, log, before);
      ApplyExecutesRun(env, log, After(env, before), last);
      assert Range(1, After(env, before).next) + Range(After(env, before).next, After(env, calls).next)
          == Range(1, After(env, calls).next);
    }
  }

  // ---- The class ----

  datatype Outcome = Accepted | Duplicate | Refused

  class DatabaseService<Db> {
    const env: Env<Db>
    var next: nat
    var backlog: map<nat, string>
    var awaiting: map<nat, Request>
    var db: Db
    var snapshot: Option<Db>
    var nextCheckpoint: nat
    var lastCheckpoint: nat
    var posted: seq<nat>

    function Model(): State<Db>
      reads this
    {
      State(next, backlog, awaiting, db, snapshot, nextCheckpoint, lastCheckpoint, posted)
    }

    constructor (env: Env<Db>)
      ensures this.env == env && Model() == Start(env)
    {
      this.env := env;
      next, backlog, awaiting, db, snapshot := 1, map[], map[], env.empty, None;
      nextCheckpoint, lastCheckpoint, posted := 0, 0, [];
    }

    /** The body of the loop below. */
    method ExecuteOne()
      requires next in backlog
      modifies this
      ensures Model() == ExecuteNext(env, old(Model()))
    {
      var body := backlog[next];
      if next in awaiting {
        db := env.exec(db, awaiting[next].(body := body));
        if next == nextCheckpoint && env.saves(next) {
          snapshot := Some(db);
          lastCheckpoint := next;
        }
        posted := posted + [next];
      }
      backlog := backlog - {next};
      next := next + 1;
    }

    method ProcessAwaitingOperations()
      modifies this
      ensures Model() == Process(env, old(Model()))
    {
      while next in backlog
        invariant Process(env, Model()) == Process(env, old(Model()))
        decreases |Model().backlog|
      {
        hide Process, ExecuteNext;
        ProcessTurn(env, Model());
        ExecuteOne();
      }
    }

    /** The operation is on disk or already executed when the call returns, even if it must wait. */
    method ApplyOperation(k: nat, op: Request, stored: bool) returns (outcome: Outcome)
      modifies this
      ensures Model() == ApplyOp(env, old(Model()), k, op, stored)
      ensures outcome == if k in old(backlog) then Duplicate else if stored then Accepted else Refused
      ensures outcome != Refused ==> k in backlog || old(next) <= k < next
    {
      if k in backlog {
        return Duplicate;
      }
      if !stored {
        return Refused;
      }
      backlog := backlog[k := op.body];
      awaiting := awaiting[k := op];
      ProcessTakesRun(env, Model());
      ProcessAwaitingOperations();
      return Accepted;
    }

    method GetServiceState(k: nat) returns (data: Option<Db>)
      ensures data == if k == lastCheckpoint then snapshot else None
      ensures forall log | IsPrefix(env, log, Model()) :: data.Some? ==> k < next && data.value == Fold(env, log, k)
    {
      if k == lastCheckpoint {
        return snapshot;
      }
      return None;
    }

    method SetServiceState(k: nat, data: Db, loads: bool) returns (ok: bool)
      modifies this
      ensures Model() == SetState(env, old(Model()), k, data, loads)
      ensures ok == (old(next) > k || loads)
    {
      hide Process;
      if next > k {
        return true;
      }
      if !loads {
        return false;
      }
      db, snapshot := data, Some(data);
      lastCheckpoint := k;
      var i := next;
      while i <= k
        invariant next <= i <= k + 1
        invariant backlog == map j | j in old(backlog) && !(next <= j < i) :: old(backlog)[j]
        invariant Model() == old(Model()).(db := data, snapshot := Some(data), lastCheckpoint := k, backlog := backlog)
      {
        backlog := backlog - {i};
        i := i + 1;
      }
      assert backlog == map j | j in old(backlog) && !(next <= j <= k) :: old(backlog)[j];
      next := i;
      ProcessAwaitingOperations();
      return true;
    }

    method SaveServiceStateAt(k: nat)
      modifies this
      ensures Model() == Perform(env, old(Model()), SaveAt(k))
    {
      nextCheckpoint := k;
    }
  }
}
