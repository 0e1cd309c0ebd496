/** Which snapshot the execution service holds: the last one that a saved checkpoint or a transfer made. */
module Snapshots {
  import opened Messages
  import opened Service

  /** The checkpoint that the last SaveAt named. */
  function LastSaveAt<Db>(calls: seq<Call<Db>>): nat
  {
    if calls == [] then 0
    else
      var last := calls[|calls| - 1];
      if last.SaveAt? then last.k else LastSaveAt(calls[..|calls| - 1])
  }

  /** The last call is a transfer that replaces the database. */
  predicate Replaced<Db>(env: Env<Db>, calls: seq<Call<Db>>)
  {
    && calls != []
    && var last := calls[|calls| - 1]; last.Transfer? && last.loads && After(env, calls[..|calls| - 1]).next <= last.k
  }

  /** The last call makes the service execute sequence k. */
  predicate Executes<Db>(env: Env<Db>, calls: seq<Call<Db>>, k: nat)
  {
    && calls != []
    && (if Replaced(env, calls) then calls[|calls| - 1].k < k else After(env, calls[..|calls| - 1]).next <= k)
    && k < After(env, calls).next
  }

  /** The checkpoint of the snapshot that the last call made, if it made one. */
  function SavedBy<Db>(env: Env<Db>, calls: seq<Call<Db>>): Option<nat>
  {
    if calls == [] then None
    else
      var due := LastSaveAt(calls[..|calls| - 1]);
      if Executes(env, calls, due) && env.saves(due) then Some(due)
      else if Replaced(env, calls) then Some(calls[|calls| - 1].k)
      else None
  }

  function Newest<Db>(env: Env<Db>, calls: seq<Call<Db>>): Option<nat>
  {
    if calls == [] then None
    else if SavedBy(env, calls).Some? then SavedBy(env, calls)
    else Newest(env, calls[..|calls| - 1])
  }

  /** The service has a snapshot of checkpoint n, or has none. */
  ghost predicate Holds<Db>(env: Env<Db>, log: nat -> Request, s: State<Db>, n: Option<nat>)
  {
    if n.None? then s.snapshot.None? && s.lastCheckpoint == 0
    else s.snapshot == Some(Fold(env, log, n.value)) && s.lastCheckpoint == n.value
  }

  lemma {:induction false} ProcessSaves<Db>(env: Env<Db>, log: nat -> Request, s: State<Db>, n: Option<nat>)
    requires IsPrefix(env, log, s) && Holds(env, log, s, n)
    ensures var t := Process(env, s); var due := s.nextCheckpoint;
            && t.nextCheckpoint == due && t.next >= s.next
            && Holds(env, log, t, if s.next <= due < t.next && env.saves(due) then Some(due) else n)
    decreases |s.backlog|
  {
    if s.next in s.backlog {
      ProcessTurn(env, s);
      ExecuteNextIsPrefix(env, log, s);
      ExecuteSaves(env, log, s, n);
      hide IsPrefix, ExecuteNext, Process, Holds;
      var due := s.nextCheckpoint;
      ProcessSaves(env, log, ExecuteNext(env, s), if s.next == due && env.saves(due) then Some(due) else n);
    }
  }

  lemma ExecuteSaves<Db>(env: Env<Db>, log: nat -> Request, s: State<Db>, n: Option<nat>)
    requires IsPrefix(env, log, s) && Holds(env, log, s, n) && s.next in s.backlog
    ensures var t := ExecuteNext(env, s); var due := s.nextCheckpoint;
            t.nextCheckpoint == due && Holds(env, log, t, if s.next == due && env.saves(due) then Some(due) else n)
  {
    ExecuteNextIsPrefix(env, log, s);
  }

  /** What a call leaves, given what was held and due before it. */
  lemma ApplySaves<Db>(env: Env<Db>, log: nat -> Request, s: State<Db>, call: Call<Db>, n: Option<nat>)
    requires IsPrefix(env, log, s) && Holds(env, log, s, n) && call.Apply? && Sound(env, log, call)
    ensures var t := Perform(env, s, call); var due := s.nextCheckpoint;
            && t.nextCheckpoint == due
            && Holds(env, log, t, if s.next <= due < t.next && env.saves(due) then Some(due) else n)
  {
    hide Process, IsPrefix, Holds;
    if call.k !in s.backlog && call.stored {
      var s1 := s.(backlog := s.backlog[call.k := call.op.body], awaiting := s.awaiting[call.k := call.op]);
      AppliedIsPrefix(env, log, s, call);
      SameSnapshot(env, log, s, s1, n);
      ProcessSaves(env, log, s1, n);
    }
  }

  lemma TransferSaves<Db>(env: Env<Db>, log: nat -> Request, s: State<Db>, call: Call<Db>)
    requires IsPrefix(env, log, s) && call.Transfer? && Sound(env, log, call) && call.loads && s.next <= call.k
    ensures var t := Perform(env, s, call); var due := s.nextCheckpoint;
            && t.nextCheckpoint == due
            && Holds(env, log, t, if call.k < due < t.next && env.saves(due) then Some(due) else Some(call.k))
  {
    hide Process, IsPrefix, Holds;
    LoadedIsPrefix(env, log, s, call);
    ProcessSaves(env, log, Loaded(s, call.k, call.data), Some(call.k));
  }

  lemma PerformSaves<Db>(env: Env<Db>, log: nat -> Request, calls: seq<Call<Db>>, n: Option<nat>)
    requires calls != [] && AllSound(env, log, calls)
    requires var s := After(env, calls[..|calls| - 1]);
             Holds(env, log, s, n) && s.nextCheckpoint == LastSaveAt(calls[..|calls| - 1])
    ensures var t := After(env, calls);
            && t.nextCheckpoint == LastSaveAt(calls)
            && Holds(env, log, t, if SavedBy(env, calls).Some? then SavedBy(env, calls) else n)
  {
    var before, last := calls[..|calls| - 1], calls[|calls| - 1];
    var s := After(env, before);
    AlwaysAPrefix(env, log, before);
    assert After(env, calls) == Perform(env, s, last) && Sound(env, log, last);
    hide IsPrefix, Settled, Holds, AllSound, ApplyOp, Sound, Process;
    if last.Apply? {
      ApplySaves(env, log, s, last, n);
    } else if Replaced(env, calls) {
      TransferSaves(env, log, s, last);
    } else if last.SaveAt? {
      SameSnapshot(env, log, s, s.(nextCheckpoint := last.k), n);
    }
  }

  lemma SameSnapshot<Db>(env: Env<Db>, log: nat -> Request, s: State<Db>, t: State<Db>, n: Option<nat>)
    requires Holds(env, log, s, n) && t.snapshot == s.snapshot && t.lastCheckpoint == s.lastCheckpoint
    ensures Holds(env, log, t, n)
  {
  }

  lemma AppliedIsPrefix<Db>(env: Env<Db>, log: nat -> Request, s: State<Db>, call: Call<Db>)
    requires IsPrefix(env, log, s) && call.Apply? && Sound(env, log, call)
    ensures IsPrefix(env, log, s.(backlog := s.backlog[call.k := call.op.body],
                                  awaiting := s.awaiting[call.k := call.op]))
  {
  }

  lemma LoadedIsPrefix<Db>(env: Env<Db>, log: nat -> Request, s: State<Db>, call: Call<Db>)
    requires IsPrefix(env, log, s) && call.Transfer? && Sound(env, log, call) && s.next <= call.k
    ensures IsPrefix(env, log, Loaded(s, call.k, call.data))
    ensures Holds(env, log, Loaded(s, call.k, call.data), Some(call.k))
  {
  }

  /** For every history: the service holds a snapshot of the last checkpoint that was due when it was
      executed and could be saved, or of the last transfer, whichever was later; and it is the fold of
      the log up to there. It holds none exactly if there was neither. */
  lemma {:induction false} SnapshotIsNewest<Db>(env: Env<Db>, log: nat -> Request, calls: seq<Call<Db>>)
    requires AllSound(env, log, calls)
    ensures Holds(env, log, After(env, calls), Newest(env, calls))
    ensures After(env, calls).nextCheckpoint == LastSaveAt(calls)
    decreases |calls|
  {
    hide SavedBy;
    if calls != [] {
      SnapshotIsNewest(env, log, calls[..|calls| - 1]);
      PerformSaves(env, log, calls, Newest(env, calls[..|calls| - 1]));
    }
  }

  /** Call j makes no snapshot. */
  predicate MakesNone<Db>(env: Env<Db>, calls: seq<Call<Db>>, j: nat)
    requires j < |calls|
  {
    SavedBy(env, calls[..j + 1]).None?
  }

  lemma {:induction false} NewestIs<Db>(env: Env<Db>, calls: seq<Call<Db>>, i: nat)
    requires i < |calls| && SavedBy(env, calls[..i + 1]).Some?
    requires forall j | i < j < |calls| :: MakesNone(env, calls, j)
    ensures Newest(env, calls) == SavedBy(env, calls[..i + 1])
    decreases |calls|
  {
    hide SavedBy;
    assert calls[..|calls|] == calls;
    if i + 1 < |calls| {
      var before := calls[..|calls| - 1];
      assert before[..i + 1] == calls[..i + 1];
      forall j | i < j < |before| ensures MakesNone(env, before, j) {
        assert before[..j + 1] == calls[..j + 1] && MakesNone(env, calls, j);
      }
      NewestIs(env, before, i);
      assert MakesNone(env, calls, |calls| - 1);
    }
  }

  /** A sequence that is executed while it is the checkpoint that was last asked for, and that can be
      saved, is served from then on until another snapshot is made; so is a transferred state. */
  lemma SavedIsServed<Db>(env: Env<Db>, log: nat -> Request, calls: seq<Call<Db>>, i: nat, k: nat)
    requires AllSound(env, log, calls) && i < |calls|
    requires || (Executes(env, calls[..i + 1], k) && LastSaveAt(calls[..i]) == k && env.saves(k))
             || (&& Replaced(env, calls[..i + 1]) && calls[i].k == k
                 && !(Executes(env, calls[..i + 1], LastSaveAt(calls[..i])) && env.saves(LastSaveAt(calls[..i]))))
    requires forall j | i < j < |calls| :: MakesNone(env, calls, j)
    ensures var s := After(env, calls); s.lastCheckpoint == k && s.snapshot == Some(Fold(env, log, k))
  {
    assert calls[..i + 1][..i] == calls[..i] && calls[..i + 1][i] == calls[i];
    assert SavedBy(env, calls[..i + 1]) == Some(k);
    hide SavedBy, Executes, Replaced;
    NewestIs(env, calls, i);
    SnapshotIsNewest(env, log, calls);
  }
}
