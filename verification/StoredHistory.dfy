/** The operations that memory and storage stand for are exactly what the calls recorded since the last
    deletion that covered them. */
module StoredHistory {
  import opened Quorum
  import opened Messages
  import opened Operations
  import opened MemStorage
  import opened OperationKeys
  import opened PersistentOperation
  import H = History

  /** Memory deletes up to a sequence, storage below it. */
  datatype Side = Memory | Storage

  function OpsAfter(side: Side, n: nat, calls: seq<Call>): map<OpKey, Op>
    requires n > 0
  {
    if side.Memory? then MemoryAfter(n, calls) else TrackedAfter(n, calls)
  }

  predicate Shows(ops: map<OpKey, Op>, k: OpKey, x: H.Facet) { k in ops && H.Has(ops[k], x) }

  /** What a call tells of k; ops are the operations before it. */
  predicate Brings(n: nat, ops: map<OpKey, Op>, call: Call, k: OpKey, x: H.Facet)
    requires n > 0
  {
    && !call.Delete? && call.k == k
    && match x
       case Held => call.Construct? || call.RecordMsg? || (call.RecordRequest? && call.isRequest)
       case Requested => call.RecordRequest? && call.isRequest
       case Proposed => call.RecordMsg? && call.e.msg.PrePrepare?
       case PreparedBy(u) => call.RecordMsg? && call.e.msg.Prepare? && call.e.sender == u
       case CommittedBy(u) => call.RecordMsg? && call.e.msg.Commit? && call.e.sender == u
       case Locked =>
         && call.Advance? && call.next == CommitStage && Shows(ops, k, H.Requested) && Shows(ops, k, H.Proposed)
         && |ops[k].prepares| >= 2 * FaultBound(n) + 1
       case Handed =>
         && call.Advance? && call.next == ExecuteStage && Shows(ops, k, H.Locked)
         && |ops[k].commits| >= 2 * FaultBound(n) + 1
  }

  predicate Drops(side: Side, call: Call, k: OpKey)
  {
    call.Delete? && if side.Memory? then k.sequence <= call.sequence else k.sequence < call.sequence
  }

  lemma AdvanceShows(n: nat, ops: map<OpKey, Op>, call: Call, k: OpKey, x: H.Facet)
    requires n > 0 && call.Advance?
    ensures Shows(InMemory(n, ops, call), k, x) <==> Brings(n, ops, call, k, x) || Shows(ops, k, x)
  {
  }

  lemma RecordShows(n: nat, ops: map<OpKey, Op>, call: Call, k: OpKey, x: H.Facet)
    requires n > 0 && !call.Advance? && !call.Delete?
    ensures Shows(InMemory(n, ops, call), k, x) <==> Brings(n, ops, call, k, x) || Shows(ops, k, x)
  {
  }

  lemma CallShows(side: Side, n: nat, ops: map<OpKey, Op>, call: Call, k: OpKey, x: H.Facet)
    requires n > 0
    ensures var ops' := if side.Memory? then InMemory(n, ops, call) else Tracked(n, ops, call);
            Shows(ops', k, x) <==> Brings(n, ops, call, k, x) || (Shows(ops, k, x) && !Drops(side, call, k))
  {
    if !call.Delete? {
      if call.Advance? { AdvanceShows(n, ops, call, k, x); } else { RecordShows(n, ops, call, k, x); }
      hide Shows, Brings, InMemory;
    }
  }

  /** Some call before the j-th brought the facet, and none since dropped the operation. */
  ghost predicate Recorded(side: Side, n: nat, calls: seq<Call>, j: nat, k: OpKey, x: H.Facet)
    requires n > 0 && j <= |calls|
  {
    exists i: nat :: i < j && BringsAt(side, n, calls, i, k, x) && Kept(side, calls, i, j, k)
  }

  predicate BringsAt(side: Side, n: nat, calls: seq<Call>, i: nat, k: OpKey, x: H.Facet)
    requires n > 0 && i < |calls|
  {
    Brings(n, OpsAfter(side, n, calls[..i]), calls[i], k, x)
  }

  predicate Kept(side: Side, calls: seq<Call>, i: nat, j: nat, k: OpKey)
    requires j <= |calls|
  {
    forall l | i < l < j :: !Drops(side, calls[l], k)
  }

  lemma RecordedMore(side: Side, n: nat, calls: seq<Call>, j: nat, k: OpKey, x: H.Facet)
    requires n > 0 && j < |calls|
    ensures Recorded(side, n, calls, j + 1, k, x) <==>
            || BringsAt(side, n, calls, j, k, x)
            || (Recorded(side, n, calls, j, k, x) && !Drops(side, calls[j], k))
  {
    hide BringsAt, Drops;
    forall i: nat | i < j
      ensures Kept(side, calls, i, j + 1, k) <==> Kept(side, calls, i, j, k) && !Drops(side, calls[j], k)
    {
    }
    assert Kept(side, calls, j, j + 1, k);
    hide Kept;
  }

  lemma NextOps(side: Side, n: nat, calls: seq<Call>, j: nat)
    requires n > 0 && j < |calls|
    ensures var ops := OpsAfter(side, n, calls[..j]);
            OpsAfter(side, n, calls[..j + 1])
            == if side.Memory? then InMemory(n, ops, calls[j]) else Tracked(n, ops, calls[j])
  {
    assert calls[..j + 1][..j] == calls[..j] && calls[..j + 1][j] == calls[j];
  }

  /** After any calls, memory and storage each know of an operation exactly what was recorded about
      it since it was last deleted there. */
  lemma {:induction false} RecordedIff(side: Side, n: nat, calls: seq<Call>, j: nat, k: OpKey, x: H.Facet)
    requires n > 0 && j <= |calls|
    ensures Shows(OpsAfter(side, n, calls[..j]), k, x) <==> Recorded(side, n, calls, j, k, x)
  {
    if j > 0 {
      RecordedIff(side, n, calls, j - 1, k, x);
      NextOps(side, n, calls, j - 1);
      RecordedMore(side, n, calls, j - 1, k, x);
      CallShows(side, n, OpsAfter(side, n, calls[..j - 1]), calls[j - 1], k, x);
      hide OpsAfter, Recorded, Shows, Brings, Drops;
    }
  }

  function VoteFacet(t: nat, u: Uuid): H.Facet { if t == PREPARE_TYPE then H.PreparedBy(u) else H.CommittedBy(u) }

  lemma VoteHeld(c: Codec, m: Entries, ops: map<OpKey, Op>, k: OpKey, t: nat, u: Uuid)
    requires Refines(c, m, ops) && WellKeyed(c.hashLength, k) && (t == PREPARE_TYPE || t == COMMIT_TYPE)
    ensures VoteKey(c, k, t, u) in m <==> Shows(ops, k, VoteFacet(t, u))
  {
    hide ItemKey, Owned;
    assert k in ops ==> Complete(c, m, k, ops[k]);
    hide Refines, WellKeyed;
    if VoteKey(c, k, t, u) in m { OwnedItem(c, m, ops, k, VoteItem(t, u)); }
  }

  /** A prepare or commit of u is in storage if and only if it was recorded and its operation not
      deleted since. */
  lemma StoredVoteIff(c: Codec, n: nat, calls: seq<Call>, k: OpKey, t: nat, u: Uuid)
    requires n > 0 && Distinct(c.names) && AllWellFormed(c, n, calls) && WellKeyed(c.hashLength, k)
    requires t == PREPARE_TYPE || t == COMMIT_TYPE
    ensures VoteKey(c, k, t, u) in StorageAfter(c, n, calls)
            <==> Recorded(Storage, n, calls, |calls|, k, VoteFacet(t, u))
  {
    hide Refines, VoteKey, AllWellFormed, StorageAfter, TrackedAfter, Recorded, Shows, VoteFacet, WellKeyed;
    assert calls[..|calls|] == calls;
    AlwaysRefines(c, n, calls);
    RecordedIff(Storage, n, calls, |calls|, k, VoteFacet(t, u));
    VoteHeld(c, StorageAfter(c, n, calls), TrackedAfter(n, calls), k, t, u);
  }
}
