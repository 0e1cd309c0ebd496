/** One operation record: the votes seen for (view, sequence, request hash) and the
    stage it has reached. */
module Operations {
  import opened Quorum
  import opened Messages

  datatype Stage = PrepareStage | CommitStage | ExecuteStage

  datatype OpKey = OpKey(view: nat, sequence: nat, hash: Hash) {
    function PrePrepareMsg(): Msg { PrePrepare(view, sequence, hash) }
    function PrepareMsg(): Msg { Prepare(view, sequence, hash) }
    function CommitMsg(): Msg { Commit(view, sequence, hash) }
  }

  /** prepares holds the envelope last seen from each sender, commits only the senders. */
  datatype Op = Op(stage: Stage, prePrepare: Option<Envelope>, prepares: map<Uuid, Envelope>,
                   commits: set<Uuid>, hasRequest: bool) {

    predicate IsPrepared() { stage != PrepareStage }

    predicate IsPreprepared() { prePrepare.Some? }

    predicate ReadyForCommit(n: nat)
      requires n > 0
    {
      hasRequest && IsPreprepared() && |prepares| >= HonestMajority(n)
    }

    predicate ReadyForExecute(n: nat)
      requires n > 0
    {
      IsPrepared() && |commits| >= HonestMajority(n)
    }

    /** record_pbft_msg: anything but the three vote messages is an error and changes nothing. */
    function Record(e: Envelope): Op {
      match e.msg
      case PrePrepare(_, _, _) => this.(prePrepare := Some(e))
      case Prepare(_, _, _) => this.(prepares := prepares[e.sender := e])
      case Commit(_, _, _) => this.(commits := commits + {e.sender})
      case _ => this
    }

    /** May the stage be set to next? */
    predicate CanAdvance(next: Stage, n: nat)
      requires n > 0
    {
      match next
      case PrepareStage => false
      case CommitStage => ReadyForCommit(n) && stage == PrepareStage
      case ExecuteStage => ReadyForExecute(n) && stage == CommitStage
    }
  }

  const NewOp: Op := Op(PrepareStage, None, map[], {}, false)

  /** The held operation for k, freshly constructed if there is none. */
  function Find(ops: map<OpKey, Op>, k: OpKey): Op
  {
    if k in ops then ops[k] else NewOp
  }

  /** delete_operations_until: forget every operation at or below the bound. */
  function DeleteUntil(ops: map<OpKey, Op>, bound: nat): map<OpKey, Op>
  {
    map k | k in ops && k.sequence > bound :: ops[k]
  }

  /** k is prepared above base, in the highest view in which its sequence is. */
  ghost predicate LatestPrepared(ops: map<OpKey, Op>, base: nat, k: OpKey)
  {
    && k in ops && ops[k].IsPrepared() && k.sequence > base
    && forall j | j in ops && ops[j].IsPrepared() && j.sequence == k.sequence :: j.view <= k.view
  }

  /** The map from sequence to operation that prepared_operations_since may return. */
  ghost predicate PreparedSince(ops: map<OpKey, Op>, base: nat, result: map<nat, OpKey>)
  {
    && (forall s | s in result :: result[s].sequence == s && LatestPrepared(ops, base, result[s]))
    && (forall k | k in ops && ops[k].IsPrepared() && k.sequence > base :: k.sequence in result)
  }
}
