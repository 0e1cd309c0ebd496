/** One replica of the protocol: its state and the effect of each message handler.
    Every handler runs under one lock, so each is a single step. */
module Replica {
  import opened Quorum
  import opened Messages
  import opened Operations
  import opened Checkpoints
  import opened ViewChange

  datatype State = State(
    id: Uuid,
    view: nat,
    viewIsValid: bool,
    lastViewSent: nat,
    nextIssued: nat,
    accepted: map<(nat, nat), Hash>,                 // (view, sequence) -> accepted request hash
    ops: map<OpKey, Op>,
    cps: Checkpoints,
    viewchanges: map<nat, map<Uuid, Envelope>>)      // valid viewchanges by new view and sender

  /** New state, messages broadcast, operations handed to the service. */
  datatype Effect = Effect(state: State, out: set<Msg>, posted: set<OpKey>)

  function Nothing(s: State): Effect { Effect(s, {}, {}) }

  function Initial(id: Uuid): State
  {
    State(id, 1, true, 0, 1, map[], map[], Fresh, map[])
  }

  /** maybe_advance_operation_state: do_prepared, then do_committed. */
  function MaybeAdvance(c: Config, s: State, k: OpKey): Effect
    requires c.HasPeers() && k in s.ops
  {
    var op := s.ops[k];
    var prepared := op.stage == PrepareStage && op.ReadyForCommit(c.n);
    var op1 := if prepared then op.(stage := CommitStage) else op;
    var committed := op1.stage == CommitStage && op1.ReadyForExecute(c.n);
    var op2 := if committed then op1.(stage := ExecuteStage) else op1;
    Effect(s.(ops := s.ops[k := op2]),
           if prepared then {k.CommitMsg()} else {},
           if committed then {k} else {})
  }

  /** handle_preprepare. requests are the hashes of the requests attached to the envelope. */
  function HandlePreprepare(c: Config, s: State, e: Envelope, requests: set<Hash>): Effect
    requires c.HasPeers() && e.msg.PrePrepare?
  {
    var k := OpKey(e.msg.view, e.msg.sequence, e.msg.hash);
    var slot := (k.view, k.sequence);
    if slot in s.accepted && s.accepted[slot] != k.hash then Nothing(s)
    else
      var op := Find(s.ops, k).Record(e);
      var op' := if k.hash in requests then op.(hasRequest := true) else op;
      var eff := MaybeAdvance(c, s.(ops := s.ops[k := op'], accepted := s.accepted[slot := k.hash]), k);
      eff.(out := eff.out + {k.PrepareMsg()})
  }

  /** handle_prepare and handle_commit. */
  function HandleVote(c: Config, s: State, e: Envelope): Effect
    requires c.HasPeers() && (e.msg.Prepare? || e.msg.Commit?)
  {
    var k := OpKey(e.msg.view, e.msg.sequence, e.msg.hash);
    MaybeAdvance(c, s.(ops := s.ops[k := Find(s.ops, k).Record(e)]), k)
  }

  /** initiate_viewchange; vc is the message make_viewchange would produce. */
  function InitiateViewchange(s: State, w: nat, vc: Msg): Effect
  {
    if w > s.lastViewSent then Effect(s.(viewIsValid := false, lastViewSent := w), {vc}, {}) else Nothing(s)
  }

  /** save_all_requests: keep attached requests whose hash a proof names. */
  function SaveRequests(ops: map<OpKey, Op>, proofs: seq<Proof>, requests: set<Hash>): map<OpKey, Op>
    decreases |proofs|
  {
    if proofs == [] then ops
    else
      var pp := proofs[0].prePrepare.msg;
      var ops' := if pp.PrePrepare? && pp.hash in requests
                  then var k := OpKey(pp.view, pp.sequence, pp.hash); ops[k := Find(ops, k).(hasRequest := true)]
                  else ops;
      SaveRequests(ops', proofs[1..], requests)
  }

  function ViewchangesFor(s: State, w: nat): map<Uuid, Envelope>
  {
    if w in s.viewchanges then s.viewchanges[w] else map[]
  }

  /** The state of handle_viewchange after it has saved a valid viewchange message.
      A sender's first viewchange for a view is the one that is kept. */
  function SaveViewchange(c: Config, s: State, e: Envelope, requests: set<Hash>): State
    requires c.HasPeers() && e.msg.ViewChange?
  {
    s.(ops := SaveRequests(s.ops, e.msg.proofs, requests),
       viewchanges := s.viewchanges[e.msg.view := AddClaim(ViewchangesFor(s, e.msg.view), e)],
       cps := RecordClaims(c.n, s.cps, e.msg.checkpoints))
  }

  predicate JoinsViewchange(c: Config, s: State, w: nat)
    requires c.HasPeers()
  {
    s.viewIsValid && |ViewchangesFor(s, w)| == HonestMember(c.n) && w > s.lastViewSent
  }

  /** The views this replica would lead and has exactly 2f+1 viewchanges for. */
  function Candidates(c: Config, s: State): set<nat>
    requires c.HasPeers()
  {
    set w | w in s.viewchanges && c.Primary(w) == s.id && w > s.view && |s.viewchanges[w]| == HonestMajority(c.n)
  }

  /** The NEWVIEW that handle_viewchange sends after a viewchange for view w: it is for the
      least candidate view but is built from the viewchanges for w. The pre-prepares inside it
      are signed envelopes of their own. */
  function NewviewOut(c: Config, s: State, w: nat): set<Msg>
    requires c.HasPeers()
  {
    if Candidates(c, s) == {} then {}
    else
      var selected, vcs := MinOf(Candidates(c, s)), ViewchangesFor(s, w);
      {BuildNewview(c, s.id, selected, vcs)} + set m | m in NewPrePrepares(c, selected, vcs)
  }

  ghost function HandleViewchange(c: Config, s: State, e: Envelope, requests: set<Hash>, vc: Msg): Effect
    requires c.HasPeers()
  {
    if !ValidViewchange(c, s.view, e) then Nothing(s)
    else
      var s1 := SaveViewchange(c, s, e, requests);
      var eff := if JoinsViewchange(c, s1, e.msg.view) then InitiateViewchange(s1, e.msg.view, vc) else Nothing(s1);
      eff.(out := eff.out + NewviewOut(c, eff.state, e.msg.view))
  }

  /** Move to the new view: what handle_newview does before it processes the pre-prepares. */
  function EnterView(c: Config, s: State, nv: Msg): State
    requires c.HasPeers() && nv.NewView? && |nv.viewchanges| > 0 && nv.viewchanges[0].msg.ViewChange?
  {
    var vc := nv.viewchanges[0].msg;
    s.(cps := RecordClaims(c.n, s.cps, vc.checkpoints), nextIssued := vc.base + 1, view := nv.view, viewIsValid := true)
  }

  function HandlePreprepares(c: Config, s: State, es: seq<Envelope>, requests: set<Hash>): Effect
    requires c.HasPeers() && forall e | e in es :: e.msg.PrePrepare?
    decreases |es|
  {
    if es == [] then Nothing(s)
    else
      var first := HandlePreprepare(c, s, es[0], requests);
      var rest := HandlePreprepares(c, first.state.(nextIssued := es[0].msg.sequence + 1), es[1..], requests);
      Effect(rest.state, first.out + rest.out, first.posted + rest.posted)
  }

  ghost function HandleNewview(c: Config, s: State, e: Envelope, requests: set<Hash>): Effect
    requires c.HasPeers()
  {
    if !ValidNewview(c, s.view, e) then Nothing(s)
    else HandlePreprepares(c, EnterView(c, s, e.msg), e.msg.preprepares, requests)
  }

  /** handle_message with its preliminary filter; checkpoint claims have their own handler,
      which does not ask whether the sender is a peer. */
  ghost function HandleMessage(c: Config, s: State, e: Envelope, requests: set<Hash>, vc: Msg): Effect
    requires c.HasPeers()
  {
    if e.msg.CheckpointMsg? then Nothing(s.(cps := RecordClaim(c.n, s.cps, e)))
    else if !c.IsPeer(e.sender) then Nothing(s)
    else
      match e.msg
      case PrePrepare(v, _, _) => if s.viewIsValid && v == s.view then HandlePreprepare(c, s, e, requests)
        else Nothing(s)
      case Prepare(v, _, _) => if s.viewIsValid && v == s.view then HandleVote(c, s, e) else Nothing(s)
      case Commit(v, _, _) => if s.viewIsValid && v == s.view then HandleVote(c, s, e) else Nothing(s)
      case ViewChange(_, _, _, _) => HandleViewchange(c, s, e, requests, vc)
      case NewView(_, _, _) => HandleNewview(c, s, e, requests)
  }

  /** The part of handle_request that assigns the next sequence number. Only the primary does. */
  function HandleRequest(c: Config, s: State, h: Hash): Effect
    requires c.HasPeers()
  {
    if s.id != c.Primary(s.view) then Nothing(s)
    else
      var k := OpKey(s.view, s.nextIssued, h);
      Effect(s.(nextIssued := s.nextIssued + 1, ops := s.ops[k := Find(s.ops, k).(hasRequest := true)]),
             {k.PrePrepareMsg()}, {})
  }

  /** The execute handler at a checkpoint sequence: announce it, then delete old operations. */
  function HandleExecuted(s: State, cp: Checkpoint): Effect
  {
    if cp.sequence <= s.cps.local.sequence then Nothing(s)
    else
      var cps := LocalReached(s.cps, cp);
      Effect(s.(cps := cps, ops := DeleteUntil(s.ops, cps.SafeBound())), {CheckpointMsg(cp)}, {})
  }
}
