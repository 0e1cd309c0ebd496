/** Making and checking VIEWCHANGE and NEWVIEW messages. */
module ViewChange {
  import opened Quorum
  import opened Messages
  import opened Operations
  import opened Checkpoints

  // ---- VIEWCHANGE ----

  /** The peers that claim cp in a list of envelopes. */
  ghost function Attesters(c: Config, es: seq<Envelope>, cp: Checkpoint): set<Uuid>
  {
    set u | u in Peers(c.n) && Envelope(u, CheckpointMsg(cp)) in es
  }

  /** Enough peers claim cp for it to be believed. */
  ghost predicate Attested(c: Config, es: seq<Envelope>, cp: Checkpoint)
    requires c.HasPeers()
  {
    |Attesters(c, es, cp)| >= HonestMember(c.n)
  }

  /** The base of a viewchange is the lowest attested checkpoint it carries, or 0 if it carries none. */
  ghost predicate ValidBase(c: Config, base: nat, es: seq<Envelope>)
    requires c.HasPeers()
  {
    if exists cp :: Attested(c, es, cp)
    then (exists cp :: Attested(c, es, cp) && cp.sequence == base)
         && (forall cp | Attested(c, es, cp) :: base <= cp.sequence)
    else base == 0
  }

  /** A pre-prepare above the base and matching prepares from 2f+1 peers. */
  ghost predicate ValidProof(c: Config, base: nat, p: Proof)
    requires c.HasPeers()
  {
    && c.IsPeer(p.prePrepare.sender)
    && p.prePrepare.msg.PrePrepare? && p.prePrepare.msg.sequence > base
    && (forall e | e in p.prepares :: c.IsPeer(e.sender) && e.msg == ProofKey(p).PrepareMsg())
    && |ProofSenders(p)| >= HonestMajority(c.n)
  }

  function ProofSenders(p: Proof): set<Uuid>
  {
    set e | e in p.prepares :: e.sender
  }

  function ProofKey(p: Proof): OpKey
    requires p.prePrepare.msg.PrePrepare?
  {
    OpKey(p.prePrepare.msg.view, p.prePrepare.msg.sequence, p.prePrepare.msg.hash)
  }

  /** is_valid_viewchange_message without the comparison with the checker's own view. */
  ghost predicate WellFormedViewchange(c: Config, e: Envelope)
    requires c.HasPeers()
  {
    && c.IsPeer(e.sender) && e.msg.ViewChange?
    && ValidBase(c, e.msg.base, e.msg.checkpoints)
    && forall p | p in e.msg.proofs :: ValidProof(c, e.msg.base, p)
  }

  ghost predicate ValidViewchange(c: Config, view: nat, e: Envelope)
    requires c.HasPeers()
  {
    WellFormedViewchange(c, e) && e.msg.view > view
  }

  /** p proves that op k prepared. */
  ghost predicate ProofOf(k: OpKey, op: Op, p: Proof)
  {
    && op.prePrepare == Some(p.prePrepare)
    && |p.prepares| == |op.prepares|
    && (forall e | e in p.prepares :: e in op.prepares.Values)
    && (forall u | u in op.prepares :: op.prepares[u] in p.prepares)
  }

  /** make_viewchange: what initiate_viewchange may broadcast. The order of the checkpoint
      claims is that of a hash table; the proofs are in sequence order. */
  ghost predicate ViewchangeFrom(m: Checkpoints, ops: map<OpKey, Op>, w: nat, vc: Msg)
  {
    && vc.ViewChange? && vc.view == w && vc.base == m.stable.sequence
    && |vc.checkpoints| == |m.stableProof|
    && (forall e | e in vc.checkpoints :: e in m.stableProof.Values)
    && (forall u | u in m.stableProof :: m.stableProof[u] in vc.checkpoints)
    && exists latest: seq<OpKey> :: ProofsOf(ops, vc.base, latest, vc.proofs)
  }

  /** proofs are those of the listed operations, the latest prepared ones, one for each sequence. */
  ghost predicate ProofsOf(ops: map<OpKey, Op>, base: nat, latest: seq<OpKey>, proofs: seq<Proof>)
  {
    && |latest| == |proofs|
    && (forall i | 0 <= i < |latest| ::
          LatestPrepared(ops, base, latest[i]) && ProofOf(latest[i], ops[latest[i]], proofs[i]))
    && (forall i, j | 0 <= i < j < |latest| :: latest[i].sequence < latest[j].sequence)
    && (forall k | k in ops && ops[k].IsPrepared() && k.sequence > base :: Lists(latest, k.sequence))
  }

  ghost predicate Lists(latest: seq<OpKey>, s: nat)
  {
    exists i :: 0 <= i < |latest| && latest[i].sequence == s
  }

  // ---- NEWVIEW ----

  /** The highest base among the viewchanges of senders below u. */
  function MaxBase(vcs: map<Uuid, Envelope>, u: nat): nat
  {
    if u == 0 then 0
    else
      var b := MaxBase(vcs, u - 1);
      if u - 1 in vcs && vcs[u - 1].msg.ViewChange? && vcs[u - 1].msg.base > b then vcs[u - 1].msg.base else b
  }

  /** Request hashes by sequence: a proof above the base counts unless its sequence is taken. */
  function AddProofs(chosen: map<nat, Hash>, base: nat, proofs: seq<Proof>): map<nat, Hash>
    decreases |proofs|
  {
    if proofs == [] then chosen
    else AddProofs(AddProof(chosen, base, proofs[0]), base, proofs[1..])
  }

  function AddProof(chosen: map<nat, Hash>, base: nat, p: Proof): map<nat, Hash>
  {
    if !p.prePrepare.msg.PrePrepare? || p.prePrepare.msg.sequence in chosen || p.prePrepare.msg.sequence <= base
    then chosen
    else chosen[p.prePrepare.msg.sequence := p.prePrepare.msg.hash]
  }

  /** The first certificate for each sequence, senders in uuid order, senders below u only. */
  function Chosen(vcs: map<Uuid, Envelope>, base: nat, u: nat): map<nat, Hash>
  {
    if u == 0 then map[]
    else
      var m := Chosen(vcs, base, u - 1);
      if u - 1 in vcs && vcs[u - 1].msg.ViewChange? then AddProofs(m, base, vcs[u - 1].msg.proofs) else m
  }

  /** The pre-prepares of a new view: base+1 up to the last certified sequence, the null
      request where no certificate was found. */
  function NewPrePrepares(c: Config, w: nat, vcs: map<Uuid, Envelope>): seq<Msg>
  {
    var base := MaxBase(vcs, c.n);
    var chosen := Chosen(vcs, base, c.n);
    Filled(c, w, base, chosen, MaxOf(chosen.Keys))
  }

  function Filled(c: Config, w: nat, base: nat, chosen: map<nat, Hash>, last: nat): seq<Msg>
  {
    if last <= base then []
    else seq(last - base, i requires 0 <= i < last - base =>
               var s := base + 1 + i;
               PrePrepare(w, s, if s in chosen then chosen[s] else c.nullHash))
  }

  /** The viewchanges of senders below u in uuid order. */
  function InOrder(vcs: map<Uuid, Envelope>, u: nat): seq<Envelope>
  {
    if u == 0 then []
    else if u - 1 in vcs then InOrder(vcs, u - 1) + [vcs[u - 1]]
    else InOrder(vcs, u - 1)
  }

  function Wrap(id: Uuid, ms: seq<Msg>): seq<Envelope>
  {
    seq(|ms|, i requires 0 <= i < |ms| => Envelope(id, ms[i]))
  }

  function BuildNewview(c: Config, id: Uuid, w: nat, vcs: map<Uuid, Envelope>): Msg
  {
    NewView(w, InOrder(vcs, c.n), Wrap(id, NewPrePrepares(c, w, vcs)))
  }

  /** The list of viewchanges as a map; a later envelope replaces an earlier one of its sender. */
  function BySender(es: seq<Envelope>): map<Uuid, Envelope>
  {
    if es == [] then map[] else BySender(es[..|es| - 1])[es[|es| - 1].sender := es[|es| - 1]]
  }

  /** is_valid_newview_message at a replica in the given view. */
  ghost predicate ValidNewview(c: Config, view: nat, e: Envelope)
    requires c.HasPeers()
  {
    && e.msg.NewView?
    && e.sender == c.Primary(e.msg.view)
    && |e.msg.viewchanges| >= HonestMajority(c.n)
    && (forall x | x in e.msg.viewchanges :: ValidViewchange(c, view, x) && x.msg.view == e.msg.view)
    && (forall i, j | 0 <= i < j < |e.msg.viewchanges| :: e.msg.viewchanges[i].sender != e.msg.viewchanges[j].sender)
    && e.msg.preprepares == Wrap(e.sender, NewPrePrepares(c, e.msg.view, BySender(e.msg.viewchanges)))
  }
}
