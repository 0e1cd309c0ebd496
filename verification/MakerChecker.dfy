/** What a correct replica makes, every correct replica accepts: VIEWCHANGE and NEWVIEW. */
module MakerChecker {
  import opened Quorum
  import opened Messages
  import opened Operations
  import opened Checkpoints
  import opened ViewChange
  import opened Replica
  import opened Protocol

  // ---- VIEWCHANGE ----

  /** Only the stable checkpoint can be attested by its own proof. */
  lemma BaseMadeIsValid(c: Config, sent: set<Envelope>, m: Checkpoints, es: seq<Envelope>)
    requires c.HasPeers() && CpsOk(c, sent, m)
    requires forall e | e in es :: e in m.stableProof.Values
    requires forall u | u in m.stableProof :: m.stableProof[u] in es
    ensures ValidBase(c, m.stable.sequence, es)
  {
    assert Attesters(c, es, m.stable) == m.stableProof.Keys * Peers(c.n);
    forall cp | Attested(c, es, cp) ensures cp == m.stable {
      var u :| u in Attesters(c, es, cp);
    }
    assert m.stable != INITIAL ==> Attested(c, es, m.stable);
  }

  lemma ProofMadeIsValid(c: Config, sent: set<Envelope>, s: State, k: OpKey, base: nat, p: Proof)
    requires c.HasPeers() && OpsOk(c, sent, s) && k in s.ops && s.ops[k].IsPrepared() && k.sequence > base
    requires ProofOf(k, s.ops[k], p)
    ensures ValidProof(c, base, p) && ProofKey(p) == k
    ensures c.Correct(p.prePrepare.sender) ==> p.prePrepare in sent
    ensures forall e | e in p.prepares :: e.msg == k.PrepareMsg() && (c.Correct(e.sender) ==> e in sent)
  {
    var op := s.ops[k];
    assert OpOk(c, sent, s.id, s.view, k, op);
    hide OpsOk, OpOk;
    ProofSendersOf(k, op, p);
  }

  lemma ProofSendersOf(k: OpKey, op: Op, p: Proof)
    requires ProofOf(k, op, p) && forall u | u in op.prepares :: op.prepares[u].sender == u
    ensures ProofSenders(p) == op.prepares.Keys
  {
    forall u | u in op.prepares ensures u in ProofSenders(p) { assert op.prepares[u] in p.prepares; }
  }

  /** A VIEWCHANGE made by a correct replica is valid at every peer in a lower view. */
  lemma ViewchangeMadeIsValid(c: Config, sent: set<Envelope>, s: State, w: nat, vc: Msg)
    requires c.HasPeers() && Local(c, sent, s) && ViewchangeFrom(s.cps, s.ops, w, vc)
    ensures WellFormedViewchange(c, Envelope(s.id, vc))
    ensures forall view: nat | view < w :: ValidViewchange(c, view, Envelope(s.id, vc))
  {
    BaseMadeIsValid(c, sent, s.cps, vc.checkpoints);
    var latest: seq<OpKey> :| ProofsOf(s.ops, vc.base, latest, vc.proofs);
    forall p | p in vc.proofs ensures ValidProof(c, vc.base, p) {
      var i :| 0 <= i < |vc.proofs| && vc.proofs[i] == p;
      ProofMadeIsValid(c, sent, s, latest[i], vc.base, p);
    }
  }

  /** Everything inside it was sent by the peer it names. */
  lemma ViewchangeMadeIsAuthentic(c: Config, sent: set<Envelope>, s: State, w: nat, vc: Msg)
    requires c.HasPeers() && OpsOk(c, sent, s) && CpsOk(c, sent, s.cps) && ViewchangeFrom(s.cps, s.ops, w, vc)
    ensures Authentic(c, sent + {Envelope(s.id, vc)}, Envelope(s.id, vc))
  {
    var more := sent + {Envelope(s.id, vc)};
    var latest: seq<OpKey> :| ProofsOf(s.ops, vc.base, latest, vc.proofs);
    forall e | e in vc.checkpoints ensures Authentic(c, more, e) {
      assert e in s.cps.stableProof.Values;
    }
    hide CpsOk, ViewchangeFrom;
    forall p | p in vc.proofs
      ensures Authentic(c, more, p.prePrepare) && forall x | x in p.prepares :: Authentic(c, more, x)
    {
      var i :| 0 <= i < |vc.proofs| && vc.proofs[i] == p;
      ProofMadeIsAuthentic(c, sent, more, s, latest[i], vc.base, p);
    }
  }

  lemma ProofMadeIsAuthentic(c: Config, sent: set<Envelope>, more: set<Envelope>, s: State, k: OpKey, base: nat,
                             p: Proof)
    requires c.HasPeers() && OpsOk(c, sent, s) && k in s.ops && s.ops[k].IsPrepared() && k.sequence > base
    requires ProofOf(k, s.ops[k], p) && sent <= more
    ensures Authentic(c, more, p.prePrepare) && forall x | x in p.prepares :: Authentic(c, more, x)
  {
    ProofMadeIsValid(c, sent, s, k, base, p);
    hide OpsOk;
  }

  /** It is complete: every operation this replica has committed to, above the claimed base,
      is covered by a certificate from that view or a later one. */
  ghost predicate Covers(vc: Msg, k: OpKey)
    requires vc.ViewChange?
  {
    k.sequence <= vc.base || exists p :: p in vc.proofs && Certificate(p, k.sequence) && ProofKey(p).view >= k.view
  }

  predicate Certificate(p: Proof, s: nat)
  {
    p.prePrepare.msg.PrePrepare? && p.prePrepare.msg.sequence == s
  }

  lemma ViewchangeMadeIsComplete(c: Config, sent: set<Envelope>, s: State, w: nat, vc: Msg, k: OpKey)
    requires c.HasPeers() && OpsOk(c, sent, s) && CommitsOk(c, sent, s) && ViewchangeFrom(s.cps, s.ops, w, vc)
    requires Envelope(s.id, k.CommitMsg()) in sent
    ensures Covers(vc, k)
  {
    if k.sequence > vc.base {
      assert k in s.ops && s.ops[k].IsPrepared();
      hide CommitsOk;
      var p := ProofFor(c, sent, s, w, vc, k);
      assert p in vc.proofs && Certificate(p, k.sequence) && ProofKey(p).view >= k.view;
    }
  }

  lemma ProofFor(c: Config, sent: set<Envelope>, s: State, w: nat, vc: Msg, k: OpKey) returns (p: Proof)
    requires c.HasPeers() && OpsOk(c, sent, s) && ViewchangeFrom(s.cps, s.ops, w, vc)
    requires k in s.ops && s.ops[k].IsPrepared() && k.sequence > vc.base
    ensures p in vc.proofs && Certificate(p, k.sequence) && ProofKey(p).view >= k.view
  {
    var latest: seq<OpKey> :| ProofsOf(s.ops, vc.base, latest, vc.proofs);
    var i := LatestFor(s.ops, vc.base, latest, vc.proofs, k);
    hide ViewchangeFrom, ProofsOf, OpsOk;
    p := vc.proofs[i];
    ProofMadeIsValid(c, sent, s, latest[i], vc.base, p);
  }

  lemma LatestFor(ops: map<OpKey, Op>, base: nat, latest: seq<OpKey>, proofs: seq<Proof>, k: OpKey) returns (i: nat)
    requires ProofsOf(ops, base, latest, proofs) && k in ops && ops[k].IsPrepared() && k.sequence > base
    ensures i < |latest| == |proofs| && latest[i] in ops && ops[latest[i]].IsPrepared()
    ensures latest[i].sequence == k.sequence && latest[i].view >= k.view
            && ProofOf(latest[i], ops[latest[i]], proofs[i])
  {
    assert Lists(latest, k.sequence);
    i :| 0 <= i < |latest| && latest[i].sequence == k.sequence;
  }

  // ---- NEWVIEW ----

  /** The 2f+1 viewchanges that a new primary holds for view w. */
  ghost predicate ViewchangeSet(c: Config, w: nat, vcs: map<Uuid, Envelope>)
    requires c.HasPeers()
  {
    forall u | u in vcs :: vcs[u].sender == u && WellFormedViewchange(c, vcs[u]) && vcs[u].msg.view == w
  }

  lemma {:induction false} InOrderSound(vcs: map<Uuid, Envelope>, u: nat)
    requires forall x | x in vcs :: vcs[x].sender == x
    ensures forall e | e in InOrder(vcs, u) :: e.sender < u && e.sender in vcs && vcs[e.sender] == e
    ensures forall i, j | 0 <= i < j < |InOrder(vcs, u)| :: InOrder(vcs, u)[i].sender < InOrder(vcs, u)[j].sender
  {
    if u > 0 { InOrderSound(vcs, u - 1); }
  }

  /** Reading the list back by sender gives the map it was made from. */
  lemma {:induction false} InOrderBySender(vcs: map<Uuid, Envelope>, u: nat)
    requires forall x | x in vcs :: vcs[x].sender == x
    ensures BySender(InOrder(vcs, u)) == map x | x in vcs && x < u :: vcs[x]
  {
    if u > 0 {
      InOrderBySender(vcs, u - 1);
      if u - 1 in vcs {
        var es := InOrder(vcs, u);
        assert es[..|es| - 1] == InOrder(vcs, u - 1);
      }
    }
  }

  lemma InOrderTurn(vcs: map<Uuid, Envelope>, u: nat)
    requires u > 0
    ensures |InOrder(vcs, u)| == |InOrder(vcs, u - 1)| + if u - 1 in vcs then 1 else 0
  {
  }

  /** How many of the first u peers are in the set. */
  ghost function PeersIn(s: set<nat>, u: nat): nat { |s * Peers(u)| }

  lemma {:induction false} InOrderSize(vcs: map<Uuid, Envelope>, u: nat)
    ensures |InOrder(vcs, u)| == PeersIn(vcs.Keys, u)
  {
    hide PeersIn;
    NoPeers(vcs.Keys);
    if u > 0 {
      hide InOrder;
      InOrderSize(vcs, u - 1);
      InOrderTurn(vcs, u);
      OneMorePeer(vcs.Keys, u - 1);
    }
  }

  lemma NoPeers(s: set<nat>)
    ensures PeersIn(s, 0) == 0
  {
    assert s * Peers(0) == {};
  }

  lemma OneMorePeer(s: set<nat>, u: nat)
    ensures PeersIn(s, u + 1) == PeersIn(s, u) + if u in s then 1 else 0
  {
    assert s * Peers(u + 1) == if u in s then s * Peers(u) + {u} else s * Peers(u);
  }

  lemma ReadBack(c: Config, w: nat, vcs: map<Uuid, Envelope>)
    requires c.HasPeers() && ViewchangeSet(c, w, vcs)
    ensures BySender(InOrder(vcs, c.n)) == vcs && |InOrder(vcs, c.n)| == |vcs|
  {
    InOrderBySender(vcs, c.n);
    InOrderSize(vcs, c.n);
    assert vcs.Keys * Peers(c.n) == vcs.Keys;
  }

  /** A NEWVIEW built for view w from 2f+1 valid viewchanges for w, by the primary of w, is valid
      at every replica in a lower view. */
  lemma NewviewMadeIsValid(c: Config, w: nat, vcs: map<Uuid, Envelope>, view: nat)
    requires c.HasPeers() && ViewchangeSet(c, w, vcs) && |vcs| >= HonestMajority(c.n) && view < w
    ensures ValidNewview(c, view, Envelope(c.Primary(w), BuildNewview(c, c.Primary(w), w, vcs)))
  {
    InOrderSound(vcs, c.n);
    ReadBack(c, w, vcs);
  }

  /** handle_viewchange announces the view `selected` but attaches the viewchanges for w. The
      result is valid exactly when the two are the same view. */
  lemma NewviewMadeIsValidIff(c: Config, selected: nat, w: nat, vcs: map<Uuid, Envelope>, view: nat)
    requires c.HasPeers() && ViewchangeSet(c, w, vcs) && view < selected
    ensures ValidNewview(c, view, Envelope(c.Primary(selected), BuildNewview(c, c.Primary(selected), selected, vcs)))
            <==> selected == w && |vcs| >= HonestMajority(c.n)
  {
    InOrderSound(vcs, c.n);
    ReadBack(c, w, vcs);
    if selected != w && |vcs| >= HonestMajority(c.n) {
      var e := InOrder(vcs, c.n)[0];
      assert e in InOrder(vcs, c.n) && e.msg.view == w;
    }
  }
}
