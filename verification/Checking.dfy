/** Which VIEWCHANGE a replica takes notice of, and which NEWVIEW it follows, told from its state. */
module Checking {
  import opened Quorum
  import opened Messages
  import opened ViewChange
  import opened Replica
  import opened Protocol
  import opened Views
  import opened Asking
  import opened Entering

  /** f+1 peers claim one checkpoint at this sequence. */
  ghost predicate Backed(c: Config, es: seq<Envelope>, s: nat)
    requires c.HasPeers()
  {
    exists h: Hash :: |Backers(c, es, Checkpoint(s, h))| >= c.F() + 1
  }

  ghost function Backers(c: Config, es: seq<Envelope>, cp: Checkpoint): set<Uuid>
  {
    set u | u in Peers(c.n) && Envelope(u, CheckpointMsg(cp)) in es
  }

  /** base is the lowest sequence that is backed, or 0 if none is. */
  ghost predicate IsLowest(c: Config, es: seq<Envelope>, base: nat)
    requires c.HasPeers()
  {
    if forall s: nat :: !Backed(c, es, s) then base == 0
    else Backed(c, es, base) && forall s: nat | Backed(c, es, s) :: base <= s
  }

  /** The pre-prepare of a peer, above the base, and 2f+1 peers that prepared the same. */
  ghost predicate Proves(c: Config, base: nat, p: Proof)
    requires c.HasPeers()
  {
    && c.IsPeer(p.prePrepare.sender) && p.prePrepare.msg.PrePrepare? && base < p.prePrepare.msg.sequence
    && var pp := p.prePrepare.msg;
       && (forall e | e in p.prepares :: c.IsPeer(e.sender) && e.msg == Prepare(pp.view, pp.sequence, pp.hash))
       && |set e | e in p.prepares :: e.sender| >= 2 * c.F() + 1
  }

  /** A VIEWCHANGE that a replica in this view must take. */
  ghost predicate Takeable(c: Config, view: nat, e: Envelope)
    requires c.HasPeers()
  {
    && c.IsPeer(e.sender) && e.msg.ViewChange? && e.msg.view > view
    && IsLowest(c, e.msg.checkpoints, e.msg.base) && forall p | p in e.msg.proofs :: Proves(c, e.msg.base, p)
  }

  lemma BaseIsLowest(c: Config, es: seq<Envelope>, base: nat)
    requires c.HasPeers()
    ensures ValidBase(c, base, es) <==> IsLowest(c, es, base)
  {
    forall cp ensures Attested(c, es, cp) <==> |Backers(c, es, cp)| >= c.F() + 1 {
      assert Attesters(c, es, cp) == Backers(c, es, cp);
    }
    hide Attesters, Backers;
    forall s: nat ensures Backed(c, es, s) <==> exists cp :: Attested(c, es, cp) && cp.sequence == s {
      if Backed(c, es, s) {
        var h: Hash :| |Backers(c, es, Checkpoint(s, h))| >= c.F() + 1;
        assert Attested(c, es, Checkpoint(s, h));
      }
      if exists cp :: Attested(c, es, cp) && cp.sequence == s {
        var cp :| Attested(c, es, cp) && cp.sequence == s;
        assert cp == Checkpoint(s, cp.hash);
      }
    }
    hide Attested, Backed;
    forall cp | Attested(c, es, cp) ensures Backed(c, es, cp.sequence) { }
  }

  lemma ProofProves(c: Config, base: nat, p: Proof)
    requires c.HasPeers()
    ensures ValidProof(c, base, p) <==> Proves(c, base, p)
  {
    assert ProofSenders(p) == set e | e in p.prepares :: e.sender;
  }

  lemma TakeableIff(c: Config, view: nat, e: Envelope)
    requires c.HasPeers()
    ensures ValidViewchange(c, view, e) <==> Takeable(c, view, e)
  {
    hide ValidBase, ValidProof, IsLowest, Proves;
    if e.msg.ViewChange? {
      BaseIsLowest(c, e.msg.checkpoints, e.msg.base);
      forall p | p in e.msg.proofs ensures ValidProof(c, e.msg.base, p) <==> Proves(c, e.msg.base, p) {
        ProofProves(c, e.msg.base, p);
      }
    }
  }

  /** A replica that hears a VIEWCHANGE of a peer it has none of for that view keeps it if and only if
      it is for a later view, its base is the lowest checkpoint it backs, and all its proofs prove. */
  lemma KeptIff(c: Config, states: seq<System>, steps: seq<Step>, i: nat)
    requires c.HasPeers() && IsRun(c, states, steps) && i < |steps| && steps[i].Deliver? && steps[i].e.msg.ViewChange?
    ensures steps[i].r in states[i].replicas && steps[i].r in states[i + 1].replicas
    ensures var s, t, e := states[i].replicas[steps[i].r], states[i + 1].replicas[steps[i].r], steps[i].e;
            e.sender !in ViewchangesFor(s, e.msg.view) ==>
              (e.sender in ViewchangesFor(t, e.msg.view) <==> Takeable(c, s.view, e))
  {
    assert Takes(c, states, steps, i);
    var s, e := states[i].replicas[steps[i].r], steps[i].e;
    hide IsRun, GoodChoice, HandleViewchange, Takeable, ValidViewchange, ViewchangesFor;
    TakeableIff(c, s.view, e);
    StepSaves(c, s, steps[i], e.msg.view);
  }

  /** 2f+1 different peers ask for w, each with a VIEWCHANGE that must be taken, and the pre-prepares are the
      ones that follow from these. */
  ghost predicate Followable(c: Config, view: nat, e: Envelope)
    requires c.HasPeers()
  {
    && e.msg.NewView? && e.sender == e.msg.view % c.n && |e.msg.viewchanges| >= 2 * c.F() + 1
    && (forall x | x in e.msg.viewchanges :: Takeable(c, view, x) && x.msg.view == e.msg.view)
    && (forall i, j | 0 <= i < j < |e.msg.viewchanges| :: e.msg.viewchanges[i].sender != e.msg.viewchanges[j].sender)
    && e.msg.preprepares == Wrap(e.sender, NewPrePrepares(c, e.msg.view, BySender(e.msg.viewchanges)))
  }

  lemma FollowableIff(c: Config, view: nat, e: Envelope)
    requires c.HasPeers()
    ensures ValidNewview(c, view, e) <==> Followable(c, view, e)
  {
    hide ValidViewchange, Takeable, NewPrePrepares, BySender, Wrap;
    if e.msg.NewView? {
      forall x | x in e.msg.viewchanges ensures ValidViewchange(c, view, x) <==> Takeable(c, view, x) {
        TakeableIff(c, view, x);
      }
    }
  }

  /** A replica that hears a NEWVIEW goes to its view if and only if it is the primary's and so made. */
  lemma FollowsIff(c: Config, states: seq<System>, steps: seq<Step>, i: nat)
    requires c.HasPeers() && IsRun(c, states, steps) && i < |steps| && steps[i].Deliver? && steps[i].e.msg.NewView?
    ensures steps[i].r in states[i].replicas && steps[i].r in states[i + 1].replicas
    ensures Moves(states, i, steps[i].r) <==> Followable(c, states[i].replicas[steps[i].r].view, steps[i].e)
  {
    assert Takes(c, states, steps, i);
    var s, e := states[i].replicas[steps[i].r], steps[i].e;
    hide IsRun, GoodChoice, HandleNewview, Followable, ValidNewview, AcceptRules;
    FollowableIff(c, s.view, e);
    if Followable(c, s.view, e) {
      PrimaryIsPeer(c, s.view, e);
      NewviewRules(c, s, e, steps[i].requests);
    } else {
      NewviewRejected(c, s, e, steps[i].requests);
    }
  }

  lemma PrimaryIsPeer(c: Config, view: nat, e: Envelope)
    requires c.HasPeers() && Followable(c, view, e)
    ensures c.IsPeer(e.sender)
  {
  }
}
