/** What a checkpoint claim does, exactly, and what the claims inside VIEWCHANGE and NEWVIEW bring. */
module Claims {
  import opened Quorum
  import opened Messages
  import opened Checkpoints
  import opened ViewChange
  import opened Replica
  import opened Protocol
  import opened Invariants
  import opened Views
  import opened Runs
  import opened Agreement
  import opened Entering
  import opened History

  /** The peers and outsiders whose claim of cp is held. */
  function Claimants(m: Checkpoints, cp: Checkpoint): set<Uuid>
  {
    if cp == m.stable then m.stableProof.Keys else m.Claims(cp).Keys
  }

  /** A claim below the local checkpoint, or against the stable one. */
  predicate Ignored(m: Checkpoints, cp: Checkpoint)
  {
    cp.sequence < m.local.sequence || (cp.sequence == m.stable.sequence && cp != m.stable)
  }

  /** m with one more claim of a checkpoint that is not stable. */
  function Noted(m: Checkpoints, cp: Checkpoint, e: Envelope): Checkpoints
  {
    m.(partial := m.partial[cp := AddClaim(m.Claims(cp), e)])
  }

  lemma NotedClaimants(m: Checkpoints, cp: Checkpoint, e: Envelope, q: Checkpoint)
    requires cp != m.stable
    ensures Claimants(Noted(m, cp, e), q) == if q == cp then Claimants(m, cp) + {e.sender} else Claimants(m, q)
  {
    assert AddClaim(m.Claims(cp), e).Keys == m.Claims(cp).Keys + {e.sender};
  }

  lemma StableClaimants(m: Checkpoints, cp: Checkpoint, q: Checkpoint)
    requires cp != m.stable
    ensures Claimants(Stabilize(m, cp), cp) == Claimants(m, cp)
    ensures q != cp && q != m.stable ==>
              Claimants(Stabilize(m, cp), q) == if q.sequence <= cp.sequence then {} else Claimants(m, q)
  {
  }

  lemma AgainClaimants(m: Checkpoints, e: Envelope, q: Checkpoint)
    ensures var m' := m.(stableProof := AddClaim(m.stableProof, e));
            Claimants(m', q) == if q == m.stable then Claimants(m, q) + {e.sender} else Claimants(m, q)
  {
    assert AddClaim(m.stableProof, e).Keys == m.stableProof.Keys + {e.sender};
  }

  lemma RecordCases(n: nat, m: Checkpoints, e: Envelope, cp: Checkpoint)
    requires n > 0 && e.msg == CheckpointMsg(cp)
    ensures RecordClaim(n, m, e) ==
            if Ignored(m, cp) then m
            else if cp == m.stable then m.(stableProof := AddClaim(m.stableProof, e))
            else if |Claimants(Noted(m, cp, e), cp) * Peers(n)| >= FaultBound(n) + 1
            then Stabilize(Noted(m, cp, e), cp)
            else Noted(m, cp, e)
  {
    hide AddClaim, Stabilize;
  }

  /** A claim is ignored, or it is added to those held of its checkpoint, also if that is stable
      already; with f+1 claims of peers the checkpoint becomes stable, and only then are the claims of
      checkpoints that are not newer dropped. */
  lemma ClaimRecorded(n: nat, m: Checkpoints, u: Uuid, cp: Checkpoint, q: Checkpoint)
    requires n > 0
    ensures var m' := RecordClaim(n, m, Envelope(u, CheckpointMsg(cp)));
            if Ignored(m, cp) then m' == m
            else
              && m'.local == m.local && Claimants(m', cp) == Claimants(m, cp) + {u}
              && m'.stable == (if cp == m.stable || |Claimants(m', cp) * Peers(n)| >= FaultBound(n) + 1
                               then cp else m.stable)
              && (q != cp && q != m.stable ==>
                    Claimants(m', q)
                    == if m'.stable != m.stable && q.sequence <= cp.sequence then {} else Claimants(m, q))
  {
    var e := Envelope(u, CheckpointMsg(cp));
    hide RecordClaim, Claimants, AddClaim;
    RecordCases(n, m, e, cp);
    if cp == m.stable {
      AgainClaimants(m, e, cp);
      AgainClaimants(m, e, q);
    } else {
      NotedClaimants(m, cp, e, cp);
      NotedClaimants(m, cp, e, q);
      StableClaimants(Noted(m, cp, e), cp, q);
    }
  }

  /** In a run: a replica that hears a claim, of a peer or not, records it as above and changes nothing else. */
  lemma ClaimHeard(c: Config, states: seq<System>, steps: seq<Step>, i: nat, q: Checkpoint)
    requires c.HasPeers() && IsRun(c, states, steps) && i < |steps|
    requires steps[i].Deliver? && steps[i].e.msg.CheckpointMsg?
    ensures steps[i].r in states[i].replicas && steps[i].r in states[i + 1].replicas
    ensures var s, t := states[i].replicas[steps[i].r], states[i + 1].replicas[steps[i].r];
            var m, m', cp := s.cps, t.cps, steps[i].e.msg.cp;
            && t == s.(cps := m') && m'.local == m.local
            && (if Ignored(m, cp) then m' == m
                else
                  && Claimants(m', cp) == Claimants(m, cp) + {steps[i].e.sender}
                  && m'.stable == (if cp == m.stable || |Claimants(m', cp) * Peers(c.n)| >= c.F() + 1
                                   then cp else m.stable)
                  && (q != cp && q != m.stable ==>
                        Claimants(m', q)
                        == if m'.stable != m.stable && q.sequence <= cp.sequence then {} else Claimants(m, q)))
  {
    assert Takes(c, states, steps, i);
    var s, e := states[i].replicas[steps[i].r], steps[i].e;
    assert e == Envelope(e.sender, CheckpointMsg(e.msg.cp));
    ClaimRecorded(c.n, s.cps, e.sender, e.msg.cp, q);
    hide IsRun, GoodChoice, RecordClaim, Claimants, Ignored;
  }

  // ---- Claims of one checkpoint ----

  function Senders(es: seq<Envelope>): set<Uuid> { set e | e in es :: e.sender }

  predicate AllClaim(es: seq<Envelope>, cp: Checkpoint) { forall e | e in es :: e.msg == CheckpointMsg(cp) }

  lemma SendersTail(es: seq<Envelope>, heard: set<Uuid>)
    requires es != []
    ensures (heard + {es[0].sender}) + Senders(es[1..]) == heard + Senders(es)
    ensures es[1..] == [] ==> heard + Senders(es) == heard + {es[0].sender}
  {
    assert es == [es[0]] + es[1..];
  }

  /** Enough claims of one checkpoint, not below the local one, make its sequence the stable one. */
  lemma {:induction false} ClaimsBringStable(n: nat, m: Checkpoints, es: seq<Envelope>, cp: Checkpoint)
    requires n > 0 && AllClaim(es, cp) && cp.sequence >= m.local.sequence
    requires m.stable.sequence != cp.sequence ==>
               es != [] && |(Claimants(m, cp) + Senders(es)) * Peers(n)| >= FaultBound(n) + 1
    ensures RecordClaims(n, m, es).stable.sequence == cp.sequence
    decreases |es|
  {
    hide RecordClaim, Claimants, Senders;
    if es != [] {
      assert es[0] == Envelope(es[0].sender, CheckpointMsg(cp));
      ClaimRecorded(n, m, es[0].sender, cp, cp);
      SendersTail(es, Claimants(m, cp));
      assert AllClaim(es[1..], cp);
      ClaimsBringStable(n, RecordClaim(n, m, es[0]), es[1..], cp);
    }
  }

  // ---- What VIEWCHANGE and NEWVIEW bring ----

  lemma ViewchangeCps(c: Config, s: State, e: Envelope, requests: set<Hash>, vc: Msg)
    requires c.HasPeers() && ValidViewchange(c, s.view, e)
    ensures HandleViewchange(c, s, e, requests, vc).state.cps == RecordClaims(c.n, s.cps, e.msg.checkpoints)
  {
    hide WellFormedViewchange, NewviewOut, JoinsViewchange, RecordClaims, SaveRequests;
  }

  /** The claims that a correct replica puts into a VIEWCHANGE. */
  lemma ClaimsMade(c: Config, sent: set<Envelope>, s: State, w: nat, vc: Msg)
    requires c.HasPeers() && Local(c, sent, s) && ViewchangeFrom(s.cps, s.ops, w, vc) && vc.base > 0
    ensures s.cps.stable.sequence == vc.base && AllClaim(vc.checkpoints, s.cps.stable)
    ensures |Senders(vc.checkpoints) * Peers(c.n)| >= c.F() + 1
  {
    var m := s.cps;
    forall u | u in m.stableProof ensures u in Senders(vc.checkpoints) {
      assert m.stableProof[u] in vc.checkpoints && m.stableProof[u].sender == u;
    }
    assert Senders(vc.checkpoints) == m.stableProof.Keys;
  }

  /** A VIEWCHANGE that a correct replica has sent carries the claims of its base. */
  lemma ClaimsSent(c: Config, states: seq<System>, steps: seq<Step>, i: nat, e: Envelope) returns (cp: Checkpoint)
    requires c.HasPeers() && IsRun(c, states, steps) && i < |states|
    requires e in states[i].sent && c.Correct(e.sender) && e.msg.ViewChange? && e.msg.base > 0
    ensures cp.sequence == e.msg.base && AllClaim(e.msg.checkpoints, cp)
    ensures |Senders(e.msg.checkpoints) * Peers(c.n)| >= c.F() + 1
  {
    assert e == Envelope(e.sender, e.msg);
    var j := SentAt(c, states, steps, i, e.sender, e.msg);
    RunOk(c, states, steps, j);
    assert Takes(c, states, steps, j);
    hide IsRun, Inv, Enabled, Local, ViewchangeFrom;
    var s, w := SentFrom(c, states[j], steps[j], e.msg);
    cp := s.cps.stable;
    ClaimsMade(c, states[j].sent, s, w, e.msg);
  }

  lemma BroughtStable(n: nat, m: Checkpoints, es: seq<Envelope>, cp: Checkpoint)
    requires n > 0 && AllClaim(es, cp) && cp.sequence >= m.local.sequence
    requires |Senders(es) * Peers(n)| >= FaultBound(n) + 1
    ensures RecordClaims(n, m, es).stable.sequence == cp.sequence
  {
    SubsetSize(Senders(es) * Peers(n), (Claimants(m, cp) + Senders(es)) * Peers(n));
    assert es == [] ==> Senders(es) * Peers(n) == {};
    hide RecordClaims, Claimants;
    ClaimsBringStable(n, m, es, cp);
  }

  /** A replica that hears a VIEWCHANGE of a correct peer has the stable checkpoint of that peer
      afterwards, unless its own local one is beyond. */
  lemma ViewchangeBringsCheckpoint(c: Config, states: seq<System>, steps: seq<Step>, i: nat, r: Uuid)
    requires c.HasPeers() && IsRun(c, states, steps) && i < |steps| && c.Correct(r) && steps[i].Deliver?
    requires steps[i].r == r && r in states[i].replicas && HearsViewchange(c, states[i].replicas[r], steps[i])
    requires c.Correct(steps[i].e.sender) && 0 < steps[i].e.msg.base
    requires states[i].replicas[r].cps.local.sequence <= steps[i].e.msg.base
    ensures r in states[i + 1].replicas && states[i + 1].replicas[r].cps.stable.sequence == steps[i].e.msg.base
  {
    ClaimsTaken(c, states, steps, i);
    hide IsRun, RecordClaims, AllClaim, Senders;
    var cp := ClaimsSent(c, states, steps, i, steps[i].e);
    BroughtStable(c.n, states[i].replicas[r].cps, steps[i].e.msg.checkpoints, cp);
  }

  lemma ClaimsTaken(c: Config, states: seq<System>, steps: seq<Step>, i: nat)
    requires c.HasPeers() && IsRun(c, states, steps) && i < |steps| && steps[i].Deliver?
    requires steps[i].r in states[i].replicas && HearsViewchange(c, states[i].replicas[steps[i].r], steps[i])
    ensures steps[i].e in states[i].sent && steps[i].e.msg.ViewChange? && steps[i].r in states[i + 1].replicas
    ensures states[i + 1].replicas[steps[i].r].cps
            == RecordClaims(c.n, states[i].replicas[steps[i].r].cps, steps[i].e.msg.checkpoints)
  {
    assert Takes(c, states, steps, i);
    hide IsRun, GoodChoice, HandleViewchange, RecordClaims;
    ViewchangeCps(c, states[i].replicas[steps[i].r], steps[i].e, steps[i].requests, steps[i].vc);
  }

  lemma {:induction false} PrepreparesKeepCps(c: Config, s: State, es: seq<Envelope>, requests: set<Hash>)
    requires c.HasPeers() && forall e | e in es :: e.msg.PrePrepare?
    ensures HandlePreprepares(c, s, es, requests).state.cps == s.cps
    decreases |es|
  {
    if es != [] {
      var first := HandlePreprepare(c, s, es[0], requests);
      PrepreparesKeepCps(c, first.state.(nextIssued := es[0].msg.sequence + 1), es[1..], requests);
    }
  }

  lemma NewviewCps(c: Config, s: State, e: Envelope, requests: set<Hash>)
    requires c.HasPeers() && ValidNewview(c, s.view, e)
    ensures |e.msg.viewchanges| > 0 && e.msg.viewchanges[0].msg.ViewChange?
    ensures HandleNewview(c, s, e, requests).state.cps
            == RecordClaims(c.n, s.cps, e.msg.viewchanges[0].msg.checkpoints)
  {
    NewviewFacts(c, s.view, e);
    hide ValidNewview, HandlePreprepares, RecordClaims;
    PrepreparesKeepCps(c, EnterView(c, s, e.msg), e.msg.preprepares, requests);
  }

  /** So has a replica that comes to a view by a NEWVIEW whose first VIEWCHANGE is of a correct peer. */
  lemma NewviewBringsCheckpoint(c: Config, states: seq<System>, steps: seq<Step>, i: nat, r: Uuid)
    requires c.HasPeers() && IsRun(c, states, steps) && i < |steps| && Moves(states, i, r)
    requires steps[i].Deliver? && steps[i].e.msg.NewView? && |steps[i].e.msg.viewchanges| > 0
    requires var e := steps[i].e.msg.viewchanges[0];
             && c.Correct(e.sender) && e.msg.ViewChange? && 0 < e.msg.base
             && states[i].replicas[r].cps.local.sequence <= e.msg.base
    ensures states[i + 1].replicas[r].cps.stable.sequence == steps[i].e.msg.viewchanges[0].msg.base
  {
    MovesByNewview(c, states, steps, i, r);
    EnteredView(c, states, steps, i, r);
    RunOk(c, states, steps, i);
    var s, e := states[i].replicas[r], steps[i].e;
    NewviewCps(c, s, e, steps[i].requests);
    var first := e.msg.viewchanges[0];
    assert Authentic(c, states[i].sent, e) && first in e.msg.viewchanges;
    assert Authentic(c, states[i].sent, first);
    hide IsRun, Inv, HandleNewview, ValidNewview, RecordClaims, AllClaim, Senders;
    var cp := ClaimsSent(c, states, steps, i, first);
    BroughtStable(c.n, s.cps, first.msg.checkpoints, cp);
  }
}
