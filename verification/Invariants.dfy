/** Every step keeps the invariant, so every reachable state has it. */
module Invariants {
  import opened Quorum
  import opened Messages
  import opened Operations
  import opened Checkpoints
  import opened ViewChange
  import opened Replica
  import opened Protocol
  import opened MakerChecker

  // ---- votes ----

  /** The two steps that MaybeAdvance may take, one after the other. */
  lemma AdvanceCases(c: Config, s: State, k: OpKey)
    requires c.HasPeers() && k in s.ops
    ensures var eff := MaybeAdvance(c, s, k);
            if s.ops[k].stage == PrepareStage && s.ops[k].ReadyForCommit(c.n) then
              var s1 := SetStage(s, k, CommitStage);
              && eff.out == {k.CommitMsg()}
              && eff.state == if s1.ops[k].ReadyForExecute(c.n) then SetStage(s1, k, ExecuteStage) else s1
            else
              && eff.out == {}
              && eff.state == if s.ops[k].stage == CommitStage && s.ops[k].ReadyForExecute(c.n)
                              then SetStage(s, k, ExecuteStage) else s
  {
    var s1 := SetStage(s, k, CommitStage);
    assert SetStage(s1, k, ExecuteStage).ops == SetStage(s, k, ExecuteStage).ops;
    assert s.ops[k := s.ops[k]] == s.ops;
  }

  function SetStage(s: State, k: OpKey, stage: Stage): State
    requires k in s.ops
  {
    s.(ops := s.ops[k := s.ops[k].(stage := stage)])
  }

  /** Advancing an operation whose votes are in order. */
  lemma AdvanceOk(c: Config, sent: set<Envelope>, s: State, k: OpKey)
    requires c.HasPeers() && Local(c, sent, s) && k in s.ops && k.view <= s.view
    ensures var eff := MaybeAdvance(c, s, k); Local(c, sent + Signed(s.id, eff.out), eff.state)
  {
    hide Local, MaybeAdvance, HonestMajority;
    var eff := MaybeAdvance(c, s, k);
    AdvanceCases(c, s, k);
    if s.ops[k].stage == PrepareStage && s.ops[k].ReadyForCommit(c.n) {
      PreparedOk(c, sent, s, k);
      var s1 := SetStage(s, k, CommitStage);
      CommittedOk(c, sent + {Envelope(s.id, k.CommitMsg())}, s1, k);
      assert Signed(s.id, eff.out) == {Envelope(s.id, k.CommitMsg())};
    } else {
      CommittedOk(c, sent, s, k);
      assert sent + Signed(s.id, eff.out) == sent;
    }
  }

  /** do_prepared. */
  lemma PreparedOk(c: Config, sent: set<Envelope>, s: State, k: OpKey)
    requires c.HasPeers() && Local(c, sent, s) && k in s.ops && k.view <= s.view
    requires s.ops[k].stage == PrepareStage && s.ops[k].ReadyForCommit(c.n)
    ensures Local(c, sent + {Envelope(s.id, k.CommitMsg())}, SetStage(s, k, CommitStage))
  {
    var more := sent + {Envelope(s.id, k.CommitMsg())};
    GrowsFrame(c, sent, more, s);
    VotesHold(c, sent, s, k);
    CertifiedGrows(c, sent, more, k.PrepareMsg());
    assert OpOk(c, more, s.id, s.view, k, s.ops[k]);
  }

  /** do_committed. */
  lemma CommittedOk(c: Config, sent: set<Envelope>, s: State, k: OpKey)
    requires c.HasPeers() && Local(c, sent, s) && k in s.ops
    ensures s.ops[k].stage == CommitStage && s.ops[k].ReadyForExecute(c.n) ==>
              Local(c, sent, SetStage(s, k, ExecuteStage))
  {
    assert OpOk(c, sent, s.id, s.view, k, s.ops[k]);
    if s.ops[k].stage == CommitStage && s.ops[k].ReadyForExecute(c.n) {
      RecordOk(c, sent, s, k, s.ops[k].(stage := ExecuteStage));
    }
  }

  /** An operation that is ready to commit has a prepare certificate. */
  lemma VotesHold(c: Config, sent: set<Envelope>, s: State, k: OpKey)
    requires c.HasPeers() && OpsOk(c, sent, s) && k in s.ops
    ensures s.ops[k].ReadyForCommit(c.n) ==> Certified(c, sent, k.PrepareMsg())
    ensures |s.ops[k].commits| >= HonestMajority(c.n) ==> Certified(c, sent, k.CommitMsg())
  {
    var op := s.ops[k];
    assert OpOk(c, sent, s.id, s.view, k, op);
    if op.ReadyForCommit(c.n) { VotesCertify(c, sent, k.PrepareMsg(), op.prepares.Keys); }
    if |op.commits| >= HonestMajority(c.n) { VotesCertify(c, sent, k.CommitMsg(), op.commits); }
  }

  lemma RecordOk(c: Config, sent: set<Envelope>, s: State, k: OpKey, op: Op)
    requires c.HasPeers() && Local(c, sent, s) && OpOk(c, sent, s.id, s.view, k, op)
    requires k in s.ops && s.ops[k].IsPrepared() ==> op.IsPrepared()
    ensures Local(c, sent, s.(ops := s.ops[k := op]))
  {
  }

  lemma VoteRecordedOk(c: Config, sent: set<Envelope>, s: State, k: OpKey, op: Op, e: Envelope)
    requires c.HasPeers() && OpOk(c, sent, s.id, s.view, k, op) && c.IsPeer(e.sender) && e in sent
    requires e.msg == k.PrepareMsg() || e.msg == k.CommitMsg()
    ensures OpOk(c, sent, s.id, s.view, k, op.Record(e))
  {
    SubsetSize(op.prepares.Keys, op.Record(e).prepares.Keys);
    SubsetSize(op.commits, op.Record(e).commits);
  }

  lemma HandleVoteOk(c: Config, sent: set<Envelope>, s: State, e: Envelope)
    requires c.HasPeers() && Local(c, sent, s) && c.IsPeer(e.sender) && e in sent
    requires (e.msg.Prepare? || e.msg.Commit?) && e.msg.view == s.view
    ensures var eff := HandleVote(c, s, e); Local(c, sent + Signed(s.id, eff.out), eff.state)
  {
    var k := OpKey(e.msg.view, e.msg.sequence, e.msg.hash);
    var op := Find(s.ops, k).Record(e);
    assert OpOk(c, sent, s.id, s.view, k, Find(s.ops, k));
    VoteRecordedOk(c, sent, s, k, Find(s.ops, k), e);
    hide Local, OpOk;
    RecordOk(c, sent, s, k, op);
    AdvanceOk(c, sent, s.(ops := s.ops[k := op]), k);
  }

  function Preprepared(s: State, e: Envelope, requests: set<Hash>): Op
    requires e.msg.PrePrepare?
  {
    var k := OpKey(e.msg.view, e.msg.sequence, e.msg.hash);
    var op := Find(s.ops, k).Record(e);
    if k.hash in requests then op.(hasRequest := true) else op
  }

  lemma RecordPreprepareOk(c: Config, sent: set<Envelope>, s: State, e: Envelope, requests: set<Hash>)
    requires c.HasPeers() && Local(c, sent, s) && c.IsPeer(e.sender) && (c.Correct(e.sender) ==> e in sent)
    requires e.msg.PrePrepare?
    ensures var k := OpKey(e.msg.view, e.msg.sequence, e.msg.hash);
            Local(c, sent, s.(ops := s.ops[k := Preprepared(s, e, requests)]))
  {
    var k := OpKey(e.msg.view, e.msg.sequence, e.msg.hash);
    assert OpOk(c, sent, s.id, s.view, k, Find(s.ops, k));
    RecordOk(c, sent, s, k, Preprepared(s, e, requests));
  }

  lemma HandlePreprepareOk(c: Config, sent: set<Envelope>, s: State, e: Envelope, requests: set<Hash>)
    requires c.HasPeers() && Local(c, sent, s) && c.IsPeer(e.sender) && (c.Correct(e.sender) ==> e in sent)
    requires e.msg.PrePrepare? && e.msg.view == s.view
    ensures var eff := HandlePreprepare(c, s, e, requests); Local(c, sent + Signed(s.id, eff.out), eff.state)
  {
    var eff := HandlePreprepare(c, s, e, requests);
    var k := OpKey(e.msg.view, e.msg.sequence, e.msg.hash);
    var slot := (k.view, k.sequence);
    if slot in s.accepted && s.accepted[slot] != k.hash {
      assert sent + Signed(s.id, eff.out) == sent;
    } else {
      RecordPreprepareOk(c, sent, s, e, requests);
      var s1 := s.(ops := s.ops[k := Preprepared(s, e, requests)]);
      PrepareSentOk(c, sent, s1, k);
      var s2 := s1.(accepted := s.accepted[slot := k.hash]);
      AcceptedOk(c, sent, s2, k);
      assert eff == MaybeAdvance(c, s2, k).(out := eff.out);
    }
  }

  lemma AcceptedOk(c: Config, sent: set<Envelope>, s: State, k: OpKey)
    requires c.HasPeers() && k in s.ops && k.view == s.view && Local(c, sent + {Envelope(s.id, k.PrepareMsg())}, s)
    ensures var eff := MaybeAdvance(c, s, k);
            Local(c, sent + Signed(s.id, eff.out + {k.PrepareMsg()}), eff.state)
  {
    var eff := MaybeAdvance(c, s, k);
    AdvanceOk(c, sent + {Envelope(s.id, k.PrepareMsg())}, s, k);
    assert sent + {Envelope(s.id, k.PrepareMsg())} + Signed(s.id, eff.out)
           == sent + Signed(s.id, eff.out + {k.PrepareMsg()});
  }

  /** Accepting a pre-prepare and sending the prepare for it. */
  lemma PrepareSentOk(c: Config, sent: set<Envelope>, s: State, k: OpKey)
    requires c.HasPeers() && Local(c, sent, s)
    requires (k.view, k.sequence) in s.accepted ==> s.accepted[(k.view, k.sequence)] == k.hash
    ensures Local(c, sent + {Envelope(s.id, k.PrepareMsg())},
            s.(accepted := s.accepted[(k.view, k.sequence) := k.hash]))
  {
    GrowsFrame(c, sent, sent + {Envelope(s.id, k.PrepareMsg())}, s);
  }

  lemma SignedJoin(sent: set<Envelope>, id: Uuid, a: set<Msg>, b: set<Msg>)
    ensures sent + Signed(id, a) + Signed(id, b) == sent + Signed(id, a + b)
  {
  }

  lemma NextIssuedOk(c: Config, sent: set<Envelope>, s: State, next: nat)
    requires c.HasPeers() && Local(c, sent, s)
    ensures Local(c, sent, s.(nextIssued := next))
  {
  }

  lemma PreprepareId(c: Config, s: State, e: Envelope, requests: set<Hash>)
    requires c.HasPeers() && e.msg.PrePrepare?
    ensures var t := HandlePreprepare(c, s, e, requests).state; t.id == s.id && t.view == s.view
  {
  }

  lemma {:induction false} HandlePrepreparesOk(c: Config, sent: set<Envelope>, s: State, es: seq<Envelope>,
                                               requests: set<Hash>)
    requires c.HasPeers() && Local(c, sent, s)
    requires forall e | e in es ::
               c.IsPeer(e.sender) && (c.Correct(e.sender) ==> e in sent) && e.msg.PrePrepare? && e.msg.view == s.view
    ensures var eff := HandlePreprepares(c, s, es, requests); Local(c, sent + Signed(s.id, eff.out), eff.state)
    decreases |es|
  {
    hide HandlePreprepare, Local;
    var eff := HandlePreprepares(c, s, es, requests);
    if es == [] {
      assert sent + Signed(s.id, eff.out) == sent;
    } else {
      PreprepareId(c, s, es[0], requests);
      HandlePreprepareOk(c, sent, s, es[0], requests);
      var first := HandlePreprepare(c, s, es[0], requests);
      var more := sent + Signed(s.id, first.out);
      var s1 := first.state.(nextIssued := es[0].msg.sequence + 1);
      NextIssuedOk(c, more, first.state, s1.nextIssued);
      HandlePrepreparesOk(c, more, s1, es[1..], requests);
      SignedJoin(sent, s.id, first.out, HandlePreprepares(c, s1, es[1..], requests).out);
    }
  }

  // ---- checkpoints ----

  lemma AddClaimOk(c: Config, sent: set<Envelope>, cp: Checkpoint, claims: map<Uuid, Envelope>, e: Envelope)
    requires c.HasPeers() && ClaimsOk(c, sent, cp, claims) && e.msg == CheckpointMsg(cp)
             && (c.Correct(e.sender) ==> e in sent)
    ensures ClaimsOk(c, sent, cp, AddClaim(claims, e))
    ensures PeerClaims(c.n, AddClaim(claims, e)) >= PeerClaims(c.n, claims)
  {
    SubsetSize(claims.Keys * Peers(c.n), AddClaim(claims, e).Keys * Peers(c.n));
  }

  lemma StabilizeOk(c: Config, sent: set<Envelope>, m: Checkpoints, cp: Checkpoint)
    requires c.HasPeers() && CpsOk(c, sent, m) && cp in m.partial
    requires PeerClaims(c.n, m.partial[cp]) >= HonestMember(c.n)
    ensures CpsOk(c, sent, Stabilize(m, cp))
  {
  }

  lemma RecordClaimOk(c: Config, sent: set<Envelope>, m: Checkpoints, e: Envelope)
    requires c.HasPeers() && CpsOk(c, sent, m) && (c.Correct(e.sender) ==> e in sent)
    ensures CpsOk(c, sent, RecordClaim(c.n, m, e))
  {
    if e.msg.CheckpointMsg? {
      var cp := e.msg.cp;
      if cp == m.stable {
        AddClaimOk(c, sent, m.stable, m.stableProof, e);
        hide ClaimsOk, AddClaim, PeerClaims;
      } else {
        AddClaimOk(c, sent, cp, m.Claims(cp), e);
        hide ClaimsOk, AddClaim, PeerClaims, Stabilize;
        var m1 := m.(partial := m.partial[cp := AddClaim(m.Claims(cp), e)]);
        assert CpsOk(c, sent, m1);
        if PeerClaims(c.n, m1.partial[cp]) >= HonestMember(c.n) { StabilizeOk(c, sent, m1, cp); }
      }
    }
  }

  /** The deletion bound never moves back. */
  lemma RecordClaimBound(n: nat, m: Checkpoints, e: Envelope)
    requires n > 0
    ensures RecordClaim(n, m, e).SafeBound() >= m.SafeBound()
  {
  }

  lemma {:induction false} RecordClaimsOk(c: Config, sent: set<Envelope>, m: Checkpoints, es: seq<Envelope>)
    requires c.HasPeers() && CpsOk(c, sent, m) && forall e | e in es :: c.Correct(e.sender) ==> e in sent
    ensures CpsOk(c, sent, RecordClaims(c.n, m, es))
    ensures RecordClaims(c.n, m, es).SafeBound() >= m.SafeBound()
    decreases |es|
  {
    if es != [] {
      RecordClaimOk(c, sent, m, es[0]);
      RecordClaimBound(c.n, m, es[0]);
      RecordClaimsOk(c, sent, RecordClaim(c.n, m, es[0]), es[1..]);
    }
  }

  lemma SetCheckpointsOk(c: Config, sent: set<Envelope>, s: State, cps: Checkpoints)
    requires c.HasPeers() && Local(c, sent, s) && CpsOk(c, sent, cps) && cps.SafeBound() >= s.cps.SafeBound()
    ensures Local(c, sent, s.(cps := cps))
  {
  }

  lemma HandleExecutedOk(c: Config, sent: set<Envelope>, s: State, cp: Checkpoint)
    requires c.HasPeers() && Local(c, sent, s)
    ensures var eff := HandleExecuted(s, cp); Local(c, sent + Signed(s.id, eff.out), eff.state)
  {
    var eff := HandleExecuted(s, cp);
    LocalFrame(c, sent, sent + Signed(s.id, eff.out), s);
  }

  lemma HandleRequestOk(c: Config, sent: set<Envelope>, s: State, h: Hash)
    requires c.HasPeers() && Local(c, sent, s)
    ensures var eff := HandleRequest(c, s, h); Local(c, sent + Signed(s.id, eff.out), eff.state)
  {
    var eff := HandleRequest(c, s, h);
    var more := sent + Signed(s.id, eff.out);
    LocalFrame(c, sent, more, s);
    if s.id == c.Primary(s.view) {
      var k := OpKey(s.view, s.nextIssued, h);
      RecordOk(c, more, s, k, Find(s.ops, k).(hasRequest := true));
    }
  }

  // ---- view changes ----

  lemma InitiateViewchangeOk(c: Config, sent: set<Envelope>, s: State, w: nat, vc: Msg)
    requires c.HasPeers() && Local(c, sent, s) && ViewchangeFrom(s.cps, s.ops, w, vc)
    ensures var eff := InitiateViewchange(s, w, vc);
            Local(c, sent + Signed(s.id, eff.out), eff.state) && AllAuthenticNew(c, sent, Signed(s.id, eff.out))
  {
    var eff := InitiateViewchange(s, w, vc);
    if w > s.lastViewSent {
      ViewchangeMadeIsValid(c, sent, s, w, vc);
      ViewchangeMadeIsAuthentic(c, sent, s, w, vc);
      GrowsFrame(c, sent, sent + {Envelope(s.id, vc)}, s);
      hide ViewchangeFrom, WellFormedViewchange, Authentic, OpsOk, CpsOk, SavedViewchangesOk, Certified;
      assert Signed(s.id, eff.out) == {Envelope(s.id, vc)};
    } else {
      assert sent + Signed(s.id, eff.out) == sent;
    }
  }

  /** The new envelopes are authentic once they are out. */
  ghost predicate AllAuthenticNew(c: Config, sent: set<Envelope>, added: set<Envelope>)
  {
    forall e | e in added :: Authentic(c, sent + added, e)
  }

  lemma {:induction false} SaveRequestsOk(c: Config, sent: set<Envelope>, s: State, proofs: seq<Proof>,
                                          requests: set<Hash>)
    requires c.HasPeers() && Local(c, sent, s)
    ensures Local(c, sent, s.(ops := SaveRequests(s.ops, proofs, requests)))
    decreases |proofs|
  {
    if proofs == [] {
    } else {
      var pp := proofs[0].prePrepare.msg;
      if pp.PrePrepare? && pp.hash in requests {
        var k := OpKey(pp.view, pp.sequence, pp.hash);
        RequestSavedOk(c, sent, s, k);
        SaveRequestsOk(c, sent, s.(ops := s.ops[k := Find(s.ops, k).(hasRequest := true)]), proofs[1..], requests);
      } else {
        SaveRequestsOk(c, sent, s, proofs[1..], requests);
      }
    }
  }

  lemma RequestSavedOk(c: Config, sent: set<Envelope>, s: State, k: OpKey)
    requires c.HasPeers() && Local(c, sent, s)
    ensures Local(c, sent, s.(ops := s.ops[k := Find(s.ops, k).(hasRequest := true)]))
  {
    assert OpOk(c, sent, s.id, s.view, k, Find(s.ops, k));
    RecordOk(c, sent, s, k, Find(s.ops, k).(hasRequest := true));
  }

  lemma AddViewchangeOk(c: Config, sent: set<Envelope>, s: State, e: Envelope)
    requires c.HasPeers() && SavedViewchangesOk(c, sent, s.viewchanges) && WellFormedViewchange(c, e)
             && Authentic(c, sent, e)
    ensures SavedViewchangesOk(c, sent, s.viewchanges[e.msg.view := AddClaim(ViewchangesFor(s, e.msg.view), e)])
  {
    hide WellFormedViewchange, Authentic;
  }

  lemma SaveViewchangeOk(c: Config, sent: set<Envelope>, s: State, e: Envelope, requests: set<Hash>)
    requires c.HasPeers() && Local(c, sent, s) && WellFormedViewchange(c, e) && Authentic(c, sent, e)
    ensures Local(c, sent, SaveViewchange(c, s, e, requests))
  {
    SaveRequestsOk(c, sent, s, e.msg.proofs, requests);
    RecordClaimsOk(c, sent, s.cps, e.msg.checkpoints);
    AddViewchangeOk(c, sent, s, e);
    hide Local, SaveRequests, RecordClaims, WellFormedViewchange, Authentic, CpsOk, SavedViewchangesOk;
    var s1 := s.(ops := SaveRequests(s.ops, e.msg.proofs, requests));
    SetViewchangesOk(c, sent, s1, s.viewchanges[e.msg.view := AddClaim(ViewchangesFor(s, e.msg.view), e)]);
    var s2 := s1.(viewchanges := s.viewchanges[e.msg.view := AddClaim(ViewchangesFor(s, e.msg.view), e)]);
    SetCheckpointsOk(c, sent, s2, RecordClaims(c.n, s.cps, e.msg.checkpoints));
  }

  lemma SetViewchangesOk(c: Config, sent: set<Envelope>, s: State, saved: map<nat, map<Uuid, Envelope>>)
    requires c.HasPeers() && Local(c, sent, s) && SavedViewchangesOk(c, sent, saved)
    ensures Local(c, sent, s.(viewchanges := saved))
  {
    hide CpsOk, SavedViewchangesOk, OpOk;
  }

  /** The viewchanges saved for a view. */
  lemma SavedSet(c: Config, sent: set<Envelope>, s: State, w: nat)
    requires c.HasPeers() && SavedViewchangesOk(c, sent, s.viewchanges)
    ensures ViewchangeSet(c, w, ViewchangesFor(s, w))
    ensures forall u | u in ViewchangesFor(s, w) :: Authentic(c, sent, ViewchangesFor(s, w)[u])
  {
    hide WellFormedViewchange, Authentic;
    forall u | u in ViewchangesFor(s, w) ensures SavedViewchangeOk(c, sent, w, u, ViewchangesFor(s, w)[u]) {
    }
  }

  lemma NewviewOutOk(c: Config, sent: set<Envelope>, s: State, w: nat)
    requires c.HasPeers() && Local(c, sent, s)
    ensures Local(c, sent + Signed(s.id, NewviewOut(c, s, w)), s)
    ensures AllAuthenticNew(c, sent, Signed(s.id, NewviewOut(c, s, w)))
  {
    var out := NewviewOut(c, s, w);
    var more := sent + Signed(s.id, out);
    NewviewOutKinds(c, s, w);
    LocalFrame(c, sent, more, s);
    SavedSet(c, sent, s, w);
    hide Local, NewviewOut, ViewchangeSet;
    forall e | e in Signed(s.id, out) ensures Authentic(c, more, e) {
      if e.msg.NewView? { NewviewMadeIsAuthentic(c, sent, more, s.id, e.msg, w, ViewchangesFor(s, w)); }
    }
  }

  lemma NewviewOutKinds(c: Config, s: State, w: nat)
    requires c.HasPeers()
    ensures forall m | m in NewviewOut(c, s, w) ::
              || m.PrePrepare?
              || (&& m.NewView? && m.viewchanges == InOrder(ViewchangesFor(s, w), c.n)
                  && forall x | x in m.preprepares ::
                      x.sender == s.id && x.msg.PrePrepare? && x.msg in NewviewOut(c, s, w))
  {
    if Candidates(c, s) != {} {
      var pps := NewPrePrepares(c, MinOf(Candidates(c, s)), ViewchangesFor(s, w));
      forall m | m in pps ensures m.PrePrepare? { }
      forall x | x in Wrap(s.id, pps) ensures x.sender == s.id && x.msg in pps { }
    }
  }

  lemma NewviewMadeIsAuthentic(c: Config, sent: set<Envelope>, more: set<Envelope>, id: Uuid, nv: Msg, w: nat,
                               vcs: map<Uuid, Envelope>)
    requires c.HasPeers() && sent <= more && nv.NewView? && Envelope(id, nv) in more
    requires ViewchangeSet(c, w, vcs) && forall u | u in vcs :: Authentic(c, sent, vcs[u])
    requires nv.viewchanges == InOrder(vcs, c.n) && forall x | x in nv.preprepares :: x.msg.PrePrepare? && x in more
    ensures Authentic(c, more, Envelope(id, nv))
  {
    InOrderSound(vcs, c.n);
    forall x | x in nv.viewchanges ensures Authentic(c, more, x) {
      AuthenticGrows(c, sent, more, x);
    }
  }

  lemma HandleViewchangeOk(c: Config, sent: set<Envelope>, s: State, e: Envelope, requests: set<Hash>, vc: Msg)
    requires c.HasPeers() && Local(c, sent, s) && Authentic(c, sent, e) && GoodChoice(c, s, e, requests, vc)
    ensures var eff := HandleViewchange(c, s, e, requests, vc);
            Local(c, sent + Signed(s.id, eff.out), eff.state) && AllAuthenticNew(c, sent, Signed(s.id, eff.out))
  {
    var eff := HandleViewchange(c, s, e, requests, vc);
    if !ValidViewchange(c, s.view, e) {
      assert sent + Signed(s.id, eff.out) == sent;
    } else {
      SaveViewchangeOk(c, sent, s, e, requests);
      var s1 := SaveViewchange(c, s, e, requests);
      hide Local, WellFormedViewchange, SaveViewchange, NewviewOut, ViewchangeFrom, Authentic;
      var joined := if JoinsViewchange(c, s1, e.msg.view) then InitiateViewchange(s1, e.msg.view, vc) else Nothing(s1);
      if JoinsViewchange(c, s1, e.msg.view) {
        InitiateViewchangeOk(c, sent, s1, e.msg.view, vc);
      } else {
        assert sent + Signed(s.id, joined.out) == sent;
      }
      ThenOk(c, sent, s.id, joined.out, joined.state, e.msg.view);
    }
  }

  /** A NEWVIEW sent after whatever else the handler sent. */
  lemma ThenOk(c: Config, sent: set<Envelope>, id: Uuid, out: set<Msg>, s: State, w: nat)
    requires c.HasPeers() && s.id == id && Local(c, sent + Signed(id, out), s)
             && AllAuthenticNew(c, sent, Signed(id, out))
    ensures var all := out + NewviewOut(c, s, w);
            Local(c, sent + Signed(id, all), s) && AllAuthenticNew(c, sent, Signed(id, all))
  {
    var mid := sent + Signed(id, out);
    var last := NewviewOut(c, s, w);
    NewviewOutOk(c, mid, s, w);
    hide Local, NewviewOut;
    assert mid + Signed(id, last) == sent + Signed(id, out + last);
    forall e | e in Signed(id, out + last) ensures Authentic(c, sent + Signed(id, out + last), e) {
      if e in Signed(id, out) { AuthenticGrows(c, mid, sent + Signed(id, out + last), e); }
    }
  }

  /** Only prepares and commits come out of pre-prepares. */
  lemma {:induction false} PrepreparesKinds(c: Config, s: State, es: seq<Envelope>, requests: set<Hash>)
    requires c.HasPeers() && forall e | e in es :: e.msg.PrePrepare?
    ensures forall m | m in HandlePreprepares(c, s, es, requests).out :: m.Prepare? || m.Commit?
    decreases |es|
  {
    if es != [] {
      var first := HandlePreprepare(c, s, es[0], requests);
      PrepreparesKinds(c, first.state.(nextIssued := es[0].msg.sequence + 1), es[1..], requests);
    }
  }

  lemma EnterViewOk(c: Config, sent: set<Envelope>, s: State, e: Envelope)
    requires c.HasPeers() && Local(c, sent, s) && Authentic(c, sent, e) && ValidNewview(c, s.view, e)
    ensures Local(c, sent, EnterView(c, s, e.msg))
  {
    var vc := e.msg.viewchanges[0];
    assert vc in e.msg.viewchanges && Authentic(c, sent, vc);
    RecordClaimsOk(c, sent, s.cps, vc.msg.checkpoints);
    SetCheckpointsOk(c, sent, s, RecordClaims(c.n, s.cps, vc.msg.checkpoints));
    SetViewOk(c, sent, s.(cps := RecordClaims(c.n, s.cps, vc.msg.checkpoints)), e.msg.view, vc.msg.base + 1);
  }

  lemma SetViewOk(c: Config, sent: set<Envelope>, s: State, view: nat, next: nat)
    requires c.HasPeers() && Local(c, sent, s) && view >= s.view
    ensures Local(c, sent, s.(view := view, viewIsValid := true, nextIssued := next))
  {
  }

  lemma NewviewPreprepares(c: Config, sent: set<Envelope>, view: nat, e: Envelope)
    requires c.HasPeers() && Authentic(c, sent, e) && ValidNewview(c, view, e)
    ensures forall x | x in e.msg.preprepares ::
              c.IsPeer(x.sender) && (c.Correct(x.sender) ==> x in sent) && x.msg.PrePrepare? && x.msg.view == e.msg.view
  {
    forall x | x in e.msg.preprepares ensures c.Correct(x.sender) ==> x in sent { assert Authentic(c, sent, x); }
  }

  lemma HandleNewviewOk(c: Config, sent: set<Envelope>, s: State, e: Envelope, requests: set<Hash>)
    requires c.HasPeers() && Local(c, sent, s) && Authentic(c, sent, e)
    ensures var eff := HandleNewview(c, s, e, requests); Local(c, sent + Signed(s.id, eff.out), eff.state)
    ensures forall m | m in HandleNewview(c, s, e, requests).out :: m.Prepare? || m.Commit?
  {
    var eff := HandleNewview(c, s, e, requests);
    if !ValidNewview(c, s.view, e) {
      assert sent + Signed(s.id, eff.out) == sent;
    } else {
      EnterViewOk(c, sent, s, e);
      NewviewPreprepares(c, sent, s.view, e);
      hide Local, ValidNewview, Authentic;
      HandlePrepreparesOk(c, sent, EnterView(c, s, e.msg), e.msg.preprepares, requests);
      PrepreparesKinds(c, EnterView(c, s, e.msg), e.msg.preprepares, requests);
    }
  }

  // ---- whole steps and runs ----

  lemma FlatOk(c: Config, sent: set<Envelope>, id: Uuid, out: set<Msg>)
    requires forall m | m in out :: !m.ViewChange? && !m.NewView?
    ensures AllAuthenticNew(c, sent, Signed(id, out))
  {
  }

  /** No handler changes the replica's own id. */
  lemma {:induction false} PrepreparesId(c: Config, s: State, es: seq<Envelope>, requests: set<Hash>)
    requires c.HasPeers() && forall e | e in es :: e.msg.PrePrepare?
    ensures HandlePreprepares(c, s, es, requests).state.id == s.id
    decreases |es|
  {
    if es != [] {
      var first := HandlePreprepare(c, s, es[0], requests);
      PrepreparesId(c, first.state.(nextIssued := es[0].msg.sequence + 1), es[1..], requests);
    }
  }

  lemma EffectId(c: Config, s: State, step: Step)
    requires c.HasPeers()
    ensures EffectOf(c, s, step).state.id == s.id
  {
    hide HandleNewview, HandleViewchange, HandlePreprepare, HandleVote, RecordClaim;
    if step.Deliver? { HandlersKeepId(c, s, step.e, step.requests, step.vc); }
  }

  lemma HandlersKeepId(c: Config, s: State, e: Envelope, requests: set<Hash>, vc: Msg)
    requires c.HasPeers()
    ensures HandleNewview(c, s, e, requests).state.id == s.id
    ensures HandleViewchange(c, s, e, requests, vc).state.id == s.id
    ensures e.msg.PrePrepare? ==> HandlePreprepare(c, s, e, requests).state.id == s.id
    ensures e.msg.Prepare? || e.msg.Commit? ==> HandleVote(c, s, e).state.id == s.id
  {
    NewviewKeepsId(c, s, e, requests);
    hide HandleNewview, SaveRequests, RecordClaims, NewviewOut, ValidViewchange;
  }

  lemma NewviewKeepsId(c: Config, s: State, e: Envelope, requests: set<Hash>)
    requires c.HasPeers()
    ensures HandleNewview(c, s, e, requests).state.id == s.id
  {
    hide HandlePreprepares, RecordClaims;
    if ValidNewview(c, s.view, e) {
      assert e.msg.viewchanges[0] in e.msg.viewchanges;
      PrepreparesId(c, EnterView(c, s, e.msg), e.msg.preprepares, requests);
    }
  }

  lemma DeliverVoteOk(c: Config, sent: set<Envelope>, s: State, e: Envelope, requests: set<Hash>)
    requires c.HasPeers() && Local(c, sent, s) && e in sent && c.IsPeer(e.sender)
    requires (e.msg.PrePrepare? || e.msg.Prepare? || e.msg.Commit?) && e.msg.view == s.view
    ensures var eff := if e.msg.PrePrepare? then HandlePreprepare(c, s, e, requests) else HandleVote(c, s, e);
            Local(c, sent + Signed(s.id, eff.out), eff.state) && AllAuthenticNew(c, sent, Signed(s.id, eff.out))
  {
    if e.msg.PrePrepare? {
      FlatOk(c, sent, s.id, HandlePreprepare(c, s, e, requests).out);
      hide Local, HandlePreprepare, AllAuthenticNew;
      HandlePreprepareOk(c, sent, s, e, requests);
    } else {
      FlatOk(c, sent, s.id, HandleVote(c, s, e).out);
      hide Local, HandleVote, AllAuthenticNew;
      HandleVoteOk(c, sent, s, e);
    }
  }

  lemma DeliverOk(c: Config, sent: set<Envelope>, s: State, e: Envelope, requests: set<Hash>, vc: Msg)
    requires c.HasPeers() && Local(c, sent, s) && Authentic(c, sent, e) && e in sent
             && GoodChoice(c, s, e, requests, vc)
    ensures var eff := HandleMessage(c, s, e, requests, vc);
            Local(c, sent + Signed(s.id, eff.out), eff.state) && AllAuthenticNew(c, sent, Signed(s.id, eff.out))
  {
    hide GoodChoice, HandleVote, HandlePreprepare, HandleViewchange, HandleNewview, Authentic;
    var eff := HandleMessage(c, s, e, requests, vc);
    if eff == Nothing(s) {
      assert sent + Signed(s.id, eff.out) == sent;
    } else if e.msg.CheckpointMsg? {
      RecordClaimOk(c, sent, s.cps, e);
      RecordClaimBound(c.n, s.cps, e);
      SetCheckpointsOk(c, sent, s, RecordClaim(c.n, s.cps, e));
      assert sent + Signed(s.id, eff.out) == sent;
    } else {
      hide Local;
      if e.msg.ViewChange? {
        HandleViewchangeOk(c, sent, s, e, requests, vc);
      } else if e.msg.NewView? {
        HandleNewviewOk(c, sent, s, e, requests);
        FlatOk(c, sent, s.id, eff.out);
      } else {
        DeliverVoteOk(c, sent, s, e, requests);
      }
    }
  }

  lemma EffectOk(c: Config, y: System, step: Step)
    requires c.HasPeers() && Inv(c, y) && Enabled(c, y, step) && !step.Inject?
    ensures var s := y.replicas[step.r]; var eff := EffectOf(c, s, step);
            Local(c, y.sent + Signed(step.r, eff.out), eff.state) && AllAuthenticNew(c, y.sent, Signed(step.r, eff.out))
  {
    var s := y.replicas[step.r];
    assert s.id == step.r && Local(c, y.sent, s);
    assert step.Deliver? ==> Authentic(c, y.sent, step.e);
    hide Local, AllAuthentic, Authentic, ViewchangeFrom, GoodChoice;
    match step
    case Deliver(_, e, requests, vc) => DeliverOk(c, y.sent, s, e, requests, vc);
    case Request(_, h) => HandleRequestOk(c, y.sent, s, h);
    case Failure(_, vc) => InitiateViewchangeOk(c, y.sent, s, s.view + 1, vc);
    case Executed(_, cp) => HandleExecutedOk(c, y.sent, s, cp);
  }

  lemma InjectOk(c: Config, y: System, e: Envelope)
    requires c.HasPeers() && Inv(c, y) && !c.Correct(e.sender) && Authentic(c, y.sent, e)
    ensures Inv(c, y.(sent := y.sent + {e}))
  {
    var more := y.sent + {e};
    AuthenticGrows(c, y.sent, more, e);
    AuthenticFrame(c, y.sent, more);
    hide Local, AllAuthentic, Authentic;
    forall u | u in y.replicas ensures Local(c, more, y.replicas[u]) {
      LocalFrame(c, y.sent, more, y.replicas[u]);
    }
  }

  lemma BroadcastOk(c: Config, y: System, r: Uuid, s: State, out: set<Msg>)
    requires c.HasPeers() && Inv(c, y) && r in y.replicas && s.id == r
    requires Local(c, y.sent + Signed(r, out), s) && AllAuthenticNew(c, y.sent, Signed(r, out))
    ensures Inv(c, System(y.replicas[r := s], y.sent + Signed(r, out)))
  {
    var more := y.sent + Signed(r, out);
    AuthenticFrame(c, y.sent, more);
    hide Local, AllAuthentic, AllAuthenticNew, Authentic;
    forall u | u in y.replicas && u != r ensures Local(c, more, y.replicas[u]) {
      LocalFrame(c, y.sent, more, y.replicas[u]);
    }
  }

  /** Every step keeps the invariant. */
  lemma StepOk(c: Config, y: System, step: Step)
    requires c.HasPeers() && Inv(c, y) && Enabled(c, y, step)
    ensures Inv(c, Apply(c, y, step))
  {
    if step.Inject? {
      hide Inv;
      InjectOk(c, y, step.e);
    } else {
      assert step.r in y.replicas && y.replicas[step.r].id == step.r;
      hide Inv, EffectOf, Local, AllAuthenticNew;
      EffectOk(c, y, step);
      EffectId(c, y.replicas[step.r], step);
      var eff := EffectOf(c, y.replicas[step.r], step);
      BroadcastOk(c, y, step.r, eff.state, eff.out);
    }
  }

  lemma InitOk(c: Config, y: System)
    requires c.HasPeers() && Init(c, y)
    ensures Inv(c, y)
  {
  }

  lemma {:induction false} RunOk(c: Config, states: seq<System>, steps: seq<Step>, i: nat)
    requires c.HasPeers() && IsRun(c, states, steps) && i < |states|
    ensures Inv(c, states[i])
  {
    if i == 0 {
      InitOk(c, states[0]);
    } else {
      RunOk(c, states, steps, i - 1);
      assert Takes(c, states, steps, i - 1);
      StepOk(c, states[i - 1], steps[i - 1]);
    }
  }
}
