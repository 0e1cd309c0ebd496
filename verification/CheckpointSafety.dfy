/** How checkpoints may move, over single claims and over whole runs. */
module CheckpointSafety {
  import opened Quorum
  import opened Messages
  import opened Checkpoints
  import opened ViewChange
  import opened Replica
  import opened Protocol
  import opened Views
  import opened Runs

  /** A move the checkpoint manager may make: the local checkpoint and the deletion bound do not
      move back, and a newly stable checkpoint is at or above the local one. */
  predicate Forward(m: Checkpoints, m': Checkpoints)
  {
    && m'.local.sequence >= m.local.sequence
    && m'.SafeBound() >= m.SafeBound()
    && (m'.stable == m.stable || m'.stable.sequence >= m.local.sequence)
  }

  lemma RecordClaimForward(n: nat, m: Checkpoints, e: Envelope)
    requires n > 0
    ensures Forward(m, RecordClaim(n, m, e))
  {
  }

  lemma {:induction false} RecordClaimsForward(n: nat, m: Checkpoints, es: seq<Envelope>)
    requires n > 0
    ensures Forward(m, RecordClaims(n, m, es)) && RecordClaims(n, m, es).local == m.local
    decreases |es|
  {
    if es != [] { RecordClaimsForward(n, RecordClaim(n, m, es[0]), es[1..]); }
  }

  lemma EffectForward(c: Config, s: State, step: Step)
    requires c.HasPeers()
    ensures Forward(s.cps, EffectOf(c, s, step).state.cps)
  {
    hide HandleNewview, HandleViewchange, HandlePreprepare, HandleVote, RecordClaim;
    if step.Deliver? {
      var e := step.e;
      if e.msg.CheckpointMsg? {
        RecordClaimForward(c.n, s.cps, e);
      } else if e.msg.NewView? {
        NewviewForward(c, s, e, step.requests);
      } else if e.msg.ViewChange? {
        ViewchangeForward(c, s, e, step.requests, step.vc);
      } else {
        VotesKeepCheckpoints(c, s, e, step.requests);
      }
    }
  }

  lemma NewviewForward(c: Config, s: State, e: Envelope, requests: set<Hash>)
    requires c.HasPeers()
    ensures Forward(s.cps, HandleNewview(c, s, e, requests).state.cps)
  {
    hide ValidNewview;
    if ValidNewview(c, s.view, e) {
      NewviewFacts(c, s.view, e);
      RecordClaimsForward(c.n, s.cps, e.msg.viewchanges[0].msg.checkpoints);
      PrepreparesRules(c, EnterView(c, s, e.msg), e.msg.preprepares, requests);
    }
  }

  lemma ViewchangeForward(c: Config, s: State, e: Envelope, requests: set<Hash>, vc: Msg)
    requires c.HasPeers() && e.msg.ViewChange?
    ensures Forward(s.cps, HandleViewchange(c, s, e, requests, vc).state.cps)
  {
    hide WellFormedViewchange, NewviewOut;
    RecordClaimsForward(c.n, s.cps, e.msg.checkpoints);
  }

  lemma VotesKeepCheckpoints(c: Config, s: State, e: Envelope, requests: set<Hash>)
    requires c.HasPeers()
    ensures e.msg.PrePrepare? ==> HandlePreprepare(c, s, e, requests).state.cps == s.cps
    ensures e.msg.Prepare? || e.msg.Commit? ==> HandleVote(c, s, e).state.cps == s.cps
  {
  }

  /** The bound below which operations are deleted never moves back, nor does the local checkpoint. */
  lemma {:induction false} BoundNeverRegresses(c: Config, states: seq<System>, steps: seq<Step>, i: nat, j: nat,
                                               r: Uuid)
    requires c.HasPeers() && IsRun(c, states, steps) && i <= j < |states| && c.Correct(r)
    ensures r in states[i].replicas && r in states[j].replicas
    ensures states[i].replicas[r].cps.SafeBound() <= states[j].replicas[r].cps.SafeBound()
    ensures states[i].replicas[r].cps.local.sequence <= states[j].replicas[r].cps.local.sequence
    decreases j
  {
    hide Local;
    if i < j {
      BoundNeverRegresses(c, states, steps, i, j - 1, r);
      CheckpointStep(c, states, steps, j - 1, r);
    } else {
      Present(c, states, steps, i, r);
    }
  }

  lemma CheckpointStep(c: Config, states: seq<System>, steps: seq<Step>, i: nat, r: Uuid)
    requires c.HasPeers() && IsRun(c, states, steps) && i < |steps| && c.Correct(r)
    ensures r in states[i].replicas && r in states[i + 1].replicas
    ensures Forward(states[i].replicas[r].cps, states[i + 1].replicas[r].cps)
  {
    assert Takes(c, states, steps, i);
    Present(c, states, steps, i, r);
    Present(c, states, steps, i + 1, r);
    hide IsRun, Local, EffectOf, Enabled;
    EffectForward(c, states[i].replicas[r], steps[i]);
  }

  /** The stable checkpoint does not move back in a step that starts with the local one at or above it. */
  lemma StableStaysWhileLocalKeepsUp(c: Config, states: seq<System>, steps: seq<Step>, i: nat, r: Uuid)
    requires c.HasPeers() && IsRun(c, states, steps) && i < |steps| && c.Correct(r)
    requires r in states[i].replicas
    requires states[i].replicas[r].cps.local.sequence >= states[i].replicas[r].cps.stable.sequence
    ensures r in states[i + 1].replicas
    ensures states[i + 1].replicas[r].cps.stable.sequence >= states[i].replicas[r].cps.stable.sequence
  {
    CheckpointStep(c, states, steps, i, r);
  }

  /** Every stable checkpoint but the initial one carries f+1 peers' claims of its sequence and
      hash, one of them made by a correct replica. */
  lemma StableIsAttested(c: Config, states: seq<System>, steps: seq<Step>, i: nat, r: Uuid) returns (u: Uuid)
    requires c.Tolerable() && IsRun(c, states, steps) && i < |states| && c.Correct(r)
    requires r in states[i].replicas && states[i].replicas[r].cps.stable != INITIAL
    ensures var m := states[i].replicas[r].cps;
            && PeerClaims(c.n, m.stableProof) >= HonestMember(c.n)
            && (forall x | x in m.stableProof :: m.stableProof[x] == Envelope(x, CheckpointMsg(m.stable)))
            && c.Correct(u) && Envelope(u, CheckpointMsg(m.stable)) in states[i].sent
  {
    Present(c, states, steps, i, r);
    var m := states[i].replicas[r].cps;
    assert CpsOk(c, states[i].sent, m);
    hide Local;
    u := CorrectMember(c.n, m.stableProof.Keys * Peers(c.n), c.faulty);
  }

  // ---- when the stable checkpoint alone can move back ----

  /** The peers whose claim of cp can be delivered: those that sent it, and the faulty ones. */
  ghost function Claimants(c: Config, sent: set<Envelope>, cp: Checkpoint): set<Uuid>
  {
    set u | u in Peers(c.n) && (c.Correct(u) ==> Envelope(u, CheckpointMsg(cp)) in sent)
  }

  /** Enough of them for cp to become stable somewhere. */
  ghost predicate Attestable(c: Config, sent: set<Envelope>, cp: Checkpoint)
    requires c.HasPeers()
  {
    |Claimants(c, sent, cp)| >= HonestMember(c.n)
  }

  /** Claims that can be delivered after what has been sent. */
  ghost predicate Deliverable(c: Config, sent: set<Envelope>, es: seq<Envelope>)
  {
    forall e | e in es :: e.msg.CheckpointMsg? && Authentic(c, sent, e)
  }

  /** Every claim held is one that can be delivered. */
  ghost predicate HoldsGenuine(c: Config, sent: set<Envelope>, m: Checkpoints)
  {
    forall cp | cp in m.partial :: m.partial[cp].Keys * Peers(c.n) <= Claimants(c, sent, cp)
  }

  lemma OneClaimRecorded(c: Config, sent: set<Envelope>, m: Checkpoints, e: Envelope)
    requires c.HasPeers() && HoldsGenuine(c, sent, m) && e.msg.CheckpointMsg? && Authentic(c, sent, e)
    ensures var m' := RecordClaim(c.n, m, e);
            && HoldsGenuine(c, sent, m') && m'.local == m.local
            && (m'.stable == m.stable || (m'.stable.sequence >= m.local.sequence && Attestable(c, sent, m'.stable)))
  {
    var cp := e.msg.cp;
    var claims := AddClaim(m.Claims(cp), e);
    assert e == Envelope(e.sender, CheckpointMsg(cp));
    assert claims.Keys * Peers(c.n) <= Claimants(c, sent, cp);
    SubsetSize(claims.Keys * Peers(c.n), Claimants(c, sent, cp));
  }

  /** Whatever is delivered, a new stable checkpoint is at or above the local one and attestable. */
  lemma {:induction false} ClaimsRecorded(c: Config, sent: set<Envelope>, m: Checkpoints, es: seq<Envelope>)
    requires c.HasPeers() && HoldsGenuine(c, sent, m) && Deliverable(c, sent, es)
    ensures var m' := RecordClaims(c.n, m, es);
            m'.stable == m.stable || (m'.stable.sequence >= m.local.sequence && Attestable(c, sent, m'.stable))
    decreases |es|
  {
    hide HoldsGenuine, RecordClaim, Attestable, Authentic;
    if es != [] {
      OneClaimRecorded(c, sent, m, es[0]);
      ClaimsRecorded(c, sent, RecordClaim(c.n, m, es[0]), es[1..]);
    }
  }

  /** The claims of the peers below u that are in s. */
  function ClaimsBy(cp: Checkpoint, s: set<Uuid>, u: nat): seq<Envelope>
  {
    if u == 0 then []
    else ClaimsBy(cp, s, u - 1) + if u - 1 in s then [Envelope(u - 1, CheckpointMsg(cp))] else []
  }

  lemma {:induction false} RecordClaimsAppend(n: nat, m: Checkpoints, es: seq<Envelope>, e: Envelope)
    requires n > 0
    ensures RecordClaims(n, m, es + [e]) == RecordClaim(n, RecordClaims(n, m, es), e)
    decreases |es|
  {
    if es == [] {
      assert RecordClaims(n, RecordClaim(n, m, e), [e][1..]) == RecordClaim(n, m, e);
    } else {
      assert (es + [e])[1..] == es[1..] + [e];
      RecordClaimsAppend(n, RecordClaim(n, m, es[0]), es[1..], e);
    }
  }

  /** After the claims of the first u peers, as far as they are in s. */
  function AfterClaims(n: nat, m: Checkpoints, cp: Checkpoint, s: set<Uuid>, u: nat): Checkpoints
    requires n > 0
  {
    RecordClaims(n, m, ClaimsBy(cp, s, u))
  }

  lemma AfterNext(n: nat, m: Checkpoints, cp: Checkpoint, s: set<Uuid>, u: nat)
    requires n > 0
    ensures var m1 := AfterClaims(n, m, cp, s, u);
            AfterClaims(n, m, cp, s, u + 1)
            == if u in s then RecordClaim(n, m1, Envelope(u, CheckpointMsg(cp))) else m1
  {
    hide RecordClaim;
    if u in s {
      RecordClaimsAppend(n, m, ClaimsBy(cp, s, u), Envelope(u, CheckpointMsg(cp)));
    } else {
      assert ClaimsBy(cp, s, u + 1) == ClaimsBy(cp, s, u);
    }
  }

  /** The claims of some of the first u peers make cp stable. */
  ghost predicate MadeStable(n: nat, m: Checkpoints, cp: Checkpoint, s: set<Uuid>, u: nat)
    requires n > 0
  {
    exists v: nat :: v <= u && AfterClaims(n, m, cp, s, v).stable == cp
  }

  /** The claims are held and are not enough. */
  ghost predicate Pending(n: nat, m: Checkpoints, m': Checkpoints, cp: Checkpoint, claimed: set<Uuid>)
    requires n > 0
  {
    && m'.stable == m.stable && m'.local == m.local && claimed <= m'.Claims(cp).Keys
    && |claimed| < HonestMember(n)
  }

  /** The members of s among the first u peers. */
  function Among(s: set<Uuid>, u: nat): set<Uuid> { s * Peers(u) }

  lemma NextAmong(s: set<Uuid>, u: nat, n: nat)
    requires u < n
    ensures u in Peers(n) && Among(s, u) <= Peers(n)
    ensures Among(s, u + 1) == if u in s then Among(s, u) + {u} else Among(s, u)
  {
    assert Below(u, n);
  }

  lemma NothingClaimed(n: nat, m: Checkpoints, cp: Checkpoint, s: set<Uuid>)
    requires n > 0
    ensures Pending(n, m, AfterClaims(n, m, cp, s, 0), cp, Among(s, 0))
  {
    assert Among(s, 0) == {};
  }

  /** Peers that claim cp in turn: until enough of them have, the stable checkpoint is unchanged
      and their claims are held. */
  lemma {:induction false} ClaimsAccumulate(n: nat, m: Checkpoints, cp: Checkpoint, s: set<Uuid>, u: nat)
    requires n > 0 && u <= n && m.local.sequence <= cp.sequence < m.stable.sequence
    ensures MadeStable(n, m, cp, s, u) || Pending(n, m, AfterClaims(n, m, cp, s, u), cp, Among(s, u))
  {
    hide Peers, AfterClaims, RecordClaim, Pending, Among;
    if u == 0 {
      NothingClaimed(n, m, cp, s);
    } else {
      NextAmong(s, u - 1, n);
      AfterNext(n, m, cp, s, u - 1);
      ClaimsAccumulate(n, m, cp, s, u - 1);
      if MadeStable(n, m, cp, s, u - 1) {
        var v: nat :| v <= u - 1 && AfterClaims(n, m, cp, s, v).stable == cp;
      } else if u - 1 in s {
        OneMoreClaim(n, m, AfterClaims(n, m, cp, s, u - 1), cp, Among(s, u - 1), u - 1);
      }
    }
  }

  lemma OneMoreClaim(n: nat, m: Checkpoints, m1: Checkpoints, cp: Checkpoint, claimed: set<Uuid>, v: Uuid)
    requires n > 0 && m.local.sequence <= cp.sequence < m.stable.sequence
    requires Pending(n, m, m1, cp, claimed) && claimed <= Peers(n) && v in Peers(n)
    ensures var m' := RecordClaim(n, m1, Envelope(v, CheckpointMsg(cp)));
            m'.stable == cp || Pending(n, m, m', cp, claimed + {v})
  {
    hide Peers, HonestMember;
    var claims := AddClaim(m1.Claims(cp), Envelope(v, CheckpointMsg(cp)));
    assert claimed + {v} <= claims.Keys * Peers(n);
    SubsetSize(claimed + {v}, claims.Keys * Peers(n));
  }

  lemma {:induction false} ClaimsByDeliverable(c: Config, sent: set<Envelope>, cp: Checkpoint, u: nat)
    ensures Deliverable(c, sent, ClaimsBy(cp, Claimants(c, sent, cp), u))
  {
    if u > 0 { ClaimsByDeliverable(c, sent, cp, u - 1); }
  }

  /** Some claims that can be delivered move the stable checkpoint back. */
  ghost predicate CanRegress(c: Config, sent: set<Envelope>, m: Checkpoints)
    requires c.HasPeers()
  {
    exists es :: Deliverable(c, sent, es) && RecordClaims(c.n, m, es).stable.sequence < m.stable.sequence
  }

  lemma ClaimsThatRegress(c: Config, sent: set<Envelope>, m: Checkpoints, cp: Checkpoint)
    requires c.HasPeers() && m.local.sequence <= cp.sequence < m.stable.sequence && Attestable(c, sent, cp)
    ensures CanRegress(c, sent, m)
  {
    var s := Claimants(c, sent, cp);
    ClaimsAccumulate(c.n, m, cp, s, c.n);
    assert Among(s, c.n) == s;
    var v: nat :| v <= c.n && AfterClaims(c.n, m, cp, s, v).stable == cp;
    ClaimsByDeliverable(c, sent, cp, v);
  }

  /** In a state of a run the stable checkpoint of a replica can be moved back, by claims that can be
      delivered, exactly if enough peers claim, or may claim, a checkpoint from its local one up to,
      not including, the stable one. */
  lemma StableCanRegressIff(c: Config, states: seq<System>, steps: seq<Step>, i: nat, r: Uuid)
    requires c.HasPeers() && IsRun(c, states, steps) && i < |states| && c.Correct(r)
    ensures r in states[i].replicas
    ensures var m, sent := states[i].replicas[r].cps, states[i].sent;
            CanRegress(c, sent, m)
            <==> exists cp: Checkpoint :: m.local.sequence <= cp.sequence < m.stable.sequence && Attestable(c, sent, cp)
  {
    Present(c, states, steps, i, r);
    var m, sent := states[i].replicas[r].cps, states[i].sent;
    assert CpsOk(c, sent, m);
    hide IsRun, Local;
    assert HoldsGenuine(c, sent, m);
    hide HoldsGenuine, CpsOk, Attestable, Deliverable;
    if es :| Deliverable(c, sent, es) && RecordClaims(c.n, m, es).stable.sequence < m.stable.sequence {
      ClaimsRecorded(c, sent, m, es);
      var cp := RecordClaims(c.n, m, es).stable;
      assert m.local.sequence <= cp.sequence < m.stable.sequence && Attestable(c, sent, cp);
    }
    if cp: Checkpoint :| m.local.sequence <= cp.sequence < m.stable.sequence && Attestable(c, sent, cp) {
      ClaimsThatRegress(c, sent, m, cp);
    }
  }

  /** With f faulty peers one correct claimant is enough, and needed. */
  lemma AttestableIff(c: Config, sent: set<Envelope>, cp: Checkpoint)
    requires c.Tolerable() && |c.faulty| == c.F()
    ensures Attestable(c, sent, cp) <==> exists u :: c.Correct(u) && Envelope(u, CheckpointMsg(cp)) in sent
  {
    var s := Claimants(c, sent, cp);
    assert c.faulty <= s;
    if Attestable(c, sent, cp) {
      var u := CorrectMember(c.n, s, c.faulty);
    }
    if u :| c.Correct(u) && Envelope(u, CheckpointMsg(cp)) in sent {
      assert c.faulty + {u} <= s;
      SubsetSize(c.faulty + {u}, s);
    }
  }
}
