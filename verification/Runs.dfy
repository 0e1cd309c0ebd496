/** Safety over whole runs: views, viewchanges, checkpoints, and agreement within one view. */
module Runs {
  import opened Quorum
  import opened Messages
  import opened Operations
  import opened ViewChange
  import opened Replica
  import opened Protocol
  import opened MakerChecker
  import opened Invariants
  import opened Views

  lemma {:induction false} SentGrows(c: Config, states: seq<System>, steps: seq<Step>, i: nat, j: nat)
    requires c.HasPeers() && IsRun(c, states, steps) && i <= j < |states|
    ensures states[i].sent <= states[j].sent
    decreases j
  {
    if i < j {
      SentGrows(c, states, steps, i, j - 1);
      assert Takes(c, states, steps, j - 1);
    }
  }

  /** A correct replica is there in every state of a run. */
  lemma Present(c: Config, states: seq<System>, steps: seq<Step>, i: nat, r: Uuid)
    requires c.HasPeers() && IsRun(c, states, steps) && i < |states| && c.Correct(r)
    ensures r in states[i].replicas && states[i].replicas[r].id == r && Local(c, states[i].sent, states[i].replicas[r])
  {
    RunOk(c, states, steps, i);
  }

  /** What one step of a run does to replica r. */
  lemma StepOf(c: Config, states: seq<System>, steps: seq<Step>, i: nat, r: Uuid) returns (eff: Effect)
    requires c.HasPeers() && IsRun(c, states, steps) && i < |steps| && c.Correct(r)
    ensures r in states[i].replicas && r in states[i + 1].replicas
    ensures states[i + 1].replicas[r] == eff.state && eff.out == Sends(c, states[i], steps[i], r)
    ensures var s := states[i].replicas[r]; var accepted := Accepts(c, states[i], steps[i], r);
            && ViewRules(s, eff, accepted, if accepted then steps[i].e.msg.view else 0)
            && AcceptRules(s, eff)
    ensures forall m | Envelope(r, m) in states[i + 1].sent :: Envelope(r, m) in states[i].sent || m in eff.out
  {
    var y, step := states[i], steps[i];
    Present(c, states, steps, i, r);
    assert Takes(c, states, steps, i);
    if step.Inject? || step.r != r {
      eff := Nothing(y.replicas[r]);
    } else {
      eff := EffectOf(c, y.replicas[r], step);
      StepRules(c, y, step);
    }
    hide Local, EffectOf, Enabled;
  }

  // ---- views ----

  lemma ViewStep(c: Config, states: seq<System>, steps: seq<Step>, i: nat, r: Uuid)
    requires c.HasPeers() && IsRun(c, states, steps) && i < |steps| && c.Correct(r)
    ensures r in states[i].replicas && r in states[i + 1].replicas
    ensures states[i].replicas[r].view <= states[i + 1].replicas[r].view
    ensures states[i].replicas[r].lastViewSent <= states[i + 1].replicas[r].lastViewSent
  {
    var eff := StepOf(c, states, steps, i, r);
  }

  lemma {:induction false} ViewsGrow(c: Config, states: seq<System>, steps: seq<Step>, i: nat, j: nat, r: Uuid)
    requires c.HasPeers() && IsRun(c, states, steps) && i <= j < |states| && c.Correct(r)
    ensures r in states[i].replicas && r in states[j].replicas
    ensures states[i].replicas[r].view <= states[j].replicas[r].view
    ensures states[i].replicas[r].lastViewSent <= states[j].replicas[r].lastViewSent
    decreases j
  {
    if i < j {
      ViewsGrow(c, states, steps, i, j - 1, r);
      ViewStep(c, states, steps, j - 1, r);
    } else {
      Present(c, states, steps, i, r);
    }
  }

  /** What accepting a NEWVIEW does to the replica. */
  lemma EnteredView(c: Config, states: seq<System>, steps: seq<Step>, i: nat, r: Uuid)
    requires c.HasPeers() && IsRun(c, states, steps) && i < |steps| && Accepts(c, states[i], steps[i], r)
    ensures r in states[i + 1].replicas && states[i + 1].replicas[r].view == steps[i].e.msg.view
    ensures states[i + 1].replicas[r] == HandleNewview(c, states[i].replicas[r], steps[i].e, steps[i].requests).state
  {
    hide HandleNewview, ValidNewview, GoodChoice, AcceptRules;
    assert Takes(c, states, steps, i);
    NewviewRules(c, states[i].replicas[r], steps[i].e, steps[i].requests);
  }

  /** A slot newly accepted outside a NEWVIEW is that of the pre-prepare being handled. */
  lemma NewSlot(c: Config, states: seq<System>, steps: seq<Step>, i: nat, r: Uuid, slot: (nat, nat))
    requires c.HasPeers() && IsRun(c, states, steps) && i < |steps| && c.Correct(r)
    requires !Accepts(c, states[i], steps[i], r)
    ensures r in states[i].replicas && r in states[i + 1].replicas
    ensures slot !in states[i].replicas[r].accepted && slot in states[i + 1].replicas[r].accepted ==>
              Hears(states[i], steps[i], r) && slot == (steps[i].e.msg.view, steps[i].e.msg.sequence)
  {
    hide EffectOf, Enabled, Local, Accepts;
    Present(c, states, steps, i, r);
    assert Takes(c, states, steps, i);
    if !steps[i].Inject? && steps[i].r == r
       && slot !in states[i].replicas[r].accepted && slot in states[i + 1].replicas[r].accepted {
      EffectAccepted(c, states[i], steps[i], slot);
    }
  }

  /** Each NEWVIEW a replica accepts is for a later view than the one before. */
  lemma AcceptedViewsIncrease(c: Config, states: seq<System>, steps: seq<Step>, i: nat, j: nat, r: Uuid)
    requires c.HasPeers() && IsRun(c, states, steps) && i < j < |steps| && c.Correct(r)
    requires Accepts(c, states[i], steps[i], r) && Accepts(c, states[j], steps[j], r)
    ensures steps[i].e.msg.view < steps[j].e.msg.view
  {
    hide Accepts, Sends, AcceptRules;
    var eff := StepOf(c, states, steps, i, r);
    ViewsGrow(c, states, steps, i + 1, j, r);
    var eff' := StepOf(c, states, steps, j, r);
  }

  /** A replica broadcasts at most one VIEWCHANGE for a view, in increasing order of views. */
  lemma ViewchangesIncrease(c: Config, states: seq<System>, steps: seq<Step>, i: nat, j: nat, r: Uuid, m: Msg, m': Msg)
    requires c.HasPeers() && IsRun(c, states, steps) && i <= j < |steps| && c.Correct(r)
    requires m in Sends(c, states[i], steps[i], r) && m.ViewChange?
    requires m' in Sends(c, states[j], steps[j], r) && m'.ViewChange?
    ensures if i == j then m == m' else m.view < m'.view
  {
    hide Accepts, Sends, AcceptRules;
    var eff := StepOf(c, states, steps, i, r);
    if i < j {
      ViewsGrow(c, states, steps, i + 1, j, r);
      var eff' := StepOf(c, states, steps, j, r);
    }
  }

  lemma {:induction false} InvalidUntilNewview(c: Config, states: seq<System>, steps: seq<Step>, i: nat, j: nat,
                                               r: Uuid)
    requires c.HasPeers() && IsRun(c, states, steps) && i <= j < |states| && c.Correct(r)
    requires r in states[i].replicas && !states[i].replicas[r].viewIsValid
    requires forall k | i <= k < j :: !Accepts(c, states[k], steps[k], r)
    ensures r in states[j].replicas && !states[j].replicas[r].viewIsValid
    decreases j
  {
    assert |states| == |steps| + 1;
    hide IsRun, Accepts, Sends;
    if i < j {
      InvalidUntilNewview(c, states, steps, i, j - 1, r);
      var eff := StepOf(c, states, steps, j - 1, r);
    }
  }

  /** From its VIEWCHANGE until the next NEWVIEW it accepts, a replica sends no prepare and no commit. */
  lemma SilentWhileChangingView(c: Config, states: seq<System>, steps: seq<Step>, i: nat, j: nat, r: Uuid, vc: Msg,
                                m: Msg)
    requires c.HasPeers() && IsRun(c, states, steps) && i < j < |steps| && c.Correct(r)
    requires vc in Sends(c, states[i], steps[i], r) && vc.ViewChange?
    requires forall k | i < k <= j :: !Accepts(c, states[k], steps[k], r)
    requires m in Sends(c, states[j], steps[j], r)
    ensures !m.Prepare? && !m.Commit?
  {
    hide Accepts, Sends, AcceptRules;
    var eff := StepOf(c, states, steps, i, r);
    InvalidUntilNewview(c, states, steps, i + 1, j, r);
    var eff' := StepOf(c, states, steps, j, r);
  }

  // ---- agreement within one view ----

  /** Two certified prepares for one view and sequence are for the same request. */
  lemma PreparedAgree(c: Config, y: System, k1: OpKey, k2: OpKey)
    requires c.Tolerable() && Inv(c, y) && k1.view == k2.view && k1.sequence == k2.sequence
    requires Certified(c, y.sent, k1.PrepareMsg()) && Certified(c, y.sent, k2.PrepareMsg())
    ensures k1.hash == k2.hash
  {
    var u := CertifiedMeet(c, y.sent, k1.PrepareMsg(), k2.PrepareMsg());
    assert PreparesOk(c, y.sent, y.replicas[u]);
  }

  /** Correct replicas that reach the commit stage for one view and sequence, at any two times of
      any run, do so for the same request. */
  lemma CommitsAgreeInView(c: Config, states: seq<System>, steps: seq<Step>, i: nat, j: nat,
                           r1: Uuid, r2: Uuid, k1: OpKey, k2: OpKey)
    requires c.Tolerable() && IsRun(c, states, steps) && i <= j < |states| && c.Correct(r1) && c.Correct(r2)
    requires Envelope(r1, k1.CommitMsg()) in states[i].sent && Envelope(r2, k2.CommitMsg()) in states[j].sent
    requires k1.view == k2.view && k1.sequence == k2.sequence
    ensures k1.hash == k2.hash
  {
    SentGrows(c, states, steps, i, j);
    RunOk(c, states, steps, j);
    var y := states[j];
    assert CommitsOk(c, y.sent, y.replicas[r1]) && CommitsOk(c, y.sent, y.replicas[r2]);
    hide Inv, CommitsOk, Certified;
    PreparedAgree(c, y, k1, k2);
  }

  /** An operation past the prepare stage stands for a commit its replica has sent, so the
      stages of correct replicas agree too. */
  lemma StagesAgreeInView(c: Config, states: seq<System>, steps: seq<Step>, i: nat, j: nat,
                          r1: Uuid, r2: Uuid, k1: OpKey, k2: OpKey)
    requires c.Tolerable() && IsRun(c, states, steps) && i <= j < |states| && c.Correct(r1) && c.Correct(r2)
    requires r1 in states[i].replicas && k1 in states[i].replicas[r1].ops && states[i].replicas[r1].ops[k1].IsPrepared()
    requires r2 in states[j].replicas && k2 in states[j].replicas[r2].ops && states[j].replicas[r2].ops[k2].IsPrepared()
    requires k1.view == k2.view && k1.sequence == k2.sequence
    ensures k1.hash == k2.hash
  {
    Present(c, states, steps, i, r1);
    Present(c, states, steps, j, r2);
    assert OpOk(c, states[i].sent, r1, states[i].replicas[r1].view, k1, states[i].replicas[r1].ops[k1]);
    assert OpOk(c, states[j].sent, r2, states[j].replicas[r2].view, k2, states[j].replicas[r2].ops[k2]);
    hide Local, IsRun;
    CommitsAgreeInView(c, states, steps, i, j, r1, r2, k1, k2);
  }

  // ---- VIEWCHANGE and NEWVIEW ----

  /** A VIEWCHANGE of a correct replica is valid at every correct replica in a lower
      view, whenever it arrives. */
  lemma ViewchangesPass(c: Config, states: seq<System>, steps: seq<Step>, i: nat, j: nat, r: Uuid, e: Envelope)
    requires c.HasPeers() && IsRun(c, states, steps) && i < |states| && j < |states| && c.Correct(e.sender)
             && c.Correct(r)
    requires e in states[i].sent && e.msg.ViewChange?
    requires r in states[j].replicas && states[j].replicas[r].view < e.msg.view
    ensures ValidViewchange(c, states[j].replicas[r].view, e)
  {
    Present(c, states, steps, i, e.sender);
    assert ViewchangesOk(c, states[i].sent, states[i].replicas[e.sender]);
  }

  /** A VIEWCHANGE of a correct replica is complete: whatever it had committed to before, above
      the base it claims, has a certificate from that view or a later one in the message. */
  lemma ViewchangesComplete(c: Config, states: seq<System>, steps: seq<Step>, i: nat, r: Uuid, vc: Msg, k: OpKey)
    requires c.HasPeers() && IsRun(c, states, steps) && i < |steps| && c.Correct(r)
    requires vc in Sends(c, states[i], steps[i], r) && vc.ViewChange?
    requires Envelope(r, k.CommitMsg()) in states[i].sent
    ensures Covers(vc, k)
  {
    Present(c, states, steps, i, r);
    RunOk(c, states, steps, i);
    assert Takes(c, states, steps, i);
    ViewchangeSentComplete(c, states[i], steps[i], vc, k);
  }

  lemma ViewchangeSentComplete(c: Config, y: System, step: Step, vc: Msg, k: OpKey)
    requires c.HasPeers() && Inv(c, y) && Enabled(c, y, step) && !step.Inject?
    requires vc in EffectOf(c, y.replicas[step.r], step).out && vc.ViewChange?
    requires Envelope(step.r, k.CommitMsg()) in y.sent
    ensures Covers(vc, k)
  {
    var s, w := SentFrom(c, y, step, vc);
    assert OpsOk(c, y.sent, s) && CommitsOk(c, y.sent, s);
    hide Inv, Enabled, Local, EffectOf;
    ViewchangeMadeIsComplete(c, y.sent, s, w, vc, k);
  }

  /** The state in which a viewchange that a step sends was made. */
  lemma SentFrom(c: Config, y: System, step: Step, vc: Msg) returns (s: State, w: nat)
    requires c.HasPeers() && Inv(c, y) && Enabled(c, y, step) && !step.Inject?
    requires vc in EffectOf(c, y.replicas[step.r], step).out && vc.ViewChange?
    ensures s.id == step.r && Local(c, y.sent, s) && ViewchangeFrom(s.cps, s.ops, w, vc)
  {
    s := y.replicas[step.r];
    assert s.id == step.r && Local(c, y.sent, s);
    if step.Failure? {
      w := s.view + 1;
    } else {
      OnlyViewchangeSends(c, s, step, vc);
      var e := step.e;
      w := e.msg.view;
      assert Authentic(c, y.sent, e);
      hide Inv, Local, Authentic;
      SaveViewchangeOk(c, y.sent, s, e, step.requests);
      s := SaveViewchange(c, s, e, step.requests);
    }
  }

  lemma OnlyViewchangeSends(c: Config, s: State, step: Step, vc: Msg)
    requires c.HasPeers() && !step.Inject? && !step.Failure? && vc in EffectOf(c, s, step).out && vc.ViewChange?
    ensures step.Deliver? && ValidViewchange(c, s.view, step.e)
            && JoinsViewchange(c, SaveViewchange(c, s, step.e, step.requests), step.e.msg.view)
    ensures vc == step.vc
  {
    hide HandleNewview, HandleViewchange;
    var e := step.e;
    if e.msg.NewView? {
      NewviewSendsVotes(c, s, e, step.requests);
    } else if e.msg.ViewChange? {
      JoinedViewchange(c, s, e, step.requests, step.vc, vc);
    }
  }

  lemma NewviewSendsVotes(c: Config, s: State, e: Envelope, requests: set<Hash>)
    requires c.HasPeers()
    ensures forall m | m in HandleNewview(c, s, e, requests).out :: m.Prepare? || m.Commit?
  {
    hide ValidNewview;
    if ValidNewview(c, s.view, e) {
      NewviewFacts(c, s.view, e);
      PrepreparesKinds(c, EnterView(c, s, e.msg), e.msg.preprepares, requests);
    }
  }

  lemma JoinedViewchange(c: Config, s: State, e: Envelope, requests: set<Hash>, choice: Msg, vc: Msg)
    requires c.HasPeers() && vc in HandleViewchange(c, s, e, requests, choice).out && vc.ViewChange?
    ensures ValidViewchange(c, s.view, e) && JoinsViewchange(c, SaveViewchange(c, s, e, requests), e.msg.view)
            && vc == choice
  {
    assert ValidViewchange(c, s.view, e) && e.msg.ViewChange?;
    hide WellFormedViewchange, SaveViewchange, NewviewOut;
    var s1 := SaveViewchange(c, s, e, requests);
    var joined := if JoinsViewchange(c, s1, e.msg.view) then InitiateViewchange(s1, e.msg.view, choice)
      else Nothing(s1);
    NewviewOutKinds(c, joined.state, e.msg.view);
  }

  /** The least view that the replica could open. */
  ghost predicate LeastCandidate(c: Config, s: State, w: nat)
    requires c.HasPeers()
  {
    w in Candidates(c, s) && forall x | x in Candidates(c, s) :: w <= x
  }

  /** A NEWVIEW that a correct replica sends on receiving a viewchange for view w is valid at a
      correct replica in a lower view exactly if w was the least view it could then open: the code
      announces that view but attaches the viewchanges for w. */
  lemma NewviewsPassIff(c: Config, states: seq<System>, steps: seq<Step>, i: nat, j: nat, r: Uuid, x: Uuid, nv: Msg)
    requires c.HasPeers() && IsRun(c, states, steps) && i < |steps| && j < |states| && c.Correct(r) && c.Correct(x)
    requires steps[i].Deliver? && steps[i].e.msg.ViewChange? && nv in Sends(c, states[i], steps[i], r) && nv.NewView?
    requires x in states[j].replicas && states[j].replicas[x].view < nv.view
    ensures r in states[i].replicas
    ensures ValidNewview(c, states[j].replicas[x].view, Envelope(r, nv))
            <==> LeastCandidate(c, SaveViewchange(c, states[i].replicas[r], steps[i].e, steps[i].requests),
              steps[i].e.msg.view)
  {
    RunOk(c, states, steps, i);
    assert Takes(c, states, steps, i);
    var view := states[j].replicas[x].view;
    NewviewSentIff(c, states[i], steps[i], nv, view);
  }

  lemma NewviewSentIff(c: Config, y: System, step: Step, nv: Msg, view: nat)
    requires c.HasPeers() && Inv(c, y) && Enabled(c, y, step) && step.Deliver? && step.e.msg.ViewChange?
    requires nv in EffectOf(c, y.replicas[step.r], step).out && nv.NewView? && view < nv.view
    ensures ValidNewview(c, view, Envelope(step.r, nv))
            <==> LeastCandidate(c, SaveViewchange(c, y.replicas[step.r], step.e, step.requests), step.e.msg.view)
  {
    var s, e := y.replicas[step.r], step.e;
    assert s.id == step.r && Local(c, y.sent, s) && Authentic(c, y.sent, e)
           && GoodChoice(c, s, e, step.requests, step.vc);
    assert nv in HandleViewchange(c, s, e, step.requests, step.vc).out;
    hide Inv, Enabled, EffectOf, Local, Authentic, GoodChoice, HandleViewchange, SaveViewchange;
    NewviewBuiltIff(c, y.sent, s, e, step.requests, step.vc, nv, view);
  }

  lemma NewviewBuiltIff(c: Config, sent: set<Envelope>, s: State, e: Envelope, requests: set<Hash>, vc: Msg, nv: Msg,
                        view: nat)
    requires c.HasPeers() && Local(c, sent, s) && Authentic(c, sent, e) && GoodChoice(c, s, e, requests, vc)
             && e.msg.ViewChange?
    requires nv in HandleViewchange(c, s, e, requests, vc).out && nv.NewView? && view < nv.view
    ensures ValidNewview(c, view, Envelope(s.id, nv))
            <==> LeastCandidate(c, SaveViewchange(c, s, e, requests), e.msg.view)
  {
    var s2 := NewviewSender(c, s, e, requests, vc, nv);
    hide Local, Authentic, GoodChoice, HandleViewchange, SaveViewchange, BuildNewview, ValidNewview, ViewchangeSet,
         HonestMajority, Candidates;
    SaveViewchangeOk(c, sent, s, e, requests);
    assert SavedViewchangesOk(c, sent, SaveViewchange(c, s, e, requests).viewchanges) by {
      SavedOf(c, sent, SaveViewchange(c, s, e, requests));
    }
    hide SavedViewchangesOk;
    SavedSet(c, sent, s2, e.msg.view);
    NewviewMadeIsValidIff(c, nv.view, e.msg.view, ViewchangesFor(s2, e.msg.view), view);
  }

  lemma SavedOf(c: Config, sent: set<Envelope>, s: State)
    requires c.HasPeers() && Local(c, sent, s)
    ensures SavedViewchangesOk(c, sent, s.viewchanges)
  {
  }

  /** The state in which handle_viewchange builds its NEWVIEW. */
  lemma NewviewSender(c: Config, s: State, e: Envelope, requests: set<Hash>, vc: Msg, nv: Msg) returns (s2: State)
    requires c.HasPeers() && GoodChoice(c, s, e, requests, vc)
    requires nv in HandleViewchange(c, s, e, requests, vc).out && nv.NewView?
    ensures ValidViewchange(c, s.view, e)
    ensures s2.viewchanges == SaveViewchange(c, s, e, requests).viewchanges
    ensures s.id == c.Primary(nv.view) && nv
            == BuildNewview(c, c.Primary(nv.view), nv.view, ViewchangesFor(s2, e.msg.view))
    ensures nv.view == e.msg.view ==> |ViewchangesFor(s2, e.msg.view)| == HonestMajority(c.n)
    ensures LeastCandidate(c, SaveViewchange(c, s, e, requests), nv.view)
  {
    assert ValidViewchange(c, s.view, e) && e.msg.ViewChange?;
    hide WellFormedViewchange, NewviewOut;
    var s1 := SaveViewchange(c, s, e, requests);
    assert s1.id == s.id;
    hide SaveViewchange;
    var joined := if JoinsViewchange(c, s1, e.msg.view) then InitiateViewchange(s1, e.msg.view, vc) else Nothing(s1);
    s2 := joined.state;
    assert s2.id == s.id && s2.viewchanges == s1.viewchanges && Candidates(c, s2) == Candidates(c, s1);
    assert nv !in joined.out && nv in NewviewOut(c, s2, e.msg.view);
    hide HandleViewchange, JoinsViewchange, GoodChoice, ValidViewchange;
    NewviewOutView(c, s2, e.msg.view, nv);
  }

  lemma NewviewOutView(c: Config, s: State, w: nat, nv: Msg)
    requires c.HasPeers() && nv in NewviewOut(c, s, w) && nv.NewView?
    ensures s.id == c.Primary(nv.view) && nv == BuildNewview(c, s.id, nv.view, ViewchangesFor(s, w))
    ensures nv.view == w ==> |ViewchangesFor(s, w)| == HonestMajority(c.n)
    ensures LeastCandidate(c, s, nv.view)
  {
    var selected := MinOf(Candidates(c, s));
    forall m | m in NewPrePrepares(c, selected, ViewchangesFor(s, w)) ensures m.PrePrepare? { }
    assert nv == BuildNewview(c, s.id, selected, ViewchangesFor(s, w));
    assert selected in Candidates(c, s);
  }
}
