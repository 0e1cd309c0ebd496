/** What each step does to the view, to the viewchanges sent, and to the accepted pre-prepares. */
module Views {
  import opened Messages
  import opened Checkpoints
  import opened ViewChange
  import opened Replica
  import opened Protocol
  import opened Invariants

  /** The step is replica r accepting a NEWVIEW. */
  ghost predicate Accepts(c: Config, y: System, step: Step, r: Uuid)
    requires c.HasPeers()
  {
    && step.Deliver? && step.r == r && r in y.replicas
    && step.e.msg.NewView? && c.IsPeer(step.e.sender) && ValidNewview(c, y.replicas[r].view, step.e)
  }

  /** The messages replica r sends in the step. */
  ghost function Sends(c: Config, y: System, step: Step, r: Uuid): set<Msg>
    requires c.HasPeers()
  {
    if step.Inject? || step.r != r || r !in y.replicas then {} else EffectOf(c, y.replicas[r], step).out
  }

  /** How a handler may move the view, and what it may send. */
  ghost predicate ViewRules(s: State, eff: Effect, accepted: bool, w: nat)
  {
    && eff.state.id == s.id
    && eff.state.lastViewSent >= s.lastViewSent
    && (eff.state.viewIsValid ==> eff.state.lastViewSent == s.lastViewSent)
    && (if accepted then eff.state.view == w > s.view && eff.state.viewIsValid
        else eff.state.view == s.view && (eff.state.viewIsValid ==> s.viewIsValid))
    && (forall m | m in eff.out && m.ViewChange? ::
          && m.view == eff.state.lastViewSent > s.lastViewSent && m.view > s.view
          && !eff.state.viewIsValid && !accepted)
    && (forall m | m in eff.out && (m.Prepare? || m.Commit?) ::
          && eff.state.viewIsValid && (s.viewIsValid || accepted)
          && m.view == eff.state.view)
    && (forall m, m' | m in eff.out && m' in eff.out && m.ViewChange? && m'.ViewChange? :: m == m')
  }

  /** Accepted pre-prepares are never replaced; new ones are for the current view. */
  ghost predicate AcceptRules(s: State, eff: Effect)
  {
    && (forall slot | slot in s.accepted :: slot in eff.state.accepted && eff.state.accepted[slot] == s.accepted[slot])
    && (forall slot | slot in eff.state.accepted && slot !in s.accepted :: slot.0 == eff.state.view)
  }

  lemma PreprepareRules(c: Config, s: State, e: Envelope, requests: set<Hash>)
    requires c.HasPeers() && e.msg.PrePrepare? && e.msg.view == s.view
    ensures var eff := HandlePreprepare(c, s, e, requests);
            && eff.state.id == s.id && eff.state.view == s.view && eff.state.viewIsValid == s.viewIsValid
            && eff.state.lastViewSent == s.lastViewSent && eff.state.cps == s.cps && AcceptRules(s, eff)
            && (forall m | m in eff.out :: (m.Prepare? || m.Commit?) && m.view == s.view)
  {
  }

  lemma {:induction false} PrepreparesRules(c: Config, s: State, es: seq<Envelope>, requests: set<Hash>)
    requires c.HasPeers() && forall e | e in es :: e.msg.PrePrepare? && e.msg.view == s.view
    ensures var eff := HandlePreprepares(c, s, es, requests);
            && eff.state.id == s.id && eff.state.view == s.view && eff.state.viewIsValid == s.viewIsValid
            && eff.state.lastViewSent == s.lastViewSent && eff.state.cps == s.cps && AcceptRules(s, eff)
            && (forall m | m in eff.out :: (m.Prepare? || m.Commit?) && m.view == s.view)
    decreases |es|
  {
    if es != [] {
      PreprepareRules(c, s, es[0], requests);
      var first := HandlePreprepare(c, s, es[0], requests);
      var s1 := first.state.(nextIssued := es[0].msg.sequence + 1);
      PrepreparesRules(c, s1, es[1..], requests);
      hide HandlePreprepare;
    }
  }

  /** Every pre-prepare in the list leaves its slot accepted; what is newly accepted came from the list. */
  lemma {:induction false} PrepreparesAccepted(c: Config, s: State, es: seq<Envelope>, requests: set<Hash>)
    requires c.HasPeers() && forall e | e in es :: e.msg.PrePrepare?
    ensures var a := HandlePreprepares(c, s, es, requests).state.accepted;
            && (forall e | e in es :: (e.msg.view, e.msg.sequence) in a)
            && (forall slot | slot in s.accepted :: slot in a)
            && (forall slot | slot in a && slot !in s.accepted ::
                  exists e :: e in es && (e.msg.view, e.msg.sequence) == slot && e.msg.hash == a[slot])
    decreases |es|
  {
    hide HandlePreprepare;
    if es != [] {
      PreprepareAccepted(c, s, es[0], requests);
      var s1 := HandlePreprepare(c, s, es[0], requests).state.(nextIssued := es[0].msg.sequence + 1);
      PrepreparesAccepted(c, s1, es[1..], requests);
      PrepreparesKept(c, s1, es[1..], requests);
      assert es == [es[0]] + es[1..];
      var a := HandlePreprepares(c, s, es, requests).state.accepted;
      assert a == HandlePreprepares(c, s1, es[1..], requests).state.accepted;
      forall slot | slot in a && slot !in s.accepted
        ensures exists e :: e in es && (e.msg.view, e.msg.sequence) == slot && e.msg.hash == a[slot]
      {
        if slot in s1.accepted {
          assert es[0] in es && (es[0].msg.view, es[0].msg.sequence) == slot && es[0].msg.hash == a[slot];
        } else {
          var e :| e in es[1..] && (e.msg.view, e.msg.sequence) == slot && e.msg.hash == a[slot];
          assert e in es;
        }
      }
    }
  }

  /** One pre-prepare: its slot is accepted afterwards, and no other is new. */
  lemma PreprepareAccepted(c: Config, s: State, e: Envelope, requests: set<Hash>)
    requires c.HasPeers() && e.msg.PrePrepare?
    ensures var a := HandlePreprepare(c, s, e, requests).state.accepted;
            && (e.msg.view, e.msg.sequence) in a
            && (forall slot | slot in s.accepted :: slot in a && a[slot] == s.accepted[slot])
            && (forall slot | slot in a && slot !in s.accepted ::
                slot == (e.msg.view, e.msg.sequence) && a[slot] == e.msg.hash)
  {
    AdvanceKeepsAccepted(c, s, e, requests);
    hide HandlePreprepare;
  }

  lemma AdvanceKeepsAccepted(c: Config, s: State, e: Envelope, requests: set<Hash>)
    requires c.HasPeers() && e.msg.PrePrepare?
    ensures var slot := (e.msg.view, e.msg.sequence);
            HandlePreprepare(c, s, e, requests).state.accepted ==
            if slot in s.accepted && s.accepted[slot] != e.msg.hash then s.accepted else s.accepted[slot := e.msg.hash]
  {
  }

  lemma {:induction false} PrepreparesKept(c: Config, s: State, es: seq<Envelope>, requests: set<Hash>)
    requires c.HasPeers() && forall e | e in es :: e.msg.PrePrepare?
    ensures var a := HandlePreprepares(c, s, es, requests).state.accepted;
            forall slot | slot in s.accepted :: slot in a && a[slot] == s.accepted[slot]
    decreases |es|
  {
    hide HandlePreprepare;
    if es != [] {
      PreprepareAccepted(c, s, es[0], requests);
      var first := HandlePreprepare(c, s, es[0], requests);
      PrepreparesKept(c, first.state.(nextIssued := es[0].msg.sequence + 1), es[1..], requests);
    }
  }

  /** A valid NEWVIEW is for a later view, and so are its pre-prepares. */
  lemma NewviewFacts(c: Config, view: nat, e: Envelope)
    requires c.HasPeers() && ValidNewview(c, view, e)
    ensures e.msg.NewView? && e.msg.view > view
    ensures |e.msg.viewchanges| > 0 && e.msg.viewchanges[0].msg.ViewChange?
    ensures forall x | x in e.msg.preprepares :: x.msg.PrePrepare? && x.msg.view == e.msg.view
  {
    assert e.msg.viewchanges[0] in e.msg.viewchanges;
  }

  lemma NewviewRules(c: Config, s: State, e: Envelope, requests: set<Hash>)
    requires c.HasPeers() && ValidNewview(c, s.view, e)
    ensures ViewRules(s, HandleNewview(c, s, e, requests), true, e.msg.view)
    ensures AcceptRules(s, HandleNewview(c, s, e, requests))
  {
    hide ValidNewview, HandlePreprepares, RecordClaims;
    NewviewFacts(c, s.view, e);
    PrepreparesRules(c, EnterView(c, s, e.msg), e.msg.preprepares, requests);
  }

  /** Messages that are neither votes nor viewchanges do not touch the rules. */
  lemma MoreOutRules(s: State, eff: Effect, more: set<Msg>)
    requires ViewRules(s, eff, false, 0) && forall m | m in more :: m.PrePrepare? || m.NewView?
    ensures ViewRules(s, eff.(out := eff.out + more), false, 0)
  {
  }

  lemma ViewchangeRules(c: Config, s: State, e: Envelope, requests: set<Hash>, vc: Msg)
    requires c.HasPeers() && GoodChoice(c, s, e, requests, vc)
    ensures ViewRules(s, HandleViewchange(c, s, e, requests, vc), false, 0)
    ensures AcceptRules(s, HandleViewchange(c, s, e, requests, vc))
  {
    hide SaveRequests, RecordClaims, NewviewOut;
    if ValidViewchange(c, s.view, e) {
      var s1 := SaveViewchange(c, s, e, requests);
      var joins := JoinsViewchange(c, s1, e.msg.view);
      assert s1 == s.(ops := s1.ops, cps := s1.cps, viewchanges := s1.viewchanges);
      assert joins ==> vc.ViewChange? && vc.view == e.msg.view > s.view;
      var joined := if joins then InitiateViewchange(s1, e.msg.view, vc) else Nothing(s1);
      var more := NewviewOut(c, joined.state, e.msg.view);
      assert HandleViewchange(c, s, e, requests, vc) == joined.(out := joined.out + more);
      NewviewOutKinds(c, joined.state, e.msg.view);
      hide NewviewOut, GoodChoice, ViewchangeFrom, WellFormedViewchange, HandleViewchange, SaveViewchange,
           JoinsViewchange;
      MoreOutRules(s, joined, more);
    }
  }

  lemma VoteRules(c: Config, s: State, e: Envelope, requests: set<Hash>)
    requires c.HasPeers() && s.viewIsValid && (e.msg.PrePrepare? || e.msg.Prepare? || e.msg.Commit?)
             && e.msg.view == s.view
    ensures var eff := if e.msg.PrePrepare? then HandlePreprepare(c, s, e, requests) else HandleVote(c, s, e);
            ViewRules(s, eff, false, 0) && AcceptRules(s, eff)
  {
  }

  lemma StepRules(c: Config, y: System, step: Step)
    requires c.HasPeers() && Enabled(c, y, step) && !step.Inject?
    ensures var s := y.replicas[step.r];
            var accepted := Accepts(c, y, step, step.r);
            && ViewRules(s, EffectOf(c, s, step), accepted, if accepted then step.e.msg.view else 0)
            && AcceptRules(s, EffectOf(c, s, step))
  {
    hide HandleNewview, HandleViewchange, HandlePreprepare, HandleVote, RecordClaim;
    var s := y.replicas[step.r];
    if step.Deliver? {
      var e := step.e;
      hide ValidNewview, GoodChoice;
      if e.msg.NewView? && Accepts(c, y, step, step.r) {
        NewviewRules(c, s, e, step.requests);
      } else if e.msg.NewView? {
        NewviewRejected(c, s, e, step.requests);
      } else if e.msg.ViewChange? {
        ViewchangeRules(c, s, e, step.requests, step.vc);
      } else if !e.msg.CheckpointMsg? && s.viewIsValid && e.msg.view == s.view {
        VoteRules(c, s, e, step.requests);
      }
    } else {
      hide Accepts;
    }
  }

  /** The step is replica r handling a pre-prepare. */
  ghost predicate Hears(y: System, step: Step, r: Uuid)
  {
    && step.Deliver? && step.r == r && r in y.replicas && step.e.msg.PrePrepare?
    && y.replicas[r].viewIsValid && step.e.msg.view == y.replicas[r].view
  }

  lemma OthersKeepAccepted(c: Config, s: State, e: Envelope, requests: set<Hash>, vc: Msg)
    requires c.HasPeers()
    ensures HandleViewchange(c, s, e, requests, vc).state.accepted == s.accepted
    ensures e.msg.Prepare? || e.msg.Commit? ==> HandleVote(c, s, e).state.accepted == s.accepted
  {
    hide SaveRequests, RecordClaims, NewviewOut, ValidViewchange;
  }

  /** Outside a NEWVIEW only the pre-prepare being handled can be newly accepted. */
  lemma EffectAccepted(c: Config, y: System, step: Step, slot: (nat, nat))
    requires c.HasPeers() && Enabled(c, y, step) && !step.Inject? && !Accepts(c, y, step, step.r)
    requires slot !in y.replicas[step.r].accepted && slot in EffectOf(c, y.replicas[step.r], step).state.accepted
    ensures Hears(y, step, step.r) && slot == (step.e.msg.view, step.e.msg.sequence)
  {
    hide HandleNewview, HandleViewchange, HandlePreprepare, HandleVote, RecordClaim, GoodChoice, ValidNewview;
    var s := y.replicas[step.r];
    if step.Deliver? {
      OthersKeepAccepted(c, s, step.e, step.requests, step.vc);
      if step.e.msg.PrePrepare? { PreprepareAccepted(c, s, step.e, step.requests); }
      if step.e.msg.NewView? && c.IsPeer(step.e.sender) { NewviewRejected(c, s, step.e, step.requests); }
    }
  }

  lemma NewviewRejected(c: Config, s: State, e: Envelope, requests: set<Hash>)
    requires c.HasPeers() && !ValidNewview(c, s.view, e)
    ensures HandleNewview(c, s, e, requests) == Nothing(s)
  {
  }
}
