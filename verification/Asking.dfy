/** When a replica asks for a view, and when it announces one, in terms of the VIEWCHANGEs it has heard. */
module Asking {
  import opened Quorum
  import opened Messages
  import opened Checkpoints
  import opened ViewChange
  import opened Replica
  import opened Protocol
  import opened Invariants
  import opened Views
  import opened Runs
  import opened History
  import opened Sending

  // ---- The first VIEWCHANGE of a peer for a view is kept ----

  ghost predicate SavedFollows(c: Config, s: State, step: Step, t: State, w: nat)
    requires c.HasPeers()
  {
    var had, has := ViewchangesFor(s, w), ViewchangesFor(t, w);
    if HearsViewchange(c, s, step) && step.e.msg.view == w && step.e.sender !in had
    then has == had[step.e.sender := step.e]
    else has == had
  }

  lemma ViewchangeSaved(c: Config, s: State, step: Step, w: nat)
    requires c.HasPeers() && step.Deliver? && c.IsPeer(step.e.sender) && step.e.msg.ViewChange?
    ensures SavedFollows(c, s, step, HandleViewchange(c, s, step.e, step.requests, step.vc).state, w)
  {
    hide ValidViewchange, NewviewOut, JoinsViewchange, RecordClaims, SaveRequests;
  }

  lemma OthersSaveNothing(c: Config, s: State, e: Envelope, requests: set<Hash>)
    requires c.HasPeers()
    ensures e.msg.PrePrepare? ==> HandlePreprepare(c, s, e, requests).state.viewchanges == s.viewchanges
    ensures e.msg.Prepare? || e.msg.Commit? ==> HandleVote(c, s, e).state.viewchanges == s.viewchanges
    ensures HandleNewview(c, s, e, requests).state.viewchanges == s.viewchanges
  {
    hide ValidNewview, RecordClaims;
    if ValidNewview(c, s.view, e) {
      NewviewFacts(c, s.view, e);
      PrepreparesSaveNothing(c, EnterView(c, s, e.msg), e.msg.preprepares, requests);
    }
  }

  lemma {:induction false} PrepreparesSaveNothing(c: Config, s: State, es: seq<Envelope>, requests: set<Hash>)
    requires c.HasPeers() && forall e | e in es :: e.msg.PrePrepare?
    ensures HandlePreprepares(c, s, es, requests).state.viewchanges == s.viewchanges
    decreases |es|
  {
    if es != [] {
      var first := HandlePreprepare(c, s, es[0], requests);
      PrepreparesSaveNothing(c, first.state.(nextIssued := es[0].msg.sequence + 1), es[1..], requests);
    }
  }

  lemma StepSaves(c: Config, s: State, step: Step, w: nat)
    requires c.HasPeers() && !step.Inject?
    ensures SavedFollows(c, s, step, EffectOf(c, s, step).state, w)
  {
    hide HandlePreprepare, HandleVote, HandleViewchange, HandleNewview, RecordClaim;
    if step.Deliver? {
      if step.e.msg.ViewChange? && c.IsPeer(step.e.sender) {
        ViewchangeSaved(c, s, step, w);
      } else {
        OthersSaveNothing(c, s, step.e, step.requests);
      }
    }
  }

  ghost predicate HearsViewchangeAt(c: Config, states: seq<System>, steps: seq<Step>, i: nat, r: Uuid, w: nat, u: Uuid)
    requires c.HasPeers()
  {
    && IsStepOf(states, steps, i, r) && HearsViewchange(c, states[i].replicas[r], steps[i])
    && steps[i].e.msg.view == w && steps[i].e.sender == u
  }

  ghost predicate NotHeardBefore(c: Config, states: seq<System>, steps: seq<Step>, j: nat, r: Uuid, w: nat, u: Uuid)
    requires c.HasPeers()
  {
    forall i: nat | i < j :: !HearsViewchangeAt(c, states, steps, i, r, w, u)
  }

  lemma SaveStep(c: Config, states: seq<System>, steps: seq<Step>, i: nat, r: Uuid, w: nat, u: Uuid)
    requires c.HasPeers() && IsRun(c, states, steps) && i < |steps| && c.Correct(r)
    ensures r in states[i].replicas && r in states[i + 1].replicas
    ensures var had, has := ViewchangesFor(states[i].replicas[r], w), ViewchangesFor(states[i + 1].replicas[r], w);
            && (u in has <==> u in had || HearsViewchangeAt(c, states, steps, i, r, w, u))
            && (u in has ==> has[u] == if u in had then had[u] else steps[i].e)
  {
    Present(c, states, steps, i, r);
    Present(c, states, steps, i + 1, r);
    assert Takes(c, states, steps, i);
    hide IsRun, Local, EffectOf, Enabled, HearsViewchange, ViewchangesFor, SavedFollows;
    if !steps[i].Inject? && steps[i].r == r {
      StepSaves(c, states[i].replicas[r], steps[i], w);
      SavedBySender(c, states[i].replicas[r], steps[i], states[i + 1].replicas[r], w, u);
    }
  }

  lemma SavedBySender(c: Config, s: State, step: Step, t: State, w: nat, u: Uuid)
    requires c.HasPeers() && SavedFollows(c, s, step, t, w)
    ensures var had, has := ViewchangesFor(s, w), ViewchangesFor(t, w);
            && (u in has <==> u in had || (HearsViewchange(c, s, step) && step.e.msg.view == w && step.e.sender == u))
            && (u in has ==> has[u] == if u in had then had[u] else step.e)
  {
    hide ViewchangesFor, ValidViewchange;
  }

  /** Step i is the first in which replica r hears u ask for w. */
  ghost predicate FirstHeard(c: Config, states: seq<System>, steps: seq<Step>, i: nat, r: Uuid, w: nat, u: Uuid)
    requires c.HasPeers()
  {
    HearsViewchangeAt(c, states, steps, i, r, w, u) && NotHeardBefore(c, states, steps, i, r, w, u)
  }

  lemma NotHeardMore(c: Config, states: seq<System>, steps: seq<Step>, j: nat, r: Uuid, w: nat, u: Uuid)
    requires c.HasPeers()
    ensures NotHeardBefore(c, states, steps, j + 1, r, w, u) <==>
            NotHeardBefore(c, states, steps, j, r, w, u) && !HearsViewchangeAt(c, states, steps, j, r, w, u)
  {
    hide HearsViewchangeAt;
  }

  /** In state j replica r keeps a VIEWCHANGE of u for w if and only if it has heard one, and then it is
      the first one it heard. */
  ghost predicate KeepsFirst(c: Config, states: seq<System>, steps: seq<Step>, j: nat, r: Uuid, w: nat, u: Uuid)
    requires c.HasPeers() && |states| == |steps| + 1 && j < |states|
  {
    && r in states[j].replicas
    && var kept := ViewchangesFor(states[j].replicas[r], w);
       && (u in kept <==> !NotHeardBefore(c, states, steps, j, r, w, u))
       && (u in kept ==> forall i: nat | i < j && FirstHeard(c, states, steps, i, r, w, u) :: kept[u] == steps[i].e)
  }

  lemma NothingKeptAtFirst(c: Config, states: seq<System>, steps: seq<Step>, r: Uuid, w: nat, u: Uuid)
    requires c.HasPeers() && IsRun(c, states, steps) && c.Correct(r)
    ensures KeepsFirst(c, states, steps, 0, r, w, u)
  {
    Present(c, states, steps, 0, r);
    BlankAtFirst(c, states, steps, r);
    hide IsRun, Local, FirstHeard;
  }

  lemma KeptNext(c: Config, states: seq<System>, steps: seq<Step>, j: nat, r: Uuid, w: nat, u: Uuid)
    requires c.HasPeers() && IsRun(c, states, steps) && j < |steps| && c.Correct(r)
    requires KeepsFirst(c, states, steps, j, r, w, u)
    ensures KeepsFirst(c, states, steps, j + 1, r, w, u)
  {
    hide IsRun, HearsViewchangeAt, ViewchangesFor;
    SaveStep(c, states, steps, j, r, w, u);
    NotHeardMore(c, states, steps, j, r, w, u);
    hide NotHeardBefore;
  }

  /** The VIEWCHANGE that a replica keeps of a peer for a view is the first valid one it has heard;
      it keeps one if and only if it has heard one. */
  lemma {:induction false} FirstViewchangeKept(c: Config, states: seq<System>, steps: seq<Step>, j: nat, r: Uuid,
                                               w: nat, u: Uuid)
    requires c.HasPeers() && IsRun(c, states, steps) && j < |states| && c.Correct(r)
    ensures KeepsFirst(c, states, steps, j, r, w, u)
  {
    hide KeepsFirst;
    if j == 0 {
      NothingKeptAtFirst(c, states, steps, r, w, u);
    } else {
      FirstViewchangeKept(c, states, steps, j - 1, r, w, u);
      KeptNext(c, states, steps, j - 1, r, w, u);
    }
  }

  // ---- Asking for a view ----

  /** The replica gives up on its view, or has just heard the (f+1)-th peer ask for w. */
  ghost predicate Asks(c: Config, s: State, step: Step, t: State, w: nat)
    requires c.HasPeers()
  {
    && w > s.lastViewSent
    && (|| (step.Failure? && w == s.view + 1)
        || (&& HearsViewchange(c, s, step) && step.e.msg.view == w && s.viewIsValid
            && |ViewchangesFor(t, w)| == c.F() + 1))
  }

  ghost predicate Asked(out: set<Msg>, w: nat) { exists m :: m in out && m.ViewChange? && m.view == w }

  lemma ViewchangeAsks(c: Config, s: State, step: Step, w: nat)
    requires c.HasPeers() && step.Deliver? && c.IsPeer(step.e.sender) && step.e.msg.ViewChange?
    requires GoodChoice(c, s, step.e, step.requests, step.vc)
    ensures var eff := HandleViewchange(c, s, step.e, step.requests, step.vc);
            Asked(eff.out, w) <==> Asks(c, s, step, eff.state, w)
  {
    var e, eff := step.e, HandleViewchange(c, s, step.e, step.requests, step.vc);
    hide WellFormedViewchange, NewviewOut, RecordClaims, SaveRequests;
    if ValidViewchange(c, s.view, e) {
      var s1 := SaveViewchange(c, s, e, step.requests);
      assert s1.lastViewSent == s.lastViewSent && s1.viewIsValid == s.viewIsValid;
      hide SaveViewchange, ViewchangeFrom;
      var joins := JoinsViewchange(c, s1, e.msg.view);
      var joined := if joins then InitiateViewchange(s1, e.msg.view, step.vc) else Nothing(s1);
      NewviewOutKinds(c, joined.state, e.msg.view);
      assert eff.out == joined.out + NewviewOut(c, joined.state, e.msg.view);
      assert eff.state.viewchanges == s1.viewchanges;
      hide HandleViewchange;
      if joins { assert step.vc in eff.out; }
    }
  }

  /** A replica sends a VIEWCHANGE for w if and only if it gives up on the view before w, or has just
      heard the (f+1)-th peer ask for w while its view is valid; either way w is above the last
      view it asked for. */
  lemma AsksIff(c: Config, y: System, step: Step, w: nat)
    requires c.HasPeers() && Enabled(c, y, step) && !step.Inject?
    ensures var s, eff := y.replicas[step.r], EffectOf(c, y.replicas[step.r], step);
            Asked(eff.out, w) <==> Asks(c, s, step, eff.state, w)
  {
    var s, eff := y.replicas[step.r], EffectOf(c, y.replicas[step.r], step);
    hide HandlePreprepare, HandleVote, HandleViewchange, HandleNewview, RecordClaim;
    if step.Deliver? && step.e.msg.ViewChange? && c.IsPeer(step.e.sender) {
      hide GoodChoice;
      ViewchangeAsks(c, s, step, w);
    } else if step.Failure? {
      if w > s.lastViewSent && w == s.view + 1 { assert step.vc in eff.out; }
    } else {
      forall vc | vc in eff.out ensures !vc.ViewChange? {
        if vc.ViewChange? { OnlyViewchangeSends(c, s, step, vc); }
      }
    }
  }

  // ---- Announcing a view ----

  /** The replica leads w, is not there yet, and has heard exactly 2f+1 peers ask for it. */
  predicate CanOpen(c: Config, s: State, w: nat)
    requires c.HasPeers()
  {
    w % c.n == s.id && w > s.view && |ViewchangesFor(s, w)| == 2 * c.F() + 1
  }

  /** The least view that the replica can open. */
  ghost predicate IsNext(c: Config, s: State, w: nat)
    requires c.HasPeers()
  {
    CanOpen(c, s, w) && forall x | CanOpen(c, s, x) :: w <= x
  }

  ghost predicate Announced(out: set<Msg>, w: nat) { exists m :: m in out && m.NewView? && m.view == w }

  lemma AnnounceOut(c: Config, s: State, v: nat, w: nat)
    requires c.HasPeers()
    ensures Announced(NewviewOut(c, s, v), w) <==> IsNext(c, s, w)
  {
    forall x ensures x in Candidates(c, s) <==> CanOpen(c, s, x) { }
    if Candidates(c, s) != {} {
      var selected := MinOf(Candidates(c, s));
      assert BuildNewview(c, s.id, selected, ViewchangesFor(s, v)) in NewviewOut(c, s, v);
      forall m | m in NewviewOut(c, s, v) && m.NewView? ensures m.view == selected { NewviewOutView(c, s, v, m); }
    }
  }

  /** A replica that hears a valid VIEWCHANGE announces w if and only if w is the least view that it
      can open; no other step announces anything. */
  lemma AnnouncesIff(c: Config, y: System, step: Step, w: nat)
    requires c.HasPeers() && Enabled(c, y, step) && !step.Inject?
    ensures var s, eff := y.replicas[step.r], EffectOf(c, y.replicas[step.r], step);
            Announced(eff.out, w) <==> HearsViewchange(c, s, step) && IsNext(c, eff.state, w)
  {
    var s, eff := y.replicas[step.r], EffectOf(c, y.replicas[step.r], step);
    hide HandlePreprepare, HandleVote, HandleViewchange, HandleNewview, RecordClaim, IsNext, GoodChoice;
    if step.Deliver? && step.e.msg.ViewChange? && c.IsPeer(step.e.sender) {
      ViewchangeAnnounces(c, s, step, w);
    } else if step.Deliver? {
      VotesOnly(c, s, step.e, step.requests);
    }
  }

  lemma ViewchangeAnnounces(c: Config, s: State, step: Step, w: nat)
    requires c.HasPeers() && step.Deliver? && c.IsPeer(step.e.sender) && step.e.msg.ViewChange?
    requires GoodChoice(c, s, step.e, step.requests, step.vc)
    ensures var eff := HandleViewchange(c, s, step.e, step.requests, step.vc);
            Announced(eff.out, w) <==> HearsViewchange(c, s, step) && IsNext(c, eff.state, w)
  {
    var e, eff := step.e, HandleViewchange(c, s, step.e, step.requests, step.vc);
    hide WellFormedViewchange, NewviewOut, SaveViewchange, IsNext;
    if ValidViewchange(c, s.view, e) {
      var s1 := SaveViewchange(c, s, e, step.requests);
      var joins := JoinsViewchange(c, s1, e.msg.view);
      var joined := if joins then InitiateViewchange(s1, e.msg.view, step.vc) else Nothing(s1);
      assert forall m | m in joined.out :: !m.NewView?;
      assert eff.state == joined.state && eff.out == joined.out + NewviewOut(c, joined.state, e.msg.view);
      hide HandleViewchange, JoinsViewchange, GoodChoice, ValidViewchange, InitiateViewchange;
      AnnounceOut(c, joined.state, e.msg.view, w);
    }
  }

  // ---- Whether the view is valid ----

  predicate SameView(s: State, t: State)
  {
    t.lastViewSent == s.lastViewSent && t.viewIsValid == s.viewIsValid && t.view == s.view
  }

  lemma OthersKeepView(c: Config, s: State, e: Envelope, requests: set<Hash>)
    requires c.HasPeers()
    ensures e.msg.PrePrepare? ==> var t := HandlePreprepare(c, s, e, requests).state;
                                  SameView(s, t)
    ensures e.msg.Prepare? || e.msg.Commit? ==> var t := HandleVote(c, s, e).state;
                                                SameView(s, t)
  {
  }

  lemma ViewchangeKeepsView(c: Config, s: State, e: Envelope, requests: set<Hash>, vc: Msg)
    requires c.HasPeers() && e.msg.ViewChange? && GoodChoice(c, s, e, requests, vc)
    ensures var eff := HandleViewchange(c, s, e, requests, vc); SameView(s, eff.state) || Asked(eff.out, e.msg.view)
  {
    var eff := HandleViewchange(c, s, e, requests, vc);
    hide WellFormedViewchange, NewviewOut, RecordClaims, SaveRequests;
    if ValidViewchange(c, s.view, e) {
      var s1 := SaveViewchange(c, s, e, requests);
      assert SameView(s, s1);
      hide SaveViewchange;
      if JoinsViewchange(c, s1, e.msg.view) { assert vc in eff.out; }
    }
  }

  lemma FailureKeepsView(s: State, vc: Msg)
    requires vc.ViewChange? && vc.view == s.view + 1
    ensures var eff := InitiateViewchange(s, s.view + 1, vc); SameView(s, eff.state) || Asked(eff.out, s.view + 1)
  {
    if s.view + 1 > s.lastViewSent { assert vc in InitiateViewchange(s, s.view + 1, vc).out; }
  }

  lemma NewviewKeepsLast(c: Config, s: State, e: Envelope, requests: set<Hash>)
    requires c.HasPeers()
    ensures KeepsView(s, HandleNewview(c, s, e, requests).state)
  {
    hide HandleNewview, ValidNewview, AcceptRules;
    if ValidNewview(c, s.view, e) { NewviewRules(c, s, e, requests); } else { NewviewRejected(c, s, e, requests); }
  }

  predicate KeepsView(s: State, t: State)
  {
    t.lastViewSent == s.lastViewSent && (t.viewIsValid <==> s.viewIsValid || t.view != s.view)
  }

  lemma StepKeepsView(c: Config, y: System, step: Step)
    requires c.HasPeers() && Enabled(c, y, step) && !step.Inject?
    ensures var s, eff := y.replicas[step.r], EffectOf(c, y.replicas[step.r], step);
            KeepsView(s, eff.state) || exists w :: Asked(eff.out, w)
  {
    var s := y.replicas[step.r];
    hide HandlePreprepare, HandleVote, HandleViewchange, HandleNewview, RecordClaim, GoodChoice, InitiateViewchange;
    hide Asked, SameView;
    if step.Deliver? {
      if step.e.msg.ViewChange? && c.IsPeer(step.e.sender) {
        ViewchangeKeepsView(c, s, step.e, step.requests, step.vc);
        SameKeeps(s, HandleViewchange(c, s, step.e, step.requests, step.vc).state);
      } else if step.e.msg.NewView? {
        NewviewKeepsLast(c, s, step.e, step.requests);
      } else if step.e.msg.PrePrepare? {
        OthersKeepView(c, s, step.e, step.requests);
        SameKeeps(s, HandlePreprepare(c, s, step.e, step.requests).state);
      } else if step.e.msg.Prepare? || step.e.msg.Commit? {
        OthersKeepView(c, s, step.e, step.requests);
        SameKeeps(s, HandleVote(c, s, step.e).state);
      }
    } else if step.Failure? {
      FailureKeepsView(s, step.vc);
      SameKeeps(s, InitiateViewchange(s, s.view + 1, step.vc).state);
    }
  }

  lemma SameKeeps(s: State, t: State)
    ensures SameView(s, t) ==> KeepsView(s, t)
  {
  }

  /** Asking for a view makes the current one invalid and is remembered; entering one makes it
      valid; nothing else changes either. */
  lemma ValidityStep(c: Config, y: System, step: Step)
    requires c.HasPeers() && Enabled(c, y, step) && !step.Inject?
    ensures var s, t := y.replicas[step.r], EffectOf(c, y.replicas[step.r], step).state;
            && (forall w | Asks(c, s, step, t, w) :: t.lastViewSent == w && !t.viewIsValid)
            && ((forall w :: !Asks(c, s, step, t, w)) ==>
                  t.lastViewSent == s.lastViewSent && (t.viewIsValid <==> s.viewIsValid || t.view != s.view))
  {
    StepKeepsView(c, y, step);
    var s, eff := y.replicas[step.r], EffectOf(c, y.replicas[step.r], step);
    StepRules(c, y, step);
    hide EffectOf, Enabled, Asks, AcceptRules;
    forall w ensures Asked(eff.out, w) <==> Asks(c, s, step, eff.state, w) { AsksIff(c, y, step, w); }
    forall w | Asks(c, s, step, eff.state, w) ensures eff.state.lastViewSent == w && !eff.state.viewIsValid {
      var m :| m in eff.out && m.ViewChange? && m.view == w;
    }
  }
}
