/** When a replica sends what: its votes, its requests to the service, its VIEWCHANGEs and its
    NEWVIEWs, in terms of what it has heard. */
module Sending {
  import opened Quorum
  import opened Messages
  import opened Operations
  import opened Checkpoints
  import opened ViewChange
  import opened Replica
  import opened Protocol
  import opened Invariants
  import opened Views
  import opened Runs
  import opened Issuing
  import opened History
  import opened Agreement

  // ---- Votes ----

  /** What an effect sends and posts for k: a prepare if it adopts k, a commit when it locks k, and k
      itself goes to the service when it is handed over. */
  ghost predicate SendsFor(s: State, eff: Effect, k: OpKey, adopts: bool)
  {
    && (k.PrepareMsg() in eff.out <==> adopts)
    && (k.CommitMsg() in eff.out <==> Shows(eff.state, k, Locked) && !Shows(s, k, Locked))
    && (k in eff.posted <==> Shows(eff.state, k, Handed) && !Shows(s, k, Handed))
  }

  lemma AdvanceSends(c: Config, s: State, j: OpKey, k: OpKey)
    requires c.HasPeers() && j in s.ops
    ensures SendsFor(s, MaybeAdvance(c, s, j), k, false)
  {
  }

  /** Recording something about j before it advances does not change any stage. */
  lemma RecordedSends(s: State, s1: State, eff: Effect, k: OpKey, adopts: bool)
    requires SendsFor(s1, eff, k, adopts)
    requires Shows(s1, k, Locked) == Shows(s, k, Locked) && Shows(s1, k, Handed) == Shows(s, k, Handed)
    ensures SendsFor(s, eff, k, adopts)
  {
  }

  /** Nothing that concerns k. */
  lemma SilentFor(s: State, eff: Effect, k: OpKey)
    requires eff.posted == {} && (forall m | m in eff.out :: !m.Prepare? && !m.Commit?)
    requires forall x :: (x == Locked || x == Handed) && Shows(eff.state, k, x) ==> Shows(s, k, x)
    ensures SendsFor(s, eff, k, false)
  {
  }

  lemma VoteSends(c: Config, s: State, e: Envelope, k: OpKey)
    requires c.HasPeers() && (e.msg.Prepare? || e.msg.Commit?)
    ensures SendsFor(s, HandleVote(c, s, e), k, false)
  {
    var j := OpKey(e.msg.view, e.msg.sequence, e.msg.hash);
    var s1 := s.(ops := s.ops[j := Find(s.ops, j).Record(e)]);
    AdvanceSends(c, s1, j, k);
    hide MaybeAdvance, SendsFor;
    RecordedSends(s, s1, MaybeAdvance(c, s1, j), k, false);
  }

  /** The state in which an adopted pre-prepare is looked at. */
  function Adopted(s: State, e: Envelope, requests: set<Hash>, j: OpKey): State
  {
    s.(ops := s.ops[j := Given(s.ops, j, e, requests)], accepted := s.accepted[(j.view, j.sequence) := j.hash])
  }

  lemma AdoptedThenAdvanced(c: Config, s: State, e: Envelope, requests: set<Hash>, j: OpKey)
    requires c.HasPeers() && e.msg == j.PrePrepareMsg() && Open(s, j)
    ensures var eff := MaybeAdvance(c, Adopted(s, e, requests, j), j);
            HandlePreprepare(c, s, e, requests) == eff.(out := eff.out + {j.PrepareMsg()})
  {
    hide MaybeAdvance;
  }

  lemma PrepareToo(s: State, eff: Effect, j: OpKey, k: OpKey)
    requires SendsFor(s, eff, k, false)
    ensures SendsFor(s, eff.(out := eff.out + {j.PrepareMsg()}), k, k == j)
  {
  }

  lemma AdoptedStages(s: State, e: Envelope, requests: set<Hash>, j: OpKey, k: OpKey)
    ensures Shows(Adopted(s, e, requests, j), k, Locked) == Shows(s, k, Locked)
    ensures Shows(Adopted(s, e, requests, j), k, Handed) == Shows(s, k, Handed)
  {
  }

  lemma PreprepareSends(c: Config, s: State, e: Envelope, requests: set<Hash>, k: OpKey)
    requires c.HasPeers() && e.msg.PrePrepare?
    ensures SendsFor(s, HandlePreprepare(c, s, e, requests), k, e.msg == k.PrePrepareMsg() && Open(s, k))
  {
    hide MaybeAdvance, HandlePreprepare, SendsFor, Adopted, Shows;
    var j := OpKey(e.msg.view, e.msg.sequence, e.msg.hash);
    if Open(s, j) {
      var s1 := Adopted(s, e, requests, j);
      assert j in s1.ops by { PutThere(s, e, requests, j); }
      AdvanceSends(c, s1, j, k);
      AdoptedThenAdvanced(c, s, e, requests, j);
      AdoptedStages(s, e, requests, j, k);
      RecordedSends(s, s1, MaybeAdvance(c, s1, j), k, false);
      PrepareToo(s, MaybeAdvance(c, s1, j), j, k);
    } else {
      Conflicting(c, s, e, requests, j);
      SilentFor(s, Nothing(s), k);
    }
  }

  lemma PutThere(s: State, e: Envelope, requests: set<Hash>, j: OpKey)
    ensures j in Adopted(s, e, requests, j).ops
  {
  }

  lemma {:induction false} PrepreparesSend(c: Config, s: State, es: seq<Envelope>, w: nat, requests: set<Hash>,
                                           k: OpKey)
    requires c.HasPeers() && Distinct(es, w)
    ensures SendsFor(s, HandlePreprepares(c, s, es, requests), k, Among(es, k) && Open(s, k))
    decreases |es|
  {
    hide HandlePreprepare;
    if es != [] {
      var first := HandlePreprepare(c, s, es[0], requests);
      var s1 := first.state.(nextIssued := es[0].msg.sequence + 1);
      PreprepareSends(c, s, es[0], requests, k);
      PreprepareAccepted(c, s, es[0], requests);
      OneHandled(c, s, es[0], requests, k);
      AmongTail(es, w, k);
      assert es[0] in [es[0]];
      AllHandled(c, s1, es[1..], w, requests, k);
      PrepreparesSend(c, s1, es[1..], w, requests, k);
      hide Advanced, Given, Distinct, Among;
    }
  }

  lemma NewviewSends(c: Config, s: State, step: Step, k: OpKey)
    requires c.HasPeers() && step.Deliver? && c.IsPeer(step.e.sender) && ValidNewview(c, s.view, step.e)
    ensures var eff := HandleNewview(c, s, step.e, step.requests);
            SendsFor(s, eff, k, Adopts(c, s, step, eff.state, k))
  {
    var es, eff := step.e.msg.preprepares, HandleNewview(c, s, step.e, step.requests);
    NewviewFacts(c, s.view, step.e);
    NewviewRules(c, s, step.e, step.requests);
    PreparesInOrder(c, s.view, step.e);
    assert Distinct(es, step.e.msg.view);
    hide ValidNewview, HandlePreprepares, Distinct, SendsFor, AcceptRules;
    var s1 := EnterView(c, s, step.e.msg);
    PrepreparesSend(c, s1, es, step.e.msg.view, step.requests, k);
    RecordedSends(s, s1, eff, k, Among(es, k) && Open(s1, k));
    assert Among(es, k) <==> HearsProposal(c, s, step, eff.state, k);
  }

  lemma ViewchangeSilent(c: Config, s: State, e: Envelope, requests: set<Hash>, vc: Msg, k: OpKey)
    requires c.HasPeers() && e.msg.ViewChange? && GoodChoice(c, s, e, requests, vc)
    ensures SendsFor(s, HandleViewchange(c, s, e, requests, vc), k, false)
  {
    var eff := HandleViewchange(c, s, e, requests, vc);
    ViewchangeKinds(c, s, e, requests, vc);
    SavedStages(c, s, e, requests, vc, k);
    hide HandleViewchange, GoodChoice, SendsFor, Shows;
    SilentFor(s, eff, k);
  }

  lemma SavedStages(c: Config, s: State, e: Envelope, requests: set<Hash>, vc: Msg, k: OpKey)
    requires c.HasPeers() && e.msg.ViewChange?
    ensures var t := HandleViewchange(c, s, e, requests, vc).state;
            (Shows(t, k, Locked) ==> Shows(s, k, Locked)) && (Shows(t, k, Handed) ==> Shows(s, k, Handed))
  {
    hide HandleViewchange, SaveRequests, ValidViewchange;
    ViewchangeOps(c, s, e, requests, vc);
    StagesSaved(s.ops, e.msg.proofs, requests, k);
  }

  lemma StagesSaved(ops: map<OpKey, Op>, proofs: seq<Proof>, requests: set<Hash>, k: OpKey)
    ensures var saved := SaveRequests(ops, proofs, requests);
            k in saved && saved[k].stage != PrepareStage ==> k in ops && saved[k].stage == ops[k].stage
  {
    SavedHas(ops, proofs, requests, k);
    hide SaveRequests, Certifies;
  }

  lemma ViewchangeKinds(c: Config, s: State, e: Envelope, requests: set<Hash>, vc: Msg)
    requires c.HasPeers() && e.msg.ViewChange? && GoodChoice(c, s, e, requests, vc)
    ensures var eff := HandleViewchange(c, s, e, requests, vc);
            eff.posted == {} && forall m | m in eff.out :: m.ViewChange? || m.NewView? || m.PrePrepare?
  {
    hide WellFormedViewchange, SaveViewchange, NewviewOut, JoinsViewchange;
    if ValidViewchange(c, s.view, e) {
      var s1 := SaveViewchange(c, s, e, requests);
      var joins := JoinsViewchange(c, s1, e.msg.view);
      var joined := if joins then InitiateViewchange(s1, e.msg.view, vc) else Nothing(s1);
      NewviewOutKinds(c, joined.state, e.msg.view);
    }
  }

  lemma LocalSends(c: Config, y: System, step: Step, k: OpKey)
    requires c.HasPeers() && Enabled(c, y, step) && (step.Request? || step.Failure? || step.Executed?)
    ensures SendsFor(y.replicas[step.r], EffectOf(c, y.replicas[step.r], step), k, false)
  {
    var s, eff := y.replicas[step.r], EffectOf(c, y.replicas[step.r], step);
    assert forall m | m in eff.out :: !m.Prepare? && !m.Commit?;
    assert forall x :: (x == Locked || x == Handed) && Shows(eff.state, k, x) ==> Shows(s, k, x);
    hide EffectOf, Enabled, SendsFor, Shows;
    SilentFor(s, eff, k);
  }

  lemma StepSends(c: Config, y: System, step: Step, k: OpKey)
    requires c.HasPeers() && Enabled(c, y, step) && !step.Inject?
    ensures var s, eff := y.replicas[step.r], EffectOf(c, y.replicas[step.r], step);
            SendsFor(s, eff, k, Adopts(c, s, step, eff.state, k))
  {
    hide SendsFor, HandlePreprepare, HandleVote, HandleViewchange, HandleNewview, RecordClaim, ValidNewview, GoodChoice;
    var s, eff := y.replicas[step.r], EffectOf(c, y.replicas[step.r], step);
    if !step.Deliver? {
      LocalSends(c, y, step, k);
    } else {
      var e := step.e;
      if e.msg.NewView? && c.IsPeer(e.sender) && ValidNewview(c, s.view, e) {
        NewviewSends(c, s, step, k);
      } else if e.msg.ViewChange? && c.IsPeer(e.sender) {
        ViewchangeSilent(c, s, e, step.requests, step.vc, k);
      } else if (e.msg.PrePrepare? || e.msg.Prepare? || e.msg.Commit?) && c.IsPeer(e.sender)
                && s.viewIsValid && e.msg.view == s.view {
        if e.msg.PrePrepare? { PreprepareSends(c, s, e, step.requests, k); } else { VoteSends(c, s, e, k); }
      } else {
        if e.msg.NewView? && c.IsPeer(e.sender) { NewviewRejected(c, s, e, step.requests); }
        SilentFor(s, eff, k);
      }
    }
  }

  // ---- Votes over whole runs ----

  lemma SendsAt(c: Config, states: seq<System>, steps: seq<Step>, i: nat, r: Uuid, k: OpKey)
    requires c.HasPeers() && IsRun(c, states, steps) && i < |steps| && c.Correct(r)
    ensures r in states[i].replicas && r in states[i + 1].replicas
    ensures k.PrepareMsg() in Sends(c, states[i], steps[i], r) <==> BringsAt(c, states, steps, i, r, k, Proposed)
    ensures k.CommitMsg() in Sends(c, states[i], steps[i], r) <==>
            Shows(states[i + 1].replicas[r], k, Locked) && !Shows(states[i].replicas[r], k, Locked)
    ensures Posts(c, states, steps, i, r, k) <==>
            Shows(states[i + 1].replicas[r], k, Handed) && !Shows(states[i].replicas[r], k, Handed)
  {
    Present(c, states, steps, i, r);
    Present(c, states, steps, i + 1, r);
    assert Takes(c, states, steps, i);
    hide IsRun, Local, EffectOf, Enabled, Adopts, Shows;
    if !steps[i].Inject? && steps[i].r == r { StepSends(c, states[i], steps[i], k); }
  }

  /** Replica r has said by state j that it knows of facet x of k: it has sent a prepare, sent a
      commit, or handed k to its service. */
  ghost predicate Said(c: Config, states: seq<System>, steps: seq<Step>, j: nat, r: Uuid, k: OpKey, x: Facet)
    requires c.HasPeers() && IsRun(c, states, steps) && j < |states|
  {
    match x
    case Proposed => Envelope(r, k.PrepareMsg()) in states[j].sent
    case Locked => Envelope(r, k.CommitMsg()) in states[j].sent
    case Handed => exists i: nat :: i < j && Posts(c, states, steps, i, r, k)
    case _ => false
  }

  /** It says so in step i. */
  ghost predicate Says(c: Config, states: seq<System>, steps: seq<Step>, i: nat, r: Uuid, k: OpKey, x: Facet)
    requires c.HasPeers() && IsRun(c, states, steps) && i < |steps|
  {
    match x
    case Proposed => k.PrepareMsg() in Sends(c, states[i], steps[i], r)
    case Locked => k.CommitMsg() in Sends(c, states[i], steps[i], r)
    case Handed => Posts(c, states, steps, i, r, k)
    case _ => false
  }

  lemma SaidStep(c: Config, states: seq<System>, steps: seq<Step>, i: nat, r: Uuid, k: OpKey, x: Facet)
    requires c.HasPeers() && IsRun(c, states, steps) && i < |steps| && c.Correct(r)
    ensures Said(c, states, steps, i + 1, r, k, x) <==>
            Said(c, states, steps, i, r, k, x) || Says(c, states, steps, i, r, k, x)
  {
    Present(c, states, steps, i, r);
    assert Takes(c, states, steps, i);
    hide IsRun, Local, Posts, EffectOf;
    assert states[i].sent <= states[i + 1].sent;
    assert !steps[i].Inject? && steps[i].r == r ==> Signed(r, Sends(c, states[i], steps[i], r)) <= states[i + 1].sent;
    hide Apply, Sends, Enabled;
    SaidNow(c, states, steps, i, r, k.PrepareMsg());
    SaidNow(c, states, steps, i, r, k.CommitMsg());
  }

  lemma SaidNow(c: Config, states: seq<System>, steps: seq<Step>, i: nat, r: Uuid, m: Msg)
    requires c.HasPeers() && IsRun(c, states, steps) && i < |steps| && c.Correct(r)
    ensures Envelope(r, m) in states[i + 1].sent <==>
            Envelope(r, m) in states[i].sent || m in Sends(c, states[i], steps[i], r)
  {
    Present(c, states, steps, i, r);
    assert Takes(c, states, steps, i);
    hide IsRun, Local, EffectOf, GoodChoice, Authentic, ViewchangeFrom;
  }

  ghost predicate BroughtBefore(c: Config, states: seq<System>, steps: seq<Step>, j: nat, r: Uuid, k: OpKey, x: Facet)
    requires c.HasPeers()
  {
    exists i: nat :: i < j && BringsAt(c, states, steps, i, r, k, x)
  }

  lemma BroughtMore(c: Config, states: seq<System>, steps: seq<Step>, j: nat, r: Uuid, k: OpKey, x: Facet)
    requires c.HasPeers()
    ensures BroughtBefore(c, states, steps, j + 1, r, k, x) <==>
            BroughtBefore(c, states, steps, j, r, k, x) || BringsAt(c, states, steps, j, r, k, x)
    ensures Heard(c, states, steps, j, r, k, x) ==> BroughtBefore(c, states, steps, j, r, k, x)
  {
    hide BringsAt, Kept;
  }

  /** A replica has sent a prepare for k if and only if it adopted a pre-prepare for k; a commit, if
      and only if it looked at k with its request, its pre-prepare and prepares of 2f+1 peers; and it has
      handed k to its service if and only if it looked at it locked and with commits of 2f+1 peers. */
  lemma {:induction false} SaidIff(c: Config, states: seq<System>, steps: seq<Step>, j: nat, r: Uuid, k: OpKey,
                                   x: Facet)
    requires c.HasPeers() && IsRun(c, states, steps) && j < |states| && c.Correct(r)
    requires x == Proposed || x == Locked || x == Handed
    ensures Said(c, states, steps, j, r, k, x) <==> BroughtBefore(c, states, steps, j, r, k, x)
  {
    if j == 0 {
      assert Init(c, states[0]);
    } else {
      var i := j - 1;
      SaidIff(c, states, steps, i, r, k, x);
      RunShape(c, states, steps);
      hide IsRun, Said, BringsAt, DropsAt, Shows, Heard, BroughtBefore, Posts, Sends;
      SaidStep(c, states, steps, i, r, k, x);
      SendsAt(c, states, steps, i, r, k);
      FacetStep(c, states, steps, i, r, k, x);
      FacetIff(c, states, steps, i, r, k, x);
      BroughtMore(c, states, steps, i, r, k, x);
    }
  }

  // ---- Pre-prepares ----

  /** The pre-prepare of k goes out inside a NEWVIEW too. */
  ghost predicate Renewed(out: set<Msg>, k: OpKey)
  {
    exists nv :: nv in out && nv.NewView? && Among(nv.preprepares, k)
  }

  lemma NewviewProposes(c: Config, s: State, v: nat, k: OpKey)
    requires c.HasPeers()
    ensures k.PrePrepareMsg() in NewviewOut(c, s, v) <==> Renewed(NewviewOut(c, s, v), k)
  {
    NewviewOutKinds(c, s, v);
    if Candidates(c, s) != {} {
      var selected, vcs := MinOf(Candidates(c, s)), ViewchangesFor(s, v);
      var pps, nv := NewPrePrepares(c, selected, vcs), BuildNewview(c, s.id, selected, vcs);
      assert nv in NewviewOut(c, s, v);
      hide NewPrePrepares;
      if k.PrePrepareMsg() in NewviewOut(c, s, v) {
        assert k.PrePrepareMsg() in pps;
        var i :| 0 <= i < |pps| && pps[i] == k.PrePrepareMsg();
        assert nv.preprepares[i] in nv.preprepares && nv.preprepares[i].msg == k.PrePrepareMsg();
      }
    }
  }

  lemma ViewchangeProposes(c: Config, s: State, e: Envelope, requests: set<Hash>, vc: Msg, k: OpKey)
    requires c.HasPeers() && e.msg.ViewChange? && GoodChoice(c, s, e, requests, vc)
    ensures var out := HandleViewchange(c, s, e, requests, vc).out; k.PrePrepareMsg() in out <==> Renewed(out, k)
  {
    hide WellFormedViewchange, SaveViewchange, NewviewOut, JoinsViewchange;
    var out := HandleViewchange(c, s, e, requests, vc).out;
    if ValidViewchange(c, s.view, e) {
      var s1 := SaveViewchange(c, s, e, requests);
      var joins := JoinsViewchange(c, s1, e.msg.view);
      var joined := if joins then InitiateViewchange(s1, e.msg.view, vc) else Nothing(s1);
      var more := NewviewOut(c, joined.state, e.msg.view);
      assert out == joined.out + more && forall m | m in joined.out :: m.ViewChange?;
      NewviewProposes(c, joined.state, e.msg.view, k);
      hide HandleViewchange, InitiateViewchange, ValidViewchange, GoodChoice;
    }
  }

  /** A pre-prepare for k is sent if and only if this replica leads and gives the next number to a
      request, or it sends a NEWVIEW that proposes k. */
  lemma ProposesIff(c: Config, y: System, step: Step, k: OpKey)
    requires c.HasPeers() && Enabled(c, y, step) && !step.Inject?
    ensures var s, out := y.replicas[step.r], EffectOf(c, y.replicas[step.r], step).out;
            k.PrePrepareMsg() in out <==>
            || (step.Request? && s.id == s.view % c.n && k == OpKey(s.view, s.nextIssued, step.h))
            || Renewed(out, k)
  {
    var s, out := y.replicas[step.r], EffectOf(c, y.replicas[step.r], step).out;
    hide HandlePreprepare, HandleVote, HandleViewchange, HandleNewview, RecordClaim, GoodChoice;
    if step.Deliver? {
      var e := step.e;
      if e.msg.ViewChange? && c.IsPeer(e.sender) {
        ViewchangeProposes(c, s, e, step.requests, step.vc, k);
      } else {
        VotesOnly(c, s, e, step.requests);
        assert forall m | m in out :: m.Prepare? || m.Commit?;
      }
    }
  }

  lemma VotesOnly(c: Config, s: State, e: Envelope, requests: set<Hash>)
    requires c.HasPeers()
    ensures e.msg.PrePrepare? ==> forall m | m in HandlePreprepare(c, s, e, requests).out :: m.Prepare? || m.Commit?
    ensures e.msg.Prepare? || e.msg.Commit? ==> forall m | m in HandleVote(c, s, e).out :: m.Commit?
    ensures forall m | m in HandleNewview(c, s, e, requests).out :: m.Prepare? || m.Commit?
  {
    hide HandleNewview;
    NewviewSendsVotes(c, s, e, requests);
  }
}
