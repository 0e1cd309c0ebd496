/** A kit for concrete runs in a swarm of four peers, peer 3 faulty: a scene is what is known of a
    state that some run reaches, and each lemma below takes a run one handler further. */
module Scenes {
  import opened Quorum
  import opened Messages
  import opened Operations
  import opened Checkpoints
  import opened ViewChange
  import opened Replica
  import opened Protocol
  import opened MakerChecker
  import opened NewviewContent
  import opened Invariants
  import opened Views
  import opened Agreement

  const Four: Config := Config(4, {3}, "null")

  /** Which of the conditions of agreement the run keeps. low says that every NEWVIEW accepted
      starts right above 0 and every pre-prepare handled is above 0. */
  datatype Kept = Kept(disciplined: bool, latest: bool, low: bool)

  ghost predicate StepKeeps(y: System, step: Step, kept: Kept)
  {
    && (forall r | Accepts(Four, y, step, r) ::
          && (kept.disciplined ==> step.e.msg.view >= y.replicas[r].lastViewSent)
          && (kept.latest ==> forall s: nat :: PicksLatest(BySender(step.e.msg.viewchanges), s))
          && (kept.low ==> StartOf(Four, step.e.msg) == 0))
    && (kept.low && step.Deliver? && step.e.msg.PrePrepare? ==> step.e.msg.sequence > 0)
  }

  ghost predicate Keeps(states: seq<System>, steps: seq<Step>, kept: Kept)
    requires IsRun(Four, states, steps)
  {
    forall i | 0 <= i < |steps| :: StepKeeps(states[i], steps[i], kept)
  }

  ghost predicate RunTo(states: seq<System>, steps: seq<Step>, y: System, kept: Kept)
  {
    IsRun(Four, states, steps) && states[|states| - 1] == y && Keeps(states, steps, kept)
  }

  ghost predicate Reached(y: System, kept: Kept)
  {
    exists states, steps :: RunTo(states, steps, y, kept)
  }

  lemma KeptConditions(states: seq<System>, steps: seq<Step>, y: System, kept: Kept)
    requires RunTo(states, steps, y, kept)
    ensures kept.disciplined ==> Disciplined(Four, states, steps)
    ensures kept.latest ==> forall s: nat :: AllLatest(Four, states, steps, s)
    ensures kept.low ==> Guarded(Four, states, steps)
  {
    RunShape(Four, states, steps);
    hide IsRun, Accepts, PicksLatest, StartOf;
  }

  lemma Extend(y: System, step: Step, kept: Kept)
    requires Reached(y, kept) && Enabled(Four, y, step) && StepKeeps(y, step, kept)
    ensures Reached(Apply(Four, y, step), kept)
  {
    hide Enabled, Apply, StepKeeps, Init;
    var states, steps :| RunTo(states, steps, y, kept);
    var states', steps' := states + [Apply(Four, y, step)], steps + [step];
    forall i | 0 <= i < |steps'| ensures Takes(Four, states', steps', i) && StepKeeps(states'[i], steps'[i], kept) {
      if i < |steps| {
        assert Takes(Four, states, steps, i);
        assert states'[i] == states[i] && states'[i + 1] == states[i + 1] && steps'[i] == steps[i];
      } else {
        assert states'[i] == y && steps'[i] == step;
      }
    }
    assert RunTo(states', steps', Apply(Four, y, step), kept);
  }

  // ---- Scenes ----

  /** The replicas, and some of the envelopes sent. */
  datatype Scene = Scene(m: map<Uuid, State>, sent: set<Envelope>, kept: Kept) {
    function Put(r: Uuid, st: State, out: set<Msg>): Scene
    {
      this.(m := m[r := st], sent := sent + Signed(r, out))
    }
  }

  ghost predicate Seen(sc: Scene)
  {
    exists y :: Reached(y, sc.kept) && y.replicas == sc.m && sc.sent <= y.sent
  }

  function Cast(): map<Uuid, State> { map[0 := Initial(0), 1 := Initial(1), 2 := Initial(2)] }

  lemma Opening(kept: Kept)
    ensures Seen(Scene(Cast(), {}, kept))
  {
    var y := System(Cast(), {});
    assert Init(Four, y) && IsRun(Four, [y], []);
    assert RunTo([y], [], y, kept);
  }

  /** Fewer envelopes. */
  lemma Forget(sc: Scene, sent: set<Envelope>)
    requires Seen(sc) && sent <= sc.sent
    ensures Seen(sc.(sent := sent))
  {
    var y :| Reached(y, sc.kept) && y.replicas == sc.m && sc.sent <= y.sent;
  }

  lemma Injects(sc: Scene, e: Envelope)
    requires Seen(sc) && !Four.Correct(e.sender) && Authentic(Four, sc.sent, e)
    ensures Seen(sc.(sent := sc.sent + {e}))
  {
    var y :| Reached(y, sc.kept) && y.replicas == sc.m && sc.sent <= y.sent;
    AuthenticGrows(Four, sc.sent, y.sent, e);
    hide Reached;
    Extend(y, Inject(e), sc.kept);
  }

  /** Peer 3 may make a NEWVIEW of viewchanges that were sent. */
  lemma InjectsNewview(sc: Scene, e: Envelope)
    requires Seen(sc) && e.sender == 3 && e.msg.NewView? && (forall x | x in e.msg.viewchanges :: x in sc.sent)
    requires forall x | x in e.msg.preprepares :: x.sender == 3 && x.msg.PrePrepare?
    ensures Seen(sc.(sent := sc.sent + {e}))
  {
    var y :| Reached(y, sc.kept) && y.replicas == sc.m && sc.sent <= y.sent;
    var states, steps :| RunTo(states, steps, y, sc.kept);
    RunOk(Four, states, steps, |states| - 1);
    assert Authentic(Four, y.sent, e) by {
      forall x | x in e.msg.viewchanges ensures Authentic(Four, y.sent, x) { assert x in y.sent; }
    }
    hide Reached, RunTo, Authentic, Inv;
    Extend(y, Inject(e), sc.kept);
  }

  lemma SomeRun(sc: Scene) returns (states: seq<System>, steps: seq<Step>)
    requires Seen(sc)
    ensures IsRun(Four, states, steps) && Four.Tolerable() && |states| == |steps| + 1
    ensures var y := states[|steps|]; y.replicas == sc.m && sc.sent <= y.sent
  {
    var y :| Reached(y, sc.kept) && y.replicas == sc.m && sc.sent <= y.sent;
    states, steps :| RunTo(states, steps, y, sc.kept);
    RunShape(Four, states, steps);
    assert {3} <= Peers(4) by { assert Below(3, 4); }
    hide IsRun, Keeps, Peers;
  }

  /** What a scene says about the enabledness of a step. */
  ghost predicate Ready(sc: Scene, step: Step)
  {
    && !step.Inject? && step.r in sc.m
    && (step.Deliver? ==> step.e in sc.sent && GoodChoice(Four, sc.m[step.r], step.e, step.requests, step.vc))
    && (step.Failure? ==> ViewchangeFrom(sc.m[step.r].cps, sc.m[step.r].ops, sc.m[step.r].view + 1, step.vc))
    && StepKeeps(System(sc.m, {}), step, sc.kept)
  }

  lemma Acts(sc: Scene, step: Step)
    requires Seen(sc) && Ready(sc, step)
    ensures var eff := EffectOf(Four, sc.m[step.r], step); Seen(sc.Put(step.r, eff.state, eff.out))
  {
    hide EffectOf, GoodChoice, ViewchangeFrom, Reached, PicksLatest, StartOf, ValidNewview;
    var y :| Reached(y, sc.kept) && y.replicas == sc.m && sc.sent <= y.sent;
    assert forall r :: Accepts(Four, y, step, r) <==> Accepts(Four, System(sc.m, {}), step, r);
    assert StepKeeps(y, step, sc.kept);
    hide StepKeeps;
    Extend(y, step, sc.kept);
  }

  /** Viewchanges that correct peers sent are well formed, and every envelope is authentic. */
  lemma SentIsGood(sc: Scene, e: Envelope)
    requires Seen(sc) && e in sc.sent
    ensures exists sent :: sc.sent <= sent && Authentic(Four, sent, e)
    ensures Four.Correct(e.sender) && e.msg.ViewChange? ==> WellFormedViewchange(Four, e)
  {
    var y :| Reached(y, sc.kept) && y.replicas == sc.m && sc.sent <= y.sent;
    var states, steps :| RunTo(states, steps, y, sc.kept);
    RunOk(Four, states, steps, |states| - 1);
    assert Authentic(Four, y.sent, e);
    if Four.Correct(e.sender) { assert ViewchangesOk(Four, y.sent, y.replicas[e.sender]); }
  }

  // ---- Votes ----

  const Idle: Msg := NewView(0, [], [])

  function KeyOf(m: Msg): OpKey
    requires m.PrePrepare?
  {
    OpKey(m.view, m.sequence, m.hash)
  }

  lemma NoChoice(s: State, e: Envelope, requests: set<Hash>, vc: Msg)
    requires !e.msg.ViewChange?
    ensures GoodChoice(Four, s, e, requests, vc)
  {
  }

  /** In its current, valid view the replica has not yet heard of the proposal. */
  predicate Open(s: State, m: Msg)
  {
    && m.PrePrepare? && s.viewIsValid && m.view == s.view
    && (m.view, m.sequence) !in s.accepted && KeyOf(m) !in s.ops
  }

  function Proposed(s: State, e: Envelope): State
    requires e.msg.PrePrepare?
  {
    s.(accepted := s.accepted[(e.msg.view, e.msg.sequence) := e.msg.hash],
       ops := s.ops[KeyOf(e.msg) := Op(PrepareStage, Some(e), map[], {}, true)])
  }

  lemma ProposalEffect(s: State, e: Envelope)
    requires Open(s, e.msg)
    ensures HandlePreprepare(Four, s, e, {e.msg.hash}) == Effect(Proposed(s, e), {KeyOf(e.msg).PrepareMsg()}, {})
  {
    var eff := HandlePreprepare(Four, s, e, {e.msg.hash});
    assert eff.state.ops == Proposed(s, e).ops;
  }

  /** A proposal, with its request attached, is accepted and prepared. */
  lemma HearProposal(sc: Scene, r: Uuid, e: Envelope)
    requires Seen(sc) && r in sc.m && e in sc.sent && e.sender < 4 && Open(sc.m[r], e.msg) && e.msg.sequence > 0
    ensures Seen(sc.Put(r, Proposed(sc.m[r], e), {KeyOf(e.msg).PrepareMsg()}))
  {
    ProposalEffect(sc.m[r], e);
    NoChoice(sc.m[r], e, {e.msg.hash}, Idle);
    hide HandlePreprepare, Seen, GoodChoice;
    Acts(sc, Deliver(r, e, {e.msg.hash}, Idle));
  }

  function WithPrepares(s: State, k: OpKey, prepares: map<Uuid, Envelope>): State
    requires k in s.ops
  {
    s.(ops := s.ops[k := s.ops[k].(prepares := prepares)])
  }

  /** The first two prepares. */
  lemma HearPrepare(sc: Scene, r: Uuid, k: OpKey, u: Uuid)
    requires Seen(sc) && r in sc.m && u < 4 && Envelope(u, k.PrepareMsg()) in sc.sent
    requires k in sc.m[r].ops && sc.m[r].viewIsValid && k.view == sc.m[r].view
    requires sc.m[r].ops[k].stage == PrepareStage && |sc.m[r].ops[k].prepares[u := Envelope(u, k.PrepareMsg())]| < 3
    ensures Seen(sc.Put(r, WithPrepares(sc.m[r], k, sc.m[r].ops[k].prepares[u := Envelope(u, k.PrepareMsg())]), {}))
  {
    var s, e := sc.m[r], Envelope(u, k.PrepareMsg());
    assert HandleVote(Four, s, e) == Effect(WithPrepares(s, k, s.ops[k].prepares[u := e]), {}, {}) by {
      assert HandleVote(Four, s, e).state.ops == WithPrepares(s, k, s.ops[k].prepares[u := e]).ops;
    }
    NoChoice(s, e, {}, Idle);
    hide HandleVote, Seen, GoodChoice;
    Acts(sc, Deliver(r, e, {}, Idle));
  }

  function Three(k: OpKey, a: Uuid, b: Uuid, d: Uuid): map<Uuid, Envelope>
  {
    map[a := Envelope(a, k.PrepareMsg()), b := Envelope(b, k.PrepareMsg()), d := Envelope(d, k.PrepareMsg())]
  }

  function LockedOp(e: Envelope, k: OpKey, a: Uuid, b: Uuid, d: Uuid): Op
  {
    Op(CommitStage, Some(e), Three(k, a, b, d), {}, true)
  }

  function Locked(s: State, e: Envelope, k: OpKey, a: Uuid, b: Uuid, d: Uuid): State
  {
    s.(ops := s.ops[k := LockedOp(e, k, a, b, d)])
  }

  /** The third prepare makes it commit. */
  lemma LastPrepareEffect(s: State, e: Envelope, k: OpKey, a: Uuid, b: Uuid, d: Uuid)
    requires a != b && b != d && a != d && k in s.ops
    requires s.ops[k] == Op(PrepareStage, Some(e),
             map[a := Envelope(a, k.PrepareMsg()), b := Envelope(b, k.PrepareMsg())], {}, true)
    ensures HandleVote(Four, s, Envelope(d, k.PrepareMsg())) == Effect(Locked(s, e, k, a, b, d), {k.CommitMsg()}, {})
  {
    var eff := HandleVote(Four, s, Envelope(d, k.PrepareMsg()));
    assert Three(k, a, b, d).Keys == {a, b, d};
    assert |Three(k, a, b, d)| == |{a, b, d}| == 3;
    assert s.ops[k].prepares[d := Envelope(d, k.PrepareMsg())] == Three(k, a, b, d);
    assert eff.state.ops == Locked(s, e, k, a, b, d).ops;
  }

  /** Prepares of three peers for a proposal just accepted: the replica sends its commit. */
  lemma HearPrepares(sc: Scene, r: Uuid, e: Envelope, a: Uuid, b: Uuid, d: Uuid)
    requires Seen(sc) && r in sc.m && e.msg.PrePrepare? && a < 4 && b < 4 && d < 4 && a != b && b != d && a != d
    requires var k := KeyOf(e.msg);
             && Envelope(a, k.PrepareMsg()) in sc.sent && Envelope(b, k.PrepareMsg()) in sc.sent
               && Envelope(d, k.PrepareMsg()) in sc.sent
             && k in sc.m[r].ops && sc.m[r].ops[k] == Op(PrepareStage, Some(e), map[], {}, true)
             && sc.m[r].viewIsValid && k.view == sc.m[r].view
    ensures Seen(sc.Put(r, Locked(sc.m[r], e, KeyOf(e.msg), a, b, d), {KeyOf(e.msg).CommitMsg()}))
  {
    hide Seen;
    var s, k := sc.m[r], KeyOf(e.msg);
    HearPrepare(sc, r, k, a);
    var s1 := WithPrepares(s, k, map[a := Envelope(a, k.PrepareMsg())]);
    var sc1 := sc.Put(r, s1, {});
    assert s.ops[k].prepares[a := Envelope(a, k.PrepareMsg())] == map[a := Envelope(a, k.PrepareMsg())];
    HearPrepare(sc1, r, k, b);
    var two := map[a := Envelope(a, k.PrepareMsg()), b := Envelope(b, k.PrepareMsg())];
    var s2 := WithPrepares(s1, k, two);
    var sc2 := sc1.Put(r, s2, {});
    LastPrepareEffect(s2, e, k, a, b, d);
    NoChoice(s2, Envelope(d, k.PrepareMsg()), {}, Idle);
    hide HandleVote, GoodChoice;
    Acts(sc2, Deliver(r, Envelope(d, k.PrepareMsg()), {}, Idle));
    assert Locked(s2, e, k, a, b, d) == Locked(s, e, k, a, b, d);
    assert sc2.Put(r, Locked(s2, e, k, a, b, d), {k.CommitMsg()})
           == sc.Put(r, Locked(s, e, k, a, b, d), {k.CommitMsg()});
  }

  // ---- Viewchanges ----

  /** The viewchange of a replica with no stable checkpoint and nothing prepared. */
  function Bare(w: nat): Msg { ViewChange(w, 0, [], []) }

  /** The viewchange of a replica with no stable checkpoint that prepared k only. */
  function Holding(w: nat, e: Envelope, k: OpKey, a: Uuid, b: Uuid, d: Uuid): Msg
  {
    ViewChange(w, 0, [], [CertOf(e, k, a, b, d)])
  }

  function CertOf(e: Envelope, k: OpKey, a: Uuid, b: Uuid, d: Uuid): Proof
  {
    Proof(e, [Envelope(a, k.PrepareMsg()), Envelope(b, k.PrepareMsg()), Envelope(d, k.PrepareMsg())])
  }

  predicate Unstable(m: Checkpoints) { m.stable == INITIAL && m.stableProof == map[] }

  lemma BareIsMade(s: State, w: nat)
    requires Unstable(s.cps) && forall k | k in s.ops :: !s.ops[k].IsPrepared()
    ensures ViewchangeFrom(s.cps, s.ops, w, Bare(w))
  {
    assert ProofsOf(s.ops, 0, [], []);
  }

  lemma HoldingIsMade(s: State, w: nat, e: Envelope, k: OpKey, a: Uuid, b: Uuid, d: Uuid)
    requires Unstable(s.cps) && k in s.ops && s.ops[k] == LockedOp(e, k, a, b, d) && k.sequence > 0
    requires a != b && b != d && a != d && forall j | j in s.ops && s.ops[j].IsPrepared() :: j == k
    ensures ViewchangeFrom(s.cps, s.ops, w, Holding(w, e, k, a, b, d))
  {
    var p := CertOf(e, k, a, b, d);
    var three := Three(k, a, b, d);
    assert three.Keys == {a, b, d};
    assert |three| == |{a, b, d}| == 3;
    assert p.prepares[0] == three[a] && p.prepares[1] == three[b] && p.prepares[2] == three[d];
    assert ProofOf(k, s.ops[k], p);
    hide ProofOf;
    assert Lists([k], k.sequence) by { assert [k][0].sequence == k.sequence; }
    assert ProofsOf(s.ops, 0, [k], [p]);
  }

  /** handle_failure */
  lemma Fails(sc: Scene, r: Uuid, vc: Msg)
    requires Seen(sc) && r in sc.m && sc.m[r].lastViewSent <= sc.m[r].view
    requires ViewchangeFrom(sc.m[r].cps, sc.m[r].ops, sc.m[r].view + 1, vc)
    ensures Seen(sc.Put(r, sc.m[r].(viewIsValid := false, lastViewSent := sc.m[r].view + 1), {vc}))
  {
    hide Seen, ViewchangeFrom;
    Acts(sc, Failure(r, vc));
  }

  lemma {:induction false} NoRequests(ops: map<OpKey, Op>, proofs: seq<Proof>)
    ensures SaveRequests(ops, proofs, {}) == ops
    decreases |proofs|
  {
    if proofs != [] { NoRequests(ops, proofs[1..]); }
  }

  /** The replica after saving a viewchange that carries no requests. */
  function Noted(s: State, e: Envelope): State
    requires e.msg.ViewChange?
  {
    s.(viewchanges := s.viewchanges[e.msg.view := AddClaim(ViewchangesFor(s, e.msg.view), e)],
       cps := RecordClaims(4, s.cps, e.msg.checkpoints))
  }

  lemma NotedIsSaved(s: State, e: Envelope)
    requires e.msg.ViewChange?
    ensures SaveViewchange(Four, s, e, {}) == Noted(s, e)
  {
    NoRequests(s.ops, e.msg.proofs);
  }

  /** Not enough viewchanges yet. */
  lemma HearsQuietly(sc: Scene, r: Uuid, e: Envelope)
    requires Seen(sc) && r in sc.m && e in sc.sent && ValidViewchange(Four, sc.m[r].view, e)
    requires !JoinsViewchange(Four, Noted(sc.m[r], e), e.msg.view) && Candidates(Four, Noted(sc.m[r], e)) == {}
    ensures Seen(sc.Put(r, Noted(sc.m[r], e), {}))
  {
    NotedIsSaved(sc.m[r], e);
    hide Seen, SaveViewchange, Noted, JoinsViewchange, Candidates, WellFormedViewchange;
    Acts(sc, Deliver(r, e, {}, Idle));
  }

  /** The second viewchange for a view: the replica joins. */
  lemma HearsAndJoins(sc: Scene, r: Uuid, e: Envelope, vc: Msg)
    requires Seen(sc) && r in sc.m && e in sc.sent && ValidViewchange(Four, sc.m[r].view, e)
    requires var s1 := Noted(sc.m[r], e);
             && JoinsViewchange(Four, s1, e.msg.view) && ViewchangeFrom(s1.cps, s1.ops, e.msg.view, vc)
             && Candidates(Four, s1.(viewIsValid := false, lastViewSent := e.msg.view)) == {}
    ensures Seen(sc.Put(r, Noted(sc.m[r], e).(viewIsValid := false, lastViewSent := e.msg.view), {vc}))
  {
    NotedIsSaved(sc.m[r], e);
    assert Noted(sc.m[r], e).lastViewSent < e.msg.view;
    hide Seen, SaveViewchange, Noted, JoinsViewchange, Candidates, WellFormedViewchange, ViewchangeFrom;
    Acts(sc, Deliver(r, e, {}, vc));
  }

  /** The replica can open view w and does, with the viewchanges for the view of e. */
  lemma HearsAndAnnounces(sc: Scene, r: Uuid, e: Envelope, w: nat)
    requires Seen(sc) && r in sc.m && e in sc.sent && ValidViewchange(Four, sc.m[r].view, e)
    requires var s1 := Noted(sc.m[r], e); !JoinsViewchange(Four, s1, e.msg.view) && Candidates(Four, s1) == {w}
    ensures var s1 := Noted(sc.m[r], e); var vcs := ViewchangesFor(s1, e.msg.view);
            Seen(sc.Put(r, s1, {BuildNewview(Four, s1.id, w, vcs)} + set m | m in NewPrePrepares(Four, w, vcs)))
  {
    NotedIsSaved(sc.m[r], e);
    assert MinOf({w}) == w;
    hide Seen, SaveViewchange, Noted, JoinsViewchange, Candidates, WellFormedViewchange, BuildNewview, NewPrePrepares,
         ViewchangesFor;
    Acts(sc, Deliver(r, e, {}, Idle));
  }

  // ---- NEWVIEW ----

  /** The viewchanges of three peers, in order. */
  lemma ThreeInOrder(vcs: map<Uuid, Envelope>, a: Uuid, b: Uuid, d: Uuid)
    requires a < b < d < 4 && vcs.Keys == {a, b, d}
    ensures InOrder(vcs, 4) == [vcs[a], vcs[b], vcs[d]] && |vcs| == 3
  {
    assert |{a, b, d}| == 3;
    assert InOrder(vcs, 1) == if 0 in vcs then [vcs[0]] else [];
    assert InOrder(vcs, 2) == InOrder(vcs, 1) + if 1 in vcs then [vcs[1]] else [];
    assert InOrder(vcs, 3) == InOrder(vcs, 2) + if 2 in vcs then [vcs[2]] else [];
    assert InOrder(vcs, 4) == InOrder(vcs, 3) + if 3 in vcs then [vcs[3]] else [];
  }

  /** Without a certificate above the base nothing is proposed again. */
  lemma NothingToPropose(w: nat, vcs: map<Uuid, Envelope>)
    requires ViewchangeSet(Four, w, vcs) && forall s: nat | Certifies(vcs, s) :: s <= MaxBase(vcs, 4)
    ensures NewPrePrepares(Four, w, vcs) == []
  {
    NewPrePreparesSpec(Four, w, vcs);
    hide NewPrePrepares, Certifies, MaxBase, ViewchangeSet;
  }

  /** One certified sequence right above the base is proposed again. */
  lemma OneToPropose(w: nat, vcs: map<Uuid, Envelope>, u: Uuid, i: nat)
    requires ViewchangeSet(Four, w, vcs) && MaxBase(vcs, 4) == 0
    requires Certifies(vcs, 1) && (forall s: nat | Certifies(vcs, s) :: s <= 1) && FirstCertificate(vcs, 1, u, i)
    ensures NewPrePrepares(Four, w, vcs) == [PrePrepare(w, 1, HashAt(vcs, u, i))]
  {
    NewPrePreparesSpec(Four, w, vcs);
    var pps := NewPrePrepares(Four, w, vcs);
    hide NewPrePrepares, Certifies, MaxBase, ViewchangeSet;
    assert |pps| == 1 && SlotSpec(Four, w, vcs, 0 + 1 + 0, pps[0]);
    var u': Uuid, i': nat :| FirstCertificate(vcs, 1, u', i') && HashAt(vcs, u', i') == pps[0].hash;
    FirstIsUnique(vcs, 1, u, i, u', i');
  }

  /** The conditions on entering a view that the run is to keep. */
  ghost predicate EntryKept(sc: Scene, r: Uuid, e: Envelope)
    requires r in sc.m && e.msg.NewView?
  {
    && (sc.kept.disciplined ==> e.msg.view >= sc.m[r].lastViewSent)
    && (sc.kept.latest ==> forall s: nat :: PicksLatest(BySender(e.msg.viewchanges), s))
    && (sc.kept.low ==> StartOf(Four, e.msg) == 0)
  }

  lemma EntryKeeps(sc: Scene, r: Uuid, e: Envelope, requests: set<Hash>)
    requires r in sc.m && e.msg.NewView? && EntryKept(sc, r, e)
    ensures StepKeeps(System(sc.m, {}), Deliver(r, e, requests, Idle), sc.kept)
  {
    hide ValidNewview, PicksLatest, StartOf;
  }

  function Entered(s: State, w: nat): State { s.(view := w, viewIsValid := true, nextIssued := 1) }

  /** A NEWVIEW that proposes nothing. */
  lemma EntersQuietly(sc: Scene, r: Uuid, e: Envelope)
    requires Seen(sc) && r in sc.m && e in sc.sent && e.sender < 4 && e.msg.NewView?
             && ValidNewview(Four, sc.m[r].view, e)
    requires e.msg.preprepares == [] && EntryKept(sc, r, e)
    ensures Seen(sc.Put(r, EnterView(Four, sc.m[r], e.msg), {}))
  {
    hide Seen, ValidNewview, HandleNewview, GoodChoice, EntryKept, StepKeeps, EnterView;
    QuietEffect(sc.m[r], e);
    NoChoice(sc.m[r], e, {}, Idle);
    EntryKeeps(sc, r, e, {});
    Acts(sc, Deliver(r, e, {}, Idle));
  }

  lemma QuietEffect(s: State, e: Envelope)
    requires ValidNewview(Four, s.view, e) && e.msg.preprepares == []
    ensures |e.msg.viewchanges| > 0 && e.msg.viewchanges[0].msg.ViewChange?
    ensures HandleNewview(Four, s, e, {}) == Nothing(EnterView(Four, s, e.msg))
  {
    hide EnterView;
  }

  /** One whose first viewchange has no stable checkpoint. */
  lemma EntersEmpty(sc: Scene, r: Uuid, e: Envelope)
    requires Seen(sc) && r in sc.m && e in sc.sent && e.sender < 4 && e.msg.NewView?
             && ValidNewview(Four, sc.m[r].view, e)
    requires e.msg.preprepares == [] && e.msg.viewchanges[0].msg.base == 0 && e.msg.viewchanges[0].msg.checkpoints == []
    requires EntryKept(sc, r, e)
    ensures Seen(sc.Put(r, Entered(sc.m[r], e.msg.view), {}))
  {
    hide Seen, ValidNewview, EntryKept;
    EntersQuietly(sc, r, e);
  }

  /** A NEWVIEW that proposes x, with its request attached. */
  lemma EntersWith(sc: Scene, r: Uuid, e: Envelope, x: Envelope)
    requires Seen(sc) && r in sc.m && e in sc.sent && e.sender < 4 && e.msg.NewView?
             && ValidNewview(Four, sc.m[r].view, e)
    requires e.msg.preprepares == [x] && x.msg.PrePrepare? && e.msg.viewchanges[0].msg.base == 0
             && e.msg.viewchanges[0].msg.checkpoints == []
    requires EntryKept(sc, r, e) && Open(Entered(sc.m[r], e.msg.view), x.msg) && x.msg.sequence == 1
    ensures Seen(sc.Put(r, Proposed(Entered(sc.m[r], e.msg.view), x).(nextIssued := 2), {KeyOf(x.msg).PrepareMsg()}))
  {
    hide Seen, ValidNewview, HandleNewview, GoodChoice, EntryKept, StepKeeps, Entered, Proposed, Open;
    OneProposalEffect(sc.m[r], e, x);
    NoChoice(sc.m[r], e, {x.msg.hash}, Idle);
    EntryKeeps(sc, r, e, {x.msg.hash});
    Acts(sc, Deliver(r, e, {x.msg.hash}, Idle));
  }

  lemma OneProposalEffect(s: State, e: Envelope, x: Envelope)
    requires ValidNewview(Four, s.view, e) && e.msg.preprepares == [x]
    requires e.msg.viewchanges[0].msg.base == 0 && e.msg.viewchanges[0].msg.checkpoints == []
    requires Open(Entered(s, e.msg.view), x.msg) && x.msg.sequence == 1
    ensures HandleNewview(Four, s, e, {x.msg.hash})
            == Effect(Proposed(Entered(s, e.msg.view), x).(nextIssued := 2), {KeyOf(x.msg).PrepareMsg()}, {})
  {
    NewviewFacts(Four, s.view, e);
    ProposalEffect(Entered(s, e.msg.view), x);
    hide HandlePreprepare, ValidNewview, Proposed;
    assert EnterView(Four, s, e.msg) == Entered(s, e.msg.view);
    assert [x][1..] == [];
    OneProposal(Entered(s, e.msg.view), x);
  }

  lemma OneProposal(s: State, x: Envelope)
    requires x.msg.PrePrepare?
    ensures var first := HandlePreprepare(Four, s, x, {x.msg.hash});
            HandlePreprepares(Four, s, [x], {x.msg.hash})
            == Effect(first.state.(nextIssued := x.msg.sequence + 1), first.out, first.posted)
  {
    hide HandlePreprepare;
    assert [x][1..] == [];
    var first := HandlePreprepare(Four, s, x, {x.msg.hash});
    var s1 := first.state.(nextIssued := x.msg.sequence + 1);
    assert HandlePreprepares(Four, s1, [], {x.msg.hash}) == Nothing(s1);
    assert first.out + {} == first.out && first.posted + {} == first.posted;
  }

  // ---- Small change ----

  lemma BareIsValid(u: Uuid, w: nat, view: nat)
    requires u < 4 && view < w
    ensures ValidViewchange(Four, view, Envelope(u, Bare(w)))
  {
    forall cp ensures !Attested(Four, [], cp) { assert Attesters(Four, [], cp) == {}; }
  }

  /** A message with nothing inside may come from peer 3 at any time. */
  lemma Flat(sent: set<Envelope>, m: Msg)
    requires m.PrePrepare? || m.Prepare? || m.Commit? || m.CheckpointMsg?
             || (m.ViewChange? && m.checkpoints == [] && m.proofs == [])
    ensures Authentic(Four, sent, Envelope(3, m))
  {
  }

  lemma TwoCommits(sent: set<Envelope>, m: Msg, a: Uuid, b: Uuid)
    requires a < 3 && b < 3 && a != b && Envelope(a, m) in sent && Envelope(b, m) in sent
    ensures Certified(Four, sent, m)
  {
    assert Below(a, 4) && Below(b, 4);
    assert {a, b} <= Voters(Four, sent, m);
    SubsetSize({a, b}, Voters(Four, sent, m));
  }

  /** The scene as it is to be remembered. */
  lemma Cut(sc: Scene, m: map<Uuid, State>, sent: set<Envelope>)
    requires Seen(sc) && sc.m == m && sent <= sc.sent
    ensures Seen(Scene(m, sent, sc.kept))
  {
    hide Seen;
    Forget(sc, sent);
  }
}
