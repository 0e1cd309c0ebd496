/** None of the three conditions of agreement across views can be left out: for each there is a run
    with one faulty peer among four that keeps the other two, and in which two different requests
    are committed for one sequence and reach the services of two correct replicas. The first two are
    here, the third is in LowWater. Then a run that keeps all three, and one in which a correct
    replica sends a NEWVIEW that nobody accepts. */
module Disagreement {
  import opened Quorum
  import opened Messages
  import opened Operations
  import opened Checkpoints
  import opened ViewChange
  import opened Replica
  import opened Protocol
  import opened MakerChecker
  import opened Views
  import opened Agreement
  import opened Posting
  import opened Scenes
  import opened Phases

  /** Two requests are committed for one sequence. */
  ghost predicate Disagrees(states: seq<System>, k1: OpKey, k2: OpKey)
    requires |states| > 0
  {
    CommittedInRun(Four, states, k1) && CommittedInRun(Four, states, k2) && k1.sequence == k2.sequence
      && k1.hash != k2.hash
  }

  /** Two correct replicas hand different requests to their services for one sequence. */
  ghost predicate ServicesDiffer(states: seq<System>, steps: seq<Step>, k1: OpKey, k2: OpKey)
    requires IsRun(Four, states, steps)
  {
    && k1.sequence == k2.sequence && k1.hash != k2.hash
    && exists r, q :: Four.Correct(r) && Four.Correct(q) && r != q
                      && PostsIn(Four, states, steps, r, k1) && PostsIn(Four, states, steps, q, k2)
  }

  /** From a scene with two commits for each of two requests to a run. */
  lemma RunOf(sc: Scene, k1: OpKey, a: Uuid, b: Uuid, k2: OpKey, d: Uuid, e: Uuid)
    returns (states: seq<System>, steps: seq<Step>)
    requires Seen(sc) && a < 3 && b < 3 && d < 3 && e < 3 && a != b && d != e
    requires Envelope(a, k1.CommitMsg()) in sc.sent && Envelope(b, k1.CommitMsg()) in sc.sent
    requires Envelope(d, k2.CommitMsg()) in sc.sent && Envelope(e, k2.CommitMsg()) in sc.sent
    ensures Four.Tolerable() && IsRun(Four, states, steps) && states[|states| - 1].replicas == sc.m
    ensures CommittedInRun(Four, states, k1) && CommittedInRun(Four, states, k2)
    ensures sc.kept.disciplined ==> Disciplined(Four, states, steps)
    ensures sc.kept.latest ==> forall s: nat :: AllLatest(Four, states, steps, s)
    ensures sc.kept.low ==> Guarded(Four, states, steps)
  {
    var y :| Reached(y, sc.kept) && y.replicas == sc.m && sc.sent <= y.sent;
    states, steps :| RunTo(states, steps, y, sc.kept);
    KeptConditions(states, steps, y, sc.kept);
    TwoCommits(y.sent, k1.CommitMsg(), a, b);
    TwoCommits(y.sent, k2.CommitMsg(), d, e);
    assert {3} <= Peers(4) by { assert Below(3, 4); }
    hide IsRun, Keeps, Disciplined, AllLatest, Guarded, Certified, Peers;
  }

  lemma Differ(states: seq<System>, steps: seq<Step>, r: Uuid, k1: OpKey, q: Uuid, k2: OpKey)
    requires IsRun(Four, states, steps) && r < 3 && q < 3 && r != q && k1.sequence == k2.sequence && k1.hash != k2.hash
    requires var m := states[|states| - 1].replicas; r in m && q in m && IsExecuted(m[r], k1) && IsExecuted(m[q], k2)
    ensures ServicesDiffer(states, steps, k1, k2)
  {
    RunShape(Four, states, steps);
    hide IsRun, IsExecuted, PostsIn;
    ExecutedWasPosted(Four, states, steps, |states| - 1, r, k1);
    ExecutedWasPosted(Four, states, steps, |states| - 1, q, k2);
  }

  // ---- A view entered below the last one asked for ----

  const UNRULY: Kept := Kept(false, true, true)

  function PPB(): Envelope { By3(PrePrepare(2, 1, "b")) }
  function PPC(): Envelope { By3(PrePrepare(3, 1, "c")) }
  function W(u: Uuid): Envelope { Envelope(u, Bare(3)) }

  function Trio(s0: State, s1: State, s2: State): map<Uuid, State> { map[0 := s0, 1 := s1, 2 := s2] }

  lemma TrioPut(s0: State, s1: State, s2: State, t: State)
    ensures var m := Trio(s0, s1, s2);
            && m.Keys == {0, 1, 2} && m[0] == s0 && m[1] == s1 && m[2] == s2
            && m[0 := t] == Trio(t, s1, s2) && m[1 := t] == Trio(s0, t, s2) && m[2 := t] == Trio(s0, s1, t)
  {
  }

  /** Peer 0, 1 or 2 hears the commits of a, b and 3 and hands the request to its service. */
  lemma TrioExecutes(s0: State, s1: State, s2: State, sent: set<Envelope>, kept: Kept, r: Uuid, e: Envelope, a: Uuid,
                     b: Uuid)
    requires Seen(Scene(Trio(s0, s1, s2), sent, kept)) && r < 3 && a < b < 3
    requires Committing(Trio(s0, s1, s2)[r], e) && Comm(a, e) in sent && Comm(b, e) in sent
    ensures var t := Finished(Trio(s0, s1, s2)[r], KeyOf(e.msg), a, b);
            && IsExecuted(t, KeyOf(e.msg))
            && var m := if r == 0 then Trio(t, s1, s2) else if r == 1 then Trio(s0, t, s2) else Trio(s0, s1, t);
               Seen(Scene(m, sent, kept))
  {
    var sc := Scene(Trio(s0, s1, s2), sent, kept);
    TrioPut(s0, s1, s2, Finished(Trio(s0, s1, s2)[r], KeyOf(e.msg), a, b));
    assert IsExecuted(Finished(Trio(s0, s1, s2)[r], KeyOf(e.msg), a, b), KeyOf(e.msg));
    hide Seen, Finished, Trio;
    Executes(sc, r, e, a, b);
  }

  /** Nothing accepted, nothing recorded, no stable checkpoint. */
  predicate Blank(s: State) { s.accepted == map[] && s.ops == map[] && Unstable(s.cps) }

  function In2(s: State): State { Entered(Asking(s, 2), 2) }

  lemma InTwo(kept: Kept)
    ensures Seen(Scene(Trio(Initial(0), In2(Initial(1)), Entered(Opened(Initial(2)), 2)), {NV2()}, kept))
  {
    Opening(kept);
    assert Calm(Initial(1), 1) && Calm(Initial(2), 2);
    EnterTwoOf(Initial(0), Initial(1), Initial(2), {}, kept);
    Forget(Scene(Trio(Initial(0), In2(Initial(1)), Entered(Opened(Initial(2)), 2)), {V(1), V(2), V(3), NV2()}, kept),
      {NV2()});
  }

  lemma EnterTwoOf(s0: State, s1: State, s2: State, sent: set<Envelope>, kept: Kept)
    requires Seen(Scene(Trio(s0, s1, s2), sent, kept)) && Calm(s1, 1) && Calm(s2, 2)
    ensures Seen(Scene(Trio(s0, In2(s1), Entered(Opened(s2), 2)), sent + {V(1), V(2), V(3), NV2()}, kept))
  {
    hide Seen, Calm, Entered, Opened, Asking;
    var sc := Scene(Trio(s0, s1, s2), sent, kept);
    EnterTwo(sc);
    assert sc.m[1 := In2(s1)][2 := Entered(Opened(s2), 2)] == Trio(s0, In2(s1), Entered(Opened(s2), 2));
  }

  lemma AskThreeOf(s0: State, s1: State, s2: State, sent: set<Envelope>, kept: Kept, vc1: Msg, vc0: Msg)
    requires Seen(Scene(Trio(s0, s1, s2), sent, kept)) && Waiting(s0) && s1.view == 2 && s1.lastViewSent == 2
    requires vc1.ViewChange? && vc1.checkpoints == [] && ViewchangeFrom(s1.cps, s1.ops, 3, vc1)
    requires ViewchangeFrom(s0.cps, s0.ops, 3, vc0)
    ensures Seen(Scene(Trio(Joined3(s0, Envelope(1, vc1)), Asking(s1, 3), s2),
            sent + {Envelope(0, vc0), Envelope(1, vc1), W3()}, kept))
  {
    hide Seen, Waiting, ViewchangeFrom, Joined3, Asking;
    var sc := Scene(Trio(s0, s1, s2), sent, kept);
    AskForThree(sc, vc1, vc0);
    assert sc.m[0 := Joined3(s0, Envelope(1, vc1))][1 := Asking(s1, 3)]
           == Trio(Joined3(s0, Envelope(1, vc1)), Asking(s1, 3), s2);
  }

  /** The state of a replica after a round in which r and q take part. */
  function Rounded(s: State, e: Envelope, r: Uuid, q: Uuid): State
    requires e.msg.PrePrepare?
  {
    Done(Proposed(s, e), e, r, q)
  }

  lemma RoundedCommits(s: State, e: Envelope, r: Uuid, q: Uuid)
    requires e.msg.PrePrepare? && s.viewIsValid && e.msg.view == s.view
    ensures Committing(Rounded(s, e, r, q), e)
  {
  }

  lemma RoundOf02(s0: State, s1: State, s2: State, sent: set<Envelope>, kept: Kept, e: Envelope)
    requires Seen(Scene(Trio(s0, s1, s2), sent, kept))
    requires e.sender == 3 && e.msg.PrePrepare? && Open(s0, e.msg) && Open(s2, e.msg) && e.msg.sequence > 0
    ensures Seen(Scene(Trio(Rounded(s0, e, 0, 2), s1, Rounded(s2, e, 0, 2)), sent + {Comm(0, e), Comm(2, e)}, kept))
  {
    hide Seen, Open, Done, Proposed;
    var sc := Scene(Trio(s0, s1, s2), sent, kept);
    Round(sc, e, 0, 2);
    Cut(sc.(m := sc.m[0 := Rounded(s0, e, 0, 2)][2 := Rounded(s2, e, 0, 2)],
            sent := sent + {e, Prep(0, e), Prep(2, e), Prep(3, e), Comm(0, e), Comm(2, e)}),
        Trio(Rounded(s0, e, 0, 2), s1, Rounded(s2, e, 0, 2)), sent + {Comm(0, e), Comm(2, e)});
  }

  lemma RoundOf01(s0: State, s1: State, s2: State, sent: set<Envelope>, kept: Kept, e: Envelope)
    requires Seen(Scene(Trio(s0, s1, s2), sent, kept))
    requires e.sender == 3 && e.msg.PrePrepare? && Open(s0, e.msg) && Open(s1, e.msg) && e.msg.sequence > 0
    ensures Seen(Scene(Trio(Rounded(s0, e, 0, 1), Rounded(s1, e, 0, 1), s2), sent + {Comm(0, e), Comm(1, e)}, kept))
  {
    hide Seen, Open, Done, Proposed;
    var sc := Scene(Trio(s0, s1, s2), sent, kept);
    Round(sc, e, 0, 1);
    Cut(sc.(m := sc.m[0 := Rounded(s0, e, 0, 1)][1 := Rounded(s1, e, 0, 1)],
            sent := sent + {e, Prep(0, e), Prep(1, e), Prep(3, e), Comm(0, e), Comm(1, e)}),
        Trio(Rounded(s0, e, 0, 1), Rounded(s1, e, 0, 1), s2), sent + {Comm(0, e), Comm(1, e)});
  }

  /** Peers 1 and 2 are in view 2, peer 0 in view 1. Peer 1 asks for view 3 and peer 0 joins it. */
  lemma JoinedLate(s0: State, s1: State, s2: State)
    requires Seen(Scene(Trio(s0, s1, s2), {NV2()}, UNRULY)) && Waiting(s0) && Blank(s0) && Blank(s1)
    requires s1.view == 2 && s1.lastViewSent == 2
    ensures Seen(Scene(Trio(Joined3(s0, W(1)), Asking(s1, 3), s2), {NV2(), W(0), W(1), W3()}, UNRULY))
  {
    BareIsMade(s0, 3);
    BareIsMade(s1, 3);
    hide Seen, Waiting, ViewchangeFrom, Joined3, Asking, NV2;
    AskThreeOf(s0, s1, s2, {NV2()}, UNRULY, Bare(3), Bare(3));
    Cut(Scene(Trio(Joined3(s0, W(1)), Asking(s1, 3), s2), {NV2()} + {W(0), W(1), W3()}, UNRULY),
        Trio(Joined3(s0, W(1)), Asking(s1, 3), s2), {NV2(), W(0), W(1), W3()});
  }

  /** The NEWVIEW for view 2 reaches peer 0, which enters it although it has asked for view 3. */
  lemma EntersBelow(s0: State, s1: State, s2: State)
    requires Seen(Scene(Trio(s0, s1, s2), {NV2(), W(0), W(1), W3()}, UNRULY)) && s0.view == 1
    ensures Seen(Scene(Trio(Entered(s0, 2), s1, s2), {W(0), W(1), W3()}, UNRULY))
  {
    hide Seen, Entered;
    var sc := Scene(Trio(s0, s1, s2), {NV2(), W(0), W(1), W3()}, UNRULY);
    EnterByEmpty(sc, 0, 2, 1, 2, 3);
    Cut(sc.(m := sc.m[0 := Entered(s0, 2)]), Trio(Entered(s0, 2), s1, s2), {W(0), W(1), W3()});
  }

  function NV3(): Envelope { EmptyNewview(3, 0, 1, 3) }

  /** Peer 3 announces view 3 with what peers 0 and 1 sent. */
  lemma AnnounceThree(sc: Scene)
    requires Seen(sc) && W(0) in sc.sent && W(1) in sc.sent && W3() in sc.sent
    ensures Seen(sc.(sent := sc.sent + {NV3()}))
  {
    hide Seen;
    InjectsNewview(sc, NV3());
  }

  /** Peers 0 and 1 enter view 3. */
  lemma EnterThree(s0: State, s1: State, s2: State, sent: set<Envelope>, kept: Kept)
    requires Seen(Scene(Trio(s0, s1, s2), sent, kept)) && W(0) in sent && W(1) in sent && W3() in sent
    requires s0.view == 2 && s1.view == 2 && s0.lastViewSent == 3 && s1.lastViewSent == 3
    ensures Seen(Scene(Trio(Entered(s0, 3), Entered(s1, 3), s2), sent, kept))
  {
    hide Seen, Entered, EmptyNewview;
    var sc := Scene(Trio(s0, s1, s2), sent, kept);
    AnnounceThree(sc);
    var sc1 := sc.(sent := sent + {NV3()});
    EnterByEmpty(sc1, 0, 3, 0, 1, 3);
    var sc2 := sc1.(m := sc1.m[0 := Entered(s0, 3)]);
    EnterByEmpty(sc2, 1, 3, 0, 1, 3);
    Cut(sc2.(m := sc2.m[1 := Entered(s1, 3)]), Trio(Entered(s0, 3), Entered(s1, 3), s2), sent);
  }

  /** In view 2 peers 0 and 2 commit "b"; then in view 3 peers 0 and 1 commit "c". */
  lemma CommitTwice(s0: State, s1: State, s2: State) returns (sc: Scene)
    requires Seen(Scene(Trio(s0, s1, s2), {W(0), W(1), W3()}, UNRULY))
    requires s0.view == 2 && s0.viewIsValid && s0.lastViewSent == 3 && s2.view == 2 && s2.viewIsValid
    requires s1.view == 2 && s1.lastViewSent == 3 && Blank(s0) && Blank(s1) && Blank(s2)
    ensures Seen(sc) && sc.kept == UNRULY && W(0) in sc.sent
    ensures Comm(0, PPB()) in sc.sent && Comm(2, PPB()) in sc.sent && Comm(0, PPC()) in sc.sent
            && Comm(1, PPC()) in sc.sent
    ensures 1 in sc.m && 2 in sc.m && IsExecuted(sc.m[2], KeyOf(PPB().msg)) && IsExecuted(sc.m[1], KeyOf(PPC().msg))
  {
    hide Seen, Finished, IsExecuted;
    RoundOf02(s0, s1, s2, {W(0), W(1), W3()}, UNRULY, PPB());
    var t0, t2 := Rounded(s0, PPB(), 0, 2), Rounded(s2, PPB(), 0, 2);
    var sent := {W(0), W(1), W3()} + {Comm(0, PPB()), Comm(2, PPB())};
    TrioExecutes(t0, s1, t2, sent, UNRULY, 2, PPB(), 0, 2);
    t2 := Finished(t2, KeyOf(PPB().msg), 0, 2);
    EnterThree(t0, s1, t2, sent, UNRULY);
    var e0, e1 := Entered(t0, 3), Entered(s1, 3);
    assert Open(e0, PPC().msg) && Open(e1, PPC().msg);
    RoundOf01(e0, e1, t2, sent, UNRULY, PPC());
    var r0, r1 := Rounded(e0, PPC(), 0, 1), Rounded(e1, PPC(), 0, 1);
    assert Committing(r1, PPC());
    hide Rounded, Committing;
    sent := sent + {Comm(0, PPC()), Comm(1, PPC())};
    TrioExecutes(r0, r1, t2, sent, UNRULY, 1, PPC(), 0, 1);
    sc := Scene(Trio(r0, Finished(r1, KeyOf(PPC().msg), 0, 1), t2), sent, UNRULY);
  }

  /** Up to the point where peer 0 has entered view 2, having asked for view 3. */
  lemma LateEntry() returns (s0: State, s1: State, s2: State)
    ensures Seen(Scene(Trio(s0, s1, s2), {W(0), W(1), W3()}, UNRULY))
    ensures s0.view == 2 && s0.viewIsValid && s0.lastViewSent == 3 && s2.view == 2 && s2.viewIsValid
    ensures s1.view == 2 && s1.lastViewSent == 3 && Blank(s0) && Blank(s1) && Blank(s2)
  {
    hide Seen, NV2, W3;
    InTwo(UNRULY);
    var t0, t1 := Initial(0), In2(Initial(1));
    s2 := Entered(Opened(Initial(2)), 2);
    JoinedLate(t0, t1, s2);
    s1 := Asking(t1, 3);
    EntersBelow(Joined3(t0, W(1)), s1, s2);
    s0 := Entered(Joined3(t0, W(1)), 2);
  }

  /** A replica enters a view below one it has asked for, and commits there to a request that its
      VIEWCHANGE knew nothing of: the next view commits another. */
  lemma UndisciplinedDisagree() returns (states: seq<System>, steps: seq<Step>, k1: OpKey, k2: OpKey)
    ensures Four.Tolerable() && IsRun(Four, states, steps) && Disagrees(states, k1, k2)
    ensures ServicesDiffer(states, steps, k1, k2) && Guarded(Four, states, steps)
    ensures (forall s: nat :: AllLatest(Four, states, steps, s)) && !Disciplined(Four, states, steps)
    ensures k1.sequence == 1
  {
    hide Seen, IsRun, Disciplined, AllLatest, Guarded, IsExecuted, ServicesDiffer;
    var s0, s1, s2 := LateEntry();
    var sc := CommitTwice(s0, s1, s2);
    k1, k2 := OpKey(2, 1, "b"), OpKey(3, 1, "c");
    states, steps := RunOf(sc, k1, 0, 2, k2, 0, 1);
    Differ(states, steps, 2, k1, 1, k2);
    if Disciplined(Four, states, steps) { CommittedAgree(Four, states, steps, k1, k2); }
  }

  /** Where that run breaks the first condition. */
  lemma OlderNewviewAccepted() returns (states: seq<System>, steps: seq<Step>, i: nat, r: Uuid)
    ensures Four.Tolerable() && IsRun(Four, states, steps) && i < |steps| && Accepts(Four, states[i], steps[i], r)
    ensures steps[i].e.msg.view < states[i].replicas[r].lastViewSent
  {
    var k1, k2;
    states, steps, k1, k2 := UndisciplinedDisagree();
    i, r :| 0 <= i < |steps| && Accepts(Four, states[i], steps[i], r)
            && steps[i].e.msg.view < states[i].replicas[r].lastViewSent;
  }

  /** Without discipline a correct replica may commit to what a VIEWCHANGE it sent for a later view does not cover. */
  lemma UncoveredCommit() returns (states: seq<System>, steps: seq<Step>, vc: Msg, k: OpKey)
    ensures Four.Tolerable() && IsRun(Four, states, steps) && Four.Correct(0) && vc.ViewChange? && k.view < vc.view
    ensures var sent := states[|states| - 1].sent;
            Envelope(0, vc) in sent && Envelope(0, k.CommitMsg()) in sent && !Covers(vc, k)
  {
    var s0, s1, s2 := LateEntry();
    var sc := CommitTwice(s0, s1, s2);
    hide Seen, IsRun;
    states, steps := SomeRun(sc);
    vc, k := W(0).msg, OpKey(2, 1, "b");
    assert Comm(0, PPB()) == Envelope(0, k.CommitMsg());
  }

  // ---- A certificate from an earlier view wins ----

  const EARLIER: Kept := Kept(true, false, true)

  function PPA(): Envelope { By3(PrePrepare(1, 1, "a")) }

  lemma RoundOf12(s0: State, s1: State, s2: State, sent: set<Envelope>, kept: Kept, e: Envelope)
    requires Seen(Scene(Trio(s0, s1, s2), sent, kept))
    requires e.sender == 3 && e.msg.PrePrepare? && Open(s1, e.msg) && Open(s2, e.msg) && e.msg.sequence > 0
    ensures Seen(Scene(Trio(s0, Rounded(s1, e, 1, 2), Rounded(s2, e, 1, 2)), sent + {Comm(1, e), Comm(2, e)}, kept))
  {
    hide Seen, Open, Done, Proposed;
    var sc := Scene(Trio(s0, s1, s2), sent, kept);
    Round(sc, e, 1, 2);
    Cut(sc.(m := sc.m[1 := Rounded(s1, e, 1, 2)][2 := Rounded(s2, e, 1, 2)],
            sent := sent + {e, Prep(1, e), Prep(2, e), Prep(3, e), Comm(1, e), Comm(2, e)}),
        Trio(s0, Rounded(s1, e, 1, 2), Rounded(s2, e, 1, 2)), sent + {Comm(1, e), Comm(2, e)});
  }

  /** In view 1 peers 0 and 2 prepare "a", and only peer 0 hears enough prepares. */
  lemma OnlyOneLocks()
    ensures Seen(Scene(Trio(Rounded(Initial(0), PPA(), 0, 2), Initial(1), Proposed(Initial(2), PPA())), {}, EARLIER))
  {
    hide Seen;
    Opening(EARLIER);
    LockOnly0(Initial(0), Initial(1), Initial(2), EARLIER, PPA());
  }

  lemma LockOnly0(s0: State, s1: State, s2: State, kept: Kept, e: Envelope)
    requires Seen(Scene(Trio(s0, s1, s2), {}, kept))
    requires e.sender == 3 && e.msg.PrePrepare? && Open(s0, e.msg) && Open(s2, e.msg) && e.msg.sequence > 0
    ensures Seen(Scene(Trio(Rounded(s0, e, 0, 2), s1, Proposed(s2, e)), {}, kept))
  {
    Accepting(s0, e);
    TrioPut(Proposed(s0, e), s1, Proposed(s2, e), Rounded(s0, e, 0, 2));
    hide Seen, Open, Proposed, Done, Voting, Trio;
    Propose02(s0, s1, s2, kept, e);
    var sc := Scene(Trio(Proposed(s0, e), s1, Proposed(s2, e)), {Prep(0, e), Prep(2, e), Prep(3, e)}, kept);
    Hear0(sc, e);
    Cut(sc.(m := sc.m[0 := Rounded(s0, e, 0, 2)]), Trio(Rounded(s0, e, 0, 2), s1, Proposed(s2, e)), {});
  }

  lemma Propose02(s0: State, s1: State, s2: State, kept: Kept, e: Envelope)
    requires Seen(Scene(Trio(s0, s1, s2), {}, kept))
    requires e.sender == 3 && e.msg.PrePrepare? && Open(s0, e.msg) && Open(s2, e.msg) && e.msg.sequence > 0
    ensures Seen(Scene(Trio(Proposed(s0, e), s1, Proposed(s2, e)), {Prep(0, e), Prep(2, e), Prep(3, e)}, kept))
  {
    hide Seen, Open, Proposed;
    var sc := Scene(Trio(s0, s1, s2), {}, kept);
    Offer(sc, e);
    var sc1 := sc.(sent := sc.sent + {e, Prep(3, e)});
    BothPropose(sc1, e, 0, 2);
    Cut(sc1.(m := sc1.m[0 := Proposed(s0, e)][2 := Proposed(s2, e)], sent := sc1.sent + {Prep(0, e), Prep(2, e)}),
        Trio(Proposed(s0, e), s1, Proposed(s2, e)), {Prep(0, e), Prep(2, e), Prep(3, e)});
  }

  lemma Hear0(sc: Scene, e: Envelope)
    requires Seen(sc) && 0 in sc.m && Voting(sc.m[0], e)
    requires Prep(0, e) in sc.sent && Prep(2, e) in sc.sent && Prep(3, e) in sc.sent
    ensures Seen(sc.(m := sc.m[0 := Done(sc.m[0], e, 0, 2)]))
  {
    hide Seen;
    HearPrepares(sc, 0, e, 0, 2, 3);
    OneMessage(sc, 0, Done(sc.m[0], e, 0, 2), Comm(0, e).msg);
    Cut(sc.Put(0, Done(sc.m[0], e, 0, 2), {Comm(0, e).msg}), sc.m[0 := Done(sc.m[0], e, 0, 2)], sc.sent);
  }

  /** Peers 0 and 1 enter w with one proposal, peer 3 prepares it too, and both commit. */
  lemma EnterAndCommit(s0: State, s1: State, s2: State, sent: set<Envelope>, kept: Kept, w: nat,
                       vcs: map<Uuid, Envelope>, u: Uuid)
    requires Seen(Scene(Trio(s0, s1, s2), sent, kept)) && SlightSet(w, vcs, 0, 1, 3, u)
             && SlightNewview(w, vcs, 0, 1, 3, u) in sent
    requires s0.view < w && s1.view < w && s0.lastViewSent <= w && s1.lastViewSent <= w
    requires Open(Entered(s0, w), Again(w, vcs, u).msg) && Open(Entered(s1, w), Again(w, vcs, u).msg)
    requires kept.latest ==> forall s: nat :: PicksLatest(vcs, s)
    ensures var x := Again(w, vcs, u);
            Seen(Scene(Trio(Done(Renewed(s0, w, x), x, 0, 1), Done(Renewed(s1, w, x), x, 0, 1), s2),
              sent + {Comm(0, x), Comm(1, x)}, kept))
  {
    var x := Again(w, vcs, u);
    RenewedVotes(s0, w, x);
    RenewedVotes(s1, w, x);
    TrioPut(Renewed(s0, w, x), Renewed(s1, w, x), s2, Done(Renewed(s0, w, x), x, 0, 1));
    TrioPut(Done(Renewed(s0, w, x), x, 0, 1), Renewed(s1, w, x), s2, Done(Renewed(s1, w, x), x, 0, 1));
    hide Seen, SlightSet, Open, Again, Renewed, Done, Voting, PicksLatest, Trio;
    EnterBoth(s0, s1, s2, sent, kept, w, vcs, u);
    var sc := Scene(Trio(Renewed(s0, w, x), Renewed(s1, w, x), s2), sent + {Prep(0, x), Prep(1, x), Prep(3, x)}, kept);
    BothCommit(sc, x, 0, 1);
    Cut(sc.(m := sc.m[0 := Done(Renewed(s0, w, x), x, 0, 1)][1 := Done(Renewed(s1, w, x), x, 0, 1)],
            sent := sc.sent + {Comm(0, x), Comm(1, x)}),
        Trio(Done(Renewed(s0, w, x), x, 0, 1), Done(Renewed(s1, w, x), x, 0, 1), s2), sent + {Comm(0, x), Comm(1, x)});
  }

  lemma RenewedVotes(s: State, w: nat, x: Envelope)
    requires x.msg.PrePrepare? && Open(Entered(s, w), x.msg)
    ensures Voting(Renewed(s, w, x), x)
  {
  }

  lemma EnterBoth(s0: State, s1: State, s2: State, sent: set<Envelope>, kept: Kept, w: nat, vcs: map<Uuid, Envelope>,
                  u: Uuid)
    requires Seen(Scene(Trio(s0, s1, s2), sent, kept)) && SlightSet(w, vcs, 0, 1, 3, u)
             && SlightNewview(w, vcs, 0, 1, 3, u) in sent
    requires s0.view < w && s1.view < w && s0.lastViewSent <= w && s1.lastViewSent <= w
    requires Open(Entered(s0, w), Again(w, vcs, u).msg) && Open(Entered(s1, w), Again(w, vcs, u).msg)
    requires kept.latest ==> forall s: nat :: PicksLatest(vcs, s)
    ensures var x := Again(w, vcs, u);
            Seen(Scene(Trio(Renewed(s0, w, x), Renewed(s1, w, x), s2), sent + {Prep(0, x), Prep(1, x), Prep(3, x)},
              kept))
  {
    hide Seen, Open, Entered, Renewed, PicksLatest, ViewchangeSet, Trio;
    var x := Again(w, vcs, u);
    TrioPut(s0, s1, s2, Renewed(s0, w, x));
    TrioPut(Renewed(s0, w, x), s1, s2, Renewed(s1, w, x));
    var sc := Scene(Trio(s0, s1, s2), sent, kept);
    EnterBySlight(sc, 0, w, vcs, 0, 1, 3, u);
    var sc1 := sc.(m := sc.m[0 := Renewed(s0, w, x)], sent := sent + {Prep(0, x)});
    EnterBySlight(sc1, 1, w, vcs, 0, 1, 3, u);
    var sc2 := sc1.(m := sc1.m[1 := Renewed(s1, w, x)], sent := sc1.sent + {Prep(1, x)});
    Flat(sc2.sent, Prep(3, x).msg);
    hide Authentic;
    Injects(sc2, Prep(3, x));
    Cut(sc2.(sent := sc2.sent + {Prep(3, x)}),
        Trio(Renewed(s0, w, x), Renewed(s1, w, x), s2), sent + {Prep(0, x), Prep(1, x), Prep(3, x)});
  }

  function A0(): Envelope { Envelope(0, Holding(3, PPA(), KeyOf(PPA().msg), 0, 2, 3)) }
  function B1(): Envelope { Envelope(1, Holding(3, PPB(), KeyOf(PPB().msg), 1, 2, 3)) }

  /** Peers 1 and 2 change to view 2 without peer 0, and commit "b" there. */
  lemma SecondRound() returns (s0: State, s1: State, s2: State)
    ensures Seen(Scene(Trio(s0, s1, s2), {Comm(1, PPB()), Comm(2, PPB())}, EARLIER)) && Waiting(s0)
    ensures s0 == Rounded(Initial(0), PPA(), 0, 2) && s1 == Rounded(In2(Initial(1)), PPB(), 1, 2)
    ensures IsExecuted(s2, KeyOf(PPB().msg))
  {
    OnlyOneLocks();
    s0 := Rounded(Initial(0), PPA(), 0, 2);
    var t1, t2 := Initial(1), Proposed(Initial(2), PPA());
    assert Calm(t1, 1) && Calm(t2, 2);
    hide Seen, NV2, Calm, Bares, Trio, Committing, IsExecuted;
    EnterTwoOf(s0, t1, t2, {}, EARLIER);
    var e1, e2 := In2(t1), Entered(Opened(t2), 2);
    Forget(Scene(Trio(s0, e1, e2), {} + {V(1), V(2), V(3), NV2()}, EARLIER), {});
    assert Open(e1, PPB().msg) && Open(e2, PPB().msg);
    RoundOf12(s0, e1, e2, {}, EARLIER, PPB());
    s1, s2 := Rounded(e1, PPB(), 1, 2), Rounded(e2, PPB(), 1, 2);
    RoundedCommits(e2, PPB(), 1, 2);
    s2 := Handed2(s0, s1, s2);
  }

  /** Peer 2 hands it to its service. */
  lemma Handed2(s0: State, s1: State, s2: State) returns (t: State)
    requires Seen(Scene(Trio(s0, s1, s2), {} + {Comm(1, PPB()), Comm(2, PPB())}, EARLIER)) && Committing(s2, PPB())
    ensures Seen(Scene(Trio(s0, s1, t), {Comm(1, PPB()), Comm(2, PPB())}, EARLIER)) && IsExecuted(t, KeyOf(PPB().msg))
  {
    TrioPut(s0, s1, s2, s2);
    hide Seen, Trio, Finished, IsExecuted;
    assert {} + {Comm(1, PPB()), Comm(2, PPB())} == {Comm(1, PPB()), Comm(2, PPB())};
    TrioExecutes(s0, s1, s2, {Comm(1, PPB()), Comm(2, PPB())}, EARLIER, 2, PPB(), 1, 2);
    t := Finished(s2, KeyOf(PPB().msg), 1, 2);
  }

  /** Peers 1 and 0 ask for view 3, each with its own certificate. */
  lemma TwoLocks(s0: State, s1: State, s2: State)
    requires Seen(Scene(Trio(s0, s1, s2), {Comm(1, PPB()), Comm(2, PPB())}, EARLIER)) && Waiting(s0)
    requires s0 == Rounded(Initial(0), PPA(), 0, 2) && s1 == Rounded(In2(Initial(1)), PPB(), 1, 2)
    ensures Seen(Scene(Trio(Joined3(s0, B1()), Asking(s1, 3), s2),
            {Comm(1, PPB()), Comm(2, PPB())} + {A0(), B1(), W3()}, EARLIER))
  {
    HoldingIsMade(s0, 3, PPA(), KeyOf(PPA().msg), 0, 2, 3);
    HoldingIsMade(s1, 3, PPB(), KeyOf(PPB().msg), 1, 2, 3);
    hide Seen, Waiting, ViewchangeFrom, Joined3, Asking, Trio;
    AskThreeOf(s0, s1, s2, {Comm(1, PPB()), Comm(2, PPB())}, EARLIER, B1().msg, A0().msg);
  }

  function Three3(x0: Envelope, x1: Envelope, x3: Envelope): map<Uuid, Envelope> { map[0 := x0, 1 := x1, 3 := x3] }

  /** Viewchanges of peers 0, 1 and 3, the first of which shows a certificate. */
  lemma SlightThree(w: nat, x0: Envelope, x1: Envelope, x3: Envelope)
    requires x0.sender == 0 && x1.sender == 1 && x3.sender == 3 && Slight(x0.msg) && Slight(x1.msg) && Slight(x3.msg)
    requires WellFormedViewchange(Four, x0) && WellFormedViewchange(Four, x1) && WellFormedViewchange(Four, x3)
    requires x0.msg.view == w && x1.msg.view == w && x3.msg.view == w && x0.msg.proofs != []
    ensures SlightSet(w, Three3(x0, x1, x3), 0, 1, 3, 0)
    ensures Again(w, Three3(x0, x1, x3), 0) == Envelope(w % 4, PrePrepare(w, 1, x0.msg.proofs[0].prePrepare.msg.hash))
    ensures SlightNewview(w, Three3(x0, x1, x3), 0, 1, 3, 0)
            == Envelope(w % 4, NewView(w, [x0, x1, x3], [Again(w, Three3(x0, x1, x3), 0)]))
  {
    hide WellFormedViewchange;
    var vcs := Three3(x0, x1, x3);
    assert vcs.Keys == {0, 1, 3} && ViewchangeSet(Four, w, vcs);
  }

  function Rivals(): map<Uuid, Envelope> { Three3(A0(), B1(), W3()) }

  lemma HoldingIsSlight(e: Envelope, a: Uuid, b: Uuid, w: nat)
    requires e.msg.PrePrepare? && e.msg.sequence == 1
    ensures var vc := Holding(w, e, KeyOf(e.msg), a, b, 3);
            Slight(vc) && vc.view == w && |vc.proofs| == 1 && vc.proofs[0].prePrepare == e
  {
  }

  lemma RivalsAreASet(sc: Scene)
    requires Seen(sc) && A0() in sc.sent && B1() in sc.sent
    ensures SlightSet(3, Rivals(), 0, 1, 3, 0) && Again(3, Rivals(), 0) == By3(PrePrepare(3, 1, "a"))
  {
    SentIsGood(sc, A0());
    SentIsGood(sc, B1());
    BareIsValid(3, 3, 0);
    HoldingIsSlight(PPA(), 0, 2, 3);
    HoldingIsSlight(PPB(), 1, 2, 3);
    assert Slight(W3().msg) && W3().msg.view == 3 && W3().sender == 3;
    hide Seen, WellFormedViewchange, Holding, Slight, SlightSet, Three3;
    SlightThree(3, A0(), B1(), W3());
  }

  function PPX(): Envelope { By3(PrePrepare(3, 1, "a")) }

  /** The NEWVIEW for view 3 proposes "a" again, and peers 0 and 1 commit it. */
  lemma CommitFirst(s0: State, s1: State, s2: State, sent: set<Envelope>)
    requires Seen(Scene(Trio(s0, s1, s2), sent, EARLIER)) && A0() in sent && B1() in sent && W3() in sent
    requires s0.view == 1 && s1.view == 2 && s0.lastViewSent == 3 && s1.lastViewSent == 3
    requires Open(Entered(s0, 3), PPX().msg) && Open(Entered(s1, 3), PPX().msg)
    ensures exists sc :: && Seen(sc) && sc.kept == EARLIER && sent + {Comm(0, PPX()), Comm(1, PPX())} <= sc.sent
                         && 1 in sc.m && 2 in sc.m && sc.m[2] == s2 && IsExecuted(sc.m[1], KeyOf(PPX().msg))
  {
    hide Seen, Trio, A0, B1, W3, Open, Entered, ViewchangeSet, Three3;
    var sc := Scene(Trio(s0, s1, s2), sent, EARLIER);
    RivalsAreASet(sc);
    var nv := SlightNewview(3, Rivals(), 0, 1, 3, 0);
    RivalsNewview(sc);
    EnterAndCommit(s0, s1, s2, sent + {nv}, EARLIER, 3, Rivals(), 0);
    var x := PPX();
    var t0, t1 := Done(Renewed(s0, 3, x), x, 0, 1), Done(Renewed(s1, 3, x), x, 0, 1);
    assert Committing(t1, x) by { RenewedCommits(s1, 3, x); }
    hide Done, Renewed, Committing, Finished, IsExecuted, SlightNewview;
    TrioPut(t0, t1, s2, s2);
    TrioPut(t0, Finished(t1, KeyOf(x.msg), 0, 1), s2, s2);
    var more := sent + {nv} + {Comm(0, x), Comm(1, x)};
    TrioExecutes(t0, t1, s2, more, EARLIER, 1, x, 0, 1);
    assert Scene(Trio(t0, Finished(t1, KeyOf(x.msg), 0, 1), s2), more, EARLIER).sent >= sent + {Comm(0, x), Comm(1, x)};
  }

  lemma RenewedCommits(s: State, w: nat, x: Envelope)
    requires x.msg.PrePrepare? && x.msg.view == w
    ensures Committing(Done(Renewed(s, w, x), x, 0, 1), x)
  {
  }

  lemma RivalsNewview(sc: Scene)
    requires Seen(sc) && A0() in sc.sent && B1() in sc.sent && W3() in sc.sent && SlightSet(3, Rivals(), 0, 1, 3, 0)
    ensures Seen(sc.(sent := sc.sent + {SlightNewview(3, Rivals(), 0, 1, 3, 0)}))
  {
    hide Seen, A0, B1, W3, ViewchangeSet, Slight;
    InjectsNewview(sc, SlightNewview(3, Rivals(), 0, 1, 3, 0));
  }

  /** A NEWVIEW re-proposes the certificate it meets first although another is from a later view,
      and with it a request other than the committed one. */
  lemma EarlierCertificateDisagree() returns (states: seq<System>, steps: seq<Step>, k1: OpKey, k2: OpKey)
    ensures Four.Tolerable() && IsRun(Four, states, steps) && Disagrees(states, k1, k2)
    ensures ServicesDiffer(states, steps, k1, k2) && Disciplined(Four, states, steps) && Guarded(Four, states, steps)
    ensures k1.view < k2.view && !AllLatest(Four, states, steps, 1) && k1.sequence == 1
  {
    var s0, s1, s2 := SecondRound();
    TwoLocks(s0, s1, s2);
    assert Open(Entered(Joined3(s0, B1()), 3), PPX().msg) && Open(Entered(Asking(s1, 3), 3), PPX().msg);
    hide Seen, IsRun, Disciplined, AllLatest, Guarded, A0, B1, W3, Rounded, Open, Trio, IsExecuted, ServicesDiffer;
    CommitFirst(Joined3(s0, B1()), Asking(s1, 3), s2, {Comm(1, PPB()), Comm(2, PPB())} + {A0(), B1(), W3()});
    var sc :| Seen(sc) && sc.kept == EARLIER
              && {Comm(1, PPB()), Comm(2, PPB())} + {A0(), B1(), W3()} + {Comm(0, PPX()), Comm(1, PPX())} <= sc.sent
              && 1 in sc.m && 2 in sc.m && sc.m[2] == s2 && IsExecuted(sc.m[1], KeyOf(PPX().msg));
    k1, k2 := OpKey(2, 1, "b"), OpKey(3, 1, "a");
    states, steps := RunOf(sc, k1, 1, 2, k2, 0, 1);
    Differ(states, steps, 2, k1, 1, k2);
    if AllLatest(Four, states, steps, 1) { CommittedAgree(Four, states, steps, k1, k2); }
  }

  /** Where that run breaks the second condition: an accepted NEWVIEW re-proposes a certificate
      although it carries one from a later view. */
  lemma LaterCertificateLoses() returns (states: seq<System>, steps: seq<Step>, i: nat, r: Uuid, s: nat)
    ensures Four.Tolerable() && IsRun(Four, states, steps) && i < |steps| && Accepts(Four, states[i], steps[i], r)
    ensures !PicksLatest(BySender(steps[i].e.msg.viewchanges), s)
  {
    var k1, k2;
    states, steps, k1, k2 := EarlierCertificateDisagree();
    s := k1.sequence;
    hide PicksLatest, IsRun;
    i, r :| 0 <= i < |steps| && Accepts(Four, states[i], steps[i], r)
            && !PicksLatest(BySender(steps[i].e.msg.viewchanges), s);
  }

  // ---- All three conditions kept ----

  const ALL: Kept := Kept(true, true, true)

  function H(u: Uuid): Envelope { Envelope(u, Holding(3, PPB(), KeyOf(PPB().msg), 0, 1, 3)) }

  /** Peers 0 and 1 commit "b" in view 2. */
  lemma FirstCommit() returns (s0: State, s1: State, s2: State)
    ensures Seen(Scene(Trio(s0, s1, s2), {Comm(0, PPB()), Comm(1, PPB())}, ALL)) && s0.lastViewSent == 0
            && s1.lastViewSent == 2
    ensures s0 == Rounded(Entered(Initial(0), 2), PPB(), 0, 1) && s1 == Rounded(In2(Initial(1)), PPB(), 0, 1)
  {
    hide Seen, NV2, Trio;
    InTwo(ALL);
    var t0, t1 := Initial(0), In2(Initial(1));
    s2 := Entered(Opened(Initial(2)), 2);
    TrioPut(t0, t1, s2, Entered(t0, 2));
    var sc := Scene(Trio(t0, t1, s2), {NV2()}, ALL);
    assert NV2() == EmptyNewview(2, 1, 2, 3) by { NewviewOfTwo(); }
    EnterByEmpty(sc, 0, 2, 1, 2, 3);
    Cut(sc.(m := Trio(Entered(t0, 2), t1, s2)), Trio(Entered(t0, 2), t1, s2), {});
    RoundOf01(Entered(t0, 2), t1, s2, {}, ALL, PPB());
    s0, s1 := Rounded(Entered(t0, 2), PPB(), 0, 1), Rounded(t1, PPB(), 0, 1);
    Forget(Scene(Trio(s0, s1, s2), {} + {Comm(0, PPB()), Comm(1, PPB())}, ALL), {Comm(0, PPB()), Comm(1, PPB())});
  }

  lemma NewviewOfTwo()
    ensures NV2() == EmptyNewview(2, 1, 2, 3)
  {
  }

  lemma AskHolding(sc: Scene, u: Uuid)
    requires Seen(sc) && u in sc.m && sc.m[u].view == 2 && sc.m[u].lastViewSent <= 2 && Unstable(sc.m[u].cps)
    requires sc.m[u].ops == map[KeyOf(PPB().msg) := LockedOp(PPB(), KeyOf(PPB().msg), 0, 1, 3)]
    ensures Seen(sc.(m := sc.m[u := Asking(sc.m[u], 3)], sent := sc.sent + {H(u)}))
  {
    HoldingIsMade(sc.m[u], 3, PPB(), KeyOf(PPB().msg), 0, 1, 3);
    hide Seen, ViewchangeFrom, Holding;
    Fails(sc, u, H(u).msg);
    OneMessage(sc, u, Asking(sc.m[u], 3), H(u).msg);
  }

  /** Both ask for view 3, and peer 3 announces it. */
  lemma AskHeld(s0: State, s1: State, s2: State, sent: set<Envelope>)
    requires Seen(Scene(Trio(s0, s1, s2), sent, ALL)) && s0.lastViewSent == 0 && s1.lastViewSent == 2
    requires s0 == Rounded(Entered(Initial(0), 2), PPB(), 0, 1) && s1 == Rounded(In2(Initial(1)), PPB(), 0, 1)
    ensures Seen(Scene(Trio(Asking(s0, 3), Asking(s1, 3), s2), sent + {H(0), H(1), W3()}, ALL))
  {
    TrioPut(s0, s1, s2, Asking(s0, 3));
    TrioPut(Asking(s0, 3), s1, s2, Asking(s1, 3));
    hide Seen, Trio, H, W3;
    var sc := Scene(Trio(s0, s1, s2), sent, ALL);
    AskHolding(sc, 0);
    var sc1 := Scene(Trio(Asking(s0, 3), s1, s2), sent + {H(0)}, ALL);
    AskHolding(sc1, 1);
    var sc2 := Scene(Trio(Asking(s0, 3), Asking(s1, 3), s2), sc1.sent + {H(1)}, ALL);
    AskByThree(sc2);
    Cut(sc2.(sent := sc2.sent + {W3()}), sc2.m, sent + {H(0), H(1), W3()});
  }

  lemma AskByThree(sc: Scene)
    requires Seen(sc)
    ensures Seen(sc.(sent := sc.sent + {W3()}))
  {
    Flat(sc.sent, Bare(3));
    hide Seen, Authentic;
    Injects(sc, W3());
  }

  function Held(): map<Uuid, Envelope> { Three3(H(0), H(1), W3()) }

  lemma HeldAreASet(sc: Scene)
    requires Seen(sc) && H(0) in sc.sent && H(1) in sc.sent
    ensures SlightSet(3, Held(), 0, 1, 3, 0) && Again(3, Held(), 0) == By3(PrePrepare(3, 1, "b"))
    ensures SlightNewview(3, Held(), 0, 1, 3, 0) == By3(NewView(3, [H(0), H(1), W3()], [By3(PrePrepare(3, 1, "b"))]))
  {
    SentIsGood(sc, H(0));
    SentIsGood(sc, H(1));
    BareIsValid(3, 3, 0);
    HoldingIsSlight(PPB(), 0, 1, 3);
    assert Slight(W3().msg) && W3().msg.view == 3 && W3().sender == 3;
    hide Seen, WellFormedViewchange, Holding, Slight, SlightSet, Three3;
    SlightThree(3, H(0), H(1), W3());
  }

  lemma HeldPicksLatest(s: nat)
    ensures PicksLatest(Held(), s)
  {
    var k := OpKey(2, s, "b");
    forall x, p | x in Held() && Held()[x].msg.ViewChange? && p in Held()[x].msg.proofs && Certificate(p, k.sequence)
      ensures ProofKey(p).view == k.view
    {
      assert p == CertOf(PPB(), KeyOf(PPB().msg), 0, 1, 3);
    }
    SameViewPicksLatest(Held(), k);
  }

  function PPD(): Envelope { By3(PrePrepare(3, 1, "b")) }

  lemma CommitAgain(s0: State, s1: State, s2: State, sent: set<Envelope>)
    requires Seen(Scene(Trio(s0, s1, s2), sent, ALL)) && H(0) in sent && H(1) in sent && W3() in sent
    requires s0.view == 2 && s1.view == 2 && s0.lastViewSent == 3 && s1.lastViewSent == 3
    requires Open(Entered(s0, 3), PPD().msg) && Open(Entered(s1, 3), PPD().msg)
    ensures exists sc :: Seen(sc) && sc.kept == ALL && sent + {Comm(0, PPD()), Comm(1, PPD())} <= sc.sent
  {
    hide Seen, Trio, H, W3, Open, Entered, ViewchangeSet, Three3, PicksLatest;
    var sc := Scene(Trio(s0, s1, s2), sent, ALL);
    HeldAreASet(sc);
    forall s: nat ensures PicksLatest(Held(), s) { HeldPicksLatest(s); }
    var nv := SlightNewview(3, Held(), 0, 1, 3, 0);
    InjectsNewview(sc, nv);
    EnterAndCommit(s0, s1, s2, sent + {nv}, ALL, 3, Held(), 0);
  }

  /** The three conditions together exclude neither changes of view nor commits after them. */
  lemma ConditionsCanHold() returns (states: seq<System>, steps: seq<Step>, k1: OpKey, k2: OpKey)
    ensures Four.Tolerable() && IsRun(Four, states, steps) && forall s: nat :: WellBehaved(Four, states, steps, s)
    ensures CommittedInRun(Four, states, k1) && CommittedInRun(Four, states, k2)
    ensures k1.view < k2.view && k1.sequence == k2.sequence && k1.hash == k2.hash
  {
    var s0, s1, s2 := FirstCommit();
    AskHeld(s0, s1, s2, {Comm(0, PPB()), Comm(1, PPB())});
    assert Open(Entered(Asking(s0, 3), 3), PPD().msg) && Open(Entered(Asking(s1, 3), 3), PPD().msg);
    hide Seen, IsRun, Disciplined, AllLatest, Guarded, H, W3, Rounded, Open, Trio;
    CommitAgain(Asking(s0, 3), Asking(s1, 3), s2, {Comm(0, PPB()), Comm(1, PPB())} + {H(0), H(1), W3()});
    var sc :| Seen(sc) && sc.kept == ALL
              && {Comm(0, PPB()), Comm(1, PPB())} + {H(0), H(1), W3()} + {Comm(0, PPD()), Comm(1, PPD())} <= sc.sent;
    k1, k2 := OpKey(2, 1, "b"), OpKey(3, 1, "b");
    states, steps := RunOf(sc, k1, 0, 1, k2, 0, 1);
  }

  // ---- A NEWVIEW nobody accepts ----

  function Stray(): Msg { NewView(2, [W3()], []) }

  function Straying(s: State): State { Opened(s).(viewchanges := map[2 := Bares(2, 1, 2, 3), 3 := map[3 := W3()]]) }

  lemma StrayHeard(s: State)
    requires s.id == 2 && s.view == 1
    ensures Noted(Opened(s), W3()) == Straying(s) && ViewchangesFor(Straying(s), 3) == map[3 := W3()]
    ensures !JoinsViewchange(Four, Straying(s), 3) && Candidates(Four, Straying(s)) == {2}
  {
    assert RecordClaims(4, s.cps, []) == s.cps;
    assert Noted(Opened(s), W3()).viewchanges == Straying(s).viewchanges;
    hide Noted;
    ThreeInOrder(Bares(2, 1, 2, 3), 1, 2, 3);
    OnlyTwoOpen(s, Bares(2, 1, 2, 3), map[3 := W3()]);
    assert |map[3 := W3()]| == 1;
    hide Candidates, Bares, W3;
  }

  lemma OnlyTwoOpen(s: State, heard: map<Uuid, Envelope>, late: map<Uuid, Envelope>)
    requires s.id == 2 && s.view == 1 && |heard| == 3
    ensures Candidates(Four, s.(viewchanges := map[2 := heard, 3 := late])) == {2}
  {
  }

  lemma StrayIsBuilt()
    ensures BuildNewview(Four, 2, 2, map[3 := W3()]) == Stray() && NewPrePrepares(Four, 2, map[3 := W3()]) == []
  {
    var vcs := map[3 := W3()];
    assert InOrder(vcs, 1) == [] && InOrder(vcs, 2) == [] && InOrder(vcs, 3) == [] && InOrder(vcs, 4) == [W3()];
    assert Chosen(vcs, 0, 1) == map[] && Chosen(vcs, 0, 2) == map[] && Chosen(vcs, 0, 3) == map[]
           && Chosen(vcs, 0, 4) == map[];
    assert MaxBase(vcs, 1) == 0 && MaxBase(vcs, 2) == 0 && MaxBase(vcs, 3) == 0 && MaxBase(vcs, 4) == 0;
  }

  /** Peer 2 could open view 2 and has not entered it yet when it hears of view 3: it sends a
      NEWVIEW for view 2 with the viewchange for view 3, which no replica accepts. */
  lemma MisdirectedNewview() returns (states: seq<System>, steps: seq<Step>, nv: Msg)
    ensures Four.Tolerable() && IsRun(Four, states, steps) && nv.NewView?
    ensures Four.Correct(2) && Envelope(2, nv) in states[|states| - 1].sent && forall view: nat ::
              !ValidNewview(Four, view, Envelope(2, nv))
  {
    var sc := StraySent();
    hide Seen, IsRun;
    states, steps := SomeRun(sc);
    nv := Stray();
  }

  lemma StraySent() returns (sc: Scene)
    ensures Seen(sc) && Envelope(2, Stray()) in sc.sent
  {
    Opening(ALL);
    assert Calm(Initial(1), 1) && Calm(Initial(2), 2);
    hide Seen, Calm, Opened, Straying, Noted, BuildNewview, NewPrePrepares, JoinsViewchange, Candidates;
    OpenTwo(Scene(Cast(), {}, ALL));
    sc := Scene(Cast()[1 := Asking(Initial(1), 2)][2 := Opened(Initial(2))], {} + {V(1), V(2), V(3), NV2()}, ALL);
    AskByThree(sc);
    sc := sc.(sent := sc.sent + {W3()});
    sc := HearStray(sc, Initial(2));
  }

  lemma HearStray(sc: Scene, s: State) returns (sc': Scene)
    requires Seen(sc) && 2 in sc.m && sc.m[2] == Opened(s) && s.id == 2 && s.view == 1 && W3() in sc.sent
    ensures Seen(sc') && Envelope(2, Stray()) in sc'.sent
  {
    BareIsValid(3, 3, 1);
    StrayHeard(s);
    StrayIsBuilt();
    assert sc.m[2].view == 1 && Straying(s).id == 2;
    hide Seen, ValidViewchange, Opened, Straying, Noted, BuildNewview, NewPrePrepares, JoinsViewchange, Candidates,
         ViewchangesFor;
    HearsAndAnnounces(sc, 2, W3(), 2);
    assert {Stray()} + (set m | m in NewPrePrepares(Four, 2, map[3 := W3()])) == {Stray()};
    OneMessage(sc, 2, Straying(s), Stray());
    sc' := sc.(m := sc.m[2 := Straying(s)], sent := sc.sent + {Envelope(2, Stray())});
  }
}
