/** The third condition of agreement across views: the code takes a pre-prepare at or below the
    checkpoint that its view starts from, and commits a second request for a sequence long settled. */
module LowWater {
  import opened Quorum
  import opened Messages
  import opened Operations
  import opened Checkpoints
  import opened ViewChange
  import opened Replica
  import opened Protocol
  import opened MakerChecker
  import opened NewviewContent
  import opened Agreement
  import opened Scenes
  import opened Phases
  import opened Disagreement

  const LOW: Kept := Kept(true, true, false)

  // ---- Rounds in view 2, executed by peer 1 ----

  /** The request for sequence i. */
  function PP(i: nat): Envelope { By3(PrePrepare(2, i, "a")) }

  /** In view 2, with no checkpoint and nothing above sequence n. */
  ghost predicate Rolling(s: State, n: nat)
  {
    && s.view == 2 && s.viewIsValid && s.lastViewSent <= 2 && s.cps == Fresh
    && (forall slot | slot in s.accepted :: slot.0 <= 2 && slot.1 <= n)
    && (forall k | k in s.ops :: k.view <= 2 && 0 < k.sequence <= n)
  }

  lemma RollingOpen(s: State, n: nat)
    requires Rolling(s, n)
    ensures Open(s, PP(n + 1).msg) && Rolling(Rounded(s, PP(n + 1), 0, 1), n + 1)
  {
  }

  function Votes(n: nat): set<Envelope> { if n == 0 then {} else {Comm(0, PP(n)), Comm(1, PP(n))} }

  /** Peers 0 and 1 commit the next request and peer 1 executes it. */
  lemma NextRound(s0: State, s1: State, s2: State, n: nat) returns (t0: State, t1: State)
    requires Seen(Scene(Trio(s0, s1, s2), {}, LOW)) && Rolling(s0, n) && Rolling(s1, n)
    ensures Seen(Scene(Trio(t0, t1, s2), Votes(n + 1), LOW)) && Rolling(t0, n + 1) && Rolling(t1, n + 1)
    ensures IsExecuted(t1, KeyOf(PP(n + 1).msg))
  {
    RollingOpen(s0, n);
    RollingOpen(s1, n);
    var e := PP(n + 1);
    var k := KeyOf(e.msg);
    t0, t1 := Rounded(s0, e, 0, 1), Rounded(s1, e, 0, 1);
    RoundedCommits(s1, e, 0, 1);
    assert k in t1.ops;
    hide Seen, Trio, Rounded, Rolling, Open, Committing, IsExecuted;
    RoundOf01(s0, s1, s2, {}, LOW, e);
    ExecuteAt1(t0, t1, s2, e, 0, 1);
    FinishedRolls(t1, k, n + 1);
    t1 := Finished(t1, k, 0, 1);
  }

  lemma FinishedRolls(s: State, k: OpKey, n: nat)
    requires Rolling(s, n) && k in s.ops
    ensures Rolling(Finished(s, k, 0, 1), n) && IsExecuted(Finished(s, k, 0, 1), k)
  {
  }

  lemma ExecuteAt1(s0: State, s1: State, s2: State, e: Envelope, a: Uuid, b: Uuid)
    requires e.msg.PrePrepare? && a < b < 3 && Seen(Scene(Trio(s0, s1, s2), {} + {Comm(a, e), Comm(b, e)}, LOW))
    requires Committing(s1, e)
    ensures Seen(Scene(Trio(s0, Finished(s1, KeyOf(e.msg), a, b), s2), {Comm(a, e), Comm(b, e)}, LOW))
  {
    var t := Finished(s1, KeyOf(e.msg), a, b);
    TrioPut(s0, s1, s2, t);
    hide Seen, Trio, Finished;
    var sc := Scene(Trio(s0, s1, s2), {} + {Comm(a, e), Comm(b, e)}, LOW);
    Executes(sc, 1, e, a, b);
    Cut(sc.(m := Trio(s0, t, s2)), Trio(s0, t, s2), {Comm(a, e), Comm(b, e)});
  }

  /** n requests, one after the other. */
  lemma {:induction false} Rounds(n: nat) returns (s0: State, s1: State, s2: State)
    ensures Seen(Scene(Trio(s0, s1, s2), Votes(n), LOW)) && Rolling(s0, n) && Rolling(s1, n)
    ensures n > 0 ==> IsExecuted(s1, KeyOf(PP(n).msg))
  {
    if n == 0 {
      hide Seen, NV2, EmptyNewview, Bares;
      InTwo(LOW);
      s1, s2 := In2(Initial(1)), Entered(Opened(Initial(2)), 2);
      var sc := Scene(Trio(Initial(0), s1, s2), {NV2()}, LOW);
      assert EmptyNewview(2, 1, 2, 3) in sc.sent by { NewviewOfTwo(); }
      EnterByEmpty(sc, 0, 2, 1, 2, 3);
      s0 := Entered(Initial(0), 2);
      TrioPut(Initial(0), s1, s2, s0);
      Cut(sc.(m := sc.m[0 := s0]), Trio(s0, s1, s2), {});
    } else {
      hide Seen, Rolling, Votes, Trio;
      s0, s1, s2 := Rounds(n - 1);
      Forget(Scene(Trio(s0, s1, s2), Votes(n - 1), LOW), {});
      s0, s1 := NextRound(s0, s1, s2, n - 1);
    }
  }

  // ---- A checkpoint ----

  function Cp(n: nat): Checkpoint { Checkpoint(n, "") }

  function Claim(u: Uuid, n: nat): Envelope { Envelope(u, CheckpointMsg(Cp(n))) }

  function Claimed(n: nat): map<Uuid, Envelope> { map[1 := Claim(1, n), 3 := Claim(3, n)] }

  function Settled(m: Checkpoints, n: nat): Checkpoints
  {
    m.(stable := Cp(n), stableProof := Claimed(n), partial := map[])
  }

  predicate Unclaimed(m: Checkpoints, n: nat) { m.stable == INITIAL && m.partial == map[] && m.local.sequence <= n }

  lemma FirstClaim(m: Checkpoints, n: nat)
    requires Unclaimed(m, n) && n > 0
    ensures RecordClaim(4, m, Claim(1, n)) == m.(partial := map[Cp(n) := map[1 := Claim(1, n)]])
  {
    var one: map<Uuid, Envelope> := map[1 := Claim(1, n)];
    assert one.Keys * Peers(4) == {1} by { assert Below(1, 4); }
    assert |{1}| == 1;
  }

  /** The claims of peers 1 and 3 make a checkpoint stable. */
  lemma SecondClaim(m: Checkpoints, n: nat)
    requires Unclaimed(m, n) && n > 0
    ensures RecordClaim(4, m.(partial := map[Cp(n) := map[1 := Claim(1, n)]]), Claim(3, n)) == Settled(m, n)
  {
    var m1 := m.(partial := map[Cp(n) := map[1 := Claim(1, n)]]);
    assert Claimed(n).Keys * Peers(4) == {1, 3} by { assert Below(1, 4) && Below(3, 4); }
    assert |{1, 3}| == 2;
    assert AddClaim(m1.Claims(Cp(n)), Claim(3, n)) == Claimed(n);
    var m2 := m1.(partial := m1.partial[Cp(n) := Claimed(n)]);
    assert Stabilize(m2, Cp(n)).partial == map[];
  }

  /** Known claims change nothing. */
  lemma ClaimsKnown(m: Checkpoints, n: nat)
    requires m.stable == Cp(n) && m.stableProof == Claimed(n)
    ensures RecordClaims(4, m, [Claim(1, n), Claim(3, n)]) == m
  {
    assert RecordClaim(4, m, Claim(1, n)) == m && RecordClaim(4, m, Claim(3, n)) == m;
    assert [Claim(1, n), Claim(3, n)][1..] == [Claim(3, n)] && [Claim(3, n)][1..] == [];
    assert RecordClaims(4, m, [Claim(3, n)]) == RecordClaims(4, m, []);
  }

  lemma HearClaim(sc: Scene, r: Uuid, u: Uuid, n: nat)
    requires Seen(sc) && r in sc.m && Claim(u, n) in sc.sent
    ensures Seen(sc.(m := sc.m[r := sc.m[r].(cps := RecordClaim(4, sc.m[r].cps, Claim(u, n)))]))
  {
    NoChoice(sc.m[r], Claim(u, n), {}, Idle);
    hide Seen, GoodChoice, RecordClaim;
    Acts(sc, Deliver(r, Claim(u, n), {}, Idle));
    var t := sc.m[r].(cps := RecordClaim(4, sc.m[r].cps, Claim(u, n)));
    Cut(sc.Put(r, t, {}), sc.m[r := t], sc.sent);
  }

  lemma HearClaims(sc: Scene, r: Uuid, n: nat)
    requires Seen(sc) && r in sc.m && Claim(1, n) in sc.sent && Claim(3, n) in sc.sent && Unclaimed(sc.m[r].cps, n)
             && n > 0
    ensures Seen(sc.(m := sc.m[r := sc.m[r].(cps := Settled(sc.m[r].cps, n))]))
  {
    hide Seen, RecordClaim, Settled;
    var s := sc.m[r];
    FirstClaim(s.cps, n);
    SecondClaim(s.cps, n);
    HearClaim(sc, r, 1, n);
    var t := s.(cps := s.cps.(partial := map[Cp(n) := map[1 := Claim(1, n)]]));
    var sc1 := sc.(m := sc.m[r := t]);
    HearClaim(sc1, r, 3, n);
    var t2 := s.(cps := Settled(s.cps, n));
    assert t.(cps := Settled(s.cps, n)) == t2;
    assert sc1.m[r := t2] == sc.m[r := t2];
  }

  /** Peer 1 reaches the checkpoint and says so. */
  lemma Reaches(sc: Scene, n: nat)
    requires Seen(sc) && 1 in sc.m && sc.m[1].cps == Fresh && n > 0 && (forall k | k in sc.m[1].ops :: k.sequence > 0)
    ensures Seen(sc.(m := sc.m[1 := sc.m[1].(cps := Fresh.(local := Cp(n)))], sent := sc.sent + {Claim(1, n)}))
  {
    var s := sc.m[1];
    var t := s.(cps := Fresh.(local := Cp(n)));
    assert DeleteUntil(s.ops, 0) == s.ops;
    hide Seen;
    Acts(sc, Executed(1, Cp(n)));
    OneMessage(sc, 1, t, CheckpointMsg(Cp(n)));
  }

  lemma ClaimByThree(sc: Scene, n: nat)
    requires Seen(sc)
    ensures Seen(sc.(sent := sc.sent + {Claim(3, n)}))
  {
    Flat(sc.sent, Claim(3, n).msg);
    hide Seen, Authentic;
    Injects(sc, Claim(3, n));
  }

  /** In view 2, with the checkpoint at n stable and nothing above it. */
  ghost predicate Resting(s: State, n: nat)
  {
    && s.view == 2 && s.lastViewSent <= 2 && s.cps.stable == Cp(n) && s.cps.stableProof == Claimed(n)
    && (forall slot | slot in s.accepted :: slot.0 <= 2)
    && (forall k | k in s.ops :: k.view <= 2 && k.sequence <= n)
  }

  /** The checkpoint at n becomes stable at peers 0 and 1. */
  lemma Checkpointed(s0: State, s1: State, s2: State, sent: set<Envelope>, n: nat) returns (t0: State, t1: State)
    requires Seen(Scene(Trio(s0, s1, s2), sent, LOW)) && Rolling(s0, n) && Rolling(s1, n) && n > 0
    ensures Seen(Scene(Trio(t0, t1, s2), sent + {Claim(1, n)}, LOW)) && Resting(t0, n) && Resting(t1, n)
    ensures t1.ops == s1.ops
  {
    var u1 := s1.(cps := Fresh.(local := Cp(n)));
    t0, t1 := s0.(cps := Settled(s0.cps, n)), u1.(cps := Settled(u1.cps, n));
    TrioPut(s0, s1, s2, u1);
    TrioPut(s0, u1, s2, t0);
    TrioPut(t0, u1, s2, t1);
    assert Unclaimed(s0.cps, n) && Unclaimed(u1.cps, n) && Resting(t0, n) && Resting(t1, n);
    hide Seen, Trio, Settled, Rolling, Resting, Claim, Unclaimed;
    var sc := Scene(Trio(s0, s1, s2), sent, LOW);
    Reaches(sc, n);
    var sc1 := Scene(Trio(s0, u1, s2), sent + {Claim(1, n)}, LOW);
    ClaimByThree(sc1, n);
    var sc2 := sc1.(sent := sc1.sent + {Claim(3, n)});
    HearClaims(sc2, 0, n);
    var sc3 := sc2.(m := Trio(t0, u1, s2));
    HearClaims(sc3, 1, n);
    Cut(sc3.(m := Trio(t0, t1, s2)), Trio(t0, t1, s2), sent + {Claim(1, n)});
  }

  // ---- From view 2 to view 3, which starts above n ----

  function High(n: nat): Msg { ViewChange(3, n, [Claim(1, n), Claim(3, n)], []) }

  lemma HighIsMade(s: State, n: nat)
    requires Resting(s, n)
    ensures ViewchangeFrom(s.cps, s.ops, 3, High(n))
  {
    assert s.cps.stableProof.Keys == {1, 3};
    assert |s.cps.stableProof| == |{1, 3}| == 2;
    assert s.cps.stableProof[1] in s.cps.stableProof.Values && s.cps.stableProof[3] in s.cps.stableProof.Values;
    assert High(n).checkpoints[0] == Claim(1, n) && High(n).checkpoints[1] == Claim(3, n);
    assert ProofsOf(s.ops, n, [], []);
  }

  lemma AskHigh(sc: Scene, r: Uuid, n: nat)
    requires Seen(sc) && r in sc.m && Resting(sc.m[r], n)
    ensures Seen(sc.(m := sc.m[r := Asking(sc.m[r], 3)], sent := sc.sent + {Envelope(r, High(n))}))
  {
    HighIsMade(sc.m[r], n);
    hide Seen, ViewchangeFrom, High;
    Fails(sc, r, High(n));
    OneMessage(sc, r, Asking(sc.m[r], 3), High(n));
  }

  /** Peers 0 and 1 ask for view 3, and so does peer 3, with the same viewchange. */
  lemma AllAsk(s0: State, s1: State, s2: State, sent: set<Envelope>, n: nat)
    requires Seen(Scene(Trio(s0, s1, s2), sent, LOW)) && Resting(s0, n) && Resting(s1, n) && Claim(1, n) in sent
    ensures Seen(Scene(Trio(Asking(s0, 3), Asking(s1, 3), s2),
            sent + {Envelope(0, High(n)), Envelope(1, High(n)), Envelope(3, High(n))}, LOW))
  {
    TrioPut(s0, s1, s2, Asking(s0, 3));
    TrioPut(Asking(s0, 3), s1, s2, Asking(s1, 3));
    hide Seen, Trio, Resting, High, Asking, Claim;
    var sc := Scene(Trio(s0, s1, s2), sent, LOW);
    AskHigh(sc, 0, n);
    var sc1 := Scene(Trio(Asking(s0, 3), s1, s2), sent + {Envelope(0, High(n))}, LOW);
    AskHigh(sc1, 1, n);
    var sc2 := Scene(Trio(Asking(s0, 3), Asking(s1, 3), s2), sc1.sent + {Envelope(1, High(n))}, LOW);
    HighByThree(sc2.sent, n);
    hide Authentic;
    Injects(sc2, Envelope(3, High(n)));
    Cut(sc2.(sent := sc2.sent + {Envelope(3, High(n))}), sc2.m,
        sent + {Envelope(0, High(n)), Envelope(1, High(n)), Envelope(3, High(n))});
  }

  lemma HighByThree(sent: set<Envelope>, n: nat)
    requires Claim(1, n) in sent
    ensures Authentic(Four, sent, Envelope(3, High(n)))
  {
    assert Authentic(Four, sent, Claim(1, n)) && Authentic(Four, sent, Claim(3, n));
  }

  function Highs(n: nat): map<Uuid, Envelope>
  {
    Three3(Envelope(0, High(n)), Envelope(1, High(n)), Envelope(3, High(n)))
  }

  function HighNewview(n: nat): Envelope
  {
    Envelope(3, NewView(3, [Envelope(0, High(n)), Envelope(1, High(n)), Envelope(3, High(n))], []))
  }

  lemma HighsAreASet(sc: Scene, n: nat)
    requires Seen(sc) && Envelope(0, High(n)) in sc.sent && Envelope(1, High(n)) in sc.sent
    ensures ViewchangeSet(Four, 3, Highs(n)) && Highs(n).Keys == {0, 1, 3}
    ensures forall s: nat :: !Certifies(Highs(n), s) && PicksLatest(Highs(n), s)
  {
    SentIsGood(sc, Envelope(0, High(n)));
    SentIsGood(sc, Envelope(1, High(n)));
    assert WellFormedViewchange(Four, Envelope(3, High(n)));
    hide Seen, WellFormedViewchange;
    forall s: nat ensures !Certifies(Highs(n), s) && PicksLatest(Highs(n), s) { NoneCertified(Highs(n), s); }
  }

  lemma HighNewviewIsValid(sc: Scene, n: nat, view: nat)
    requires Seen(sc) && Envelope(0, High(n)) in sc.sent && Envelope(1, High(n)) in sc.sent && view < 3
    ensures ValidNewview(Four, view, HighNewview(n)) && BySender(HighNewview(n).msg.viewchanges) == Highs(n)
    ensures forall s: nat :: PicksLatest(BySender(HighNewview(n).msg.viewchanges), s)
  {
    var vcs := Highs(n);
    HighsAreASet(sc, n);
    hide Seen, NewPrePrepares, ViewchangeSet, Certifies, PicksLatest, MaxBase, InOrder;
    ThreeInOrder(vcs, 0, 1, 3);
    NothingToPropose(3, vcs);
    assert BuildNewview(Four, 3, 3, vcs) == HighNewview(n).msg;
    NewviewMadeIsValid(Four, 3, vcs, view);
    ReadBack(Four, 3, vcs);
  }

  /** The state of a replica that entered view 3. */
  function Started(s: State, n: nat): State { s.(view := 3, viewIsValid := true, nextIssued := n + 1) }

  lemma EnterHigh(sc: Scene, r: Uuid, n: nat)
    requires Seen(sc) && r in sc.m && HighNewview(n) in sc.sent && Envelope(0, High(n)) in sc.sent
             && Envelope(1, High(n)) in sc.sent
    requires sc.kept == LOW && sc.m[r].view == 2 && sc.m[r].lastViewSent == 3
    requires sc.m[r].cps.stable == Cp(n) && sc.m[r].cps.stableProof == Claimed(n)
    ensures Seen(sc.(m := sc.m[r := Started(sc.m[r], n)]))
  {
    StartedIs(sc.m[r], n);
    hide Seen, ValidNewview, PicksLatest, BySender, EnterView, HighNewview, High, Started;
    HighNewviewIsValid(sc, n, 2);
    HighNewviewIs(n);
    EntersQuietly(sc, r, HighNewview(n));
    Cut(sc.Put(r, Started(sc.m[r], n), {}), sc.m[r := Started(sc.m[r], n)], sc.sent);
  }

  lemma StartedIs(s: State, n: nat)
    requires s.cps.stable == Cp(n) && s.cps.stableProof == Claimed(n)
    ensures EnterView(Four, s, HighNewview(n).msg) == Started(s, n)
  {
    ClaimsKnown(s.cps, n);
    hide RecordClaims;
  }

  lemma HighNewviewIs(n: nat)
    ensures HighNewview(n).sender == 3 && HighNewview(n).msg.NewView? && HighNewview(n).msg.view == 3
            && HighNewview(n).msg.preprepares == []
  {
  }

  function Asks(n: nat): set<Envelope> { {Envelope(0, High(n)), Envelope(1, High(n)), Envelope(3, High(n))} }

  /** Peer 3, the primary of view 3, announces it, and peers 0 and 1 enter. */
  lemma EnterBothHigh(s0: State, s1: State, s2: State, sent: set<Envelope>, n: nat)
    requires Seen(Scene(Trio(Asking(s0, 3), Asking(s1, 3), s2), sent, LOW)) && Asks(n) <= sent && Resting(s0, n)
             && Resting(s1, n)
    ensures Seen(Scene(Trio(Started(Asking(s0, 3), n), Started(Asking(s1, 3), n), s2), sent, LOW))
  {
    var t0, t1 := Asking(s0, 3), Asking(s1, 3);
    TrioPut(t0, t1, s2, Started(t0, n));
    TrioPut(Started(t0, n), t1, s2, Started(t1, n));
    hide Seen, Trio, High, Started;
    var sc := Scene(Trio(t0, t1, s2), sent, LOW);
    InjectsNewview(sc, HighNewview(n));
    hide HighNewview;
    var sc1 := sc.(sent := sent + {HighNewview(n)});
    EnterHigh(sc1, 0, n);
    var sc2 := Scene(Trio(Started(t0, n), t1, s2), sc1.sent, LOW);
    EnterHigh(sc2, 1, n);
    Cut(Scene(Trio(Started(t0, n), Started(t1, n), s2), sc1.sent, LOW), Trio(Started(t0, n), Started(t1, n), s2), sent);
  }

  function Second(n: nat): Envelope { By3(PrePrepare(3, n, "c")) }

  lemma StillOpen(s: State, n: nat)
    requires Resting(s, n)
    ensures Open(Started(Asking(s, 3), n), Second(n).msg)
  {
  }

  /** Peers 0 and 1 settle n requests and a checkpoint at n, all in view 2, and enter view 3, which
      starts above n. There they take another request for n. */
  lemma SettledTwice(n: nat) returns (sc: Scene)
    requires n > 0
    ensures Seen(sc) && sc.kept == LOW && Votes(n) + {Comm(0, Second(n)), Comm(1, Second(n))} <= sc.sent
    ensures 0 in sc.m && 1 in sc.m && IsExecuted(sc.m[1], KeyOf(PP(n).msg)) && IsExecuted(sc.m[0], KeyOf(Second(n).msg))
  {
    hide Seen, Trio, Rolling, Resting, Votes, Open, Claim, High, Started, Asking;
    hide Rounded, Finished, Committing, IsExecuted;
    var s0, s1, s2 := Rounds(n);
    var t0, t1 := Checkpointed(s0, s1, s2, Votes(n), n);
    var sent := Votes(n) + {Claim(1, n)};
    AllAsk(t0, t1, s2, sent, n);
    EnterBothHigh(t0, t1, s2, sent + Asks(n), n);
    StillOpen(t0, n);
    StillOpen(t1, n);
    SecondAfter(t0, t1, n);
    assert IsExecuted(t1, KeyOf(PP(n).msg)) by { SameOps(s1, t1, n); }
    t0, t1 := Started(Asking(t0, 3), n), Started(Asking(t1, 3), n);
    RoundOf01(t0, t1, s2, sent + Asks(n), LOW, Second(n));
    t0, t1 := Rounded(t0, Second(n), 0, 1), Rounded(t1, Second(n), 0, 1);
    sent := sent + Asks(n) + {Comm(0, Second(n)), Comm(1, Second(n))};
    TrioPut(t0, t1, s2, s2);
    TrioExecutes(t0, t1, s2, sent, LOW, 0, Second(n), 0, 1);
    t0 := Finished(t0, KeyOf(Second(n).msg), 0, 1);
    TrioPut(t0, t1, s2, s2);
    sc := Scene(Trio(t0, t1, s2), sent, LOW);
  }

  lemma SameOps(s: State, t: State, n: nat)
    requires t.ops == s.ops && IsExecuted(s, KeyOf(PP(n).msg))
    ensures IsExecuted(t, KeyOf(PP(n).msg))
  {
  }

  lemma SecondAfter(s0: State, s1: State, n: nat)
    ensures Committing(Rounded(Started(Asking(s0, 3), n), Second(n), 0, 1), Second(n))
    ensures IsExecuted(s1, KeyOf(PP(n).msg))
            ==> IsExecuted(Rounded(Started(Asking(s1, 3), n), Second(n), 0, 1), KeyOf(PP(n).msg))
  {
  }

  /** A pre-prepare at the checkpoint that the view starts from: for every n, in particular for
      the multiples of CHECKPOINT_INTERVAL, there is a run that settles sequence n twice. */
  lemma LowPreprepareDisagree(n: nat) returns (states: seq<System>, steps: seq<Step>, k1: OpKey, k2: OpKey)
    requires n > 0
    ensures Four.Tolerable() && IsRun(Four, states, steps) && Disagrees(states, k1, k2) && k1.sequence == n
    ensures ServicesDiffer(states, steps, k1, k2) && Disciplined(Four, states, steps)
    ensures (forall s: nat :: AllLatest(Four, states, steps, s)) && !Guarded(Four, states, steps)
  {
    hide Seen, IsRun, Disciplined, AllLatest, Guarded, IsExecuted, ServicesDiffer;
    var sc := SettledTwice(n);
    k1, k2 := OpKey(2, n, "a"), OpKey(3, n, "c");
    states, steps := RunOf(sc, k1, 0, 1, k2, 0, 1);
    Differ(states, steps, 1, k1, 0, k2);
    if Guarded(Four, states, steps) { CommittedAgree(Four, states, steps, k1, k2); }
  }
}
