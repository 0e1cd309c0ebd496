/** A correct primary that gives a settled sequence number to a new request: the NEWVIEW it makes
    lists the viewchange of a lagging peer first, and its next number comes from that one. */
module LaggingStart {
  import opened Messages
  import opened Operations
  import opened Checkpoints
  import opened ViewChange
  import opened Replica
  import opened Protocol
  import opened MakerChecker
  import opened NewviewContent
  import opened Views
  import opened Agreement
  import opened Scenes
  import opened Phases
  import opened Disagreement
  import opened LowWater

  // ---- Peers 1 and 2 settle n requests in view 1, without peer 0 ----

  function PP1(i: nat): Envelope { By3(PrePrepare(1, i, "a")) }

  /** In view 1, with no checkpoint, no viewchange and nothing above sequence n. */
  ghost predicate Busy(s: State, u: Uuid, n: nat)
  {
    && s.id == u && s.view == 1 && s.viewIsValid && s.lastViewSent == 0 && s.cps == Fresh && s.viewchanges == map[]
    && (forall slot | slot in s.accepted :: slot.1 <= n)
    && (forall k | k in s.ops :: 0 < k.sequence <= n)
  }

  lemma BusyOpen(s: State, u: Uuid, n: nat)
    requires Busy(s, u, n)
    ensures Open(s, PP1(n + 1).msg) && Busy(Rounded(s, PP1(n + 1), 1, 2), u, n + 1)
  {
  }

  lemma FinishedBusy(s: State, k: OpKey, n: nat)
    requires Busy(s, 1, n) && k in s.ops
    ensures Busy(Finished(s, k, 1, 2), 1, n)
  {
  }

  lemma BusyRound(s0: State, s1: State, s2: State, n: nat) returns (t1: State, t2: State)
    requires Seen(Scene(Trio(s0, s1, s2), {}, LOW)) && Busy(s1, 1, n) && Busy(s2, 2, n)
    ensures Seen(Scene(Trio(s0, t1, t2), {}, LOW)) && Busy(t1, 1, n + 1) && Busy(t2, 2, n + 1)
  {
    BusyOpen(s1, 1, n);
    BusyOpen(s2, 2, n);
    var e := PP1(n + 1);
    var k := KeyOf(e.msg);
    t1, t2 := Rounded(s1, e, 1, 2), Rounded(s2, e, 1, 2);
    RoundedCommits(s1, e, 1, 2);
    assert k in t1.ops;
    hide Seen, Trio, Rounded, Busy, Open, Committing;
    RoundOf12(s0, s1, s2, {}, LOW, e);
    ExecuteAt1(s0, t1, t2, e, 1, 2);
    FinishedBusy(t1, k, n + 1);
    t1 := Finished(t1, k, 1, 2);
    Forget(Scene(Trio(s0, t1, t2), {Comm(1, e), Comm(2, e)}, LOW), {});
  }

  lemma {:induction false} BusyRounds(n: nat) returns (s1: State, s2: State)
    ensures Seen(Scene(Trio(Initial(0), s1, s2), {}, LOW)) && Busy(s1, 1, n) && Busy(s2, 2, n)
  {
    if n == 0 {
      Opening(LOW);
      s1, s2 := Initial(1), Initial(2);
    } else {
      hide Seen, Busy, Trio;
      s1, s2 := BusyRounds(n - 1);
      s1, s2 := BusyRound(Initial(0), s1, s2, n - 1);
    }
  }

  // ---- Peer 1 has a stable checkpoint at n; peers 0 and 1 ask for view 2 ----

  function Ahead(n: nat): Msg { ViewChange(2, n, [Claim(1, n), Claim(3, n)], []) }

  function A(u: Uuid, n: nat): Envelope { Envelope(u, Ahead(n)) }

  lemma AheadIsMade(s: State, n: nat)
    requires s.cps.stable == Cp(n) && s.cps.stableProof == Claimed(n) && forall k | k in s.ops :: k.sequence <= n
    ensures ViewchangeFrom(s.cps, s.ops, 2, Ahead(n))
  {
    assert s.cps.stableProof.Keys == {1, 3};
    assert |s.cps.stableProof| == |{1, 3}| == 2;
    assert s.cps.stableProof[1] in s.cps.stableProof.Values && s.cps.stableProof[3] in s.cps.stableProof.Values;
    assert Ahead(n).checkpoints[0] == Claim(1, n) && Ahead(n).checkpoints[1] == Claim(3, n);
    assert ProofsOf(s.ops, n, [], []);
  }

  lemma Stable1(s0: State, s1: State, s2: State, n: nat) returns (t1: State)
    requires Seen(Scene(Trio(s0, s1, s2), {}, LOW)) && Busy(s1, 1, n) && n > 0
    ensures Seen(Scene(Trio(s0, t1, s2), {}, LOW))
    ensures t1.view == 1 && t1.lastViewSent == 0 && t1.cps.stable == Cp(n) && t1.cps.stableProof == Claimed(n)
    ensures forall k | k in t1.ops :: k.sequence <= n
  {
    var u1 := s1.(cps := Fresh.(local := Cp(n)));
    t1 := u1.(cps := Settled(u1.cps, n));
    TrioPut(s0, s1, s2, u1);
    TrioPut(s0, u1, s2, t1);
    assert Unclaimed(u1.cps, n);
    hide Seen, Trio, Claim, Unclaimed;
    var sc := Scene(Trio(s0, s1, s2), {}, LOW);
    Reaches(sc, n);
    var sc1 := Scene(Trio(s0, u1, s2), sc.sent + {Claim(1, n)}, LOW);
    ClaimByThree(sc1, n);
    var sc2 := sc1.(sent := sc1.sent + {Claim(3, n)});
    HearClaims(sc2, 1, n);
    Cut(sc2.(m := Trio(s0, t1, s2)), Trio(s0, t1, s2), {});
  }

  lemma BothAsk(s0: State, s1: State, s2: State, n: nat) returns (t0: State, t1: State)
    requires Seen(Scene(Trio(s0, s1, s2), {}, LOW)) && s0 == Initial(0)
    requires s1.view == 1 && s1.lastViewSent == 0 && s1.cps.stable == Cp(n) && s1.cps.stableProof == Claimed(n)
    requires forall k | k in s1.ops :: k.sequence <= n
    ensures Seen(Scene(Trio(t0, t1, s2), {V(0), A(1, n)}, LOW))
  {
    BareIsMade(s0, 2);
    AheadIsMade(s1, n);
    t0, t1 := Asking(s0, 2), Asking(s1, 2);
    TrioPut(s0, s1, s2, t0);
    TrioPut(t0, s1, s2, t1);
    hide Seen, Trio, ViewchangeFrom, Ahead;
    var sc := Scene(Trio(s0, s1, s2), {}, LOW);
    Fails(sc, 0, Bare(2));
    OneMessage(sc, 0, t0, Bare(2));
    var sc1 := Scene(Trio(t0, s1, s2), sc.sent + {V(0)}, LOW);
    Fails(sc1, 1, Ahead(n));
    OneMessage(sc1, 1, t1, Ahead(n));
    Cut(Scene(Trio(t0, t1, s2), sc1.sent + {A(1, n)}, LOW), Trio(t0, t1, s2), {V(0), A(1, n)});
  }

  // ---- Peer 2 hears them, joins and announces view 2 ----

  lemma BothClaims(n: nat)
    requires n > 0
    ensures RecordClaims(4, Fresh, [Claim(1, n), Claim(3, n)]) == Settled(Fresh, n)
  {
    var es := [Claim(1, n), Claim(3, n)];
    FirstClaim(Fresh, n);
    SecondClaim(Fresh, n);
    assert es[0] == Claim(1, n) && es[1..] == [Claim(3, n)] && [Claim(3, n)][1..] == [];
    hide RecordClaim;
    var m1 := RecordClaim(4, Fresh, Claim(1, n));
    assert RecordClaims(4, m1, [Claim(3, n)]) == RecordClaims(4, RecordClaim(4, m1, Claim(3, n)), []);
  }

  function Caught(s: State, n: nat): State { s.(cps := Settled(Fresh, n)) }

  function TwoHeard(n: nat): map<Uuid, Envelope> { map[0 := V(0), 1 := A(1, n)] }
  function AllHeard(n: nat): map<Uuid, Envelope> { map[0 := V(0), 1 := A(1, n), 2 := A(2, n)] }

  lemma HearLagging(sc: Scene, n: nat)
    requires Seen(sc) && 2 in sc.m && Busy(sc.m[2], 2, n) && V(0) in sc.sent
    ensures Seen(sc.(m := sc.m[2 := Heard(sc.m[2], map[0 := V(0)])]))
  {
    var s2 := sc.m[2];
    BareIsValid(0, 2, 1);
    Hearing(s2, map[], 0);
    OnlyTwo(s2, map[0 := V(0)]);
    assert |map[0 := V(0)]| == 1;
    hide Seen, ValidViewchange, Candidates, Noted;
    HearsQuietly(sc, 2, V(0));
    Cut(sc.Put(2, Heard(s2, map[0 := V(0)]), {}), sc.m[2 := Heard(s2, map[0 := V(0)])], sc.sent);
  }

  lemma AheadHeard(s: State, n: nat)
    requires Busy(s, 2, n) && n > 0
    ensures var two := Heard(Caught(s, n), TwoHeard(n));
            && Noted(Heard(s, map[0 := V(0)]), A(1, n)) == two && two.view == 1 && JoinsViewchange(Four, two, 2)
            && ViewchangeFrom(two.cps, two.ops, 2, Ahead(n)) && Candidates(Four, Asking(two, 2)) == {}
            && Asking(two, 2) == Heard(Asking(Caught(s, n), 2), TwoHeard(n))
  {
    var two := Heard(Caught(s, n), TwoHeard(n));
    BothClaims(n);
    AheadIsMade(two, n);
    hide ViewchangeFrom, RecordClaims, Settled;
    assert Noted(Heard(s, map[0 := V(0)]), A(1, n)).viewchanges == two.viewchanges;
    assert TwoHeard(n).Keys == {0, 1};
    assert |TwoHeard(n)| == |{0, 1}| == 2;
    OnlyTwo(Asking(Caught(s, n), 2), TwoHeard(n));
    hide Candidates, Noted;
  }

  lemma HearAhead(sc: Scene, s: State, n: nat)
    requires Seen(sc) && 2 in sc.m && Busy(s, 2, n) && n > 0 && sc.m[2] == Heard(s, map[0 := V(0)])
             && A(1, n) in sc.sent
    ensures Seen(sc.(m := sc.m[2 := Heard(Asking(Caught(s, n), 2), TwoHeard(n))], sent := sc.sent + {A(2, n)}))
  {
    SentIsGood(sc, A(1, n));
    AheadHeard(s, n);
    assert ValidViewchange(Four, 1, A(1, n)) && sc.m[2].view == 1;
    hide Seen, ValidViewchange, ViewchangeFrom, WellFormedViewchange, Candidates, Noted, JoinsViewchange, Ahead, Busy,
         Caught, TwoHeard;
    assert A(1, n).msg.view == 2 by { AheadIs(n); }
    HearsAndJoins(sc, 2, A(1, n), Ahead(n));
    OneMessage(sc, 2, Heard(Asking(Caught(s, n), 2), TwoHeard(n)), Ahead(n));
  }

  lemma AheadIs(n: nat)
    ensures Ahead(n).ViewChange? && Ahead(n).view == 2 && Ahead(n).base == n && Ahead(n).proofs == []
  {
  }

  lemma OwnHeard(s: State, n: nat)
    requires s.id == 2 && s.view == 1 && !s.viewIsValid && s.cps == Settled(Fresh, n)
    ensures var st := Heard(s, AllHeard(n));
            && Noted(Heard(s, TwoHeard(n)), A(2, n)) == st && ViewchangesFor(st, 2) == AllHeard(n)
            && Candidates(Four, st) == {2} && !JoinsViewchange(Four, st, 2)
  {
    ClaimsKnown(s.cps, n);
    hide RecordClaims;
    assert Noted(Heard(s, TwoHeard(n)), A(2, n)).viewchanges == Heard(s, AllHeard(n)).viewchanges;
    assert AllHeard(n).Keys == {0, 1, 2};
    ThreeInOrder(AllHeard(n), 0, 1, 2);
    OnlyTwo(s, AllHeard(n));
    hide Candidates, Noted, InOrder;
  }

  function LaggingNewview(n: nat): Envelope { Envelope(2, NewView(2, [V(0), A(1, n), A(2, n)], [])) }

  lemma AllHeardIsASet(sc: Scene, n: nat)
    requires Seen(sc) && A(1, n) in sc.sent && A(2, n) in sc.sent
    ensures ViewchangeSet(Four, 2, AllHeard(n)) && AllHeard(n).Keys == {0, 1, 2} && MaxBase(AllHeard(n), 4) == n
    ensures forall s: nat :: !Certifies(AllHeard(n), s) && PicksLatest(AllHeard(n), s)
  {
    SentIsGood(sc, A(1, n));
    SentIsGood(sc, A(2, n));
    BareIsValid(0, 2, 1);
    AheadIs(n);
    assert Bare(2).base == 0 && Bare(2).proofs == [] && Bare(2).view == 2;
    hide Seen, WellFormedViewchange, Ahead, Bare;
    ThreeWithout(n, V(0), A(1, n), A(2, n));
  }

  lemma ThreeWithout(n: nat, x0: Envelope, x1: Envelope, x2: Envelope)
    requires x0.sender == 0 && x1.sender == 1 && x2.sender == 2 && x0.msg.ViewChange? && x1.msg.ViewChange?
             && x2.msg.ViewChange?
    requires WellFormedViewchange(Four, x0) && WellFormedViewchange(Four, x1) && WellFormedViewchange(Four, x2)
    requires x0.msg.view == 2 && x1.msg.view == 2 && x2.msg.view == 2 && x0.msg.base == 0 && x1.msg.base == n
             && x2.msg.base == n
    requires x0.msg.proofs == [] && x1.msg.proofs == [] && x2.msg.proofs == []
    ensures var vcs := map[0 := x0, 1 := x1, 2 := x2];
            && ViewchangeSet(Four, 2, vcs) && vcs.Keys == {0, 1, 2} && MaxBase(vcs, 4) == n
            && forall s: nat :: !Certifies(vcs, s) && PicksLatest(vcs, s)
  {
    hide WellFormedViewchange;
    var vcs := map[0 := x0, 1 := x1, 2 := x2];
    MaxBaseSpec(vcs, 4);
    assert vcs[1].msg.base == n;
    forall s: nat ensures !Certifies(vcs, s) && PicksLatest(vcs, s) { NoneCertified(vcs, s); }
  }

  lemma LaggingNewviewIsValid(sc: Scene, n: nat)
    requires Seen(sc) && A(1, n) in sc.sent && A(2, n) in sc.sent
    ensures var e := LaggingNewview(n); var vcs := AllHeard(n);
            && ValidNewview(Four, 1, e) && BuildNewview(Four, 2, 2, vcs) == e.msg && NewPrePrepares(Four, 2, vcs) == []
            && BySender(e.msg.viewchanges) == vcs && StartOf(Four, e.msg) == n
            && forall s: nat :: PicksLatest(BySender(e.msg.viewchanges), s)
  {
    var vcs := AllHeard(n);
    AllHeardIsASet(sc, n);
    hide Seen, NewPrePrepares, ViewchangeSet, Certifies, PicksLatest, MaxBase, InOrder;
    ThreeInOrder(vcs, 0, 1, 2);
    NothingToPropose(2, vcs);
    assert BuildNewview(Four, 2, 2, vcs) == LaggingNewview(n).msg;
    NewviewMadeIsValid(Four, 2, vcs, 1);
    ReadBack(Four, 2, vcs);
  }

  lemma AnnounceLagging(sc: Scene, s: State, n: nat)
    requires Seen(sc) && 2 in sc.m && s.id == 2 && s.view == 1 && !s.viewIsValid && s.cps == Settled(Fresh, n)
    requires sc.m[2] == Heard(s, TwoHeard(n)) && A(1, n) in sc.sent && A(2, n) in sc.sent
    ensures Seen(sc.(m := sc.m[2 := Heard(s, AllHeard(n))], sent := sc.sent + {LaggingNewview(n)}))
  {
    OwnIsValid(sc, n);
    OwnHeard(s, n);
    AheadIs(n);
    hide Seen, ValidViewchange, Candidates, Noted, JoinsViewchange, ViewchangesFor, BuildNewview, NewPrePrepares,
         ValidNewview, BySender, StartOf, PicksLatest, AllHeard, TwoHeard, Settled, Ahead;
    LaggingNewviewIsValid(sc, n);
    var st, vcs := Heard(s, AllHeard(n)), AllHeard(n);
    HearsAndAnnounces(sc, 2, A(2, n), 2);
    assert {LaggingNewview(n).msg} + (set m | m in NewPrePrepares(Four, 2, vcs)) == {LaggingNewview(n).msg};
    OneMessage(sc, 2, st, LaggingNewview(n).msg);
  }

  lemma OwnIsValid(sc: Scene, n: nat)
    requires Seen(sc) && A(2, n) in sc.sent
    ensures ValidViewchange(Four, 1, A(2, n))
  {
    SentIsGood(sc, A(2, n));
    hide Seen, WellFormedViewchange;
  }

  /** All of it: view 2 is announced, and peer 2 has not entered it yet. */
  lemma Announced(n: nat) returns (sc: Scene)
    requires n > 0
    ensures Seen(sc) && sc.kept == LOW && 2 in sc.m && sc.m[2].id == 2 && sc.m[2].view == 1 && sc.m[2].lastViewSent == 2
    ensures LaggingNewview(n) in sc.sent && A(1, n) in sc.sent && A(2, n) in sc.sent
  {
    hide Seen, Busy, Trio, A, LaggingNewview, Settled, TwoHeard, AllHeard;
    var s1, s2 := BusyRounds(n);
    s1 := Stable1(Initial(0), s1, s2, n);
    var t0, t1 := BothAsk(Initial(0), s1, s2, n);
    TrioPut(t0, t1, s2, s2);
    sc := Scene(Trio(t0, t1, s2), {V(0), A(1, n)}, LOW);
    sc := Announcing(sc, s2, n);
  }

  lemma Announcing(sc: Scene, s2: State, n: nat) returns (sc': Scene)
    requires Seen(sc) && sc.kept == LOW && 2 in sc.m && sc.m[2] == s2 && Busy(s2, 2, n) && n > 0 && V(0) in sc.sent
             && A(1, n) in sc.sent
    ensures Seen(sc') && sc'.kept == LOW && 2 in sc'.m && sc'.m[2].id == 2 && sc'.m[2].view == 1
            && sc'.m[2].lastViewSent == 2
    ensures LaggingNewview(n) in sc'.sent && A(1, n) in sc'.sent && A(2, n) in sc'.sent
  {
    var s := Asking(Caught(s2, n), 2);
    assert s.id == 2 && s.view == 1 && s.lastViewSent == 2;
    hide Seen, Busy, A, LaggingNewview, Settled, TwoHeard, AllHeard;
    HearLagging(sc, n);
    var sc1 := sc.(m := sc.m[2 := Heard(s2, map[0 := V(0)])]);
    HearAhead(sc1, s2, n);
    var sc2 := sc1.(m := sc1.m[2 := Heard(s, TwoHeard(n))], sent := sc1.sent + {A(2, n)});
    AnnounceLagging(sc2, s, n);
    sc' := sc2.(m := sc2.m[2 := Heard(s, AllHeard(n))], sent := sc2.sent + {LaggingNewview(n)});
  }

  /** Peer 2, correct and the primary of view 2, enters that view, which starts above n, and will
      give number 1 to the next request. */
  lemma LaggingPrimary(n: nat) returns (states: seq<System>, steps: seq<Step>)
    requires n > 0
    ensures Four.Tolerable() && IsRun(Four, states, steps) && |steps| > 0 && Four.Correct(2)
    ensures var i := |steps| - 1;
            && Accepts(Four, states[i], steps[i], 2) && StartOf(Four, steps[i].e.msg) == n
            && 2 in states[i + 1].replicas && states[i + 1].replicas[2].view == 2 && Four.Primary(2) == 2
            && states[i + 1].replicas[2].nextIssued == 1
  {
    var sc := Announced(n);
    LaggingNewviewIsValid(sc, n);
    hide Seen, ValidNewview, BuildNewview, NewPrePrepares, BySender, PicksLatest, StartOf, LaggingNewview, A, IsRun,
         Accepts, Enabled, Apply;
    states, steps := SomeRun(sc);
    var y := states[|steps|];
    var step := EnterLagging(y, n);
    states, steps := OneStepMore(states, steps, y, step);
  }

  lemma EnterLagging(y: System, n: nat) returns (step: Step)
    requires 2 in y.replicas && y.replicas[2].view == 1 && LaggingNewview(n) in y.sent
             && ValidNewview(Four, 1, LaggingNewview(n))
    ensures Enabled(Four, y, step) && Accepts(Four, y, step, 2) && step.e == LaggingNewview(n)
    ensures var z := Apply(Four, y, step).replicas; 2 in z && z[2].view == 2 && z[2].nextIssued == 1
  {
    var e := LaggingNewview(n);
    step := Deliver(2, e, {}, Idle);
    NoChoice(y.replicas[2], e, {}, Idle);
    LaggingEntry(y.replicas[2], n);
    hide ValidNewview, HandleNewview, GoodChoice;
  }

  lemma LaggingEntry(s: State, n: nat)
    requires ValidNewview(Four, 1, LaggingNewview(n)) && s.view == 1
    ensures var t := HandleNewview(Four, s, LaggingNewview(n), {}).state; t.nextIssued == 1 && t.view == 2
  {
    QuietEffect(s, LaggingNewview(n));
    hide HandleNewview, ValidNewview, RecordClaims;
  }

  lemma OneStepMore(states: seq<System>, steps: seq<Step>, y: System, step: Step)
    returns (states': seq<System>, steps': seq<Step>)
    requires IsRun(Four, states, steps) && states[|states| - 1] == y && Enabled(Four, y, step)
    ensures IsRun(Four, states', steps') && |steps'| > 0 && |states'| == |steps'| + 1
    ensures var i := |steps'| - 1; states'[i] == y && steps'[i] == step && states'[i + 1] == Apply(Four, y, step)
  {
    hide Enabled, Apply, Init;
    states', steps' := states + [Apply(Four, y, step)], steps + [step];
    forall i | 0 <= i < |steps'| ensures Takes(Four, states', steps', i) {
      if i < |steps| {
        assert Takes(Four, states, steps, i);
        assert states'[i] == states[i] && states'[i + 1] == states[i + 1] && steps'[i] == steps[i];
      } else {
        assert states'[i] == y && steps'[i] == step;
      }
    }
  }
}
