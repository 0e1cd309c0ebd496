/** Phases of the runs in a swarm of four that the counterexamples share: rounds of votes on a
    proposal of peer 3, and changes of view in which peer 3 takes part. */
module Phases {
  import opened Messages
  import opened Operations
  import opened Checkpoints
  import opened ViewChange
  import opened Replica
  import opened Protocol
  import opened MakerChecker
  import opened NewviewContent
  import opened Agreement
  import opened Scenes

  // ---- Rounds of votes ----

  function By3(m: Msg): Envelope { Envelope(3, m) }

  function Prep(u: Uuid, e: Envelope): Envelope
    requires e.msg.PrePrepare?
  {
    Envelope(u, KeyOf(e.msg).PrepareMsg())
  }

  function Comm(u: Uuid, e: Envelope): Envelope
    requires e.msg.PrePrepare?
  {
    Envelope(u, KeyOf(e.msg).CommitMsg())
  }

  /** Peer 3 sends a proposal and its own prepare for it. */
  lemma Offer(sc: Scene, e: Envelope)
    requires Seen(sc) && e.sender == 3 && e.msg.PrePrepare?
    ensures Seen(sc.(sent := sc.sent + {e, Prep(3, e)}))
  {
    hide Seen, Authentic;
    Flat(sc.sent, e.msg);
    Injects(sc, e);
    var sc1 := sc.(sent := sc.sent + {e});
    Flat(sc1.sent, Prep(3, e).msg);
    Injects(sc1, Prep(3, e));
    assert sc1.sent + {Prep(3, e)} == sc.sent + {e, Prep(3, e)};
  }

  lemma OneMessage(sc: Scene, r: Uuid, st: State, m: Msg)
    ensures sc.Put(r, st, {m}) == sc.(m := sc.m[r := st], sent := sc.sent + {Envelope(r, m)})
  {
    assert Signed(r, {m}) == {Envelope(r, m)};
  }

  /** Replicas r and q accept a proposal. */
  lemma BothPropose(sc: Scene, e: Envelope, r: Uuid, q: Uuid)
    requires Seen(sc) && r in sc.m && q in sc.m && r != q && e in sc.sent && e.sender < 4 && e.msg.PrePrepare?
    requires Open(sc.m[r], e.msg) && Open(sc.m[q], e.msg) && e.msg.sequence > 0
    ensures Seen(sc.(m := sc.m[r := Proposed(sc.m[r], e)][q := Proposed(sc.m[q], e)],
                     sent := sc.sent + {Prep(r, e), Prep(q, e)}))
  {
    hide Seen, Open, Proposed;
    HearProposal(sc, r, e);
    OneMessage(sc, r, Proposed(sc.m[r], e), Prep(r, e).msg);
    var sc1 := sc.Put(r, Proposed(sc.m[r], e), {Prep(r, e).msg});
    HearProposal(sc1, q, e);
    OneMessage(sc1, q, Proposed(sc.m[q], e), Prep(q, e).msg);
    assert sc1.sent + {Prep(q, e)} == sc.sent + {Prep(r, e), Prep(q, e)};
  }

  /** Replica r has accepted e and nothing more for it. */
  predicate Voting(s: State, e: Envelope)
  {
    && e.msg.PrePrepare? && s.viewIsValid && e.msg.view == s.view
    && KeyOf(e.msg) in s.ops && s.ops[KeyOf(e.msg)] == Op(PrepareStage, Some(e), map[], {}, true)
  }

  /** Replica s after the prepares of r, q and 3. */
  function Done(s: State, e: Envelope, r: Uuid, q: Uuid): State
    requires e.msg.PrePrepare?
  {
    Locked(s, e, KeyOf(e.msg), r, q, 3)
  }

  /** Both hear the prepares of r, q and 3 and commit. */
  lemma BothCommit(sc: Scene, e: Envelope, r: Uuid, q: Uuid)
    requires Seen(sc) && r in sc.m && q in sc.m && r < 3 && q < 3 && r != q
    requires Voting(sc.m[r], e) && Voting(sc.m[q], e)
    requires Prep(r, e) in sc.sent && Prep(q, e) in sc.sent && Prep(3, e) in sc.sent
    ensures Seen(sc.(m := sc.m[r := Done(sc.m[r], e, r, q)][q := Done(sc.m[q], e, r, q)],
                     sent := sc.sent + {Comm(r, e), Comm(q, e)}))
  {
    hide Seen;
    HearPrepares(sc, r, e, r, q, 3);
    OneMessage(sc, r, Done(sc.m[r], e, r, q), Comm(r, e).msg);
    var sc1 := sc.Put(r, Done(sc.m[r], e, r, q), {Comm(r, e).msg});
    HearPrepares(sc1, q, e, r, q, 3);
    OneMessage(sc1, q, Done(sc.m[q], e, r, q), Comm(q, e).msg);
    assert sc1.sent + {Comm(q, e)} == sc.sent + {Comm(r, e), Comm(q, e)};
  }

  /** A whole round: peer 3 proposes, r and q prepare and commit. */
  lemma Round(sc: Scene, e: Envelope, r: Uuid, q: Uuid)
    requires Seen(sc) && r in sc.m && q in sc.m && r < 3 && q < 3 && r != q
    requires e.sender == 3 && e.msg.PrePrepare? && Open(sc.m[r], e.msg) && Open(sc.m[q], e.msg) && e.msg.sequence > 0
    ensures Seen(sc.(m := sc.m[r := Done(Proposed(sc.m[r], e), e, r, q)][q := Done(Proposed(sc.m[q], e), e, r, q)],
                     sent := sc.sent + {e, Prep(r, e), Prep(q, e), Prep(3, e), Comm(r, e), Comm(q, e)}))
  {
    Accepting(sc.m[r], e);
    Accepting(sc.m[q], e);
    hide Seen, Open, Proposed, Voting, Done;
    Offer(sc, e);
    var sc1 := sc.(sent := sc.sent + {e, Prep(3, e)});
    BothPropose(sc1, e, r, q);
    var sc2 := sc1.(m := sc.m[r := Proposed(sc.m[r], e)][q := Proposed(sc.m[q], e)],
                    sent := sc1.sent + {Prep(r, e), Prep(q, e)});
    BothCommit(sc2, e, r, q);
    var m3 := sc2.m[r := Done(sc2.m[r], e, r, q)][q := Done(sc2.m[q], e, r, q)];
    assert m3 == sc.m[r := Done(Proposed(sc.m[r], e), e, r, q)][q := Done(Proposed(sc.m[q], e), e, r, q)];
    Cut(sc2.(m := m3, sent := sc2.sent + {Comm(r, e), Comm(q, e)}), m3,
        sc.sent + {e, Prep(r, e), Prep(q, e), Prep(3, e), Comm(r, e), Comm(q, e)});
  }

  lemma Accepting(s: State, e: Envelope)
    requires e.msg.PrePrepare? && Open(s, e.msg)
    ensures Voting(Proposed(s, e), e)
  {
  }

  // ---- Commits ----

  function WithCommits(s: State, k: OpKey, commits: set<Uuid>): State
    requires k in s.ops
  {
    s.(ops := s.ops[k := s.ops[k].(commits := commits)])
  }

  /** The first two commits. */
  lemma HearCommit(sc: Scene, r: Uuid, k: OpKey, u: Uuid)
    requires Seen(sc) && r in sc.m && u < 4 && Envelope(u, k.CommitMsg()) in sc.sent
    requires k in sc.m[r].ops && sc.m[r].viewIsValid && k.view == sc.m[r].view
    requires sc.m[r].ops[k].stage == CommitStage && |sc.m[r].ops[k].commits + {u}| < 3
    ensures Seen(sc.(m := sc.m[r := WithCommits(sc.m[r], k, sc.m[r].ops[k].commits + {u})]))
  {
    var s, e := sc.m[r], Envelope(u, k.CommitMsg());
    var t := WithCommits(s, k, s.ops[k].commits + {u});
    assert HandleVote(Four, s, e) == Nothing(t) by {
      assert HandleVote(Four, s, e).state.ops == t.ops;
    }
    NoChoice(s, e, {}, Idle);
    hide HandleVote, Seen, GoodChoice;
    Acts(sc, Deliver(r, e, {}, Idle));
    Cut(sc.Put(r, t, {}), sc.m[r := t], sc.sent);
  }

  function Finished(s: State, k: OpKey, a: Uuid, b: Uuid): State
    requires k in s.ops
  {
    s.(ops := s.ops[k := s.ops[k].(stage := ExecuteStage, commits := {a, b, 3})])
  }

  /** The third commit hands the operation to the service. */
  lemma LastCommitEffect(s: State, k: OpKey, a: Uuid, b: Uuid)
    requires k in s.ops && s.ops[k].stage == CommitStage && s.ops[k].commits == {a, b} && a < b < 3
    ensures HandleVote(Four, s, Envelope(3, k.CommitMsg())) == Effect(Finished(s, k, a, b), {}, {k})
  {
    var eff := HandleVote(Four, s, Envelope(3, k.CommitMsg()));
    assert {a, b} + {3} == {a, b, 3} && |{a, b, 3}| == 3;
    assert eff.state.ops == Finished(s, k, a, b).ops;
  }

  lemma HearLastCommit(sc: Scene, r: Uuid, k: OpKey, a: Uuid, b: Uuid)
    requires Seen(sc) && r in sc.m && k in sc.m[r].ops && sc.m[r].viewIsValid && k.view == sc.m[r].view && a < b < 3
    requires sc.m[r].ops[k].stage == CommitStage && sc.m[r].ops[k].commits == {a, b}
             && Envelope(3, k.CommitMsg()) in sc.sent
    ensures Seen(sc.(m := sc.m[r := Finished(sc.m[r], k, a, b)]))
  {
    LastCommitEffect(sc.m[r], k, a, b);
    NoChoice(sc.m[r], Envelope(3, k.CommitMsg()), {}, Idle);
    hide HandleVote, Seen, GoodChoice, Finished;
    Acts(sc, Deliver(r, Envelope(3, k.CommitMsg()), {}, Idle));
    Cut(sc.Put(r, Finished(sc.m[r], k, a, b), {}), sc.m[r := Finished(sc.m[r], k, a, b)], sc.sent);
  }

  lemma HearCommits(sc: Scene, r: Uuid, k: OpKey, a: Uuid, b: Uuid)
    requires Seen(sc) && r in sc.m && k in sc.m[r].ops && sc.m[r].viewIsValid && k.view == sc.m[r].view && a < b < 3
    requires sc.m[r].ops[k].stage == CommitStage && sc.m[r].ops[k].commits == {}
    requires Envelope(a, k.CommitMsg()) in sc.sent && Envelope(b, k.CommitMsg()) in sc.sent
             && Envelope(3, k.CommitMsg()) in sc.sent
    ensures Seen(sc.(m := sc.m[r := Finished(sc.m[r], k, a, b)]))
  {
    hide Seen;
    var s := sc.m[r];
    assert |{a}| == 1 && |{a, b}| == 2;
    assert {} + {a} == {a} && {a} + {b} == {a, b};
    HearCommit(sc, r, k, a);
    var sc1 := sc.(m := sc.m[r := WithCommits(s, k, {a})]);
    HearCommit(sc1, r, k, b);
    var sc2 := sc1.(m := sc1.m[r := WithCommits(sc1.m[r], k, {a, b})]);
    HearLastCommit(sc2, r, k, a, b);
    assert Finished(sc2.m[r], k, a, b) == Finished(s, k, a, b);
    assert sc2.m[r := Finished(s, k, a, b)] == sc.m[r := Finished(s, k, a, b)];
  }

  /** The replica has committed to e and heard no commit yet. */
  predicate Committing(s: State, e: Envelope)
  {
    && e.msg.PrePrepare? && s.viewIsValid && e.msg.view == s.view
    && KeyOf(e.msg) in s.ops && s.ops[KeyOf(e.msg)].stage == CommitStage && s.ops[KeyOf(e.msg)].commits == {}
  }

  /** Peer 3 commits too, and r hands the request to its service. */
  lemma Executes(sc: Scene, r: Uuid, e: Envelope, a: Uuid, b: Uuid)
    requires Seen(sc) && r in sc.m && Committing(sc.m[r], e)
    requires a < b < 3 && Comm(a, e) in sc.sent && Comm(b, e) in sc.sent
    ensures Seen(sc.(m := sc.m[r := Finished(sc.m[r], KeyOf(e.msg), a, b)]))
  {
    hide Seen, Finished;
    Flat(sc.sent, Comm(3, e).msg);
    hide Authentic;
    Injects(sc, Comm(3, e));
    var sc1 := sc.(sent := sc.sent + {Comm(3, e)});
    HearCommits(sc1, r, KeyOf(e.msg), a, b);
    var t := Finished(sc.m[r], KeyOf(e.msg), a, b);
    Cut(sc1.(m := sc1.m[r := t]), sc.m[r := t], sc.sent);
  }

  // ---- Views without certificates ----

  /** The viewchanges of three peers that have nothing prepared. */
  function Bares(w: nat, a: Uuid, b: Uuid, d: Uuid): map<Uuid, Envelope>
  {
    map[a := Envelope(a, Bare(w)), b := Envelope(b, Bare(w)), d := Envelope(d, Bare(w))]
  }

  /** The NEWVIEW made from them. */
  function EmptyNewview(w: nat, a: Uuid, b: Uuid, d: Uuid): Envelope
  {
    Envelope(w % 4, NewView(w, [Envelope(a, Bare(w)), Envelope(b, Bare(w)), Envelope(d, Bare(w))], []))
  }

  lemma BaresAreASet(w: nat, a: Uuid, b: Uuid, d: Uuid)
    requires a < b < d < 4 && w > 0
    ensures var vcs := Bares(w, a, b, d);
            && ViewchangeSet(Four, w, vcs) && vcs.Keys == {a, b, d} && MaxBase(vcs, 4) == 0
            && (forall s: nat :: !Certifies(vcs, s) && PicksLatest(vcs, s))
  {
    var vcs := Bares(w, a, b, d);
    forall u | u in vcs ensures vcs[u].sender == u && WellFormedViewchange(Four, vcs[u]) && vcs[u].msg == Bare(w) {
      BareIsValid(u, w, 0);
    }
    hide WellFormedViewchange;
    MaxBaseSpec(vcs, 4);
    forall s: nat ensures !Certifies(vcs, s) && PicksLatest(vcs, s) { NoneCertified(vcs, s); }
  }

  lemma NoneCertified(vcs: map<Uuid, Envelope>, s: nat)
    requires forall u | u in vcs :: vcs[u].msg.ViewChange? && vcs[u].msg.proofs == []
    ensures !Certifies(vcs, s) && PicksLatest(vcs, s)
  {
  }

  lemma EmptyNewviewIsValid(w: nat, a: Uuid, b: Uuid, d: Uuid, view: nat)
    requires a < b < d < 4 && view < w
    ensures var e := EmptyNewview(w, a, b, d); var vcs := Bares(w, a, b, d);
            && ValidNewview(Four, view, e) && e.msg == BuildNewview(Four, w % 4, w, vcs)
              && NewPrePrepares(Four, w, vcs) == []
            && BySender(e.msg.viewchanges) == vcs
  {
    var vcs := Bares(w, a, b, d);
    BaresAreASet(w, a, b, d);
    ThreeInOrder(vcs, a, b, d);
    NothingToPropose(w, vcs);
    hide NewPrePrepares, ViewchangeSet, Certifies, PicksLatest, MaxBase, InOrder;
    assert BuildNewview(Four, w % 4, w, vcs) == EmptyNewview(w, a, b, d).msg;
    NewviewMadeIsValid(Four, w, vcs, view);
    ReadBack(Four, w, vcs);
  }

  /** Whoever is in a lower view enters by it, in breach of the first condition at most. */
  lemma EnterByEmpty(sc: Scene, r: Uuid, w: nat, a: Uuid, b: Uuid, d: Uuid)
    requires Seen(sc) && r in sc.m && EmptyNewview(w, a, b, d) in sc.sent && a < b < d < 4 && sc.m[r].view < w
    requires sc.kept.disciplined ==> sc.m[r].lastViewSent <= w
    ensures Seen(sc.(m := sc.m[r := Entered(sc.m[r], w)]))
  {
    var e := EmptyNewview(w, a, b, d);
    BaresAreASet(w, a, b, d);
    EmptyNewviewIsValid(w, a, b, d, sc.m[r].view);
    assert EntryKept(sc, r, e) by { hide PicksLatest, MaxBase, BySender; }
    hide Seen, ValidNewview, EntryKept, PicksLatest, MaxBase, BySender, BuildNewview, NewPrePrepares, ViewchangeSet,
         Certifies;
    EntersEmpty(sc, r, e);
    Cut(sc.Put(r, Entered(sc.m[r], w), {}), sc.m[r := Entered(sc.m[r], w)], sc.sent);
  }

  // ---- Views with one sequence certified ----

  /** The viewchange says nothing, or shows one certificate, for sequence 1. */
  predicate Slight(vc: Msg)
  {
    vc.ViewChange? && vc.base == 0 && vc.checkpoints == []
      && (vc.proofs == [] || (|vc.proofs| == 1 && Certificate(vc.proofs[0], 1)))
  }

  /** Viewchanges of three peers for w, u the first with a certificate. */
  ghost predicate SlightSet(w: nat, vcs: map<Uuid, Envelope>, a: Uuid, b: Uuid, d: Uuid, u: Uuid)
  {
    && a < b < d < 4 && vcs.Keys == {a, b, d} && ViewchangeSet(Four, w, vcs)
      && (forall x | x in vcs :: Slight(vcs[x].msg))
    && u in vcs && vcs[u].msg.proofs != [] && forall x | x in vcs && x < u :: vcs[x].msg.proofs == []
  }

  /** The proposal of the primary of w for what u shows. */
  function Again(w: nat, vcs: map<Uuid, Envelope>, u: Uuid): Envelope
    requires u in vcs && Slight(vcs[u].msg) && vcs[u].msg.proofs != []
  {
    Envelope(w % 4, PrePrepare(w, 1, HashAt(vcs, u, 0)))
  }

  /** The NEWVIEW made from them. */
  function SlightNewview(w: nat, vcs: map<Uuid, Envelope>, a: Uuid, b: Uuid, d: Uuid, u: Uuid): Envelope
    requires vcs.Keys == {a, b, d} && u in vcs && Slight(vcs[u].msg) && vcs[u].msg.proofs != []
  {
    Envelope(w % 4, NewView(w, [vcs[a], vcs[b], vcs[d]], [Again(w, vcs, u)]))
  }

  lemma SlightCertificates(w: nat, vcs: map<Uuid, Envelope>, a: Uuid, b: Uuid, d: Uuid, u: Uuid)
    requires SlightSet(w, vcs, a, b, d, u)
    ensures MaxBase(vcs, 4) == 0 && FirstCertificate(vcs, 1, u, 0) && Certifies(vcs, 1)
    ensures forall s: nat | Certifies(vcs, s) :: s == 1
  {
    hide WellFormedViewchange;
    MaxBaseSpec(vcs, 4);
    assert vcs[u].msg.proofs[0] in vcs[u].msg.proofs;
    assert HasCertificate(vcs[u], 1);
    forall s: nat | Certifies(vcs, s) ensures s == 1 {
      var x :| x in vcs && HasCertificate(vcs[x], s);
      var p :| p in vcs[x].msg.proofs && Certificate(p, s);
      assert p == vcs[x].msg.proofs[0];
    }
  }

  lemma SlightNewviewIsValid(w: nat, vcs: map<Uuid, Envelope>, a: Uuid, b: Uuid, d: Uuid, u: Uuid, view: nat)
    requires SlightSet(w, vcs, a, b, d, u) && view < w
    ensures var e := SlightNewview(w, vcs, a, b, d, u);
            && ValidNewview(Four, view, e) && e.msg == BuildNewview(Four, w % 4, w, vcs)
            && BySender(e.msg.viewchanges) == vcs && StartOf(Four, e.msg) == 0
            && NewPrePrepares(Four, w, vcs) == [Again(w, vcs, u).msg]
  {
    SlightCertificates(w, vcs, a, b, d, u);
    ThreeInOrder(vcs, a, b, d);
    OneToPropose(w, vcs, u, 0);
    hide NewPrePrepares, ViewchangeSet, Certifies, MaxBase, InOrder, FirstCertificate;
    assert BuildNewview(Four, w % 4, w, vcs) == SlightNewview(w, vcs, a, b, d, u).msg;
    NewviewMadeIsValid(Four, w, vcs, view);
    ReadBack(Four, w, vcs);
  }

  /** The state of a replica that entered w with the proposal x. */
  function Renewed(s: State, w: nat, x: Envelope): State
    requires x.msg.PrePrepare?
  {
    Proposed(Entered(s, w), x).(nextIssued := 2)
  }

  lemma EnterBySlight(sc: Scene, r: Uuid, w: nat, vcs: map<Uuid, Envelope>, a: Uuid, b: Uuid, d: Uuid, u: Uuid)
    requires Seen(sc) && r in sc.m && SlightSet(w, vcs, a, b, d, u) && SlightNewview(w, vcs, a, b, d, u) in sc.sent
    requires sc.m[r].view < w && Open(Entered(sc.m[r], w), Again(w, vcs, u).msg)
    requires sc.kept.disciplined ==> sc.m[r].lastViewSent <= w
    requires sc.kept.latest ==> forall s: nat :: PicksLatest(vcs, s)
    ensures var x := Again(w, vcs, u);
            Seen(sc.(m := sc.m[r := Renewed(sc.m[r], w, x)], sent := sc.sent + {Prep(r, x)}))
  {
    var e, x := SlightNewview(w, vcs, a, b, d, u), Again(w, vcs, u);
    assert e.msg.viewchanges[0] == vcs[a] && Slight(vcs[a].msg);
    SlightNewviewIsValid(w, vcs, a, b, d, u, sc.m[r].view);
    hide Seen, ValidNewview, PicksLatest, MaxBase, BySender, BuildNewview, NewPrePrepares, ViewchangeSet, Open,
         Entered, StartOf;
    assert EntryKept(sc, r, e);
    EntersWith(sc, r, e, x);
    OneMessage(sc, r, Renewed(sc.m[r], w, x), Prep(r, x).msg);
  }

  // ---- From view 1 to view 2, by peers 1, 2 and 3 ----

  /** In view 1, with no stable checkpoint, nothing prepared and no viewchange heard or sent. */
  ghost predicate Calm(s: State, u: Uuid)
  {
    && s.id == u && s.view == 1 && s.viewIsValid && s.lastViewSent == 0 && s.viewchanges == map[] && Unstable(s.cps)
    && forall k | k in s.ops :: !s.ops[k].IsPrepared()
  }

  function Asking(s: State, w: nat): State { s.(viewIsValid := false, lastViewSent := w) }

  function V(u: Uuid): Envelope { Envelope(u, Bare(2)) }

  function NV2(): Envelope { EmptyNewview(2, 1, 2, 3) }

  function Heard(s: State, heard: map<Uuid, Envelope>): State { s.(viewchanges := map[2 := heard]) }

  lemma Hearing(s: State, heard: map<Uuid, Envelope>, u: Uuid)
    requires u !in heard
    ensures Noted(Heard(s, heard), V(u)) == Heard(s, heard[u := V(u)])
    ensures s.viewchanges == map[] && heard == map[] ==> Noted(s, V(u)) == Heard(s, map[u := V(u)])
  {
    assert RecordClaims(4, s.cps, []) == s.cps;
    assert Noted(Heard(s, heard), V(u)).viewchanges == map[2 := heard[u := V(u)]];
  }

  lemma OnlyTwo(s: State, heard: map<Uuid, Envelope>)
    requires s.id == 2 && s.view == 1
    ensures Candidates(Four, Heard(s, heard)) == if |heard| == 3 then {2} else {}
  {
  }

  /** Peer 1 fails, peer 3 sends its viewchange, peer 2 hears both and joins. */
  lemma AskForTwo(sc: Scene)
    requires Seen(sc) && sc.m.Keys == {0, 1, 2} && Calm(sc.m[1], 1) && Calm(sc.m[2], 2)
    ensures Seen(sc.(m := sc.m[1 := Asking(sc.m[1], 2)][2 := Heard(Asking(sc.m[2], 2), map[1 := V(1), 3 := V(3)])],
                     sent := sc.sent + {V(1), V(2), V(3)}))
  {
    var s1, s2 := sc.m[1], sc.m[2];
    BareIsMade(s1, 2);
    hide Seen, ViewchangeFrom;
    Fails(sc, 1, Bare(2));
    OneMessage(sc, 1, Asking(s1, 2), Bare(2));
    var sc1 := sc.Put(1, Asking(s1, 2), {Bare(2)});
    Flat(sc1.sent, Bare(2));
    Injects(sc1, V(3));
    var sc2 := sc1.(sent := sc1.sent + {V(3)});
    JoinTwo(sc2);
    var m := sc.m[1 := Asking(s1, 2)][2 := Heard(Asking(s2, 2), map[1 := V(1), 3 := V(3)])];
    Cut(sc2.(m := sc2.m[2 := Heard(Asking(s2, 2), map[1 := V(1), 3 := V(3)])], sent := sc2.sent + {V(2)}),
        m, sc.sent + {V(1), V(2), V(3)});
  }

  lemma HearFirst(sc: Scene)
    requires Seen(sc) && 2 in sc.m && Calm(sc.m[2], 2) && V(1) in sc.sent
    ensures Seen(sc.(m := sc.m[2 := Heard(sc.m[2], map[1 := V(1)])]))
  {
    var s2 := sc.m[2];
    BareIsValid(1, 2, 1);
    Hearing(s2, map[], 1);
    OnlyTwo(s2, map[1 := V(1)]);
    assert |map[1 := V(1)]| == 1;
    hide Seen, ValidViewchange, Candidates, Noted;
    HearsQuietly(sc, 2, V(1));
    Cut(sc.Put(2, Heard(s2, map[1 := V(1)]), {}), sc.m[2 := Heard(s2, map[1 := V(1)])], sc.sent);
  }

  lemma HearSecond(sc: Scene, s2: State)
    requires Seen(sc) && 2 in sc.m && Calm(s2, 2) && sc.m[2] == Heard(s2, map[1 := V(1)]) && V(3) in sc.sent
    ensures Seen(sc.(m := sc.m[2 := Heard(Asking(s2, 2), map[1 := V(1), 3 := V(3)])], sent := sc.sent + {V(2)}))
  {
    hide Seen, ViewchangeFrom, ValidViewchange, Candidates, Noted, JoinsViewchange, Calm;
    BareIsValid(3, 2, 1);
    SecondHeard(s2);
    var two := Heard(s2, map[1 := V(1), 3 := V(3)]);
    HearsAndJoins(sc, 2, V(3), Bare(2));
    OneMessage(sc, 2, Asking(two, 2), Bare(2));
    assert Asking(two, 2) == Heard(Asking(s2, 2), map[1 := V(1), 3 := V(3)]);
  }

  lemma SecondHeard(s2: State)
    requires Calm(s2, 2)
    ensures var two := Heard(s2, map[1 := V(1), 3 := V(3)]);
            && Noted(Heard(s2, map[1 := V(1)]), V(3)) == two && two.view == 1 && Candidates(Four, Asking(two, 2)) == {}
            && JoinsViewchange(Four, two, 2) && ViewchangeFrom(two.cps, two.ops, 2, Bare(2))
  {
    Hearing(s2, map[1 := V(1)], 3);
    assert map[1 := V(1)][3 := V(3)] == map[1 := V(1), 3 := V(3)];
    OnlyTwo(Asking(s2, 2), map[1 := V(1), 3 := V(3)]);
    assert |map[1 := V(1), 3 := V(3)]| == 2;
    BareIsMade(Heard(s2, map[1 := V(1), 3 := V(3)]), 2);
    hide ViewchangeFrom, Noted;
    assert Asking(Heard(s2, map[1 := V(1), 3 := V(3)]), 2) == Heard(Asking(s2, 2), map[1 := V(1), 3 := V(3)]);
  }

  lemma JoinTwo(sc: Scene)
    requires Seen(sc) && 2 in sc.m && Calm(sc.m[2], 2) && V(1) in sc.sent && V(3) in sc.sent
    ensures Seen(sc.(m := sc.m[2 := Heard(Asking(sc.m[2], 2), map[1 := V(1), 3 := V(3)])], sent := sc.sent + {V(2)}))
  {
    hide Seen, Calm;
    HearFirst(sc);
    var sc1 := sc.(m := sc.m[2 := Heard(sc.m[2], map[1 := V(1)])]);
    HearSecond(sc1, sc.m[2]);
    var st := Heard(Asking(sc.m[2], 2), map[1 := V(1), 3 := V(3)]);
    Cut(sc1.(m := sc1.m[2 := st], sent := sc1.sent + {V(2)}), sc.m[2 := st], sc.sent + {V(2)});
  }

  /** Peer 2 hears itself and announces view 2. */
  lemma AnnounceTwo(sc: Scene, s2: State)
    requires Seen(sc) && 2 in sc.m && s2.id == 2 && s2.view == 1 && !s2.viewIsValid
    requires sc.m[2] == Heard(s2, map[1 := V(1), 3 := V(3)]) && V(2) in sc.sent
    ensures Seen(sc.(m := sc.m[2 := Heard(s2, Bares(2, 1, 2, 3))], sent := sc.sent + {NV2()}))
  {
    hide Seen, ValidViewchange, Candidates, Noted, JoinsViewchange, ViewchangesFor, BuildNewview, NewPrePrepares,
         ValidNewview, BySender, Bares;
    LastHeard(s2);
    BareIsValid(2, 2, 1);
    EmptyNewviewIsValid(2, 1, 2, 3, 1);
    var st, vcs := Heard(s2, Bares(2, 1, 2, 3)), Bares(2, 1, 2, 3);
    HearsAndAnnounces(sc, 2, V(2), 2);
    assert {NV2().msg} + (set m | m in NewPrePrepares(Four, 2, vcs)) == {NV2().msg};
    OneMessage(sc, 2, st, NV2().msg);
  }

  lemma LastHeard(s2: State)
    requires s2.id == 2 && s2.view == 1 && !s2.viewIsValid
    ensures var st := Heard(s2, Bares(2, 1, 2, 3));
            && Noted(Heard(s2, map[1 := V(1), 3 := V(3)]), V(2)) == st && ViewchangesFor(st, 2) == Bares(2, 1, 2, 3)
            && Candidates(Four, st) == {2} && !JoinsViewchange(Four, st, 2)
  {
    Hearing(s2, map[1 := V(1), 3 := V(3)], 2);
    assert map[1 := V(1), 3 := V(3)][2 := V(2)] == Bares(2, 1, 2, 3);
    ThreeInOrder(Bares(2, 1, 2, 3), 1, 2, 3);
    OnlyTwo(s2, Bares(2, 1, 2, 3));
    hide InOrder, Noted;
  }

  /** Replica s2 has heard the three viewchanges and announced view 2. */
  function Opened(s2: State): State { Heard(Asking(s2, 2), Bares(2, 1, 2, 3)) }

  /** Both: view 2 is announced, nobody has entered it yet. */
  lemma OpenTwo(sc: Scene)
    requires Seen(sc) && sc.m.Keys == {0, 1, 2} && Calm(sc.m[1], 1) && Calm(sc.m[2], 2)
    ensures Seen(sc.(m := sc.m[1 := Asking(sc.m[1], 2)][2 := Opened(sc.m[2])],
                     sent := sc.sent + {V(1), V(2), V(3), NV2()}))
  {
    hide Seen;
    AskForTwo(sc);
    var sc1 := sc.(m := sc.m[1 := Asking(sc.m[1], 2)][2 := Heard(Asking(sc.m[2], 2), map[1 := V(1), 3 := V(3)])],
                   sent := sc.sent + {V(1), V(2), V(3)});
    AnnounceTwo(sc1, Asking(sc.m[2], 2));
    var m := sc.m[1 := Asking(sc.m[1], 2)][2 := Opened(sc.m[2])];
    Cut(sc1.(m := sc1.m[2 := Opened(sc.m[2])], sent := sc1.sent + {NV2()}), m, sc.sent + {V(1), V(2), V(3), NV2()});
  }

  /** Peers 1 and 2 enter view 2. */
  lemma EnterTwo(sc: Scene)
    requires Seen(sc) && sc.m.Keys == {0, 1, 2} && Calm(sc.m[1], 1) && Calm(sc.m[2], 2)
    ensures Seen(sc.(m := sc.m[1 := Entered(Asking(sc.m[1], 2), 2)][2 := Entered(Opened(sc.m[2]), 2)],
                     sent := sc.sent + {V(1), V(2), V(3), NV2()}))
  {
    hide Seen;
    OpenTwo(sc);
    var s1, s2 := Asking(sc.m[1], 2), Opened(sc.m[2]);
    var sc1 := sc.(m := sc.m[1 := s1][2 := s2], sent := sc.sent + {V(1), V(2), V(3), NV2()});
    EnterByEmpty(sc1, 1, 2, 1, 2, 3);
    var sc2 := sc1.(m := sc1.m[1 := Entered(s1, 2)]);
    EnterByEmpty(sc2, 2, 2, 1, 2, 3);
    Cut(sc2.(m := sc2.m[2 := Entered(s2, 2)]), sc.m[1 := Entered(s1, 2)][2 := Entered(s2, 2)], sc1.sent);
  }

  // ---- Peer 1 asks for view 3, and peer 0 joins from view 1 ----

  ghost predicate Waiting(s: State)
  {
    s.id == 0 && s.view == 1 && s.viewIsValid && s.lastViewSent == 0 && s.viewchanges == map[]
  }

  function W3(): Envelope { Envelope(3, Bare(3)) }

  function Heard3(s: State, heard: map<Uuid, Envelope>): State { s.(viewchanges := map[3 := heard]) }

  lemma Hearing3(s: State, heard: map<Uuid, Envelope>, e: Envelope)
    requires e.msg.ViewChange? && e.msg.view == 3 && e.msg.checkpoints == [] && e.sender !in heard
    ensures Noted(Heard3(s, heard), e) == Heard3(s, heard[e.sender := e])
    ensures s.viewchanges == map[] && heard == map[] ==> Noted(s, e) == Heard3(s, map[e.sender := e])
    ensures s.id == 0 ==> Candidates(Four, Heard3(s, heard)) == {}
  {
    assert RecordClaims(4, s.cps, []) == s.cps;
    assert Noted(Heard3(s, heard), e).viewchanges == map[3 := heard[e.sender := e]];
  }

  lemma HearFirst3(sc: Scene)
    requires Seen(sc) && 0 in sc.m && Waiting(sc.m[0]) && W3() in sc.sent
    ensures Seen(sc.(m := sc.m[0 := Heard3(sc.m[0], map[3 := W3()])]))
  {
    var s0 := sc.m[0];
    BareIsValid(3, 3, 1);
    Hearing3(s0, map[], W3());
    Hearing3(s0, map[3 := W3()], Envelope(0, Bare(3)));
    assert |map[3 := W3()]| == 1;
    hide Seen, ValidViewchange, Candidates, Noted;
    HearsQuietly(sc, 0, W3());
    Cut(sc.Put(0, Heard3(s0, map[3 := W3()]), {}), sc.m[0 := Heard3(s0, map[3 := W3()])], sc.sent);
  }

  /** Peer 0 once it has joined. */
  function Joined3(s0: State, e: Envelope): State { Heard3(Asking(s0, 3), map[3 := W3(), 1 := e]) }

  lemma SecondHeard3(s0: State, e: Envelope)
    requires Waiting(s0) && e.sender == 1 && e.msg.ViewChange? && e.msg.view == 3 && e.msg.checkpoints == []
    ensures var two := Heard3(s0, map[3 := W3(), 1 := e]);
            && Noted(Heard3(s0, map[3 := W3()]), e) == two && Asking(two, 3) == Joined3(s0, e)
            && JoinsViewchange(Four, two, 3) && Candidates(Four, Asking(two, 3)) == {}
  {
    Hearing3(s0, map[3 := W3()], e);
    assert map[3 := W3()][1 := e] == map[3 := W3(), 1 := e];
    assert |map[3 := W3(), 1 := e]| == 2;
    Hearing3(Asking(s0, 3), map[3 := W3(), 1 := e], Envelope(0, Bare(3)));
    hide Noted;
  }

  lemma HearSecond3(sc: Scene, s0: State, e: Envelope, vc0: Msg)
    requires Seen(sc) && 0 in sc.m && Waiting(s0) && sc.m[0] == Heard3(s0, map[3 := W3()]) && e in sc.sent
    requires e.sender == 1 && e.msg.ViewChange? && e.msg.view == 3 && e.msg.checkpoints == []
    requires ViewchangeFrom(s0.cps, s0.ops, 3, vc0)
    ensures Seen(sc.(m := sc.m[0 := Joined3(s0, e)], sent := sc.sent + {Envelope(0, vc0)}))
  {
    SentIsGood(sc, e);
    hide Seen, ViewchangeFrom, WellFormedViewchange, Candidates, Noted, JoinsViewchange;
    SecondHeard3(s0, e);
    HearsAndJoins(sc, 0, e, vc0);
    OneMessage(sc, 0, Joined3(s0, e), vc0);
  }

  lemma AskForThree(sc: Scene, vc1: Msg, vc0: Msg)
    requires Seen(sc) && sc.m.Keys == {0, 1, 2} && Waiting(sc.m[0]) && sc.m[1].view == 2 && sc.m[1].lastViewSent == 2
    requires vc1.ViewChange? && vc1.checkpoints == [] && ViewchangeFrom(sc.m[1].cps, sc.m[1].ops, 3, vc1)
    requires ViewchangeFrom(sc.m[0].cps, sc.m[0].ops, 3, vc0)
    ensures Seen(sc.(m := sc.m[0 := Joined3(sc.m[0], Envelope(1, vc1))][1 := Asking(sc.m[1], 3)],
                     sent := sc.sent + {Envelope(0, vc0), Envelope(1, vc1), W3()}))
  {
    assert vc1.view == 3;
    hide Seen, ViewchangeFrom, Waiting, Joined3, Heard3, Asking, W3;
    var s0, t1, e := sc.m[0], Asking(sc.m[1], 3), Envelope(1, vc1);
    AskedForThree(sc, vc1);
    var sc2 := sc.(m := sc.m[1 := t1], sent := sc.sent + {e, W3()});
    HearFirst3(sc2);
    var sc3 := sc2.(m := sc2.m[0 := Heard3(s0, map[3 := W3()])]);
    HearSecond3(sc3, s0, e, vc0);
    PutTwice(sc.m, 1, t1, 0, Heard3(s0, map[3 := W3()]), Joined3(s0, e));
    Cut(sc3.(m := sc3.m[0 := Joined3(s0, e)], sent := sc3.sent + {Envelope(0, vc0)}),
        sc.m[0 := Joined3(s0, e)][1 := t1], sc.sent + {Envelope(0, vc0), e, W3()});
  }

  lemma PutTwice(m: map<Uuid, State>, a: Uuid, x: State, b: Uuid, y: State, z: State)
    requires a != b
    ensures m[a := x][b := y][b := z] == m[b := z][a := x]
  {
  }

  lemma AskedForThree(sc: Scene, vc1: Msg)
    requires Seen(sc) && 1 in sc.m && sc.m[1].view == 2 && sc.m[1].lastViewSent == 2
    requires ViewchangeFrom(sc.m[1].cps, sc.m[1].ops, 3, vc1)
    ensures Seen(sc.(m := sc.m[1 := Asking(sc.m[1], 3)], sent := sc.sent + {Envelope(1, vc1), W3()}))
  {
    hide Seen, ViewchangeFrom;
    Fails(sc, 1, vc1);
    OneMessage(sc, 1, Asking(sc.m[1], 3), vc1);
    var sc1 := sc.(m := sc.m[1 := Asking(sc.m[1], 3)], sent := sc.sent + {Envelope(1, vc1)});
    Flat(sc1.sent, Bare(3));
    hide Authentic;
    Injects(sc1, W3());
    assert sc1.sent + {W3()} == sc.sent + {Envelope(1, vc1), W3()};
  }
}
