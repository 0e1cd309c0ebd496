/** Agreement across views. The code re-proposes the first certificate it meets, not the latest,
    lets a replica accept a NEWVIEW for a view below one it has already asked for, and does not
    compare a pre-prepare with the base of its view; so agreement across views is proved for the
    runs in which none of the three does harm. */
module Agreement {
  import opened Quorum
  import opened Messages
  import opened Operations
  import opened Checkpoints
  import opened ViewChange
  import opened Replica
  import opened Protocol
  import opened MakerChecker
  import opened NewviewContent
  import opened Invariants
  import opened Views
  import opened Runs

  /** No replica accepts a NEWVIEW for a view below the last one it has sent a VIEWCHANGE for. */
  ghost predicate Disciplined(c: Config, states: seq<System>, steps: seq<Step>)
    requires c.HasPeers() && IsRun(c, states, steps)
  {
    forall i, r | 0 <= i < |steps| && Accepts(c, states[i], steps[i], r) ::
      steps[i].e.msg.view >= states[i].replicas[r].lastViewSent
  }

  /** The certificate that a NEWVIEW re-proposes for s is from the latest view among those it carries. */
  ghost predicate PicksLatest(vcs: map<Uuid, Envelope>, s: nat)
  {
    forall u: Uuid, i: nat | FirstCertificate(vcs, s, u, i) ::
      forall x, p | x in vcs && vcs[x].msg.ViewChange? && p in vcs[x].msg.proofs && Certificate(p, s) ::
        ProofKey(p).view <= ProofKey(vcs[u].msg.proofs[i]).view
  }

  /** The sequence a NEWVIEW starts above. */
  ghost function StartOf(c: Config, nv: Msg): nat
    requires nv.NewView?
  {
    MaxBase(BySender(nv.viewchanges), c.n)
  }

  /** Every accepted NEWVIEW that starts below s picks the latest certificate for it. */
  ghost predicate AllLatest(c: Config, states: seq<System>, steps: seq<Step>, s: nat)
    requires c.HasPeers() && IsRun(c, states, steps)
  {
    forall i, r | 0 <= i < |steps| && Accepts(c, states[i], steps[i], r) && StartOf(c, steps[i].e.msg) < s ::
      PicksLatest(BySender(steps[i].e.msg.viewchanges), s)
  }

  /** The comparison the code lacks: a replica that entered a view by a NEWVIEW takes a pre-prepare
      in that view only above the sequence the NEWVIEW starts above. */
  ghost predicate Guarded(c: Config, states: seq<System>, steps: seq<Step>)
    requires c.HasPeers() && IsRun(c, states, steps)
  {
    forall i, j, r | 0 <= i < j < |steps| && Accepts(c, states[i], steps[i], r) && Hears(states[j], steps[j], r)
                     && steps[j].e.msg.view == steps[i].e.msg.view ::
      steps[j].e.msg.sequence > StartOf(c, steps[i].e.msg)
  }

  /** Replica r never accepts a pre-prepare for sequence s in view w. */
  ghost predicate Closed(states: seq<System>, r: Uuid, w: nat, s: nat)
  {
    forall i | 0 <= i < |states| && r in states[i].replicas :: (w, s) !in states[i].replicas[r].accepted
  }

  lemma {:induction false} SlotsBelowView(c: Config, states: seq<System>, steps: seq<Step>, i: nat, r: Uuid)
    requires c.HasPeers() && IsRun(c, states, steps) && i < |states| && c.Correct(r)
    ensures r in states[i].replicas && forall slot | slot in states[i].replicas[r].accepted ::
              slot.0 <= states[i].replicas[r].view
  {
    Present(c, states, steps, i, r);
    RunShape(c, states, steps);
    if i > 0 {
      hide IsRun, Accepts, Sends;
      SlotsBelowView(c, states, steps, i - 1, r);
      var eff := StepOf(c, states, steps, i - 1, r);
    }
  }

  /** The slots that a NEWVIEW fills are above its start. */
  lemma EntersAboveStart(c: Config, states: seq<System>, steps: seq<Step>, i: nat, r: Uuid, s: nat)
    requires c.HasPeers() && IsRun(c, states, steps) && i < |steps| && c.Correct(r)
             && Accepts(c, states[i], steps[i], r)
    requires s <= StartOf(c, steps[i].e.msg)
    ensures r in states[i + 1].replicas && (steps[i].e.msg.view, s) !in states[i + 1].replicas[r].accepted
  {
    SlotsBelowView(c, states, steps, i, r);
    EnteredView(c, states, steps, i, r);
    var t, e := states[i].replicas[r], steps[i].e;
    NewviewFacts(c, t.view, e);
    StartsAbove(c, t.view, e);
    hide IsRun, ValidNewview, HandlePreprepares, RecordClaims;
    PrepreparesAccepted(c, EnterView(c, t, e.msg), e.msg.preprepares, steps[i].requests);
  }

  lemma StartsAbove(c: Config, view: nat, e: Envelope)
    requires c.HasPeers() && ValidNewview(c, view, e)
    ensures forall x | x in e.msg.preprepares :: x.msg.PrePrepare? && x.msg.sequence > StartOf(c, e.msg)
  {
    hide ValidViewchange, BySender, MaxBase, Chosen, MaxOf;
    forall x | x in e.msg.preprepares ensures x.msg.PrePrepare? && x.msg.sequence > StartOf(c, e.msg) {
      var i :| 0 <= i < |e.msg.preprepares| && e.msg.preprepares[i] == x;
    }
  }

  lemma {:induction false} StaysOut(c: Config, states: seq<System>, steps: seq<Step>, i: nat, j: nat, r: Uuid, s: nat)
    requires c.HasPeers() && IsRun(c, states, steps) && Guarded(c, states, steps) && i < j < |states| && c.Correct(r)
    requires Accepts(c, states[i], steps[i], r) && s <= StartOf(c, steps[i].e.msg)
    ensures r in states[j].replicas && (steps[i].e.msg.view, s) !in states[j].replicas[r].accepted
    decreases j
  {
    RunShape(c, states, steps);
    hide IsRun, StartOf, Guarded, Accepts;
    if j == i + 1 {
      EntersAboveStart(c, states, steps, i, r, s);
    } else {
      StaysOut(c, states, steps, i, j - 1, r, s);
      NotBelowEntered(c, states, steps, i, j - 1, r);
      StaysOutStep(c, states, steps, i, j - 1, r, s);
    }
  }

  lemma NotBelowEntered(c: Config, states: seq<System>, steps: seq<Step>, i: nat, j: nat, r: Uuid)
    requires c.HasPeers() && IsRun(c, states, steps) && i < j < |states| && c.Correct(r)
             && Accepts(c, states[i], steps[i], r)
    ensures r in states[j].replicas && steps[i].e.msg.view <= states[j].replicas[r].view
  {
    hide Accepts, Sends, AcceptRules;
    var eff := StepOf(c, states, steps, i, r);
    ViewsGrow(c, states, steps, i + 1, j, r);
  }

  lemma StaysOutStep(c: Config, states: seq<System>, steps: seq<Step>, i: nat, j: nat, r: Uuid, s: nat)
    requires c.HasPeers() && IsRun(c, states, steps) && Guarded(c, states, steps) && i < j < |steps| && c.Correct(r)
    requires Accepts(c, states[i], steps[i], r) && s <= StartOf(c, steps[i].e.msg)
    requires r in states[j].replicas && steps[i].e.msg.view <= states[j].replicas[r].view
    requires (steps[i].e.msg.view, s) !in states[j].replicas[r].accepted
    ensures r in states[j + 1].replicas && (steps[i].e.msg.view, s) !in states[j + 1].replicas[r].accepted
  {
    RunShape(c, states, steps);
    var slot := (steps[i].e.msg.view, s);
    hide IsRun, StartOf, Accepts, Sends;
    if Accepts(c, states[j], steps[j], r) {
      hide Guarded;
      var eff := StepOf(c, states, steps, j, r);
    } else {
      NewSlot(c, states, steps, j, r, slot);
    }
  }

  /** With the comparison, a view that starts at or above s stays closed for s. */
  lemma GuardedIsClosed(c: Config, states: seq<System>, steps: seq<Step>, i: nat, r: Uuid, s: nat)
    requires c.HasPeers() && IsRun(c, states, steps) && Guarded(c, states, steps) && i < |steps| && c.Correct(r)
    requires Accepts(c, states[i], steps[i], r) && s <= StartOf(c, steps[i].e.msg)
    ensures Closed(states, r, steps[i].e.msg.view, s)
  {
    var w := steps[i].e.msg.view;
    var eff := StepOf(c, states, steps, i, r);
    hide IsRun, StartOf, Accepts, Guarded, Sends;
    forall j | 0 <= j < |states| && r in states[j].replicas ensures (w, s) !in states[j].replicas[r].accepted {
      if j <= i {
        ViewsGrow(c, states, steps, j, i, r);
        SlotsBelowView(c, states, steps, j, r);
      } else {
        StaysOut(c, states, steps, i, j, r, s);
      }
    }
  }

  ghost predicate WellBehaved(c: Config, states: seq<System>, steps: seq<Step>, s: nat)
    requires c.HasPeers() && IsRun(c, states, steps)
  {
    Disciplined(c, states, steps) && AllLatest(c, states, steps, s) && Guarded(c, states, steps)
  }

  // ---- a disciplined replica commits before it asks for a later view ----

  /** Whatever a replica ever commits to, its VIEWCHANGEs for later views cover. */
  ghost predicate CoversCommits(sent: set<Envelope>, s: State)
  {
    && (s.viewIsValid ==> s.view >= s.lastViewSent)
    && forall e, k: OpKey | e in sent && e.sender == s.id && e.msg.ViewChange?
                            && Envelope(s.id, k.CommitMsg()) in sent && k.view < e.msg.view :: Covers(e.msg, k)
  }

  lemma {:induction false} CommitsCovered(c: Config, states: seq<System>, steps: seq<Step>, i: nat, r: Uuid)
    requires c.HasPeers() && IsRun(c, states, steps) && Disciplined(c, states, steps) && i < |states| && c.Correct(r)
    ensures r in states[i].replicas && CoversCommits(states[i].sent, states[i].replicas[r])
  {
    if i == 0 {
      Present(c, states, steps, i, r);
    } else {
      RunShape(c, states, steps);
      hide IsRun, Disciplined, CoversCommits;
      CommitsCovered(c, states, steps, i - 1, r);
      CoveredStep(c, states, steps, i - 1, r);
    }
  }

  lemma CoveredStep(c: Config, states: seq<System>, steps: seq<Step>, i: nat, r: Uuid)
    requires c.HasPeers() && IsRun(c, states, steps) && Disciplined(c, states, steps) && i < |steps| && c.Correct(r)
    requires r in states[i].replicas && CoversCommits(states[i].sent, states[i].replicas[r])
    ensures r in states[i + 1].replicas && CoversCommits(states[i + 1].sent, states[i + 1].replicas[r])
  {
    var eff := StepOf(c, states, steps, i, r);
    var s, s' := states[i].replicas[r], states[i + 1].replicas[r];
    Present(c, states, steps, i, r);
    Present(c, states, steps, i + 1, r);
    assert ViewchangesOk(c, states[i].sent, s);
    assert Accepts(c, states[i], steps[i], r) ==> s'.view >= s.lastViewSent;
    hide Local, Disciplined, IsRun, Accepts, WellFormedViewchange, Covers, Sends;
    forall e, k: OpKey | e in states[i + 1].sent && e.sender == r && e.msg.ViewChange?
                         && Envelope(r, k.CommitMsg()) in states[i + 1].sent && k.view < e.msg.view
      ensures Covers(e.msg, k)
    {
      assert e == Envelope(r, e.msg);
      if Envelope(r, k.CommitMsg()) !in states[i].sent {
        // a commit sent now is for the current view, which no VIEWCHANGE sent so far exceeds
        assert false;
      } else if e !in states[i].sent {
        ViewchangesComplete(c, states, steps, i, r, e.msg, k);
      }
    }
  }

  // ---- a NEWVIEW keeps what was committed ----

  /** The viewchanges inside a valid, authentic NEWVIEW. */
  lemma NewviewSet(c: Config, sent: set<Envelope>, view: nat, e: Envelope)
    requires c.HasPeers() && ValidNewview(c, view, e) && Authentic(c, sent, e)
    ensures var vcs := BySender(e.msg.viewchanges);
            && ViewchangeSet(c, e.msg.view, vcs) && |vcs| >= HonestMajority(c.n) && vcs.Keys <= Peers(c.n)
            && forall u | u in vcs :: Authentic(c, sent, vcs[u])
  {
    var es := e.msg.viewchanges;
    assert forall x | x in es :: WellFormedViewchange(c, x) && x.msg.view == e.msg.view && Authentic(c, sent, x);
    assert |es| >= HonestMajority(c.n) && forall i, j | 0 <= i < j < |es| :: es[i].sender != es[j].sender;
    hide ValidNewview, Authentic;
    ViewchangeList(c, sent, e.msg.view, es);
  }

  lemma ViewchangeList(c: Config, sent: set<Envelope>, w: nat, es: seq<Envelope>)
    requires c.HasPeers() && forall x | x in es ::
               WellFormedViewchange(c, x) && x.msg.view == w && Authentic(c, sent, x)
    requires forall i, j | 0 <= i < j < |es| :: es[i].sender != es[j].sender
    ensures var vcs := BySender(es);
            && ViewchangeSet(c, w, vcs) && |vcs| == |es| && vcs.Keys <= Peers(c.n)
            && forall u | u in vcs :: Authentic(c, sent, vcs[u])
  {
    BySenderSpec(es);
    BySenderSize(es);
    hide BySender, Authentic;
    forall u | u in BySender(es) ensures c.IsPeer(u) {
      assert WellFormedViewchange(c, BySender(es)[u]);
    }
  }

  lemma {:induction false} BySenderSpec(es: seq<Envelope>)
    ensures forall u | u in BySender(es) :: BySender(es)[u] in es && BySender(es)[u].sender == u
    ensures forall e | e in es :: e.sender in BySender(es)
  {
    if es != [] {
      BySenderSpec(es[..|es| - 1]);
      assert es == es[..|es| - 1] + [es[|es| - 1]];
    }
  }

  lemma {:induction false} BySenderSize(es: seq<Envelope>)
    requires forall i, j | 0 <= i < j < |es| :: es[i].sender != es[j].sender
    ensures |BySender(es)| == |es|
  {
    if es != [] {
      var init := es[..|es| - 1];
      BySenderSize(init);
      BySenderSpec(init);
      assert es[|es| - 1].sender !in BySender(init);
    }
  }

  /** A certificate in an authentic viewchange stands for 2f+1 prepares. */
  lemma CertificateHolds(c: Config, sent: set<Envelope>, e: Envelope, p: Proof)
    requires c.HasPeers() && WellFormedViewchange(c, e) && Authentic(c, sent, e) && p in e.msg.proofs
    ensures p.prePrepare.msg.PrePrepare? && Certified(c, sent, ProofKey(p).PrepareMsg())
  {
    assert ValidProof(c, e.msg.base, p);
    forall u | u in ProofSenders(p)
      ensures u < c.n && (c.Correct(u) ==> Envelope(u, ProofKey(p).PrepareMsg()) in sent)
    {
      var x :| x in p.prepares && x.sender == u;
      assert x == Envelope(u, ProofKey(p).PrepareMsg()) && Authentic(c, sent, x);
    }
    VotesCertify(c, sent, ProofKey(p).PrepareMsg(), ProofSenders(p));
  }

  /** A correct replica that committed to k and is heard in the viewchange set. */
  lemma CommitterHeard(c: Config, sent: set<Envelope>, k: OpKey, vcs: map<Uuid, Envelope>) returns (u: Uuid)
    requires c.Tolerable() && Certified(c, sent, k.CommitMsg())
    requires vcs.Keys <= Peers(c.n) && |vcs| >= HonestMajority(c.n)
    ensures c.Correct(u) && u in vcs && Envelope(u, k.CommitMsg()) in sent
  {
    CorrectPart(c.n, vcs.Keys, c.faulty);
    u := CorrectVotersMeet(c.n, vcs.Keys - c.faulty, Voters(c, sent, k.CommitMsg()), c.faulty);
  }

  /** The pre-prepare for a committed sequence stems from a certificate at least as late as the commit. */
  lemma ReproposedFrom(c: Config, sent: set<Envelope>, k: OpKey, w: nat, vcs: map<Uuid, Envelope>, u: Uuid)
    returns (m: Msg, p: Proof, x: Uuid)
    requires c.HasPeers() && ViewchangeSet(c, w, vcs) && MaxBase(vcs, c.n) < k.sequence && PicksLatest(vcs, k.sequence)
    requires u in vcs && Covers(vcs[u].msg, k)
    ensures m in NewPrePrepares(c, w, vcs) && m.PrePrepare? && m.view == w && m.sequence == k.sequence
    ensures x in vcs && p in vcs[x].msg.proofs && Certificate(p, k.sequence)
    ensures ProofKey(p) == OpKey(ProofKey(p).view, k.sequence, m.hash) && ProofKey(p).view >= k.view
  {
    BaseSpec(c, w, vcs);
    assert vcs[u].msg.base < k.sequence;
    var q :| q in vcs[u].msg.proofs && Certificate(q, k.sequence) && ProofKey(q).view >= k.view;
    assert HasCertificate(vcs[u], k.sequence) && Certifies(vcs, k.sequence);
    m := SlotOf(c, w, vcs, k.sequence);
    hide NewPrePrepares, MaxBase, ViewchangeSet;
    var i: nat;
    x, i :| FirstCertificate(vcs, k.sequence, x, i) && HashAt(vcs, x, i) == m.hash;
    p := vcs[x].msg.proofs[i];
  }

  /** Whatever a correct replica has sent it sent at some step. */
  lemma {:induction false} SentAt(c: Config, states: seq<System>, steps: seq<Step>, j: nat, u: Uuid, m: Msg)
    returns (i: nat)
    requires c.HasPeers() && IsRun(c, states, steps) && j < |states| && c.Correct(u) && Envelope(u, m) in states[j].sent
    ensures i < j && i < |steps| && m in Sends(c, states[i], steps[i], u)
  {
    if j == 0 {
      assert false;
    } else {
      i := j - 1;
      if Envelope(u, m) in states[i].sent {
        i := SentAt(c, states, steps, i, u, m);
      } else {
        SentInStep(c, states, steps, i, u, m);
      }
    }
  }

  lemma SentInStep(c: Config, states: seq<System>, steps: seq<Step>, i: nat, u: Uuid, m: Msg)
    requires c.HasPeers() && IsRun(c, states, steps) && i < |steps| && c.Correct(u)
    requires Envelope(u, m) in states[i + 1].sent && Envelope(u, m) !in states[i].sent
    ensures m in Sends(c, states[i], steps[i], u)
  {
    assert Takes(c, states, steps, i);
    Present(c, states, steps, i, u);
    hide IsRun, Enabled, Apply, Local, Sends;
    SentNow(c, states[i], steps[i], u, m);
  }

  lemma SentNow(c: Config, y: System, step: Step, u: Uuid, m: Msg)
    requires c.HasPeers() && Enabled(c, y, step) && c.Correct(u) && u in y.replicas
    requires Envelope(u, m) in Apply(c, y, step).sent && Envelope(u, m) !in y.sent
    ensures m in Sends(c, y, step, u)
  {
    hide EffectOf, GoodChoice, Authentic, ViewchangeFrom;
  }

  /** When replica u sent the viewchange vc it had already committed to k. */
  ghost predicate CommittedFirst(c: Config, states: seq<System>, steps: seq<Step>, u: Uuid, vc: Msg, k: OpKey)
    requires c.HasPeers() && IsRun(c, states, steps)
  {
    forall i | 0 <= i < |steps| && vc in Sends(c, states[i], steps[i], u) ::
        Envelope(u, k.CommitMsg()) in states[i].sent
  }

  /** A NEWVIEW keeps a committed request, seen by itself: if the certificates it carries for the
      sequence are from the view of the commit, and the correct committers it hears committed
      before they sent their VIEWCHANGE, then it starts above the sequence or re-proposes the request. */
  lemma NewviewKeepsCommitted(c: Config, states: seq<System>, steps: seq<Step>, j: nat, k: OpKey, view: nat,
                              e: Envelope)
    requires c.Tolerable() && IsRun(c, states, steps) && j < |states| && Certified(c, states[j].sent, k.CommitMsg())
    requires e in states[j].sent && ValidNewview(c, view, e)
    requires var vcs := BySender(e.msg.viewchanges);
             && OnlyFrom(vcs, k)
             && forall u | u in vcs && c.Correct(u) && Envelope(u, k.CommitMsg()) in states[j].sent ::
                  CommittedFirst(c, states, steps, u, vcs[u].msg, k)
    ensures || StartOf(c, e.msg) >= k.sequence
            || Envelope(e.sender, PrePrepare(e.msg.view, k.sequence, k.hash)) in e.msg.preprepares
  {
    var vcs, y := BySender(e.msg.viewchanges), states[j];
    RunOk(c, states, steps, j);
    assert Authentic(c, y.sent, e);
    NewviewSet(c, y.sent, view, e);
    hide Inv, ValidNewview, BySender, Covers, Certified, IsRun, Sends;
    var u := CommitterHeard(c, y.sent, k, vcs);
    if MaxBase(vcs, c.n) < k.sequence {
      var i := SentAt(c, states, steps, j, u, vcs[u].msg);
      ViewchangesComplete(c, states, steps, i, u, vcs[u].msg, k);
      hide Authentic;
      CoveredIsKept(c, y, k, view, e, u);
    }
  }

  /** Every certificate for k's sequence is from k's view. */
  ghost predicate OnlyFrom(vcs: map<Uuid, Envelope>, k: OpKey)
  {
    forall x, p | x in vcs && vcs[x].msg.ViewChange? && p in vcs[x].msg.proofs && Certificate(p, k.sequence) ::
        ProofKey(p).view == k.view
  }

  lemma CoveredIsKept(c: Config, y: System, k: OpKey, view: nat, e: Envelope, u: Uuid)
    requires c.Tolerable() && Inv(c, y) && Certified(c, y.sent, k.CommitMsg()) && e in y.sent
             && ValidNewview(c, view, e)
    requires var vcs := BySender(e.msg.viewchanges);
             u in vcs && vcs[u].msg.ViewChange? && Covers(vcs[u].msg, k) && MaxBase(vcs, c.n) < k.sequence
               && OnlyFrom(vcs, k)
    ensures Envelope(e.sender, PrePrepare(e.msg.view, k.sequence, k.hash)) in e.msg.preprepares
  {
    var vcs := BySender(e.msg.viewchanges);
    assert Authentic(c, y.sent, e);
    NewviewSet(c, y.sent, view, e);
    hide Inv, ValidNewview, Authentic, BySender, Covers;
    SameViewPicksLatest(vcs, k);
    var m, p, x := ReproposedFrom(c, y.sent, k, e.msg.view, vcs, u);
    CertificateHolds(c, y.sent, vcs[x], p);
    CommittedWasPrepared(c, y, k);
    hide Certified, ViewchangeSet;
    PreparedAgree(c, y, ProofKey(p), k);
    InNewview(c, view, e, m);
    assert m == PrePrepare(e.msg.view, k.sequence, k.hash);
  }

  lemma SameViewPicksLatest(vcs: map<Uuid, Envelope>, k: OpKey)
    requires OnlyFrom(vcs, k)
    ensures PicksLatest(vcs, k.sequence)
  {
    forall u: Uuid, i: nat | FirstCertificate(vcs, k.sequence, u, i)
      ensures ProofKey(vcs[u].msg.proofs[i]).view == k.view
    {
      assert vcs[u].msg.proofs[i] in vcs[u].msg.proofs;
    }
  }

  lemma InNewview(c: Config, view: nat, e: Envelope, m: Msg)
    requires c.HasPeers() && ValidNewview(c, view, e) && m in NewPrePrepares(c, e.msg.view, BySender(e.msg.viewchanges))
    ensures Envelope(e.sender, m) in e.msg.preprepares
  {
    var ms := NewPrePrepares(c, e.msg.view, BySender(e.msg.viewchanges));
    var i :| 0 <= i < |ms| && ms[i] == m;
    assert e.msg.preprepares[i] == Envelope(e.sender, m);
  }

  /** A certified commit has a prepare certificate. */
  lemma CommittedWasPrepared(c: Config, y: System, k: OpKey)
    requires c.Tolerable() && Inv(c, y) && Certified(c, y.sent, k.CommitMsg())
    ensures Certified(c, y.sent, k.PrepareMsg())
  {
    var u := CertifiedMeet(c, y.sent, k.CommitMsg(), k.CommitMsg());
    assert CommitsOk(c, y.sent, y.replicas[u]);
  }

  // ---- agreement across views ----

  /** Replica s has accepted nothing but k's request for k's sequence in any view after k's, and
      has done so in its current view if that is later and open for the sequence. */
  ghost predicate Holds(states: seq<System>, s: State, k: OpKey)
  {
    && (forall slot | slot in s.accepted :: slot.0 <= s.view)
    && (forall slot | slot in s.accepted && slot.0 > k.view && slot.1 == k.sequence :: s.accepted[slot] == k.hash)
    && (s.view > k.view ==> (s.view, k.sequence) in s.accepted || Closed(states, s.id, s.view, k.sequence))
  }

  ghost predicate AllHold(states: seq<System>, y: System, k: OpKey)
  {
    forall r | r in y.replicas :: Holds(states, y.replicas[r], k)
  }

  /** k is committed by the end of the run. */
  ghost predicate CommittedInRun(c: Config, states: seq<System>, k: OpKey)
    requires c.HasPeers() && |states| > 0
  {
    Certified(c, states[|states| - 1].sent, k.CommitMsg())
  }

  /** The request that an accepted NEWVIEW for a later view proposes for k's sequence is k's. */
  lemma ReproposesCommitted(c: Config, states: seq<System>, steps: seq<Step>, i: nat, r: Uuid, k: OpKey)
    returns (m: Msg)
    requires c.Tolerable() && IsRun(c, states, steps) && Disciplined(c, states, steps)
    requires i < |steps| && Accepts(c, states[i], steps[i], r) && steps[i].e.msg.view > k.view
    requires StartOf(c, steps[i].e.msg) < k.sequence && PicksLatest(BySender(steps[i].e.msg.viewchanges), k.sequence)
    requires CommittedInRun(c, states, k) && AllHold(states, states[i], k)
    ensures m in NewPrePrepares(c, steps[i].e.msg.view, BySender(steps[i].e.msg.viewchanges))
    ensures m == PrePrepare(steps[i].e.msg.view, k.sequence, k.hash)
  {
    var y, z, e := states[i], states[|states| - 1], steps[i].e;
    var w, vcs := e.msg.view, BySender(e.msg.viewchanges);
    assert Takes(c, states, steps, i);
    RunOk(c, states, steps, i);
    assert Authentic(c, y.sent, e);
    NewviewSet(c, y.sent, y.replicas[r].view, e);
    hide Inv, ValidNewview, Enabled, Apply, BySender;
    var u := CommitterHeard(c, z.sent, k, vcs);
    CommitterCovers(c, states, steps, i, u, k, vcs[u]);
    var p, x;
    m, p, x := ReproposedFrom(c, y.sent, k, w, vcs, u);
    CertificateHolds(c, y.sent, vcs[x], p);
    hide Authentic, ViewchangeSet, PicksLatest, NewPrePrepares, MaxBase, Covers;
    CertifiedHash(c, states, steps, i, k, ProofKey(p));
  }

  /** A correct committer's viewchange for a later view covers the commit, even one made since. */
  lemma CommitterCovers(c: Config, states: seq<System>, steps: seq<Step>, i: nat, u: Uuid, k: OpKey, e: Envelope)
    requires c.HasPeers() && IsRun(c, states, steps) && Disciplined(c, states, steps) && i < |states| && c.Correct(u)
    requires Authentic(c, states[i].sent, e) && e.sender == u && e.msg.ViewChange? && e.msg.view > k.view
    requires Envelope(u, k.CommitMsg()) in states[|states| - 1].sent
    ensures Covers(e.msg, k)
  {
    var last := |states| - 1;
    SentGrows(c, states, steps, i, last);
    CommitsCovered(c, states, steps, last, u);
    Present(c, states, steps, last, u);
    hide IsRun, Disciplined, Local, Covers;
  }

  /** A request certified for k's sequence in k's view or later is k's request. */
  lemma CertifiedHash(c: Config, states: seq<System>, steps: seq<Step>, i: nat, k: OpKey, q: OpKey)
    requires c.Tolerable() && IsRun(c, states, steps) && i < |states| && CommittedInRun(c, states, k)
             && AllHold(states, states[i], k)
    requires q.sequence == k.sequence && q.view >= k.view && Certified(c, states[i].sent, q.PrepareMsg())
    ensures q.hash == k.hash
  {
    var z := states[|states| - 1];
    RunOk(c, states, steps, i);
    if q.view == k.view {
      RunOk(c, states, steps, |states| - 1);
      SentGrows(c, states, steps, i, |states| - 1);
      hide Inv, IsRun, Certified;
      CertifiedGrows(c, states[i].sent, z.sent, q.PrepareMsg());
      CommittedWasPrepared(c, z, k);
      PreparedAgree(c, z, q, k);
    } else {
      var x := CertifiedMeet(c, states[i].sent, q.PrepareMsg(), q.PrepareMsg());
      assert x in states[i].replicas && PreparesOk(c, states[i].sent, states[i].replicas[x])
             && Holds(states, states[i].replicas[x], k);
      assert (q.view, q.sequence) in states[i].replicas[x].accepted;
    }
  }

  /** After accepting the NEWVIEW the slot for k's sequence holds the proposed request. */
  lemma SlotAccepted(c: Config, s: State, e: Envelope, requests: set<Hash>, m: Msg)
    requires c.HasPeers() && ValidNewview(c, s.view, e) && m.PrePrepare?
    requires m in NewPrePrepares(c, e.msg.view, BySender(e.msg.viewchanges)) && m.view == e.msg.view
    requires forall slot | slot in s.accepted :: slot.0 <= s.view
    ensures var a := HandleNewview(c, s, e, requests).state.accepted; var slot := (m.view, m.sequence);
            slot in a && a[slot] == m.hash
  {
    NewviewFacts(c, s.view, e);
    InNewview(c, s.view, e, m);
    var s1 := EnterView(c, s, e.msg);
    PrepreparesAccepted(c, s1, e.msg.preprepares, requests);
    var a, slot := HandleNewview(c, s, e, requests).state.accepted, (m.view, m.sequence);
    assert s1.accepted == s.accepted && slot !in s.accepted;
    var x :| x in e.msg.preprepares && (x.msg.view, x.msg.sequence) == slot && x.msg.hash == a[slot];
    OneSlotEach(c, s.view, e, x, Envelope(e.sender, m));
  }

  lemma OneSlotEach(c: Config, view: nat, e: Envelope, x: Envelope, x': Envelope)
    requires c.HasPeers() && ValidNewview(c, view, e) && x in e.msg.preprepares && x' in e.msg.preprepares
    requires x.msg.PrePrepare? && x'.msg.PrePrepare? && x.msg.sequence == x'.msg.sequence
    ensures x == x'
  {
    var i :| 0 <= i < |e.msg.preprepares| && e.msg.preprepares[i] == x;
    var j :| 0 <= j < |e.msg.preprepares| && e.msg.preprepares[j] == x';
  }

  lemma HoldsStep(c: Config, states: seq<System>, steps: seq<Step>, i: nat, r: Uuid, k: OpKey)
    requires c.Tolerable() && IsRun(c, states, steps) && WellBehaved(c, states, steps, k.sequence)
    requires i < |steps| && c.Correct(r) && CommittedInRun(c, states, k) && AllHold(states, states[i], k)
    ensures r in states[i + 1].replicas && Holds(states, states[i + 1].replicas[r], k)
  {
    Present(c, states, steps, i, r);
    hide IsRun, Accepts, Holds, Disciplined, AllLatest, Guarded, Local;
    if Accepts(c, states[i], steps[i], r) && steps[i].e.msg.view > k.view {
      if StartOf(c, steps[i].e.msg) < k.sequence {
        HoldsWhenProposed(c, states, steps, i, r, k);
      } else {
        HoldsWhenClosed(c, states, steps, i, r, k);
      }
    } else {
      HoldsOtherwise(c, states, steps, i, r, k);
    }
  }

  lemma HoldsWhenProposed(c: Config, states: seq<System>, steps: seq<Step>, i: nat, r: Uuid, k: OpKey)
    requires c.Tolerable() && IsRun(c, states, steps) && WellBehaved(c, states, steps, k.sequence)
    requires i < |steps| && c.Correct(r) && CommittedInRun(c, states, k) && AllHold(states, states[i], k)
    requires r in states[i].replicas && Accepts(c, states[i], steps[i], r) && steps[i].e.msg.view > k.view
    requires StartOf(c, steps[i].e.msg) < k.sequence
    ensures r in states[i + 1].replicas && Holds(states, states[i + 1].replicas[r], k)
  {
    var s := states[i].replicas[r];
    assert Holds(states, s, k);
    var eff := StepOf(c, states, steps, i, r);
    hide Sends, IsRun, Disciplined, Guarded, Closed, StartOf;
    var m := ReproposesCommitted(c, states, steps, i, r, k);
    EnteredView(c, states, steps, i, r);
    hide AllLatest, AllHold;
    SlotAccepted(c, s, steps[i].e, steps[i].requests, m);
  }

  lemma HoldsWhenClosed(c: Config, states: seq<System>, steps: seq<Step>, i: nat, r: Uuid, k: OpKey)
    requires c.Tolerable() && IsRun(c, states, steps) && WellBehaved(c, states, steps, k.sequence)
    requires i < |steps| && c.Correct(r) && AllHold(states, states[i], k)
    requires r in states[i].replicas && Accepts(c, states[i], steps[i], r) && steps[i].e.msg.view > k.view
    requires StartOf(c, steps[i].e.msg) >= k.sequence
    ensures r in states[i + 1].replicas && Holds(states, states[i + 1].replicas[r], k)
  {
    assert Holds(states, states[i].replicas[r], k);
    var eff := StepOf(c, states, steps, i, r);
    Present(c, states, steps, i, r);
    hide Sends, IsRun, Disciplined, Guarded, Closed, StartOf, AllLatest, AllHold, Local;
    GuardedIsClosed(c, states, steps, i, r, k.sequence);
    StaysClosed(states, i + 1, r, steps[i].e.msg.view, k.sequence);
  }

  lemma HoldsOtherwise(c: Config, states: seq<System>, steps: seq<Step>, i: nat, r: Uuid, k: OpKey)
    requires c.Tolerable() && IsRun(c, states, steps) && i < |steps| && c.Correct(r) && AllHold(states, states[i], k)
    requires r in states[i].replicas && !(Accepts(c, states[i], steps[i], r) && steps[i].e.msg.view > k.view)
    ensures r in states[i + 1].replicas && Holds(states, states[i + 1].replicas[r], k)
  {
    var s := states[i].replicas[r];
    assert Holds(states, s, k);
    var eff := StepOf(c, states, steps, i, r);
    Present(c, states, steps, i, r);
    hide Sends, IsRun, Closed, AllHold, Local;
    if Closed(states, r, s.view, k.sequence) { StaysClosed(states, i + 1, r, s.view, k.sequence); }
  }

  lemma StaysClosed(states: seq<System>, i: nat, r: Uuid, w: nat, s: nat)
    requires Closed(states, r, w, s) && i < |states| && r in states[i].replicas
    ensures (w, s) !in states[i].replicas[r].accepted
  {
  }

  lemma InitHolds(c: Config, y: System, k: OpKey)
    requires Init(c, y) && k.view >= 1
    ensures forall states :: AllHold(states, y, k)
  {
  }

  lemma {:induction false} AlwaysHolds(c: Config, states: seq<System>, steps: seq<Step>, i: nat, k: OpKey)
    requires c.Tolerable() && IsRun(c, states, steps) && WellBehaved(c, states, steps, k.sequence)
    requires i < |states| && CommittedInRun(c, states, k) && k.view >= 1
    ensures AllHold(states, states[i], k)
  {
    RunShape(c, states, steps);
    assert Init(c, states[0]);
    hide Inv, WellBehaved, CommittedInRun, Holds, IsRun, Init;
    OnlyCorrect(c, states, steps, i);
    if i == 0 {
      InitHolds(c, states[0], k);
    } else {
      AlwaysHolds(c, states, steps, i - 1, k);
      forall r | r in states[i].replicas ensures Holds(states, states[i].replicas[r], k) {
        HoldsStep(c, states, steps, i - 1, r, k);
      }
    }
  }

  lemma OnlyCorrect(c: Config, states: seq<System>, steps: seq<Step>, i: nat)
    requires c.HasPeers() && IsRun(c, states, steps) && i < |states|
    ensures forall r | r in states[i].replicas :: c.Correct(r)
  {
    RunOk(c, states, steps, i);
    hide Local, AllAuthentic;
  }

  lemma {:induction false} CommitViewsPositive(c: Config, states: seq<System>, steps: seq<Step>, i: nat, r: Uuid,
                                               k: OpKey)
    requires c.HasPeers() && IsRun(c, states, steps) && i < |states| && c.Correct(r)
             && Envelope(r, k.CommitMsg()) in states[i].sent
    ensures k.view >= 1
  {
    if i > 0 {
      var eff := StepOf(c, states, steps, i - 1, r);
      if Envelope(r, k.CommitMsg()) in states[i - 1].sent {
        CommitViewsPositive(c, states, steps, i - 1, r, k);
      } else {
        ViewsGrow(c, states, steps, 0, i, r);
      }
    }
  }

  /** Agreement: in a run with at most f faulty peers among 3f+1 in which replicas enter no view
      below the last they asked for, NEWVIEWs pick the latest certificate and pre-prepares are
      above the start of their view, no two requests are committed for one sequence, in whatever
      views. None of the three conditions can be left out: see the module Disagreement. */
  lemma CommittedAgree(c: Config, states: seq<System>, steps: seq<Step>, k1: OpKey, k2: OpKey)
    requires c.Tolerable() && IsRun(c, states, steps) && WellBehaved(c, states, steps, k1.sequence)
    requires k1.sequence == k2.sequence && CommittedInRun(c, states, k1) && CommittedInRun(c, states, k2)
    ensures k1.hash == k2.hash
    decreases k1.view > k2.view
  {
    if k1.view > k2.view {
      CommittedAgree(c, states, steps, k2, k1);
    } else {
      var last := |states| - 1;
      var u := CertifiedMeet(c, states[last].sent, k1.CommitMsg(), k1.CommitMsg());
      CommitViewsPositive(c, states, steps, last, u, k1);
      AlwaysHolds(c, states, steps, last, k1);
      RunOk(c, states, steps, last);
      hide IsRun, WellBehaved, Inv, AllHold;
      CommittedWasPrepared(c, states[last], k2);
      CertifiedHash(c, states, steps, last, k1, k2);
    }
  }

  // ---- what reaches the service ----

  ghost predicate IsExecuted(s: State, k: OpKey) { k in s.ops && s.ops[k].stage == ExecuteStage }

  /** What is posted has reached the execute stage, and no operation leaves it. */
  ghost predicate PostRule(s: State, eff: Effect)
  {
    forall k | k in eff.posted || IsExecuted(s, k) :: IsExecuted(eff.state, k)
  }

  lemma PreprepareExecuted(c: Config, s: State, e: Envelope, requests: set<Hash>)
    requires c.HasPeers() && e.msg.PrePrepare?
    ensures PostRule(s, HandlePreprepare(c, s, e, requests))
  {
    hide HonestMajority;
  }

  lemma VoteExecuted(c: Config, s: State, e: Envelope)
    requires c.HasPeers() && (e.msg.Prepare? || e.msg.Commit?)
    ensures PostRule(s, HandleVote(c, s, e))
  {
    hide HonestMajority;
  }

  lemma {:induction false} PostedAreExecuted(c: Config, s: State, es: seq<Envelope>, requests: set<Hash>)
    requires c.HasPeers() && forall e | e in es :: e.msg.PrePrepare?
    ensures PostRule(s, HandlePreprepares(c, s, es, requests))
    decreases |es|
  {
    hide HandlePreprepare;
    if es != [] {
      PreprepareExecuted(c, s, es[0], requests);
      var first := HandlePreprepare(c, s, es[0], requests);
      var s1 := first.state.(nextIssued := es[0].msg.sequence + 1);
      PostedAreExecuted(c, s1, es[1..], requests);
      forall k | IsExecuted(first.state, k) ensures IsExecuted(s1, k) { }
    }
  }

  lemma NewviewExecuted(c: Config, s: State, e: Envelope, requests: set<Hash>, k: OpKey)
    requires c.HasPeers() && k in HandleNewview(c, s, e, requests).posted
    ensures IsExecuted(HandleNewview(c, s, e, requests).state, k)
  {
    hide ValidNewview, HandlePreprepares;
    NewviewFacts(c, s.view, e);
    PostedAreExecuted(c, EnterView(c, s, e.msg), e.msg.preprepares, requests);
  }

  lemma StepPostsExecuted(c: Config, s: State, step: Step, k: OpKey)
    requires c.HasPeers() && k in EffectOf(c, s, step).posted
    ensures IsExecuted(EffectOf(c, s, step).state, k)
  {
    hide HandleNewview, HandleViewchange, HandlePreprepare, HandleVote, IsExecuted;
    assert step.Deliver?;
    var e := step.e;
    if e.msg.NewView? {
      NewviewExecuted(c, s, e, step.requests, k);
    } else if e.msg.PrePrepare? {
      PreprepareExecuted(c, s, e, step.requests);
    } else if e.msg.ViewChange? {
      ViewchangePostsNothing(c, s, e, step.requests, step.vc);
    } else {
      VoteExecuted(c, s, e);
    }
  }

  lemma ViewchangePostsNothing(c: Config, s: State, e: Envelope, requests: set<Hash>, vc: Msg)
    requires c.HasPeers()
    ensures HandleViewchange(c, s, e, requests, vc).posted == {}
  {
  }

  /** The step hands operation k of replica r to the service. */
  ghost predicate Posts(c: Config, states: seq<System>, steps: seq<Step>, i: nat, r: Uuid, k: OpKey)
    requires c.HasPeers() && IsRun(c, states, steps) && i < |steps|
  {
    !steps[i].Inject? && steps[i].r == r && r in states[i].replicas
      && k in EffectOf(c, states[i].replicas[r], steps[i]).posted
  }

  lemma PostedIsCommitted(c: Config, states: seq<System>, steps: seq<Step>, i: nat, r: Uuid, k: OpKey)
    requires c.HasPeers() && IsRun(c, states, steps) && i < |steps| && c.Correct(r) && Posts(c, states, steps, i, r, k)
    ensures CommittedInRun(c, states, k)
  {
    RunShape(c, states, steps);
    hide IsRun, Certified, Posts, Inv, IsExecuted, CommittedInRun, Takes;
    StepExecutes(c, states, steps, i, r, k);
    RunOk(c, states, steps, i + 1);
    ExecutedIsCommitted(c, states[i + 1], r, k);
    CertifiedLater(c, states, steps, i + 1, k);
  }

  lemma CertifiedLater(c: Config, states: seq<System>, steps: seq<Step>, i: nat, k: OpKey)
    requires c.HasPeers() && IsRun(c, states, steps) && i < |states| && Certified(c, states[i].sent, k.CommitMsg())
    ensures CommittedInRun(c, states, k)
  {
    hide IsRun, Certified;
    SentGrows(c, states, steps, i, |states| - 1);
    CertifiedGrows(c, states[i].sent, states[|states| - 1].sent, k.CommitMsg());
  }

  lemma RunShape(c: Config, states: seq<System>, steps: seq<Step>)
    requires c.HasPeers() && IsRun(c, states, steps)
    ensures |states| == |steps| + 1
  {
  }

  lemma StepExecutes(c: Config, states: seq<System>, steps: seq<Step>, i: nat, r: Uuid, k: OpKey)
    requires c.HasPeers() && IsRun(c, states, steps) && i < |steps| && Posts(c, states, steps, i, r, k)
    ensures r in states[i + 1].replicas && IsExecuted(states[i + 1].replicas[r], k)
  {
    hide EffectOf, Enabled, IsExecuted;
    assert Takes(c, states, steps, i);
    StepPostsExecuted(c, states[i].replicas[r], steps[i], k);
  }

  /** An operation in the execute stage at a correct replica is committed. */
  lemma ExecutedIsCommitted(c: Config, y: System, r: Uuid, k: OpKey)
    requires c.HasPeers() && Inv(c, y) && r in y.replicas && IsExecuted(y.replicas[r], k)
    ensures Certified(c, y.sent, k.CommitMsg())
  {
    var s := y.replicas[r];
    assert OpsOk(c, y.sent, s);
    hide Inv, Certified;
    VotesHold(c, y.sent, s, k);
  }

  /** What any two correct replicas hand to their services for one sequence is the same request. */
  lemma ServicesAgree(c: Config, states: seq<System>, steps: seq<Step>, i: nat, j: nat, r1: Uuid, r2: Uuid, k1: OpKey,
                      k2: OpKey)
    requires c.Tolerable() && IsRun(c, states, steps) && WellBehaved(c, states, steps, k1.sequence)
    requires i < |steps| && j < |steps| && c.Correct(r1) && c.Correct(r2) && k1.sequence == k2.sequence
    requires Posts(c, states, steps, i, r1, k1) && Posts(c, states, steps, j, r2, k2)
    ensures k1.hash == k2.hash
  {
    PostedIsCommitted(c, states, steps, i, r1, k1);
    PostedIsCommitted(c, states, steps, j, r2, k2);
    CommittedAgree(c, states, steps, k1, k2);
  }
}
