/** How a replica comes to a view: who sent the NEWVIEW, and who had asked for the view. */
module Entering {
  import opened Quorum
  import opened Messages
  import opened ViewChange
  import opened Protocol
  import opened Invariants
  import opened Views
  import opened Runs
  import opened Agreement

  /** Replica r has another view after step i. */
  ghost predicate Moves(states: seq<System>, i: nat, r: Uuid)
    requires i + 1 < |states|
  {
    && r in states[i].replicas && r in states[i + 1].replicas
    && states[i].replicas[r].view != states[i + 1].replicas[r].view
  }

  lemma MovesByNewview(c: Config, states: seq<System>, steps: seq<Step>, i: nat, r: Uuid)
    requires c.HasPeers() && IsRun(c, states, steps) && i < |steps| && Moves(states, i, r)
    ensures Accepts(c, states[i], steps[i], r) && steps[i].e in states[i].sent
    ensures states[i + 1].replicas[r].view == steps[i].e.msg.view > states[i].replicas[r].view
  {
    RunOk(c, states, steps, i);
    assert c.Correct(r);
    hide Inv;
    assert Takes(c, states, steps, i);
    var eff := StepOf(c, states, steps, i, r);
    hide IsRun, ValidNewview, GoodChoice, Authentic, ViewchangeFrom, AcceptRules;
  }

  /** A replica comes to view w only by a NEWVIEW for w from peer w mod n; if that peer is correct, it
      had sent that NEWVIEW itself. */
  lemma NewviewFromPrimary(c: Config, states: seq<System>, steps: seq<Step>, i: nat, r: Uuid)
    requires c.HasPeers() && IsRun(c, states, steps) && i < |steps| && Moves(states, i, r)
    ensures var w := states[i + 1].replicas[r].view;
            && steps[i].Deliver? && steps[i].r == r && steps[i].e.msg.NewView? && steps[i].e.msg.view == w
            && w > states[i].replicas[r].view && steps[i].e.sender == w % c.n
            && (c.Correct(w % c.n) ==>
                  exists j: nat :: j < i && steps[i].e.msg in Sends(c, states[j], steps[j], w % c.n))
  {
    MovesByNewview(c, states, steps, i, r);
    var e := steps[i].e;
    assert e == Envelope(e.sender, e.msg);
    if c.Correct(e.sender) {
      hide IsRun, Accepts, Sends;
      var j := SentAt(c, states, steps, i, e.sender, e.msg);
    }
  }

  /** The correct peers that have asked for view w. */
  ghost function Askers(c: Config, sent: set<Envelope>, w: nat): set<Uuid>
  {
    set e | e in sent && c.Correct(e.sender) && e.msg.ViewChange? && e.msg.view == w :: e.sender
  }

  lemma AskersAmong(c: Config, sent: set<Envelope>, vcs: seq<Envelope>, w: nat)
    requires c.HasPeers() && |vcs| >= 2 * c.F() + 1
    requires forall x | x in vcs :: c.IsPeer(x.sender) && x.msg.ViewChange? && x.msg.view == w
    requires forall x | x in vcs :: c.Correct(x.sender) ==> x in sent
    requires forall i, j | 0 <= i < j < |vcs| :: vcs[i].sender != vcs[j].sender
    ensures |Askers(c, sent, w)| >= 2 * c.F() + 1 - |c.faulty|
  {
    var senders := BySender(vcs).Keys;
    BySenderSpec(vcs);
    BySenderSize(vcs);
    CorrectPart(c.n, senders, c.faulty);
    hide BySender;
    forall u | u in senders - c.faulty ensures u in Askers(c, sent, w) { assert BySender(vcs)[u] in vcs; }
    SubsetSize(senders - c.faulty, Askers(c, sent, w));
  }

  lemma ManyAskers(c: Config, sent: set<Envelope>, view: nat, e: Envelope)
    requires c.HasPeers() && ValidNewview(c, view, e) && Authentic(c, sent, e)
    ensures |Askers(c, sent, e.msg.view)| >= 2 * c.F() + 1 - |c.faulty|
  {
    var vcs := e.msg.viewchanges;
    assert forall x | x in vcs :: ValidViewchange(c, view, x) && x.msg.view == e.msg.view;
    assert forall x | x in vcs :: Authentic(c, sent, x);
    hide ValidBase, ValidProof, NewPrePrepares, Askers;
    AskersAmong(c, sent, vcs, e.msg.view);
  }

  /** No view is entered that fewer than f+1 correct peers have asked for. */
  lemma EnteredOnlyIfAsked(c: Config, states: seq<System>, steps: seq<Step>, i: nat, r: Uuid)
    requires c.Tolerable() && IsRun(c, states, steps) && i < |steps| && Moves(states, i, r)
    ensures |Askers(c, states[i].sent, states[i + 1].replicas[r].view)| >= c.F() + 1
  {
    MovesByNewview(c, states, steps, i, r);
    RunOk(c, states, steps, i);
    assert Authentic(c, states[i].sent, steps[i].e);
    hide IsRun, Inv, ValidNewview, Askers, Authentic;
    ManyAskers(c, states[i].sent, states[i].replicas[r].view, steps[i].e);
  }
}
