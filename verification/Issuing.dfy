/** The sequence numbers a primary gives to requests. */
module Issuing {
  import opened Quorum
  import opened Messages
  import opened Checkpoints
  import opened ViewChange
  import opened Replica
  import opened Protocol
  import opened NewviewContent
  import opened Views
  import opened Runs
  import opened Agreement

  /** The step is replica r giving its next sequence number to a request. */
  ghost predicate Issues(c: Config, y: System, step: Step, r: Uuid)
    requires c.HasPeers()
  {
    step.Request? && step.r == r && r in y.replicas && c.Primary(y.replicas[r].view) == y.replicas[r].id
  }

  lemma HandlersKeepNext(c: Config, s: State, e: Envelope, requests: set<Hash>, vc: Msg)
    requires c.HasPeers()
    ensures HandleViewchange(c, s, e, requests, vc).state.nextIssued == s.nextIssued
    ensures e.msg.PrePrepare? ==> HandlePreprepare(c, s, e, requests).state.nextIssued == s.nextIssued
    ensures e.msg.Prepare? || e.msg.Commit? ==> HandleVote(c, s, e).state.nextIssued == s.nextIssued
  {
    hide SaveRequests, RecordClaims, NewviewOut, ValidViewchange;
  }

  /** Unless it accepts a NEWVIEW, a replica's next number moves by one with each number given. */
  lemma NextStep(c: Config, states: seq<System>, steps: seq<Step>, i: nat, r: Uuid)
    requires c.HasPeers() && IsRun(c, states, steps) && i < |steps| && c.Correct(r)
    requires !Accepts(c, states[i], steps[i], r)
    ensures r in states[i].replicas && r in states[i + 1].replicas
    ensures states[i + 1].replicas[r].nextIssued ==
            states[i].replicas[r].nextIssued + if Issues(c, states[i], steps[i], r) then 1 else 0
  {
    var y, step := states[i], steps[i];
    Present(c, states, steps, i, r);
    assert Takes(c, states, steps, i);
    hide HandleNewview, HandleViewchange, HandlePreprepare, HandleVote, RecordClaim, Local, Enabled, IsRun;
    if step.Deliver? && step.r == r {
      HandlersKeepNext(c, y.replicas[r], step.e, step.requests, step.vc);
      if step.e.msg.NewView? && c.IsPeer(step.e.sender) { NewviewRejected(c, y.replicas[r], step.e, step.requests); }
    }
  }

  /** Within one view a primary gives each number once, in increasing order. */
  lemma {:induction false} NumbersIncreaseInView(c: Config, states: seq<System>, steps: seq<Step>, i: nat, j: nat,
                                                 r: Uuid)
    requires c.HasPeers() && IsRun(c, states, steps) && i <= j < |states| && c.Correct(r)
    requires r in states[i].replicas && r in states[j].replicas
             && states[i].replicas[r].view == states[j].replicas[r].view
    ensures states[i].replicas[r].nextIssued <= states[j].replicas[r].nextIssued
    ensures i < j && Issues(c, states[i], steps[i], r)
            ==> states[i].replicas[r].nextIssued < states[j].replicas[r].nextIssued
    decreases j
  {
    assert |states| == |steps| + 1;
    hide IsRun, Accepts, Issues;
    if i < j {
      ViewsGrow(c, states, steps, i, j - 1, r);
      ViewStep(c, states, steps, j - 1, r);
      SameViewNoNewview(c, states, steps, j - 1, r);
      NextStep(c, states, steps, j - 1, r);
      NumbersIncreaseInView(c, states, steps, i, j - 1, r);
    }
  }

  lemma SameViewNoNewview(c: Config, states: seq<System>, steps: seq<Step>, i: nat, r: Uuid)
    requires c.HasPeers() && IsRun(c, states, steps) && i < |steps| && c.Correct(r)
    requires r in states[i].replicas && r in states[i + 1].replicas
             && states[i].replicas[r].view == states[i + 1].replicas[r].view
    ensures !Accepts(c, states[i], steps[i], r)
  {
    hide IsRun, Accepts, Sends, AcceptRules;
    var eff := StepOf(c, states, steps, i, r);
  }

  lemma {:induction false} NextAfterPreprepares(c: Config, s: State, es: seq<Envelope>, requests: set<Hash>)
    requires c.HasPeers() && forall e | e in es :: e.msg.PrePrepare?
    ensures HandlePreprepares(c, s, es, requests).state.nextIssued ==
            if es == [] then s.nextIssued else es[|es| - 1].msg.sequence + 1
    decreases |es|
  {
    hide HandlePreprepare;
    if es != [] {
      var s1 := HandlePreprepare(c, s, es[0], requests).state.(nextIssued := es[0].msg.sequence + 1);
      NextAfterPreprepares(c, s1, es[1..], requests);
    }
  }

  /** A replica that enters a view goes on above everything the NEWVIEW proposes. */
  lemma NextAfterNewview(c: Config, s: State, e: Envelope, requests: set<Hash>)
    requires c.HasPeers() && ValidNewview(c, s.view, e)
    ensures e.msg.NewView? && forall x | x in e.msg.preprepares ::
              x.msg.PrePrepare? && x.msg.sequence < HandleNewview(c, s, e, requests).state.nextIssued
  {
    NewviewFacts(c, s.view, e);
    var es := e.msg.preprepares;
    PreparesInOrder(c, s.view, e);
    hide ValidNewview, HandlePreprepares, RecordClaims;
    NextAfterPreprepares(c, EnterView(c, s, e.msg), es, requests);
    forall x | x in es ensures x.msg.sequence <= es[|es| - 1].msg.sequence {
      var i :| 0 <= i < |es| && es[i] == x;
    }
  }

  lemma PreparesInOrder(c: Config, view: nat, e: Envelope)
    requires c.HasPeers() && ValidNewview(c, view, e)
    ensures var es := e.msg.preprepares;
            forall i, j | 0 <= i <= j < |es| ::
                && es[i].msg.PrePrepare? && es[j].msg.PrePrepare? && es[i].msg.sequence <= es[j].msg.sequence
                && (i < j ==> es[i].msg.sequence < es[j].msg.sequence)
  {
    hide ValidViewchange, BySender, MaxBase, Chosen, MaxOf;
  }

  /** A number given in a view is above everything that the NEWVIEW of that view had proposed, so
      no sequence of the view is proposed twice. */
  lemma NumbersAboveNewview(c: Config, states: seq<System>, steps: seq<Step>, i: nat, j: nat, r: Uuid, x: Envelope)
    requires c.HasPeers() && IsRun(c, states, steps) && i < j < |steps| && c.Correct(r)
    requires Accepts(c, states[i], steps[i], r) && x in steps[i].e.msg.preprepares && x.msg.PrePrepare?
    requires Issues(c, states[j], steps[j], r) && states[j].replicas[r].view == steps[i].e.msg.view
    ensures x.msg.sequence < states[j].replicas[r].nextIssued
  {
    var s, e := states[i].replicas[r], steps[i].e;
    NextAfterNewview(c, s, e, steps[i].requests);
    EnteredView(c, states, steps, i, r);
    hide IsRun, HandleNewview, ValidNewview, Accepts, Issues;
    NumbersIncreaseInView(c, states, steps, i + 1, j, r);
  }

  /** The NEWVIEW proposes something, or its first viewchange has the highest base. */
  ghost predicate StartsAtBase(c: Config, nv: Msg)
    requires nv.NewView? && |nv.viewchanges| > 0 && nv.viewchanges[0].msg.ViewChange?
  {
    nv.preprepares != [] || nv.viewchanges[0].msg.base == StartOf(c, nv)
  }

  /** handle_newview takes the next number from the first viewchange in the list: only then is it
      sure to be above the checkpoint that the view starts from. */
  lemma NextAboveStartIff(c: Config, s: State, e: Envelope, requests: set<Hash>)
    requires c.HasPeers() && ValidNewview(c, s.view, e)
    ensures |e.msg.viewchanges| > 0 && e.msg.viewchanges[0].msg.ViewChange?
    ensures HandleNewview(c, s, e, requests).state.nextIssued > StartOf(c, e.msg) <==> StartsAtBase(c, e.msg)
  {
    NewviewFacts(c, s.view, e);
    StartsAbove(c, s.view, e);
    FirstBaseBelow(c, s.view, e);
    hide ValidNewview, HandlePreprepares, RecordClaims, StartOf;
    var es := e.msg.preprepares;
    NextAfterPreprepares(c, EnterView(c, s, e.msg), es, requests);
    if es != [] { assert es[|es| - 1] in es; }
  }

  lemma FirstBaseBelow(c: Config, view: nat, e: Envelope)
    requires c.HasPeers() && ValidNewview(c, view, e) && |e.msg.viewchanges| > 0 && e.msg.viewchanges[0].msg.ViewChange?
    ensures e.msg.viewchanges[0].msg.base <= StartOf(c, e.msg)
  {
    var es := e.msg.viewchanges;
    var vcs := BySender(es);
    BySenderSpec(es);
    MaxBaseSpec(vcs, c.n);
    assert es[0] in es && WellFormedViewchange(c, es[0]);
    var i :| 0 <= i < |es| && es[i] == vcs[es[0].sender];
    hide WellFormedViewchange, BySender, MaxBase;
    assert i == 0;
  }

  /** Then every number given in the view is. */
  lemma NumbersAboveStart(c: Config, states: seq<System>, steps: seq<Step>, i: nat, j: nat, r: Uuid)
    requires c.HasPeers() && IsRun(c, states, steps) && i < j < |steps| && c.Correct(r)
             && Accepts(c, states[i], steps[i], r)
    requires var nv := steps[i].e.msg; |nv.viewchanges| > 0 && nv.viewchanges[0].msg.ViewChange? && StartsAtBase(c, nv)
    requires Issues(c, states[j], steps[j], r) && states[j].replicas[r].view == steps[i].e.msg.view
    ensures states[j].replicas[r].nextIssued > StartOf(c, steps[i].e.msg)
  {
    NextAboveStartIff(c, states[i].replicas[r], steps[i].e, steps[i].requests);
    EnteredView(c, states, steps, i, r);
    hide IsRun, HandleNewview, ValidNewview, Accepts, Issues, StartOf;
    NumbersIncreaseInView(c, states, steps, i + 1, j, r);
  }
}
