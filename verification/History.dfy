/** What a replica holds about an operation is exactly what it has heard about it since it last
    deleted it: the state is determined by the history, whatever the order of the steps. */
module History {
  import opened Messages
  import opened Operations
  import opened Checkpoints
  import opened ViewChange
  import opened Replica
  import opened Protocol
  import opened Views
  import opened Runs
  import opened Issuing

  /** What may be known of an operation. */
  datatype Facet =
    | Held
    | Requested
    | Proposed
    | PreparedBy(u: Uuid)
    | CommittedBy(u: Uuid)
    | Locked                // in the commit stage or beyond
    | Handed                // in the execute stage

  predicate Has(op: Op, x: Facet)
  {
    match x
    case Held => true
    case Requested => op.hasRequest
    case Proposed => op.prePrepare.Some?
    case PreparedBy(u) => u in op.prepares
    case CommittedBy(u) => u in op.commits
    case Locked => op.stage != PrepareStage
    case Handed => op.stage == ExecuteStage
  }

  predicate Shows(s: State, k: OpKey, x: Facet) { k in s.ops && Has(s.ops[k], x) }

  // ---- What a step tells a replica; s is its state before the step, t the one after ----

  /** The replica reads a pre-prepare for k, in its view or in the NEWVIEW that moves it to k's view. */
  ghost predicate HearsProposal(c: Config, s: State, step: Step, t: State, k: OpKey)
  {
    && step.Deliver? && c.IsPeer(step.e.sender)
    && if step.e.msg.NewView?
       then t.view != s.view && exists e :: e in step.e.msg.preprepares && e.msg == k.PrePrepareMsg()
       else step.e.msg == k.PrePrepareMsg() && s.viewIsValid && k.view == s.view
  }

  /** No other request was accepted for its view and sequence. */
  predicate Open(s: State, k: OpKey)
  {
    (k.view, k.sequence) in s.accepted ==> s.accepted[(k.view, k.sequence)] == k.hash
  }

  ghost predicate Adopts(c: Config, s: State, step: Step, t: State, k: OpKey)
  {
    HearsProposal(c, s, step, t, k) && Open(s, k)
  }

  predicate HearsVote(c: Config, s: State, step: Step, m: Msg)
  {
    && step.Deliver? && c.IsPeer(step.e.sender) && step.e.msg == m && (m.Prepare? || m.Commit?)
    && s.viewIsValid && m.view == s.view
  }

  ghost predicate HearsViewchange(c: Config, s: State, step: Step)
    requires c.HasPeers()
  {
    step.Deliver? && c.IsPeer(step.e.sender) && ValidViewchange(c, s.view, step.e)
  }

  /** The request of k arrives: with its pre-prepare, from a client while this replica leads, or
      with a VIEWCHANGE that has a certificate for k. */
  ghost predicate GetsRequest(c: Config, s: State, step: Step, t: State, k: OpKey)
    requires c.HasPeers()
  {
    || (Adopts(c, s, step, t, k) && k.hash in step.requests)
    || (step.Request? && s.id == s.view % c.n && k == OpKey(s.view, s.nextIssued, step.h))
    || (HearsViewchange(c, s, step) && k.hash in step.requests && Certifies(step.e.msg.proofs, k))
  }

  ghost predicate Certifies(proofs: seq<Proof>, k: OpKey)
  {
    exists p :: p in proofs && p.prePrepare.msg == k.PrePrepareMsg()
  }

  /** The replica looks at k to see if it can go on. */
  ghost predicate Turn(c: Config, s: State, step: Step, t: State, k: OpKey)
  {
    || Adopts(c, s, step, t, k) || HearsVote(c, s, step, k.PrepareMsg()) || HearsVote(c, s, step, k.CommitMsg())
  }

  ghost predicate Brings(c: Config, s: State, step: Step, t: State, k: OpKey, x: Facet)
    requires c.HasPeers()
  {
    match x
    case Held => Turn(c, s, step, t, k) || GetsRequest(c, s, step, t, k)
    case Requested => GetsRequest(c, s, step, t, k)
    case Proposed => Adopts(c, s, step, t, k)
    case PreparedBy(u) => HearsVote(c, s, step, k.PrepareMsg()) && step.e.sender == u
    case CommittedBy(u) => HearsVote(c, s, step, k.CommitMsg()) && step.e.sender == u
    case Locked =>
      && Turn(c, s, step, t, k) && Shows(t, k, Requested) && Shows(t, k, Proposed)
      && |t.ops[k].prepares| >= 2 * c.F() + 1
    case Handed => Turn(c, s, step, t, k) && Shows(t, k, Locked) && |t.ops[k].commits| >= 2 * c.F() + 1
  }

  /** The replica reaches a checkpoint, and k is covered by it and by the stable one. */
  predicate Drops(s: State, step: Step, k: OpKey)
  {
    && step.Executed? && step.cp.sequence > s.cps.local.sequence
    && k.sequence <= step.cp.sequence && k.sequence <= s.cps.stable.sequence
  }

  // ---- One step ----

  ghost predicate Follows(c: Config, s: State, step: Step, t: State, k: OpKey, x: Facet)
    requires c.HasPeers()
  {
    Shows(t, k, x) <==> Brings(c, s, step, t, k, x) || (Shows(s, k, x) && !Drops(s, step, k))
  }

  /** op is looked at and becomes op': only its stage may change. */
  predicate Advanced(c: Config, op: Op, op': Op)
    requires c.HasPeers()
  {
    && op' == op.(stage := op'.stage)
    && (Has(op', Locked) <==>
        Has(op, Locked) || (op.hasRequest && op.prePrepare.Some? && |op.prepares| >= 2 * c.F() + 1))
    && (Has(op', Handed) <==> Has(op, Handed) || (Has(op', Locked) && |op.commits| >= 2 * c.F() + 1))
  }

  lemma AdvanceHas(c: Config, s: State, k: OpKey) returns (op': Op)
    requires c.HasPeers() && k in s.ops
    ensures MaybeAdvance(c, s, k).state == s.(ops := s.ops[k := op']) && Advanced(c, s.ops[k], op')
  {
    op' := MaybeAdvance(c, s, k).state.ops[k];
  }

  lemma VoteHas(c: Config, s: State, e: Envelope, j: OpKey) returns (op': Op)
    requires c.HasPeers() && (e.msg == j.PrepareMsg() || e.msg == j.CommitMsg())
    ensures HandleVote(c, s, e).state.ops == s.ops[j := op'] && Advanced(c, Find(s.ops, j).Record(e), op')
  {
    var s1 := s.(ops := s.ops[j := Find(s.ops, j).Record(e)]);
    op' := AdvanceHas(c, s1, j);
    hide MaybeAdvance;
    assert s1.ops[j := op'] == s.ops[j := op'];
  }

  lemma VoteEvents(c: Config, s: State, step: Step, t: State, k: OpKey)
    requires c.HasPeers() && step.Deliver? && HearsVote(c, s, step, step.e.msg)
    ensures !Adopts(c, s, step, t, k) && !GetsRequest(c, s, step, t, k) && !Drops(s, step, k)
    ensures HearsVote(c, s, step, k.PrepareMsg()) <==> step.e.msg == k.PrepareMsg()
    ensures HearsVote(c, s, step, k.CommitMsg()) <==> step.e.msg == k.CommitMsg()
  {
  }

  /** A step that touches nothing of k. */
  lemma NothingFollows(c: Config, s: State, step: Step, t: State, k: OpKey, x: Facet)
    requires c.HasPeers() && !Turn(c, s, step, t, k) && !GetsRequest(c, s, step, t, k) && !Drops(s, step, k)
    requires k in t.ops <==> k in s.ops
    requires k in s.ops ==> t.ops[k] == s.ops[k]
    ensures Follows(c, s, step, t, k, x)
  {
    hide GetsRequest, Drops;
  }

  lemma VotedFollows(c: Config, s: State, step: Step, t: State, k: OpKey, x: Facet)
    requires c.HasPeers() && !Adopts(c, s, step, t, k) && !GetsRequest(c, s, step, t, k) && !Drops(s, step, k)
    requires step.Deliver? && HearsVote(c, s, step, step.e.msg) && k in t.ops
    requires step.e.msg == k.PrepareMsg() || step.e.msg == k.CommitMsg()
    requires Advanced(c, Find(s.ops, k).Record(step.e), t.ops[k])
    ensures Follows(c, s, step, t, k, x)
  {
    hide GetsRequest, Adopts, Drops;
  }

  lemma VoteFollows(c: Config, s: State, step: Step, k: OpKey, x: Facet)
    requires c.HasPeers() && step.Deliver? && HearsVote(c, s, step, step.e.msg)
    ensures Follows(c, s, step, HandleVote(c, s, step.e).state, k, x)
  {
    var m, t := step.e.msg, HandleVote(c, s, step.e).state;
    VoteEvents(c, s, step, t, k);
    var j := OpKey(m.view, m.sequence, m.hash);
    assert m == j.PrepareMsg() || m == j.CommitMsg();
    var op := VoteHas(c, s, step.e, j);
    hide HandleVote, Adopts, GetsRequest, Drops, Follows, Advanced;
    if k == j { VotedFollows(c, s, step, t, k, x); } else { NothingFollows(c, s, step, t, k, x); }
  }

  // ---- Pre-prepares ----

  /** The operation of k with a pre-prepare, and with its request if that is attached. */
  function Given(ops: map<OpKey, Op>, k: OpKey, e: Envelope, requests: set<Hash>): Op
  {
    var op := Find(ops, k);
    op.(prePrepare := Some(e), hasRequest := op.hasRequest || k.hash in requests)
  }

  lemma PreprepareHas(c: Config, s: State, e: Envelope, requests: set<Hash>, j: OpKey) returns (op': Op)
    requires c.HasPeers() && e.msg == j.PrePrepareMsg() && Open(s, j)
    ensures HandlePreprepare(c, s, e, requests).state
            == s.(ops := s.ops[j := op'], accepted := s.accepted[(j.view, j.sequence) := j.hash])
    ensures Advanced(c, Given(s.ops, j, e, requests), op')
  {
    var s1 := s.(ops := s.ops[j := Given(s.ops, j, e, requests)],
                 accepted := s.accepted[(j.view, j.sequence) := j.hash]);
    op' := AdvanceHas(c, s1, j);
    hide MaybeAdvance, Advanced;
    assert s1.ops[j := op'] == s.ops[j := op'];
  }

  ghost predicate Among(es: seq<Envelope>, k: OpKey) { exists e :: e in es && e.msg == k.PrePrepareMsg() }

  /** The pre-prepare of k is handled, if there is one that may be, and nothing else of k is touched. */
  ghost predicate Handles(c: Config, s: State, es: seq<Envelope>, requests: set<Hash>, t: State, k: OpKey)
    requires c.HasPeers()
  {
    if Among(es, k) && Open(s, k)
    then && k in t.ops
         && exists e :: e in es && e.msg == k.PrePrepareMsg() && Advanced(c, Given(s.ops, k, e, requests), t.ops[k])
    else (k in t.ops <==> k in s.ops) && (k in s.ops ==> t.ops[k] == s.ops[k])
  }

  lemma Conflicting(c: Config, s: State, e: Envelope, requests: set<Hash>, j: OpKey)
    requires c.HasPeers() && e.msg == j.PrePrepareMsg() && !Open(s, j)
    ensures HandlePreprepare(c, s, e, requests) == Nothing(s)
  {
  }

  lemma OneHandled(c: Config, s: State, e: Envelope, requests: set<Hash>, k: OpKey)
    requires c.HasPeers() && e.msg.PrePrepare?
    ensures Handles(c, s, [e], requests, HandlePreprepare(c, s, e, requests).state, k)
  {
    hide HandlePreprepare, Advanced, Given;
    var j := OpKey(e.msg.view, e.msg.sequence, e.msg.hash);
    assert e in [e];
    assert Among([e], k) <==> k == j;
    if Open(s, j) {
      var op := PreprepareHas(c, s, e, requests, j);
    } else {
      Conflicting(c, s, e, requests, j);
    }
  }

  /** One pre-prepare for each sequence of one view. */
  ghost predicate Distinct(es: seq<Envelope>, w: nat)
  {
    && (forall e | e in es :: e.msg.PrePrepare? && e.msg.view == w)
    && (forall i, j | 0 <= i < j < |es| :: es[i].msg.sequence != es[j].msg.sequence)
  }

  lemma AmongTail(es: seq<Envelope>, w: nat, k: OpKey)
    requires Distinct(es, w) && es != []
    ensures Distinct(es[1..], w)
    ensures Among(es, k) <==> Among([es[0]], k) || Among(es[1..], k)
    ensures Among([es[0]], k) ==> !Among(es[1..], k)
    ensures Among(es[1..], k) ==> (k.view, k.sequence) != (es[0].msg.view, es[0].msg.sequence)
  {
    assert es == [es[0]] + es[1..];
    if Among(es[1..], k) {
      var e :| e in es[1..] && e.msg == k.PrePrepareMsg();
      var i :| 0 <= i < |es[1..]| && es[1..][i] == e;
      assert es[i + 1] == e;
    }
  }

  lemma {:induction false} AllHandled(c: Config, s: State, es: seq<Envelope>, w: nat, requests: set<Hash>, k: OpKey)
    requires c.HasPeers() && Distinct(es, w)
    ensures Handles(c, s, es, requests, HandlePreprepares(c, s, es, requests).state, k)
    decreases |es|
  {
    hide HandlePreprepare, Advanced;
    if es != [] {
      var t0 := HandlePreprepare(c, s, es[0], requests).state;
      var s1 := t0.(nextIssued := es[0].msg.sequence + 1);
      OneHandled(c, s, es[0], requests, k);
      PreprepareAccepted(c, s, es[0], requests);
      AmongTail(es, w, k);
      assert Among(es[1..], k) ==> (Open(s1, k) <==> Open(s, k)) && Find(s1.ops, k) == Find(s.ops, k);
      AllHandled(c, s1, es[1..], w, requests, k);
      assert HandlePreprepares(c, s, es, requests).state == HandlePreprepares(c, s1, es[1..], requests).state;
    }
  }

  lemma HandledFollows(c: Config, s: State, step: Step, es: seq<Envelope>, t: State, k: OpKey, x: Facet)
    requires c.HasPeers() && step.Deliver? && Handles(c, s, es, step.requests, t, k)
    requires HearsProposal(c, s, step, t, k) <==> Among(es, k)
    requires !HearsVote(c, s, step, k.PrepareMsg()) && !HearsVote(c, s, step, k.CommitMsg())
    requires !HearsViewchange(c, s, step)
    ensures Follows(c, s, step, t, k, x)
  {
    hide HearsProposal, HearsVote, HearsViewchange, Among;
    if Adopts(c, s, step, t, k) {
      var e :| e in es && e.msg == k.PrePrepareMsg() && Advanced(c, Given(s.ops, k, e, step.requests), t.ops[k]);
    }
  }

  lemma PreprepareFollows(c: Config, s: State, step: Step, k: OpKey, x: Facet)
    requires c.HasPeers() && step.Deliver? && step.e.msg.PrePrepare? && c.IsPeer(step.e.sender)
    requires s.viewIsValid && step.e.msg.view == s.view
    ensures Follows(c, s, step, HandlePreprepare(c, s, step.e, step.requests).state, k, x)
  {
    var t := HandlePreprepare(c, s, step.e, step.requests).state;
    OneHandled(c, s, step.e, step.requests, k);
    hide HandlePreprepare, Handles, Follows;
    assert step.e in [step.e];
    HandledFollows(c, s, step, [step.e], t, k, x);
  }

  lemma NewviewFollows(c: Config, s: State, step: Step, k: OpKey, x: Facet)
    requires c.HasPeers() && step.Deliver? && c.IsPeer(step.e.sender) && ValidNewview(c, s.view, step.e)
    ensures Follows(c, s, step, HandleNewview(c, s, step.e, step.requests).state, k, x)
  {
    var t, es := HandleNewview(c, s, step.e, step.requests).state, step.e.msg.preprepares;
    NewviewFacts(c, s.view, step.e);
    NewviewRules(c, s, step.e, step.requests);
    PreparesInOrder(c, s.view, step.e);
    hide ValidNewview, HandlePreprepares, Handles, Follows;
    var s1 := EnterView(c, s, step.e.msg);
    AllHandled(c, s1, es, step.e.msg.view, step.requests, k);
    EnteredHandles(c, s, s1, es, step.requests, t, k);
    HandledFollows(c, s, step, es, t, k, x);
  }

  lemma EnteredHandles(c: Config, s: State, s1: State, es: seq<Envelope>, requests: set<Hash>, t: State, k: OpKey)
    requires c.HasPeers() && s1.ops == s.ops && s1.accepted == s.accepted && Handles(c, s1, es, requests, t, k)
    ensures Handles(c, s, es, requests, t, k)
  {
  }

  // ---- Requests that travel with a VIEWCHANGE ----

  lemma {:induction false} SavedHas(ops: map<OpKey, Op>, proofs: seq<Proof>, requests: set<Hash>, k: OpKey)
    ensures var saved := SaveRequests(ops, proofs, requests);
            if Certifies(proofs, k) && k.hash in requests
            then k in saved && saved[k] == Find(ops, k).(hasRequest := true)
            else (k in saved <==> k in ops) && (k in ops ==> saved[k] == ops[k])
    decreases |proofs|
  {
    if proofs != [] {
      assert proofs == [proofs[0]] + proofs[1..];
      var pp := proofs[0].prePrepare.msg;
      var ops' := if pp.PrePrepare? && pp.hash in requests
                  then var k := OpKey(pp.view, pp.sequence, pp.hash); ops[k := Find(ops, k).(hasRequest := true)]
                  else ops;
      SavedHas(ops', proofs[1..], requests, k);
      assert Certifies(proofs, k) <==> pp == k.PrePrepareMsg() || Certifies(proofs[1..], k);
    }
  }

  lemma ViewchangeOps(c: Config, s: State, e: Envelope, requests: set<Hash>, vc: Msg)
    requires c.HasPeers() && e.msg.ViewChange?
    ensures HandleViewchange(c, s, e, requests, vc).state.ops
            == if ValidViewchange(c, s.view, e) then SaveRequests(s.ops, e.msg.proofs, requests) else s.ops
  {
    hide ValidViewchange, NewviewOut, JoinsViewchange, RecordClaims, SaveRequests;
  }

  /** A step that at most brings the request of k. */
  lemma RequestedFollows(c: Config, s: State, step: Step, t: State, k: OpKey, x: Facet)
    requires c.HasPeers() && !Turn(c, s, step, t, k) && !Drops(s, step, k)
    requires if GetsRequest(c, s, step, t, k) then k in t.ops && t.ops[k] == Find(s.ops, k).(hasRequest := true)
             else (k in t.ops <==> k in s.ops) && (k in s.ops ==> t.ops[k] == s.ops[k])
    ensures Follows(c, s, step, t, k, x)
  {
    hide GetsRequest, Drops;
  }

  lemma ViewchangeFollows(c: Config, s: State, step: Step, k: OpKey, x: Facet)
    requires c.HasPeers() && step.Deliver? && c.IsPeer(step.e.sender) && step.e.msg.ViewChange?
    ensures Follows(c, s, step, HandleViewchange(c, s, step.e, step.requests, step.vc).state, k, x)
  {
    var t := HandleViewchange(c, s, step.e, step.requests, step.vc).state;
    ViewchangeOps(c, s, step.e, step.requests, step.vc);
    SavedHas(s.ops, step.e.msg.proofs, step.requests, k);
    assert !Turn(c, s, step, t, k) && !Drops(s, step, k);
    hide ValidViewchange, HandleViewchange, SaveRequests, Turn, Drops, Follows, Certifies;
    RequestedFollows(c, s, step, t, k, x);
  }

  // ---- Any step ----

  lemma RequestFollows(c: Config, s: State, step: Step, k: OpKey, x: Facet)
    requires c.HasPeers() && step.Request?
    ensures Follows(c, s, step, HandleRequest(c, s, step.h).state, k, x)
  {
    var t := HandleRequest(c, s, step.h).state;
    assert !Turn(c, s, step, t, k) && !Drops(s, step, k);
    hide Turn, Drops, Follows;
    RequestedFollows(c, s, step, t, k, x);
  }

  lemma ExecutedFollows(c: Config, s: State, step: Step, k: OpKey, x: Facet)
    requires c.HasPeers() && step.Executed?
    ensures Follows(c, s, step, HandleExecuted(s, step.cp).state, k, x)
  {
    var t := HandleExecuted(s, step.cp).state;
    assert !Turn(c, s, step, t, k) && !GetsRequest(c, s, step, t, k);
    hide Turn, GetsRequest;
  }

  lemma FailureFollows(c: Config, s: State, step: Step, k: OpKey, x: Facet)
    requires c.HasPeers() && step.Failure?
    ensures Follows(c, s, step, InitiateViewchange(s, s.view + 1, step.vc).state, k, x)
  {
    var t := InitiateViewchange(s, s.view + 1, step.vc).state;
    assert !Turn(c, s, step, t, k) && !GetsRequest(c, s, step, t, k) && !Drops(s, step, k);
    hide Turn, GetsRequest, Drops;
  }

  lemma NewviewIgnored(c: Config, s: State, step: Step, k: OpKey, x: Facet)
    requires c.HasPeers() && step.Deliver? && step.e.msg.NewView?
    ensures Follows(c, s, step, s, k, x)
  {
  }

  lemma OtherFollows(c: Config, s: State, step: Step, t: State, k: OpKey, x: Facet)
    requires c.HasPeers() && step.Deliver? && !step.e.msg.NewView? && t.ops == s.ops
    requires step.e.msg.CheckpointMsg? || !c.IsPeer(step.e.sender)
             || (!step.e.msg.ViewChange? && !(s.viewIsValid && step.e.msg.view == s.view))
    ensures Follows(c, s, step, t, k, x)
  {
  }

  lemma StepFollows(c: Config, s: State, step: Step, k: OpKey, x: Facet)
    requires c.HasPeers() && !step.Inject?
    ensures Follows(c, s, step, EffectOf(c, s, step).state, k, x)
  {
    hide Follows, HandlePreprepare, HandleVote, HandleViewchange, HandleNewview, RecordClaim, ValidNewview;
    hide HandleRequest, HandleExecuted, InitiateViewchange;
    if step.Request? {
      RequestFollows(c, s, step, k, x);
    } else if step.Executed? {
      ExecutedFollows(c, s, step, k, x);
    } else if step.Failure? {
      FailureFollows(c, s, step, k, x);
    } else {
      var e, t := step.e, EffectOf(c, s, step).state;
      if e.msg.NewView? {
        if c.IsPeer(e.sender) && ValidNewview(c, s.view, e) {
          NewviewFollows(c, s, step, k, x);
        } else {
          if c.IsPeer(e.sender) { NewviewRejected(c, s, e, step.requests); }
          NewviewIgnored(c, s, step, k, x);
        }
      } else if e.msg.ViewChange? && c.IsPeer(e.sender) {
        ViewchangeFollows(c, s, step, k, x);
      } else if !e.msg.CheckpointMsg? && c.IsPeer(e.sender) && s.viewIsValid && e.msg.view == s.view {
        if e.msg.PrePrepare? { PreprepareFollows(c, s, step, k, x); } else { VoteFollows(c, s, step, k, x); }
      } else {
        OtherFollows(c, s, step, t, k, x);
      }
    }
  }

  // ---- Whole runs ----

  /** Step i is one of replica r. */
  ghost predicate IsStepOf(states: seq<System>, steps: seq<Step>, i: nat, r: Uuid)
  {
    && i < |steps| && |states| == |steps| + 1 && !steps[i].Inject? && steps[i].r == r
    && r in states[i].replicas && r in states[i + 1].replicas
  }

  ghost predicate BringsAt(c: Config, states: seq<System>, steps: seq<Step>, i: nat, r: Uuid, k: OpKey, x: Facet)
    requires c.HasPeers()
  {
    IsStepOf(states, steps, i, r)
      && Brings(c, states[i].replicas[r], steps[i], states[i + 1].replicas[r], k, x)
  }

  ghost predicate DropsAt(states: seq<System>, steps: seq<Step>, i: nat, r: Uuid, k: OpKey)
  {
    IsStepOf(states, steps, i, r) && Drops(states[i].replicas[r], steps[i], k)
  }

  /** Replica r has not dropped k between step i and state j. */
  ghost predicate Kept(states: seq<System>, steps: seq<Step>, i: nat, j: nat, r: Uuid, k: OpKey)
  {
    forall l | i < l < j :: !DropsAt(states, steps, l, r, k)
  }

  lemma FacetStep(c: Config, states: seq<System>, steps: seq<Step>, i: nat, r: Uuid, k: OpKey, x: Facet)
    requires c.HasPeers() && IsRun(c, states, steps) && i < |steps| && c.Correct(r)
    ensures r in states[i].replicas && r in states[i + 1].replicas
    ensures Shows(states[i + 1].replicas[r], k, x) <==>
            BringsAt(c, states, steps, i, r, k, x)
              || (Shows(states[i].replicas[r], k, x) && !DropsAt(states, steps, i, r, k))
  {
    Present(c, states, steps, i, r);
    Present(c, states, steps, i + 1, r);
    assert Takes(c, states, steps, i);
    hide IsRun, Local, EffectOf, Enabled, Brings, Drops, Shows;
    if !steps[i].Inject? && steps[i].r == r { StepFollows(c, states[i].replicas[r], steps[i], k, x); }
  }

  /** Some step before state j brought the facet, and k was not dropped since. */
  ghost predicate Heard(c: Config, states: seq<System>, steps: seq<Step>, j: nat, r: Uuid, k: OpKey, x: Facet)
    requires c.HasPeers()
  {
    exists i: nat :: i < j && BringsAt(c, states, steps, i, r, k, x) && Kept(states, steps, i, j, r, k)
  }

  lemma HeardMore(c: Config, states: seq<System>, steps: seq<Step>, j: nat, r: Uuid, k: OpKey, x: Facet)
    requires c.HasPeers()
    ensures Heard(c, states, steps, j + 1, r, k, x) <==>
            BringsAt(c, states, steps, j, r, k, x)
              || (Heard(c, states, steps, j, r, k, x) && !DropsAt(states, steps, j, r, k))
  {
    hide BringsAt, DropsAt;
    forall i: nat | i < j
      ensures Kept(states, steps, i, j + 1, r, k)
              <==> Kept(states, steps, i, j, r, k) && !DropsAt(states, steps, j, r, k)
    {
    }
    assert Kept(states, steps, j, j + 1, r, k);
    hide Kept;
  }

  lemma BlankAtFirst(c: Config, states: seq<System>, steps: seq<Step>, r: Uuid)
    requires c.HasPeers() && IsRun(c, states, steps) && r in states[0].replicas
    ensures states[0].replicas[r] == Initial(r)
  {
    assert Init(c, states[0]);
  }

  lemma NothingAtFirst(c: Config, states: seq<System>, steps: seq<Step>, r: Uuid, k: OpKey, x: Facet)
    requires c.HasPeers() && IsRun(c, states, steps) && r in states[0].replicas
    ensures !Shows(states[0].replicas[r], k, x) && !Heard(c, states, steps, 0, r, k, x)
  {
    BlankAtFirst(c, states, steps, r);
  }

  /** A replica shows a facet of an operation if and only if some step brought it and the operation
      was not dropped since. */
  lemma {:induction false} FacetIff(c: Config, states: seq<System>, steps: seq<Step>, j: nat, r: Uuid, k: OpKey,
                                    x: Facet)
    requires c.HasPeers() && IsRun(c, states, steps) && j < |states| && c.Correct(r)
    ensures r in states[j].replicas
    ensures Shows(states[j].replicas[r], k, x) <==> Heard(c, states, steps, j, r, k, x)
    decreases j
  {
    Present(c, states, steps, j, r);
    if j == 0 {
      NothingAtFirst(c, states, steps, r, k, x);
    } else {
      FacetIff(c, states, steps, j - 1, r, k, x);
      hide Local, Shows, Heard;
      FacetNext(c, states, steps, j - 1, r, k, x);
    }
  }

  lemma FacetNext(c: Config, states: seq<System>, steps: seq<Step>, i: nat, r: Uuid, k: OpKey, x: Facet)
    requires c.HasPeers() && IsRun(c, states, steps) && i < |steps| && c.Correct(r) && r in states[i].replicas
    requires Shows(states[i].replicas[r], k, x) <==> Heard(c, states, steps, i, r, k, x)
    ensures r in states[i + 1].replicas
    ensures Shows(states[i + 1].replicas[r], k, x) <==> Heard(c, states, steps, i + 1, r, k, x)
  {
    hide IsRun, Shows, Heard, BringsAt, DropsAt;
    FacetStep(c, states, steps, i, r, k, x);
    HeardMore(c, states, steps, i, r, k, x);
  }

  /** The pre-prepare that is held after an adoption is the one that was adopted. */
  lemma ProposalShown(c: Config, states: seq<System>, steps: seq<Step>, i: nat, r: Uuid, k: OpKey)
    requires c.HasPeers() && IsRun(c, states, steps) && BringsAt(c, states, steps, i, r, k, Proposed)
    ensures Shows(states[i + 1].replicas[r], k, Proposed)
    ensures var e := states[i + 1].replicas[r].ops[k].prePrepare.value;
            && e.msg == k.PrePrepareMsg()
            && if steps[i].e.msg.NewView? then e in steps[i].e.msg.preprepares else e == steps[i].e
  {
    assert Takes(c, states, steps, i);
    var s, step := states[i].replicas[r], steps[i];
    hide IsRun, Enabled;
    if step.e.msg.NewView? {
      ShownInNewview(c, s, step, k);
    } else {
      var op := PreprepareHas(c, s, step.e, step.requests, k);
      hide HandlePreprepare;
    }
  }

  lemma ShownInNewview(c: Config, s: State, step: Step, k: OpKey)
    requires c.HasPeers() && step.Deliver? && step.e.msg.NewView?
    requires var t := HandleNewview(c, s, step.e, step.requests).state; Adopts(c, s, step, t, k)
    ensures var t := HandleNewview(c, s, step.e, step.requests).state;
            && k in t.ops && t.ops[k].prePrepare.Some?
            && var e := t.ops[k].prePrepare.value; e.msg == k.PrePrepareMsg() && e in step.e.msg.preprepares
  {
    var t, es := HandleNewview(c, s, step.e, step.requests).state, step.e.msg.preprepares;
    assert ValidNewview(c, s.view, step.e);
    NewviewFacts(c, s.view, step.e);
    PreparesInOrder(c, s.view, step.e);
    assert Distinct(es, step.e.msg.view);
    hide ValidNewview, HandlePreprepares, Distinct, Handles;
    var s1 := EnterView(c, s, step.e.msg);
    AllHandled(c, s1, es, step.e.msg.view, step.requests, k);
    EnteredHandles(c, s, s1, es, step.requests, t, k);
    HandledShown(c, s, es, step.requests, t, k);
  }

  lemma HandledShown(c: Config, s: State, es: seq<Envelope>, requests: set<Hash>, t: State, k: OpKey)
    requires c.HasPeers() && Handles(c, s, es, requests, t, k) && Among(es, k) && Open(s, k)
    ensures k in t.ops && t.ops[k].prePrepare.Some?
    ensures var e := t.ops[k].prePrepare.value; e.msg == k.PrePrepareMsg() && e in es
  {
  }

  // ---- Deletion and saved requests ----

  /** Reaching a checkpoint deletes exactly the operations that it and the stable checkpoint both
      cover, keeps the others as they are, and announces the checkpoint. */
  lemma DeletedAtCheckpoint(c: Config, states: seq<System>, steps: seq<Step>, i: nat, k: OpKey)
    requires c.HasPeers() && IsRun(c, states, steps) && i < |steps| && steps[i].Executed?
    ensures steps[i].r in states[i].replicas && steps[i].r in states[i + 1].replicas
    ensures var cp, s, t := steps[i].cp, states[i].replicas[steps[i].r], states[i + 1].replicas[steps[i].r];
            if cp.sequence > s.cps.local.sequence then
              && t.cps.local == cp && t.cps.stable == s.cps.stable
              && (k in t.ops <==> k in s.ops && (k.sequence > cp.sequence || k.sequence > s.cps.stable.sequence))
              && (k in t.ops ==> t.ops[k] == s.ops[k])
              && Envelope(steps[i].r, CheckpointMsg(cp)) in states[i + 1].sent
            else
              t == s
  {
    assert Takes(c, states, steps, i);
  }

  /** A valid VIEWCHANGE leaves the request of every certificate it comes with, and touches
      nothing else of any operation. */
  lemma RequestsSaved(c: Config, states: seq<System>, steps: seq<Step>, i: nat, k: OpKey)
    requires c.HasPeers() && IsRun(c, states, steps) && i < |steps| && steps[i].Deliver?
    requires steps[i].r in states[i].replicas && HearsViewchange(c, states[i].replicas[steps[i].r], steps[i])
    ensures steps[i].r in states[i + 1].replicas
    ensures var ops, ops' := states[i].replicas[steps[i].r].ops, states[i + 1].replicas[steps[i].r].ops;
            if k.hash in steps[i].requests && Certifies(steps[i].e.msg.proofs, k) then
              && k in ops' && ops'[k].hasRequest
              && (if k in ops then ops'[k] == ops[k].(hasRequest := true)
                  else ops'[k].stage == PrepareStage && ops'[k].prePrepare.None?
                       && ops'[k].prepares == map[] && ops'[k].commits == {})
            else
              (k in ops' <==> k in ops) && (k in ops ==> ops'[k] == ops[k])
  {
    var s, step := states[i].replicas[steps[i].r], steps[i];
    assert Takes(c, states, steps, i);
    ViewchangeOps(c, s, step.e, step.requests, step.vc);
    SavedHas(s.ops, step.e.msg.proofs, step.requests, k);
    hide IsRun, Enabled, HandleViewchange, SaveRequests, ValidViewchange, Certifies;
  }

  // ---- The first proposal wins ----

  predicate Accepted(s: State, k: OpKey)
  {
    (k.view, k.sequence) in s.accepted && s.accepted[(k.view, k.sequence)] == k.hash
  }

  ghost predicate AcceptFollows(c: Config, s: State, step: Step, t: State, k: OpKey)
  {
    Accepted(t, k) <==>
    if (k.view, k.sequence) in s.accepted then Accepted(s, k) else HearsProposal(c, s, step, t, k)
  }

  lemma SameSlot(es: seq<Envelope>, e: Envelope, k: OpKey)
    requires Distinct(es, k.view)
    requires e in es && e.msg.sequence == k.sequence
    ensures Among(es, k) <==> e.msg.hash == k.hash
  {
    var i :| 0 <= i < |es| && es[i] == e;
    if Among(es, k) {
      var e' :| e' in es && e'.msg == k.PrePrepareMsg();
      var j :| 0 <= j < |es| && es[j] == e';
    }
  }

  lemma SlotsFilled(s: State, es: seq<Envelope>, w: nat, t: State, k: OpKey)
    requires Distinct(es, w)
    requires forall slot | slot in s.accepted :: slot in t.accepted && t.accepted[slot] == s.accepted[slot]
    requires forall e | e in es :: (e.msg.view, e.msg.sequence) in t.accepted
    requires forall slot | slot in t.accepted && slot !in s.accepted ::
               exists e :: e in es && (e.msg.view, e.msg.sequence) == slot && e.msg.hash == t.accepted[slot]
    ensures Accepted(t, k) <==> if (k.view, k.sequence) in s.accepted then Accepted(s, k) else Among(es, k)
  {
    var slot := (k.view, k.sequence);
    if slot !in s.accepted && slot in t.accepted {
      var e :| e in es && (e.msg.view, e.msg.sequence) == slot && e.msg.hash == t.accepted[slot];
      SameSlot(es, e, k);
    }
  }

  lemma HearsInNewview(c: Config, s: State, step: Step, t: State, k: OpKey)
    requires step.Deliver? && step.e.msg.NewView? && c.IsPeer(step.e.sender) && t.view != s.view
    ensures HearsProposal(c, s, step, t, k) <==> Among(step.e.msg.preprepares, k)
  {
  }

  /** The state in which the pre-prepares of a NEWVIEW are processed, and what comes of it. */
  lemma NewviewFills(c: Config, s: State, e: Envelope, requests: set<Hash>) returns (s1: State)
    requires c.HasPeers() && ValidNewview(c, s.view, e)
    ensures e.msg.NewView? && Distinct(e.msg.preprepares, e.msg.view) && s1.accepted == s.accepted
    ensures var t := HandleNewview(c, s, e, requests).state;
            t == HandlePreprepares(c, s1, e.msg.preprepares, requests).state && t.view != s.view
  {
    NewviewFacts(c, s.view, e);
    NewviewRules(c, s, e, requests);
    PreparesInOrder(c, s.view, e);
    hide ValidNewview, HandlePreprepares, AcceptRules;
    s1 := EnterView(c, s, e.msg);
  }

  lemma NewviewAccepted(c: Config, s: State, step: Step, k: OpKey)
    requires c.HasPeers() && step.Deliver? && c.IsPeer(step.e.sender) && ValidNewview(c, s.view, step.e)
    ensures AcceptFollows(c, s, step, HandleNewview(c, s, step.e, step.requests).state, k)
  {
    hide ValidNewview, HandleNewview, HandlePreprepares, Accepted, HearsProposal, Among;
    var s1 := NewviewFills(c, s, step.e, step.requests);
    var t, es := HandleNewview(c, s, step.e, step.requests).state, step.e.msg.preprepares;
    PrepreparesAccepted(c, s1, es, step.requests);
    PrepreparesKept(c, s1, es, step.requests);
    SlotsFilled(s1, es, step.e.msg.view, t, k);
    SameAccepted(s, s1, k);
    HearsInNewview(c, s, step, t, k);
  }

  lemma SameAccepted(s: State, t: State, k: OpKey)
    requires s.accepted == t.accepted
    ensures Accepted(s, k) <==> Accepted(t, k)
  {
  }

  lemma PreprepareAccepts(c: Config, s: State, step: Step, t: State, k: OpKey)
    requires c.HasPeers() && step.Deliver? && step.e.msg.PrePrepare? && c.IsPeer(step.e.sender)
    requires s.viewIsValid && step.e.msg.view == s.view
    requires t.accepted == HandlePreprepare(c, s, step.e, step.requests).state.accepted
    ensures AcceptFollows(c, s, step, t, k)
  {
    PreprepareAccepted(c, s, step.e, step.requests);
    hide HandlePreprepare;
  }

  lemma StepAccepted(c: Config, s: State, step: Step, k: OpKey)
    requires c.HasPeers() && !step.Inject?
    ensures AcceptFollows(c, s, step, EffectOf(c, s, step).state, k)
  {
    hide HandlePreprepare, HandleVote, HandleViewchange, HandleNewview, RecordClaim, ValidNewview;
    if step.Deliver? {
      var e, t := step.e, EffectOf(c, s, step).state;
      OthersKeepAccepted(c, s, e, step.requests, step.vc);
      if e.msg.NewView? && c.IsPeer(e.sender) {
        if ValidNewview(c, s.view, e) {
          NewviewAccepted(c, s, step, k);
        } else {
          NewviewRejected(c, s, e, step.requests);
        }
      } else if e.msg.PrePrepare? && c.IsPeer(e.sender) && s.viewIsValid && e.msg.view == s.view {
        PreprepareAccepts(c, s, step, t, k);
      }
    }
  }

  ghost predicate HearsAt(c: Config, states: seq<System>, steps: seq<Step>, i: nat, r: Uuid, k: OpKey)
  {
    IsStepOf(states, steps, i, r) && HearsProposal(c, states[i].replicas[r], steps[i], states[i + 1].replicas[r], k)
  }

  /** Replica r heard of no request for this view and sequence before step i. */
  ghost predicate NoneBefore(c: Config, states: seq<System>, steps: seq<Step>, i: nat, r: Uuid, v: nat, s: nat)
  {
    forall l: nat, h: Hash | l < i :: !HearsAt(c, states, steps, l, r, OpKey(v, s, h))
  }

  lemma AcceptStep(c: Config, states: seq<System>, steps: seq<Step>, i: nat, r: Uuid, k: OpKey)
    requires c.HasPeers() && IsRun(c, states, steps) && i < |steps| && c.Correct(r)
    ensures r in states[i].replicas && r in states[i + 1].replicas
    ensures var s := states[i].replicas[r];
            Accepted(states[i + 1].replicas[r], k) <==>
            if (k.view, k.sequence) in s.accepted then Accepted(s, k) else HearsAt(c, states, steps, i, r, k)
  {
    Present(c, states, steps, i, r);
    Present(c, states, steps, i + 1, r);
    assert Takes(c, states, steps, i);
    hide IsRun, Local, EffectOf, Enabled, HearsProposal;
    if !steps[i].Inject? && steps[i].r == r { StepAccepted(c, states[i].replicas[r], steps[i], k); }
  }

  /** A replica has accepted h for a view and sequence if and only if that is the first request it
      heard proposed there. */
  lemma {:induction false} FirstProposalWins(c: Config, states: seq<System>, steps: seq<Step>, j: nat, r: Uuid,
                                             k: OpKey)
    requires c.HasPeers() && IsRun(c, states, steps) && j < |states| && c.Correct(r)
    ensures r in states[j].replicas
    ensures Accepted(states[j].replicas[r], k) <==>
            exists i: nat :: && i < j && HearsAt(c, states, steps, i, r, k)
                             && NoneBefore(c, states, steps, i, r, k.view, k.sequence)
    ensures (k.view, k.sequence) in states[j].replicas[r].accepted <==>
            !NoneBefore(c, states, steps, j, r, k.view, k.sequence)
  {
    Present(c, states, steps, j, r);
    if j == 0 {
      BlankAtFirst(c, states, steps, r);
    } else {
      FirstProposalWins(c, states, steps, j - 1, r, k);
      var s, t := states[j - 1].replicas[r], states[j].replicas[r];
      forall h ensures var k' := OpKey(k.view, k.sequence, h);
                       Accepted(t, k') <==> if (k.view, k.sequence) in s.accepted then Accepted(s, k')
                                            else HearsAt(c, states, steps, j - 1, r, k')
      {
        AcceptStep(c, states, steps, j - 1, r, OpKey(k.view, k.sequence, h));
      }
      hide IsRun, Local, HearsAt;
      NoneBeforeMore(c, states, steps, j - 1, r, k.view, k.sequence);
      var slot := (k.view, k.sequence);
      assert slot in s.accepted ==> Accepted(s, OpKey(k.view, k.sequence, s.accepted[slot]));
      assert slot in t.accepted ==> Accepted(t, OpKey(k.view, k.sequence, t.accepted[slot]));
    }
  }

  lemma NoneBeforeMore(c: Config, states: seq<System>, steps: seq<Step>, i: nat, r: Uuid, v: nat, s: nat)
    ensures NoneBefore(c, states, steps, i + 1, r, v, s) <==>
            NoneBefore(c, states, steps, i, r, v, s) && forall h :: !HearsAt(c, states, steps, i, r, OpKey(v, s, h))
  {
    hide HearsAt;
  }
}
