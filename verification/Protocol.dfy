/** The swarm as a step system, and what every run of it keeps. */
module Protocol {
  import opened Quorum
  import opened Messages
  import opened Operations
  import opened Checkpoints
  import opened ViewChange
  import opened Replica

  /** The correct replicas and every envelope signed so far. */
  datatype System = System(replicas: map<Uuid, State>, sent: set<Envelope>)

  /** requests and vc resolve what the code leaves open: which requests travel with a message,
      and in which order a viewchange lists its checkpoint claims. */
  datatype Step =
    | Deliver(r: Uuid, e: Envelope, requests: set<Hash>, vc: Msg)
    | Request(r: Uuid, h: Hash)
    | Failure(r: Uuid, vc: Msg)
    | Executed(r: Uuid, cp: Checkpoint)
    | Inject(e: Envelope)               // by a faulty peer or an outsider

  ghost predicate Init(c: Config, y: System)
  {
    && y.sent == {}
    && (forall u :: u in y.replicas <==> c.Correct(u))
    && forall u | u in y.replicas :: y.replicas[u] == Initial(u)
  }

  /** Where handle_viewchange calls initiate_viewchange, vc is what make_viewchange returns there. */
  ghost predicate GoodChoice(c: Config, s: State, e: Envelope, requests: set<Hash>, vc: Msg)
    requires c.HasPeers()
  {
    ValidViewchange(c, s.view, e) ==>
      var s1 := SaveViewchange(c, s, e, requests);
      JoinsViewchange(c, s1, e.msg.view) ==> ViewchangeFrom(s1.cps, s1.ops, e.msg.view, vc)
  }

  ghost predicate Enabled(c: Config, y: System, step: Step)
    requires c.HasPeers()
  {
    match step
    case Deliver(r, e, requests, vc) => r in y.replicas && e in y.sent && GoodChoice(c, y.replicas[r], e, requests, vc)
    case Request(r, h) => r in y.replicas
    case Failure(r, vc) => r in y.replicas
      && ViewchangeFrom(y.replicas[r].cps, y.replicas[r].ops, y.replicas[r].view + 1, vc)
    case Executed(r, cp) => r in y.replicas
    case Inject(e) => !c.Correct(e.sender) && Authentic(c, y.sent, e)
  }

  ghost function EffectOf(c: Config, s: State, step: Step): Effect
    requires c.HasPeers()
  {
    match step
    case Deliver(_, e, requests, vc) => HandleMessage(c, s, e, requests, vc)
    case Request(_, h) => HandleRequest(c, s, h)
    case Failure(_, vc) => InitiateViewchange(s, s.view + 1, vc)
    case Executed(_, cp) => HandleExecuted(s, cp)
    case Inject(_) => Nothing(s)
  }

  function Signed(id: Uuid, out: set<Msg>): set<Envelope>
  {
    set m | m in out :: Envelope(id, m)
  }

  ghost function Apply(c: Config, y: System, step: Step): System
    requires c.HasPeers() && Enabled(c, y, step)
  {
    if step.Inject? then y.(sent := y.sent + {step.e})
    else
      var eff := EffectOf(c, y.replicas[step.r], step);
      System(y.replicas[step.r := eff.state], y.sent + Signed(step.r, eff.out))
  }

  ghost predicate IsRun(c: Config, states: seq<System>, steps: seq<Step>)
    requires c.HasPeers()
  {
    && |states| == |steps| + 1
    && Init(c, states[0])
    && forall i | 0 <= i < |steps| :: Takes(c, states, steps, i)
  }

  ghost predicate Takes(c: Config, states: seq<System>, steps: seq<Step>, i: nat)
    requires c.HasPeers() && i < |steps| && |states| == |steps| + 1
  {
    Enabled(c, states[i], steps[i]) && states[i + 1] == Apply(c, states[i], steps[i])
  }

  // ---- what each replica keeps ----

  /** The votes recorded for k are genuine, and its stage is backed by them. */
  ghost predicate OpOk(c: Config, sent: set<Envelope>, id: Uuid, view: nat, k: OpKey, op: Op)
    requires c.HasPeers()
  {
    && (op.prePrepare.Some? ==>
          var e := op.prePrepare.value;
          c.IsPeer(e.sender) && e.msg == k.PrePrepareMsg() && (c.Correct(e.sender) ==> e in sent))
    && (forall u | u in op.prepares ::
          c.IsPeer(u) && op.prepares[u] == Envelope(u, k.PrepareMsg()) && (c.Correct(u) ==> op.prepares[u] in sent))
    && (forall u | u in op.commits :: c.IsPeer(u) && (c.Correct(u) ==> Envelope(u, k.CommitMsg()) in sent))
    && (op.IsPrepared() ==>
          && op.ReadyForCommit(c.n) && k.view <= view
          && Envelope(id, k.CommitMsg()) in sent)
    && (op.stage == ExecuteStage ==> |op.commits| >= HonestMajority(c.n))
  }

  ghost predicate OpsOk(c: Config, sent: set<Envelope>, s: State)
    requires c.HasPeers()
  {
    forall k | k in s.ops :: OpOk(c, sent, s.id, s.view, k, s.ops[k])
  }

  ghost predicate ClaimsOk(c: Config, sent: set<Envelope>, cp: Checkpoint, claims: map<Uuid, Envelope>)
  {
    forall u | u in claims :: claims[u] == Envelope(u, CheckpointMsg(cp)) && (c.Correct(u) ==> claims[u] in sent)
  }

  /** Every claim is genuine, and the stable checkpoint has f+1 of them from peers. */
  ghost predicate CpsOk(c: Config, sent: set<Envelope>, m: Checkpoints)
    requires c.HasPeers()
  {
    && ClaimsOk(c, sent, m.stable, m.stableProof)
    && (forall cp | cp in m.partial :: ClaimsOk(c, sent, cp, m.partial[cp]))
    && (m.stable == INITIAL || PeerClaims(c.n, m.stableProof) >= HonestMember(c.n))
  }

  ghost predicate SavedViewchangesOk(c: Config, sent: set<Envelope>, saved: map<nat, map<Uuid, Envelope>>)
    requires c.HasPeers()
  {
    forall w, u | w in saved && u in saved[w] :: SavedViewchangeOk(c, sent, w, u, saved[w][u])
  }

  ghost predicate SavedViewchangeOk(c: Config, sent: set<Envelope>, w: nat, u: Uuid, e: Envelope)
    requires c.HasPeers()
  {
    e.sender == u && WellFormedViewchange(c, e) && e.msg.view == w && Authentic(c, sent, e)
  }

  /** A replica prepares one request only for each view and sequence. */
  ghost predicate PreparesOk(c: Config, sent: set<Envelope>, s: State)
  {
    forall k: OpKey | Envelope(s.id, k.PrepareMsg()) in sent ::
      (k.view, k.sequence) in s.accepted && s.accepted[(k.view, k.sequence)] == k.hash
  }

  /** A commit follows 2f+1 prepares, and the operation is kept until it is safe to delete. */
  ghost predicate CommitsOk(c: Config, sent: set<Envelope>, s: State)
    requires c.HasPeers()
  {
    forall k: OpKey | Envelope(s.id, k.CommitMsg()) in sent ::
      && Certified(c, sent, k.PrepareMsg())
      && (k.sequence <= s.cps.SafeBound() || (k in s.ops && s.ops[k].IsPrepared()))
  }

  ghost predicate ViewchangesOk(c: Config, sent: set<Envelope>, s: State)
    requires c.HasPeers()
  {
    forall e | e in sent && e.sender == s.id && e.msg.ViewChange? ::
      e.msg.view <= s.lastViewSent && WellFormedViewchange(c, e)
  }

  ghost predicate Local(c: Config, sent: set<Envelope>, s: State)
    requires c.HasPeers()
  {
    && c.IsPeer(s.id)
    && OpsOk(c, sent, s)
    && CpsOk(c, sent, s.cps)
    && SavedViewchangesOk(c, sent, s.viewchanges)
    && PreparesOk(c, sent, s)
    && CommitsOk(c, sent, s)
    && ViewchangesOk(c, sent, s)
  }

  ghost predicate AllAuthentic(c: Config, sent: set<Envelope>)
  {
    forall e | e in sent :: Authentic(c, sent, e)
  }

  ghost predicate Inv(c: Config, y: System)
    requires c.HasPeers()
  {
    && AllAuthentic(c, y.sent)
    && (forall u :: u in y.replicas <==> c.Correct(u))
    && forall u | u in y.replicas :: y.replicas[u].id == u && Local(c, y.sent, y.replicas[u])
  }

  // ---- frame: envelopes of others do not disturb a replica ----

  /** What refers to others' envelopes only gains by more of them. */
  lemma GrowsFrame(c: Config, sent: set<Envelope>, more: set<Envelope>, s: State)
    requires c.HasPeers() && Local(c, sent, s) && sent <= more
    ensures OpsOk(c, more, s) && CpsOk(c, more, s.cps) && SavedViewchangesOk(c, more, s.viewchanges)
    ensures forall k: OpKey | Envelope(s.id, k.CommitMsg()) in sent :: Certified(c, more, k.PrepareMsg())
  {
    SavedFrame(c, sent, more, s.viewchanges);
    forall k: OpKey | Envelope(s.id, k.CommitMsg()) in sent ensures Certified(c, more, k.PrepareMsg()) {
      CertifiedGrows(c, sent, more, k.PrepareMsg());
    }
  }

  /** More envelopes, none of them a prepare, commit or viewchange of this replica. */
  lemma LocalFrame(c: Config, sent: set<Envelope>, more: set<Envelope>, s: State)
    requires c.HasPeers() && Local(c, sent, s) && sent <= more
    requires forall e | e in more && e.sender == s.id && (e.msg.Prepare? || e.msg.Commit? || e.msg.ViewChange?) ::
               e in sent
    ensures Local(c, more, s)
  {
    GrowsFrame(c, sent, more, s);
  }

  lemma SavedFrame(c: Config, sent: set<Envelope>, more: set<Envelope>, saved: map<nat, map<Uuid, Envelope>>)
    requires c.HasPeers() && SavedViewchangesOk(c, sent, saved) && sent <= more
    ensures SavedViewchangesOk(c, more, saved)
  {
    forall w, u | w in saved && u in saved[w] ensures SavedViewchangeOk(c, more, w, u, saved[w][u]) {
      AuthenticGrows(c, sent, more, saved[w][u]);
    }
  }

  lemma AuthenticFrame(c: Config, sent: set<Envelope>, more: set<Envelope>)
    requires AllAuthentic(c, sent) && sent <= more
    requires forall e | e in more && e !in sent :: Authentic(c, more, e)
    ensures AllAuthentic(c, more)
  {
    forall e | e in more ensures Authentic(c, more, e) {
      if e in sent { AuthenticGrows(c, sent, more, e); }
    }
  }
}
