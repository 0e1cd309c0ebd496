/** The smallest swarm in its normal case: a request goes through all stages to the service, and a
    failure of the primary leads through VIEWCHANGE and NEWVIEW to the next view. */
module NormalCase {
  import opened Quorum
  import opened Messages
  import opened Operations
  import opened Checkpoints
  import opened ViewChange
  import opened Replica
  import opened Protocol
  import opened MakerChecker
  import opened Views
  import opened Agreement

  const Solo: Config := Config(1, {}, "null")
  const Idle: Msg := NewView(0, [], [])

  function Key(h: Hash): OpKey { OpKey(1, 1, h) }

  function From0(m: Msg): Envelope { Envelope(0, m) }

  function Only(s: State, sent: set<Envelope>): System { System(map[0 := s], sent) }

  /** The replica's state and the envelopes sent after the request and each of the three votes. */
  function Requested(h: Hash): State
  {
    Initial(0).(nextIssued := 2, ops := map[Key(h) := NewOp.(hasRequest := true)])
  }

  function Preprepared(h: Hash): State
  {
    Requested(h).(accepted := map[(1, 1) := h],
                  ops := map[Key(h) := NewOp.(hasRequest := true, prePrepare := Some(From0(Key(h).PrePrepareMsg())))])
  }

  function Prepared(h: Hash): State
  {
    var op := Preprepared(h).ops[Key(h)];
    Preprepared(h).(ops := map[Key(h) := op.(stage := CommitStage, prepares := map[0 := From0(Key(h).PrepareMsg())])])
  }

  function Committed(h: Hash): State
  {
    var op := Prepared(h).ops[Key(h)];
    Prepared(h).(ops := map[Key(h) := op.(stage := ExecuteStage, commits := {0})])
  }

  lemma RequestStep(h: Hash)
    ensures HandleRequest(Solo, Initial(0), h) == Effect(Requested(h), {Key(h).PrePrepareMsg()}, {})
  {
  }

  lemma PreprepareStep(h: Hash)
    ensures HandlePreprepare(Solo, Requested(h), From0(Key(h).PrePrepareMsg()), {})
            == Effect(Preprepared(h), {Key(h).PrepareMsg()}, {})
  {
    var eff := HandlePreprepare(Solo, Requested(h), From0(Key(h).PrePrepareMsg()), {});
    assert eff.state.ops == Preprepared(h).ops && eff.state.accepted == Preprepared(h).accepted;
  }

  lemma PrepareStep(h: Hash)
    ensures HandleVote(Solo, Preprepared(h), From0(Key(h).PrepareMsg()))
            == Effect(Prepared(h), {Key(h).CommitMsg()}, {})
  {
    assert |map[0 := From0(Key(h).PrepareMsg())]| == 1;
    var eff := HandleVote(Solo, Preprepared(h), From0(Key(h).PrepareMsg()));
    assert eff.state.ops == Prepared(h).ops;
  }

  lemma CommitStep(h: Hash)
    ensures HandleVote(Solo, Prepared(h), From0(Key(h).CommitMsg())) == Effect(Committed(h), {}, {Key(h)})
  {
    var eff := HandleVote(Solo, Prepared(h), From0(Key(h).CommitMsg()));
    assert eff.state.ops == Committed(h).ops;
  }

  function Steps(h: Hash): seq<Step>
  {
    [Request(0, h),
     Deliver(0, From0(Key(h).PrePrepareMsg()), {}, Idle),
     Deliver(0, From0(Key(h).PrepareMsg()), {}, Idle),
     Deliver(0, From0(Key(h).CommitMsg()), {}, Idle)]
  }

  function States(h: Hash): seq<System>
  {
    var k := Key(h);
    [Only(Initial(0), {}),
     Only(Requested(h), {From0(k.PrePrepareMsg())}),
     Only(Preprepared(h), {From0(k.PrePrepareMsg()), From0(k.PrepareMsg())}),
     Only(Prepared(h), {From0(k.PrePrepareMsg()), From0(k.PrepareMsg()), From0(k.CommitMsg())}),
     Only(Committed(h), {From0(k.PrePrepareMsg()), From0(k.PrepareMsg()), From0(k.CommitMsg())})]
  }

  /** A step that replaces the one replica's state and adds one message, or none. */
  lemma SoloStep(y: System, step: Step, s: State, m: Option<Msg>)
    requires y.replicas.Keys == {0} && !step.Inject? && step.r == 0 && Enabled(Solo, y, step)
    requires EffectOf(Solo, y.replicas[0], step).state == s
    requires EffectOf(Solo, y.replicas[0], step).out == if m.Some? then {m.value} else {}
    ensures Apply(Solo, y, step) == Only(s, y.sent + if m.Some? then {From0(m.value)} else {})
  {
    hide EffectOf, Enabled;
    assert y.replicas[0 := s] == map[0 := s];
    assert Signed(0, EffectOf(Solo, y.replicas[0], step).out) == if m.Some? then {From0(m.value)} else {};
  }

  lemma Takes0(h: Hash)
    ensures Takes(Solo, States(h), Steps(h), 0)
  {
    RequestStep(h);
    hide HandleRequest;
    SoloStep(States(h)[0], Steps(h)[0], Requested(h), Some(Key(h).PrePrepareMsg()));
  }

  lemma Takes1(h: Hash)
    ensures Takes(Solo, States(h), Steps(h), 1)
  {
    PreprepareStep(h);
    hide HandlePreprepare;
    SoloStep(States(h)[1], Steps(h)[1], Preprepared(h), Some(Key(h).PrepareMsg()));
  }

  lemma Takes2(h: Hash)
    ensures Takes(Solo, States(h), Steps(h), 2)
  {
    PrepareStep(h);
    hide HandleVote;
    SoloStep(States(h)[2], Steps(h)[2], Prepared(h), Some(Key(h).CommitMsg()));
  }

  lemma Takes3(h: Hash)
    ensures Takes(Solo, States(h), Steps(h), 3)
    ensures EffectOf(Solo, Prepared(h), Steps(h)[3]).posted == {Key(h)}
  {
    CommitStep(h);
    hide HandleVote;
    SoloStep(States(h)[3], Steps(h)[3], Committed(h), None);
  }

  /** Request, pre-prepare, prepare, commit: the request reaches the service. */
  lemma RequestIsExecuted(h: Hash)
    ensures Solo.Tolerable() && IsRun(Solo, States(h), Steps(h))
    ensures Posts(Solo, States(h), Steps(h), 3, 0, Key(h))
  {
    Takes0(h);
    Takes1(h);
    Takes2(h);
    Takes3(h);
    hide Takes, EffectOf, Requested, Preprepared, Prepared, Committed;
    assert Init(Solo, States(h)[0]);
    forall i | 0 <= i < |Steps(h)| ensures Takes(Solo, States(h), Steps(h), i) {
      assert i == 0 || i == 1 || i == 2 || i == 3;
    }
    assert States(h)[3].replicas[0] == Prepared(h);
  }

  // ---- A change of view ----

  const AskFor2: Envelope := From0(ViewChange(2, 0, [], []))
  const Announce2: Envelope := From0(NewView(2, [AskFor2], []))

  const Asked: State := Initial(0).(viewIsValid := false, lastViewSent := 2)
  const Heard: State := Asked.(viewchanges := map[2 := map[0 := AskFor2]])
  const Entered: State := Heard.(view := 2, viewIsValid := true, nextIssued := 1)

  lemma AskStep()
    ensures ViewchangeFrom(Fresh, map[], 2, AskFor2.msg)
    ensures InitiateViewchange(Initial(0), 2, AskFor2.msg) == Effect(Asked, {AskFor2.msg}, {})
  {
    assert ProofsOf(map[], 0, [], []);
  }

  lemma AskIsValid()
    ensures ValidViewchange(Solo, 1, AskFor2)
  {
    forall cp ensures !Attested(Solo, [], cp) { assert Attesters(Solo, [], cp) == {}; }
  }

  lemma AnnounceIsBuilt()
    ensures BuildNewview(Solo, 0, 2, map[0 := AskFor2]) == Announce2.msg
            && NewPrePrepares(Solo, 2, map[0 := AskFor2]) == []
  {
    var vcs := map[0 := AskFor2];
    assert InOrder(vcs, 0) == [] && Chosen(vcs, 0, 0) == map[] && MaxBase(vcs, 0) == 0;
    assert AddProofs(map[], 0, []) == map[];
    assert InOrder(vcs, 1) == [] + [vcs[0]] && Chosen(vcs, 0, 1) == map[] && MaxBase(vcs, 1) == 0;
  }

  lemma HearStep()
    ensures HandleViewchange(Solo, Asked, AskFor2, {}, Idle) == Effect(Heard, {Announce2.msg}, {})
    ensures GoodChoice(Solo, Asked, AskFor2, {}, Idle)
  {
    AskIsValid();
    AnnounceIsBuilt();
    hide ValidViewchange, BuildNewview, NewPrePrepares;
    assert SaveViewchange(Solo, Asked, AskFor2, {}) == Heard;
    assert Candidates(Solo, Heard) == {2} by { assert |map[0 := AskFor2]| == 1; }
    assert MinOf({2}) == 2;
  }

  lemma EnterStep()
    ensures ValidNewview(Solo, 1, Announce2)
    ensures HandleNewview(Solo, Heard, Announce2, {}) == Effect(Entered, {}, {})
  {
    AskIsValid();
    AnnounceIsBuilt();
    var vcs := map[0 := AskFor2];
    assert ViewchangeSet(Solo, 2, vcs) && |vcs| == 1;
    NewviewMadeIsValid(Solo, 2, vcs, 1);
  }

  const ViewSteps: seq<Step> := [Failure(0, AskFor2.msg), Deliver(0, AskFor2, {}, Idle),
    Deliver(0, Announce2, {}, Idle)]

  const ViewStates: seq<System> :=
    [Only(Initial(0), {}), Only(Asked, {AskFor2}), Only(Heard, {AskFor2, Announce2}),
      Only(Entered, {AskFor2, Announce2})]

  lemma AskTaken()
    ensures Takes(Solo, ViewStates, ViewSteps, 0)
  {
    AskStep();
    hide ViewchangeFrom, InitiateViewchange;
    SoloStep(ViewStates[0], ViewSteps[0], Asked, Some(AskFor2.msg));
  }

  lemma HearTaken()
    ensures Takes(Solo, ViewStates, ViewSteps, 1)
  {
    HearStep();
    hide HandleViewchange, GoodChoice;
    SoloStep(ViewStates[1], ViewSteps[1], Heard, Some(Announce2.msg));
  }

  lemma EnterTaken()
    ensures Takes(Solo, ViewStates, ViewSteps, 2)
  {
    EnterStep();
    hide HandleNewview, ValidNewview;
    SoloStep(ViewStates[2], ViewSteps[2], Entered, None);
  }

  /** Failure, VIEWCHANGE, NEWVIEW: the replica enters the next view. */
  lemma NextViewIsEntered()
    ensures IsRun(Solo, ViewStates, ViewSteps) && Accepts(Solo, ViewStates[2], ViewSteps[2], 0)
    ensures ViewStates[3].replicas[0].view == 2 && ViewStates[3].replicas[0].viewIsValid
  {
    AskTaken();
    HearTaken();
    EnterTaken();
    EnterStep();
    hide Takes, ValidNewview;
    assert Init(Solo, ViewStates[0]);
    forall i | 0 <= i < |ViewSteps| ensures Takes(Solo, ViewStates, ViewSteps, i) {
      assert i == 0 || i == 1 || i == 2;
    }
  }
}
