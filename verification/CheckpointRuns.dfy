/** A run in which the stable checkpoint of a correct replica moves back: claims of two correct peers
    reach it in the wrong order. */
module CheckpointRuns {
  import opened Quorum
  import opened Messages
  import opened Operations
  import opened Checkpoints
  import opened Replica
  import opened Protocol
  import opened Scenes
  import opened Phases
  import opened Disagreement
  import opened LowWater
  import opened LaggingStart

  /** A replica that has only announced the checkpoint at n. */
  function Local(u: Uuid, n: nat): State { Initial(u).(cps := Fresh.(local := Cp(n))) }

  /** A correct peer reaches a checkpoint and says so. */
  lemma Announces(sc: Scene, u: Uuid, s: State, n: nat)
    requires Seen(sc) && u in sc.m && sc.m[u] == s && s.cps.stable == INITIAL && s.ops == map[]
    requires s.cps.local.sequence < n
    ensures Seen(sc.(m := sc.m[u := s.(cps := s.cps.(local := Cp(n)))], sent := sc.sent + {Claim(u, n)}))
  {
    var t := s.(cps := s.cps.(local := Cp(n)));
    assert DeleteUntil(s.ops, s.cps.(local := Cp(n)).SafeBound()) == s.ops;
    hide Seen;
    Acts(sc, Executed(u, Cp(n)));
    OneMessage(sc, u, t, CheckpointMsg(Cp(n)));
  }

  /** Peers 0 and 1 announce 100 and then 200. */
  lemma BothAnnounce()
    ensures Seen(Scene(Trio(Local(0, 200), Local(1, 200), Initial(2)),
                       {Claim(0, 100), Claim(0, 200), Claim(1, 100), Claim(1, 200)}, ALL))
  {
    hide Seen, Trio, Claim;
    Opening(ALL);
    assert Cast() == Trio(Initial(0), Initial(1), Initial(2)) by { CastIs(); }
    var sc0 := Scene(Trio(Initial(0), Initial(1), Initial(2)), {}, ALL);
    TrioPut(Initial(0), Initial(1), Initial(2), Local(0, 100));
    Announces(sc0, 0, Initial(0), 100);
    var sc1 := Scene(Trio(Local(0, 100), Initial(1), Initial(2)), sc0.sent + {Claim(0, 100)}, ALL);
    TrioPut(Local(0, 100), Initial(1), Initial(2), Local(0, 200));
    Announces(sc1, 0, Local(0, 100), 200);
    var sc2 := Scene(Trio(Local(0, 200), Initial(1), Initial(2)), sc1.sent + {Claim(0, 200)}, ALL);
    TrioPut(Local(0, 200), Initial(1), Initial(2), Local(1, 100));
    Announces(sc2, 1, Initial(1), 100);
    var sc3 := Scene(Trio(Local(0, 200), Local(1, 100), Initial(2)), sc2.sent + {Claim(1, 100)}, ALL);
    TrioPut(Local(0, 200), Local(1, 100), Initial(2), Local(1, 200));
    Announces(sc3, 1, Local(1, 100), 200);
    Cut(Scene(Trio(Local(0, 200), Local(1, 200), Initial(2)), sc3.sent + {Claim(1, 200)}, ALL),
        Trio(Local(0, 200), Local(1, 200), Initial(2)), {Claim(0, 100), Claim(0, 200), Claim(1, 100), Claim(1, 200)});
  }

  lemma CastIs()
    ensures Cast() == Trio(Initial(0), Initial(1), Initial(2))
  {
  }

  function Claimed01(n: nat): map<Uuid, Envelope> { map[0 := Claim(0, n), 1 := Claim(1, n)] }

  /** One claim for n on top of a stable checkpoint with a different sequence. */
  function Half(m: Checkpoints, n: nat): Checkpoints { m.(partial := map[Cp(n) := map[0 := Claim(0, n)]]) }

  function Full(m: Checkpoints, n: nat): Checkpoints
  {
    m.(stable := Cp(n), stableProof := Claimed01(n), partial := map[])
  }

  lemma HalfClaimed(m: Checkpoints, n: nat)
    requires m.partial == map[] && m.local.sequence <= n && n != m.stable.sequence
    ensures RecordClaim(4, m, Claim(0, n)) == Half(m, n)
  {
    var one: map<Uuid, Envelope> := map[0 := Claim(0, n)];
    assert one.Keys * Peers(4) == {0} by { assert Below(0, 4); }
    assert |{0}| == 1;
  }

  lemma FullyClaimed(m: Checkpoints, n: nat)
    requires m.partial == map[] && m.local.sequence <= n && n != m.stable.sequence
    ensures RecordClaim(4, Half(m, n), Claim(1, n)) == Full(m, n)
  {
    var m1 := Half(m, n);
    assert Claimed01(n).Keys * Peers(4) == {0, 1} by { assert Below(0, 4) && Below(1, 4); }
    assert |{0, 1}| == 2;
    assert AddClaim(m1.Claims(Cp(n)), Claim(1, n)) == Claimed01(n);
    var m2 := m1.(partial := m1.partial[Cp(n) := Claimed01(n)]);
    assert Stabilize(m2, Cp(n)).partial == map[];
  }

  function With(m: Checkpoints): State { Initial(2).(cps := m) }

  /** Peer 2 hears both claims of 200 and one of 100. */
  lemma AlmostBack() returns (sc: Scene)
    ensures Seen(sc) && 2 in sc.m && sc.m[2] == With(Half(Full(Fresh, 200), 100)) && Claim(1, 100) in sc.sent
  {
    hide Seen, Trio, Claim, RecordClaim, Half, Full;
    BothAnnounce();
    var s0, s1, sent := Local(0, 200), Local(1, 200), {Claim(0, 100), Claim(0, 200), Claim(1, 100), Claim(1, 200)};
    sc := Scene(Trio(s0, s1, With(Fresh)), sent, ALL);
    HalfClaimed(Fresh, 200);
    FullyClaimed(Fresh, 200);
    FullIs(200);
    HalfClaimed(Full(Fresh, 200), 100);
    TrioPut(s0, s1, With(Fresh), With(Half(Fresh, 200)));
    HearClaim(sc, 2, 0, 200);
    sc := Scene(Trio(s0, s1, With(Half(Fresh, 200))), sent, ALL);
    TrioPut(s0, s1, With(Half(Fresh, 200)), With(Full(Fresh, 200)));
    HearClaim(sc, 2, 1, 200);
    sc := Scene(Trio(s0, s1, With(Full(Fresh, 200))), sent, ALL);
    TrioPut(s0, s1, With(Full(Fresh, 200)), With(Half(Full(Fresh, 200), 100)));
    HearClaim(sc, 2, 0, 100);
    sc := Scene(Trio(s0, s1, With(Half(Full(Fresh, 200), 100))), sent, ALL);
    TrioPut(s0, s1, With(Half(Full(Fresh, 200), 100)), s0);
  }

  lemma FullIs(n: nat)
    ensures var m := Full(Fresh, n); m.partial == map[] && m.local.sequence == 0 && m.stable.sequence == n
    ensures Half(Full(Fresh, n), 100).stable.sequence == n
  {
  }

  /** The last step of a run moves the stable checkpoint of replica 2 from 200 back to 100. */
  lemma StableRegresses() returns (states: seq<System>, steps: seq<Step>)
    ensures Four.Tolerable() && IsRun(Four, states, steps) && |steps| > 0 && Four.Correct(2)
    ensures var i := |steps| - 1;
            && 2 in states[i].replicas && 2 in states[i + 1].replicas
            && states[i].replicas[2].cps.stable.sequence == 200 && states[i + 1].replicas[2].cps.stable.sequence == 100
  {
    var sc := AlmostBack();
    hide Seen, IsRun;
    states, steps := SomeRun(sc);
    var y := states[|steps|];
    var m := Full(Fresh, 200);
    FullIs(200);
    FullyClaimed(m, 100);
    var step := Deliver(2, Claim(1, 100), {}, Idle);
    NoChoice(y.replicas[2], Claim(1, 100), {}, Idle);
    hide RecordClaim, GoodChoice;
    assert Enabled(Four, y, step) && Apply(Four, y, step).replicas[2].cps == Full(m, 100);
    hide Enabled, Apply;
    states, steps := OneStepMore(states, steps, y, step);
  }
}
