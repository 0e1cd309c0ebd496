/** What the pre-prepares of a NEWVIEW are, told without the loops that compute them. */
module NewviewContent {
  import opened Quorum
  import opened Messages
  import opened ViewChange
  import opened MakerChecker

  /** proofs[i] is the first certificate for sequence s in the list. */
  ghost predicate FirstIn(proofs: seq<Proof>, s: nat, i: nat)
  {
    i < |proofs| && Certificate(proofs[i], s) && forall j | 0 <= j < i :: !Certificate(proofs[j], s)
  }

  ghost predicate HasCertificate(e: Envelope, s: nat)
  {
    e.msg.ViewChange? && exists p :: p in e.msg.proofs && Certificate(p, s)
  }

  /** proofs[i] of sender u is the first certificate for s, senders in uuid order. */
  ghost predicate FirstCertificate(vcs: map<Uuid, Envelope>, s: nat, u: Uuid, i: nat)
  {
    && u in vcs && vcs[u].msg.ViewChange? && FirstIn(vcs[u].msg.proofs, s, i)
    && forall x | x in vcs && x < u :: !HasCertificate(vcs[x], s)
  }

  /** The hash in the certificate at (u, i). */
  function HashAt(vcs: map<Uuid, Envelope>, u: Uuid, i: nat): Hash
    requires u in vcs && vcs[u].msg.ViewChange? && i < |vcs[u].msg.proofs|
             && vcs[u].msg.proofs[i].prePrepare.msg.PrePrepare?
  {
    vcs[u].msg.proofs[i].prePrepare.msg.hash
  }

  lemma {:induction false} MaxBaseSpec(vcs: map<Uuid, Envelope>, u: nat)
    ensures forall x | x in vcs && x < u && vcs[x].msg.ViewChange? :: vcs[x].msg.base <= MaxBase(vcs, u)
    ensures MaxBase(vcs, u) == 0 || exists x ::
              x in vcs && x < u && vcs[x].msg.ViewChange? && vcs[x].msg.base == MaxBase(vcs, u)
  {
    if u > 0 { MaxBaseSpec(vcs, u - 1); }
  }

  lemma {:induction false} AddProofsKeeps(chosen: map<nat, Hash>, base: nat, proofs: seq<Proof>, s: nat)
    requires s in chosen
    ensures s in AddProofs(chosen, base, proofs) && AddProofs(chosen, base, proofs)[s] == chosen[s]
    decreases |proofs|
  {
    if proofs != [] { AddProofsKeeps(AddProof(chosen, base, proofs[0]), base, proofs[1..], s); }
  }

  ghost predicate FirstHashIn(proofs: seq<Proof>, s: nat, h: Hash)
  {
    exists i: nat :: FirstIn(proofs, s, i) && proofs[i].prePrepare.msg.hash == h
  }

  /** A sequence not yet taken gets the first certificate for it, if there is one above the base. */
  lemma {:induction false} AddProofsAdds(chosen: map<nat, Hash>, base: nat, proofs: seq<Proof>, s: nat)
    requires s !in chosen
    ensures s in AddProofs(chosen, base, proofs) <==> s > base && exists p :: p in proofs && Certificate(p, s)
    ensures s in AddProofs(chosen, base, proofs) ==> FirstHashIn(proofs, s, AddProofs(chosen, base, proofs)[s])
    decreases |proofs|
  {
    if proofs != [] {
      var next := AddProof(chosen, base, proofs[0]);
      assert forall p | p in proofs :: p == proofs[0] || p in proofs[1..];
      if s in next {
        AddProofsKeeps(next, base, proofs[1..], s);
        assert FirstIn(proofs, s, 0);
      } else {
        AddProofsAdds(next, base, proofs[1..], s);
        if s in AddProofs(next, base, proofs[1..]) {
          var h := AddProofs(next, base, proofs[1..])[s];
          var i: nat :| FirstIn(proofs[1..], s, i) && proofs[1..][i].prePrepare.msg.hash == h;
          assert forall j | 0 < j <= i + 1 :: proofs[j] == proofs[1..][j - 1];
          assert FirstIn(proofs, s, i + 1);
        }
      }
    }
  }

  /** h is the hash in the first certificate for s. */
  ghost predicate FirstHash(vcs: map<Uuid, Envelope>, s: nat, h: Hash)
  {
    exists u: Uuid, i: nat :: FirstCertificate(vcs, s, u, i) && HashAt(vcs, u, i) == h
  }

  /** The chosen hash for a sequence is that of its first certificate; sequences at or below
      the base, or without a certificate, have none. */
  lemma {:induction false} ChosenSpec(vcs: map<Uuid, Envelope>, base: nat, u: nat, s: nat)
    ensures s in Chosen(vcs, base, u) <==> s > base && exists x :: x in vcs && x < u && HasCertificate(vcs[x], s)
    ensures s in Chosen(vcs, base, u) ==> FirstHash(vcs, s, Chosen(vcs, base, u)[s])
  {
    if u > 0 {
      ChosenSpec(vcs, base, u - 1, s);
      var before := Chosen(vcs, base, u - 1);
      if u - 1 in vcs && vcs[u - 1].msg.ViewChange? {
        var proofs := vcs[u - 1].msg.proofs;
        if s in before {
          AddProofsKeeps(before, base, proofs, s);
        } else {
          AddProofsAdds(before, base, proofs, s);
          if s in Chosen(vcs, base, u) {
            var i: nat :| FirstIn(proofs, s, i) && proofs[i].prePrepare.msg.hash == Chosen(vcs, base, u)[s];
            assert FirstCertificate(vcs, s, u - 1, i);
          }
        }
      }
    }
  }

  /** Some viewchange of the set certifies s. */
  ghost predicate Certifies(vcs: map<Uuid, Envelope>, s: nat)
  {
    exists u :: u in vcs && HasCertificate(vcs[u], s)
  }

  lemma ChosenExactly(c: Config, w: nat, vcs: map<Uuid, Envelope>, base: nat, s: nat)
    requires c.HasPeers() && ViewchangeSet(c, w, vcs)
    ensures s in Chosen(vcs, base, c.n) <==> s > base && Certifies(vcs, s)
    ensures s in Chosen(vcs, base, c.n) ==> FirstHash(vcs, s, Chosen(vcs, base, c.n)[s])
  {
    ChosenSpec(vcs, base, c.n, s);
  }

  /** m is the pre-prepare for s in view w: the first certificate's request, or the null request
      if there is no certificate. */
  ghost predicate SlotSpec(c: Config, w: nat, vcs: map<Uuid, Envelope>, s: nat, m: Msg)
  {
    && m.PrePrepare? && m.view == w && m.sequence == s
    && (if Certifies(vcs, s) then FirstHash(vcs, s, m.hash) else m.hash == c.nullHash)
  }

  /** The base is the highest one claimed. */
  lemma BaseSpec(c: Config, w: nat, vcs: map<Uuid, Envelope>)
    requires c.HasPeers() && ViewchangeSet(c, w, vcs)
    ensures forall u | u in vcs :: vcs[u].msg.base <= MaxBase(vcs, c.n)
    ensures vcs != map[] ==> exists u :: u in vcs && vcs[u].msg.base == MaxBase(vcs, c.n)
  {
    MaxBaseSpec(vcs, c.n);
    if vcs != map[] && MaxBase(vcs, c.n) == 0 {
      var u :| u in vcs;
      assert vcs[u].msg.base == 0;
    }
  }

  /** pps cover exactly base+1 .. last without a hole, last being the highest certified sequence. */
  ghost predicate CoversRange(c: Config, w: nat, vcs: map<Uuid, Envelope>, base: nat, pps: seq<Msg>)
  {
    && (forall i | 0 <= i < |pps| :: SlotSpec(c, w, vcs, base + 1 + i, pps[i]))
    && (forall s | s > base && Certifies(vcs, s) :: s <= base + |pps|)
    && (pps != [] ==> Certifies(vcs, base + |pps|))
  }

  lemma FilledSpec(c: Config, w: nat, vcs: map<Uuid, Envelope>, base: nat, chosen: map<nat, Hash>)
    requires forall s :: s in chosen <==> s > base && Certifies(vcs, s)
    requires forall s | s in chosen :: FirstHash(vcs, s, chosen[s])
    ensures CoversRange(c, w, vcs, base, Filled(c, w, base, chosen, MaxOf(chosen.Keys)))
  {
    hide Certifies, FirstHash;
    var pps := Filled(c, w, base, chosen, MaxOf(chosen.Keys));
    forall i | 0 <= i < |pps| ensures SlotSpec(c, w, vcs, base + 1 + i, pps[i]) {
      assert base + 1 + i in chosen <==> Certifies(vcs, base + 1 + i);
    }
    if pps != [] { assert base + |pps| in chosen; }
  }

  /** The pre-prepares of a new view cover exactly base+1 .. last without a hole, all in the new
      view; last is the highest certified sequence; a sequence has the hash of its first
      certificate, and the null request exactly where there is no certificate. */
  lemma NewPrePreparesSpec(c: Config, w: nat, vcs: map<Uuid, Envelope>)
    requires c.HasPeers() && ViewchangeSet(c, w, vcs)
    ensures CoversRange(c, w, vcs, MaxBase(vcs, c.n), NewPrePrepares(c, w, vcs))
  {
    var base := MaxBase(vcs, c.n);
    var chosen := Chosen(vcs, base, c.n);
    forall s: nat
      ensures s in chosen <==> s > base && Certifies(vcs, s)
      ensures s in chosen ==> FirstHash(vcs, s, chosen[s])
    {
      ChosenExactly(c, w, vcs, base, s);
    }
    hide ViewchangeSet, Certifies, FirstHash, CoversRange;
    FilledSpec(c, w, vcs, base, chosen);
  }

  /** The pre-prepare at a sequence above the base, if it is certified. */
  lemma SlotOf(c: Config, w: nat, vcs: map<Uuid, Envelope>, s: nat) returns (m: Msg)
    requires c.HasPeers() && ViewchangeSet(c, w, vcs) && s > MaxBase(vcs, c.n) && Certifies(vcs, s)
    ensures m in NewPrePrepares(c, w, vcs) && SlotSpec(c, w, vcs, s, m)
  {
    NewPrePreparesSpec(c, w, vcs);
    var base, pps := MaxBase(vcs, c.n), NewPrePrepares(c, w, vcs);
    hide NewPrePrepares, MaxBase, ViewchangeSet, Certifies;
    m := pps[s - base - 1];
    assert SlotSpec(c, w, vcs, base + 1 + (s - base - 1), m);
  }

  /** First does not mean latest: whatever certificate comes first in uuid order is the one
      that is proposed again, from whichever view it is. */
  lemma FirstCertificateWins(c: Config, w: nat, vcs: map<Uuid, Envelope>, s: nat, u: Uuid, i: nat)
    requires c.HasPeers() && ViewchangeSet(c, w, vcs) && FirstCertificate(vcs, s, u, i) && s > MaxBase(vcs, c.n)
    ensures PrePrepare(w, s, HashAt(vcs, u, i)) in NewPrePrepares(c, w, vcs)
  {
    assert vcs[u].msg.proofs[i] in vcs[u].msg.proofs && HasCertificate(vcs[u], s) && Certifies(vcs, s);
    var m := SlotOf(c, w, vcs, s);
    hide NewPrePrepares, ViewchangeSet;
    var u': Uuid, i': nat :| FirstCertificate(vcs, s, u', i') && HashAt(vcs, u', i') == m.hash;
    FirstIsUnique(vcs, s, u, i, u', i');
  }

  lemma FirstIsUnique(vcs: map<Uuid, Envelope>, s: nat, u: Uuid, i: nat, u': Uuid, i': nat)
    requires FirstCertificate(vcs, s, u, i) && FirstCertificate(vcs, s, u', i')
    ensures u == u' && i == i'
  {
    assert vcs[u].msg.proofs[i] in vcs[u].msg.proofs && HasCertificate(vcs[u], s);
    assert vcs[u'].msg.proofs[i'] in vcs[u'].msg.proofs && HasCertificate(vcs[u'], s);
  }
}
