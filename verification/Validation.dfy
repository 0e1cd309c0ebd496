/** The checks on VIEWCHANGE and NEWVIEW messages and the making of both, as loops. */
module Validation {
  import opened Quorum
  import opened Messages
  import opened ViewChange

  // ---- validate_and_extract_checkpoint_hashes ----

  lemma OneMoreClaim(c: Config, es: seq<Envelope>, i: nat, cp: Checkpoint)
    requires i < |es|
    ensures Attesters(c, es[..i + 1], cp) ==
            Attesters(c, es[..i], cp) + (if es[i].sender < c.n && es[i].msg == CheckpointMsg(cp) then {es[i].sender}
              else {})
  {
    assert es[..i + 1] == es[..i] + [es[i]];
    forall u: nat ensures u in Attesters(c, es[..i + 1], cp) <==>
        u in Attesters(c, es[..i], cp) || (u == es[i].sender && es[i].sender < c.n && es[i].msg == CheckpointMsg(cp))
    {
      assert Envelope(u, CheckpointMsg(cp)) == es[i] <==> u == es[i].sender && es[i].msg == CheckpointMsg(cp);
      assert Below(u, c.n) <==> u < c.n;
    }
  }

  /** The claims of peers, by checkpoint. */
  method ClaimsByCheckpoint(c: Config, es: seq<Envelope>) returns (hashes: map<Checkpoint, set<Uuid>>)
    ensures forall cp :: cp in hashes <==> Attesters(c, es, cp) != {}
    ensures forall cp | cp in hashes :: hashes[cp] == Attesters(c, es, cp)
  {
    hashes := map[];
    assert forall cp :: Attesters(c, es[..0], cp) == {};
    for i := 0 to |es|
      invariant forall cp :: cp in hashes <==> Attesters(c, es[..i], cp) != {}
      invariant forall cp | cp in hashes :: hashes[cp] == Attesters(c, es[..i], cp)
    {
      forall cp ensures Attesters(c, es[..i + 1], cp) ==
          Attesters(c, es[..i], cp) + (if es[i].sender < c.n && es[i].msg == CheckpointMsg(cp) then {es[i].sender}
            else {})
      {
        OneMoreClaim(c, es, i, cp);
      }
      hide Attesters;
      if c.IsPeer(es[i].sender) && es[i].msg.CheckpointMsg? {
        var cp := es[i].msg.cp;
        hashes := hashes[cp := (if cp in hashes then hashes[cp] else {}) + {es[i].sender}];
      }
    }
    assert es[..|es|] == es;
  }

  method AttestedCheckpoints(c: Config, es: seq<Envelope>) returns (kept: set<Checkpoint>)
    requires c.HasPeers()
    ensures forall cp :: cp in kept <==> Attested(c, es, cp)
  {
    var hashes := ClaimsByCheckpoint(c, es);
    kept := set cp | cp in hashes && |hashes[cp]| >= HonestMember(c.n);
  }

  function Sequences(kept: set<Checkpoint>): (s: set<nat>)
    ensures forall cp | cp in kept :: cp.sequence in s
    ensures kept != {} ==> s != {}
  {
    var s := set cp | cp in kept :: cp.sequence;
    assert kept != {} ==> s != {} by { if cp :| cp in kept { assert cp.sequence in s; } }
    s
  }

  // ---- is_valid_prepared_proof, is_valid_viewchange_message ----

  method IsValidPreparedProof(c: Config, p: Proof, base: nat) returns (ok: bool)
    requires c.HasPeers()
    ensures ok <==> ValidProof(c, base, p)
  {
    if !c.IsPeer(p.prePrepare.sender) || !p.prePrepare.msg.PrePrepare? || p.prePrepare.msg.sequence <= base {
      return false;
    }
    var pp := p.prePrepare.msg;
    var senders: set<Uuid> := {};
    for j := 0 to |p.prepares|
      invariant forall i | 0 <= i < j :: c.IsPeer(p.prepares[i].sender) && p.prepares[i].msg == ProofKey(p).PrepareMsg()
      invariant senders == set i | 0 <= i < j :: p.prepares[i].sender
    {
      var e := p.prepares[j];
      if !c.IsPeer(e.sender) || !e.msg.Prepare?
         || pp.sequence != e.msg.sequence || pp.view != e.msg.view || pp.hash != e.msg.hash {
        assert e in p.prepares;
        return false;
      }
      senders := senders + {e.sender};
    }
    assert senders == ProofSenders(p);
    return |senders| >= HonestMajority(c.n);
  }

  method IsValidViewchangeMessage(c: Config, view: nat, e: Envelope) returns (ok: bool)
    requires c.HasPeers()
    ensures ok <==> ValidViewchange(c, view, e)
  {
    if !c.IsPeer(e.sender) || !e.msg.ViewChange? || e.msg.view <= view {
      return false;
    }
    var kept := AttestedCheckpoints(c, e.msg.checkpoints);
    hide Attested, ValidProof;
    if kept == {} && e.msg.base != 0 {
      return false;
    }
    var valid := if kept == {} then 0 else MinOf(Sequences(kept));
    LowestAttested(c, e.msg.checkpoints, kept);
    if e.msg.base != valid {
      return false;
    }
    for i := 0 to |e.msg.proofs|
      invariant forall j | 0 <= j < i :: ValidProof(c, e.msg.base, e.msg.proofs[j])
    {
      var good := IsValidPreparedProof(c, e.msg.proofs[i], valid);
      if !good {
        assert e.msg.proofs[i] in e.msg.proofs;
        return false;
      }
    }
    return true;
  }

  lemma LowestAttested(c: Config, es: seq<Envelope>, kept: set<Checkpoint>)
    requires c.HasPeers() && forall cp :: cp in kept <==> Attested(c, es, cp)
    ensures forall base: nat :: ValidBase(c, base, es) <==>
                                base == if kept == {} then 0 else MinOf(Sequences(kept))
  {
    hide Attested;
    var sequences := Sequences(kept);
    if kept != {} {
      var cp :| cp in kept;
      assert cp.sequence in sequences;
      var least := MinOf(sequences);
      var low :| low in kept && low.sequence == least;
      assert Attested(c, es, low);
      forall x | Attested(c, es, x) ensures least <= x.sequence { assert x.sequence in sequences; }
    } else {
      assert forall cp :: !Attested(c, es, cp);
    }
  }

  // ---- build_newview ----

  /** Viewchanges by sender; only those of peers are ever stored. */
  predicate FromPeers(c: Config, vcs: map<Uuid, Envelope>) { forall u | u in vcs :: u < c.n && vcs[u].msg.ViewChange? }

  method HighestBase(c: Config, vcs: map<Uuid, Envelope>) returns (base: nat)
    requires FromPeers(c, vcs)
    ensures base == MaxBase(vcs, c.n)
  {
    base := 0;
    for u := 0 to c.n
      invariant base == MaxBase(vcs, u)
    {
      if u in vcs && vcs[u].msg.base > base {
        base := vcs[u].msg.base;
      }
    }
  }

  method ChooseRequests(c: Config, vcs: map<Uuid, Envelope>, base: nat) returns (chosen: map<nat, Hash>)
    requires FromPeers(c, vcs)
    ensures chosen == Chosen(vcs, base, c.n)
  {
    chosen := map[];
    for u := 0 to c.n
      invariant chosen == Chosen(vcs, base, u)
    {
      if u in vcs {
        var proofs := vcs[u].msg.proofs;
        assert proofs[0..] == proofs;
        for i := 0 to |proofs|
          invariant AddProofs(chosen, base, proofs[i..]) == AddProofs(Chosen(vcs, base, u), base, proofs)
        {
          assert proofs[i..][0] == proofs[i] && proofs[i..][1..] == proofs[i + 1..];
          var pp := proofs[i].prePrepare.msg;
          if pp.PrePrepare? && pp.sequence !in chosen && pp.sequence > base {
            chosen := chosen[pp.sequence := pp.hash];
          }
        }
        assert proofs[|proofs|..] == [];
      }
    }
  }

  /** fill_in_missing_pre_prepares, and the pre-prepares in sequence order. */
  method FillInMissing(c: Config, w: nat, base: nat, chosen: map<nat, Hash>) returns (pps: seq<Msg>)
    requires forall s | s in chosen :: s > base
    ensures pps == Filled(c, w, base, chosen, MaxOf(chosen.Keys))
  {
    var last, rest := 0, chosen.Keys;
    while rest != {}
      invariant rest <= chosen.Keys && (forall s | s in chosen && s !in rest :: s <= last)
      invariant last == 0 || last in chosen
      decreases rest
    {
      var s :| s in rest;
      last := if s > last then s else last;
      rest := rest - {s};
    }
    pps := [];
    var i := base + 1;
    while i <= last
      invariant base + 1 <= i && (i <= last + 1 || i == base + 1)
      invariant pps == Filled(c, w, base, chosen, i - 1)
    {
      pps := pps + [PrePrepare(w, i, if i in chosen then chosen[i] else c.nullHash)];
      i := i + 1;
    }
  }

  lemma {:induction false} ChosenAbove(vcs: map<Uuid, Envelope>, base: nat, u: nat)
    ensures forall s | s in Chosen(vcs, base, u) :: s > base
  {
    if u > 0 {
      ChosenAbove(vcs, base, u - 1);
      if u - 1 in vcs && vcs[u - 1].msg.ViewChange? {
        AddedAbove(Chosen(vcs, base, u - 1), base, vcs[u - 1].msg.proofs);
      }
    }
  }

  lemma {:induction false} AddedAbove(chosen: map<nat, Hash>, base: nat, proofs: seq<Proof>)
    requires forall s | s in chosen :: s > base
    ensures forall s | s in AddProofs(chosen, base, proofs) :: s > base
    decreases |proofs|
  {
    if proofs != [] { AddedAbove(AddProof(chosen, base, proofs[0]), base, proofs[1..]); }
  }

  method NewPrePrepareList(c: Config, w: nat, vcs: map<Uuid, Envelope>) returns (pps: seq<Msg>)
    requires FromPeers(c, vcs)
    ensures pps == NewPrePrepares(c, w, vcs)
  {
    var base := HighestBase(c, vcs);
    var chosen := ChooseRequests(c, vcs, base);
    ChosenAbove(vcs, base, c.n);
    pps := FillInMissing(c, w, base, chosen);
  }

  method BuildNewviewMessage(c: Config, id: Uuid, w: nat, vcs: map<Uuid, Envelope>) returns (nv: Msg)
    requires FromPeers(c, vcs)
    ensures nv == BuildNewview(c, id, w, vcs)
  {
    var pps := NewPrePrepareList(c, w, vcs);
    var envelopes: seq<Envelope> := [];
    for u := 0 to c.n
      invariant envelopes == InOrder(vcs, u)
    {
      if u in vcs {
        envelopes := envelopes + [vcs[u]];
      }
    }
    nv := NewView(w, envelopes, Wrap(id, pps));
  }

  // ---- is_valid_newview_message ----

  function SendersOf(es: seq<Envelope>): set<Uuid> { set e | e in es :: e.sender }

  ghost predicate DistinctSenders(es: seq<Envelope>)
  {
    forall i, j | 0 <= i < j < |es| :: es[i].sender != es[j].sender
  }

  lemma DistinctMore(before: seq<Envelope>, last: Envelope)
    ensures DistinctSenders(before + [last]) <==> DistinctSenders(before) && last.sender !in SendersOf(before)
  {
    var es := before + [last];
    assert forall i | 0 <= i < |before| :: es[i] == before[i];
    if last.sender in SendersOf(before) {
      var e :| e in before && e.sender == last.sender;
      var i :| 0 <= i < |before| && before[i] == e;
      assert es[i].sender == es[|before|].sender;
    } else {
      assert forall i | 0 <= i < |before| :: before[i].sender in SendersOf(before);
    }
  }

  /** As many senders as envelopes means that no sender occurs twice. */
  lemma {:induction false} CountSenders(es: seq<Envelope>)
    ensures |SendersOf(es)| <= |es| && (|SendersOf(es)| == |es| <==> DistinctSenders(es))
    decreases |es|
  {
    if es != [] {
      var before, last := es[..|es| - 1], es[|es| - 1];
      CountSenders(before);
      assert es == before + [last];
      DistinctMore(before, last);
      assert SendersOf(es) == SendersOf(before) + {last.sender};
      hide SendersOf, DistinctSenders;
    }
  }

  method ViewchangesBySender(es: seq<Envelope>) returns (vcs: map<Uuid, Envelope>)
    ensures vcs == BySender(es)
  {
    vcs := map[];
    for i := 0 to |es|
      invariant vcs == BySender(es[..i])
    {
      assert es[..i + 1][..i] == es[..i] && es[..i + 1][i] == es[i];
      vcs := vcs[es[i].sender := es[i]];
    }
    assert es[..|es|] == es;
  }

  lemma {:induction false} BySenderFromPeers(c: Config, es: seq<Envelope>)
    requires forall e | e in es :: e.sender < c.n && e.msg.ViewChange?
    ensures FromPeers(c, BySender(es))
    decreases |es|
  {
    if es != [] {
      assert es[|es| - 1] in es;
      BySenderFromPeers(c, es[..|es| - 1]);
    }
  }

  method IsValidNewviewMessage(c: Config, view: nat, e: Envelope) returns (ok: bool)
    requires c.HasPeers()
    ensures ok <==> ValidNewview(c, view, e)
  {
    if !e.msg.NewView? || e.sender != c.Primary(e.msg.view) || |e.msg.viewchanges| < HonestMajority(c.n) {
      return false;
    }
    var nv := e.msg;
    var good := AllValidViewchanges(c, view, nv);
    if !good {
      return false;
    }
    hide ValidViewchange, NewPrePrepares;
    CountSenders(nv.viewchanges);
    if |SendersOf(nv.viewchanges)| != |nv.viewchanges| {
      return false;
    }
    var vcs := ViewchangesBySender(nv.viewchanges);
    forall x | x in nv.viewchanges ensures x.sender < c.n && x.msg.ViewChange? { ValidIsFromPeer(c, view, x); }
    BySenderFromPeers(c, nv.viewchanges);
    var ours := NewPrePrepareList(c, nv.view, vcs);
    if |ours| != |nv.preprepares| {
      return false;
    }
    for i := 0 to |ours|
      invariant forall j | 0 <= j < i :: nv.preprepares[j] == Envelope(e.sender, ours[j])
    {
      if nv.preprepares[i].sender != e.sender || nv.preprepares[i].msg != ours[i] {
        assert nv.preprepares[i] != Wrap(e.sender, ours)[i];
        return false;
      }
    }
    assert nv.preprepares == Wrap(e.sender, ours);
    return true;
  }

  lemma ValidIsFromPeer(c: Config, view: nat, e: Envelope)
    requires c.HasPeers() && ValidViewchange(c, view, e)
    ensures e.sender < c.n && e.msg.ViewChange?
  {
  }

  method AllValidViewchanges(c: Config, view: nat, nv: Msg) returns (ok: bool)
    requires c.HasPeers() && nv.NewView?
    ensures ok <==> forall x | x in nv.viewchanges :: ValidViewchange(c, view, x) && x.msg.view == nv.view
  {
    for i := 0 to |nv.viewchanges|
      invariant forall j | 0 <= j < i ::
                  ValidViewchange(c, view, nv.viewchanges[j]) && nv.viewchanges[j].msg.view == nv.view
    {
      var good := IsValidViewchangeMessage(c, view, nv.viewchanges[i]);
      if !good || nv.viewchanges[i].msg.view != nv.view {
        assert nv.viewchanges[i] in nv.viewchanges;
        return false;
      }
    }
    return true;
  }
}
