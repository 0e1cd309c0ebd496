/** A replica as an object: the message handlers update its fields, its operation manager and its
    checkpoint manager in place, step by step as the protocol's specification says. */
module Node {
  import opened Quorum
  import opened Messages
  import opened Operations
  import opened Checkpoints
  import opened ViewChange
  import opened Validation
  import opened OperationClasses
  import CheckpointManager
  import R = Replica
  import Protocol
  import Views

  /** Prepared operations have their pre-prepare. */
  ghost predicate HavePreprepares(ops: map<OpKey, Op>)
  {
    forall k | k in ops && ops[k].IsPrepared() :: ops[k].IsPreprepared()
  }

  // ---- make_viewchange ----

  /** es are the envelopes of the map, in some order. */
  ghost predicate ListsValues(es: seq<Envelope>, m: map<Uuid, Envelope>)
  {
    && |es| == |m|
    && (forall e | e in es :: e in m.Values)
    && (forall u | u in m :: m[u] in es)
  }

  method Values(m: map<Uuid, Envelope>) returns (es: seq<Envelope>)
    ensures ListsValues(es, m)
  {
    es := [];
    var rest := m.Keys;
    while rest != {}
      invariant rest <= m.Keys && |es| + |rest| == |m|
      invariant (forall e | e in es :: e in m.Values) && (forall u | u in m && u !in rest :: m[u] in es)
      decreases rest
    {
      var u :| u in rest;
      es := es + [m[u]];
      rest := rest - {u};
    }
  }

  lemma ListsMore(ks: seq<OpKey>, k: OpKey, s: nat)
    ensures Lists(ks + [k], s) <==> Lists(ks, s) || s == k.sequence
  {
    var more := ks + [k];
    assert more[|ks|] == k;
    if Lists(ks, s) {
      var i :| 0 <= i < |ks| && ks[i].sequence == s;
      assert more[i].sequence == s;
    }
    if Lists(more, s) {
      var i :| 0 <= i < |more| && more[i].sequence == s;
      assert i < |ks| ==> ks[i].sequence == s;
    }
  }

  /** The operations of a map from sequence to operation, in sequence order. */
  method InSequenceOrder(prepared: map<nat, OpKey>) returns (ks: seq<OpKey>)
    requires forall s | s in prepared :: prepared[s].sequence == s
    ensures forall i | 0 <= i < |ks| :: ks[i].sequence in prepared && prepared[ks[i].sequence] == ks[i]
    ensures forall i, j | 0 <= i < j < |ks| :: ks[i].sequence < ks[j].sequence
    ensures forall s | s in prepared :: Lists(ks, s)
  {
    ks := [];
    var rest := prepared.Keys;
    while rest != {}
      invariant rest <= prepared.Keys
      invariant forall i | 0 <= i < |ks| :: ks[i].sequence in prepared && prepared[ks[i].sequence] == ks[i]
      invariant forall i, j | 0 <= i < j < |ks| :: ks[i].sequence < ks[j].sequence
      invariant forall i, s | 0 <= i < |ks| && s in rest :: ks[i].sequence < s
      invariant forall s | s in prepared && s !in rest :: Lists(ks, s)
      decreases rest
    {
      hide Lists, MinOf;
      var s := MinOf(rest);
      var k := prepared[s];
      forall t: nat ensures Lists(ks + [k], t) <==> Lists(ks, t) || t == s { ListsMore(ks, k, t); }
      ks := ks + [k];
      rest := rest - {s};
    }
  }

  method MakeProofs(ops: map<OpKey, Op>, ks: seq<OpKey>) returns (proofs: seq<Proof>)
    requires forall k | k in ks :: k in ops && ops[k].IsPreprepared()
    ensures |proofs| == |ks| && forall i | 0 <= i < |ks| :: ProofOf(ks[i], ops[ks[i]], proofs[i])
  {
    proofs := [];
    for i := 0 to |ks|
      invariant |proofs| == i && forall j | 0 <= j < i :: ProofOf(ks[j], ops[ks[j]], proofs[j])
    {
      var prepares := Values(ops[ks[i]].prepares);
      proofs := proofs + [Proof(ops[ks[i]].prePrepare.value, prepares)];
    }
  }

  lemma ListedClaims(es: seq<Envelope>, m: map<Uuid, Envelope>)
    requires ListsValues(es, m)
    ensures |es| == |m| && (forall e | e in es :: e in m.Values) && (forall u | u in m :: m[u] in es)
  {
  }

  method MakeViewchange(w: nat, base: nat, stableProof: map<Uuid, Envelope>, ops: map<OpKey, Op>,
                        prepared: map<nat, OpKey>, ghost m: Checkpoints)
    returns (vc: Msg)
    requires m.stable.sequence == base && m.stableProof == stableProof
    requires PreparedSince(ops, base, prepared) && HavePreprepares(ops)
    ensures ViewchangeFrom(m, ops, w, vc)
  {
    hide ProofOf, ListsValues;
    var claims := Values(stableProof);
    var latest := InSequenceOrder(prepared);
    forall k | k in latest ensures LatestPrepared(ops, base, k) { assert prepared[k.sequence] == k; }
    var proofs := MakeProofs(ops, latest);
    forall k | k in ops && ops[k].IsPrepared() && k.sequence > base ensures Lists(latest, k.sequence) {
      assert k.sequence in prepared;
    }
    assert ProofsOf(ops, base, latest, proofs);
    vc := ViewChange(w, base, claims, proofs);
    ListedClaims(claims, stableProof);
  }

  // ---- The replica ----

  class Pbft {
    const c: Config
    const id: Uuid
    const operations: OperationManager
    const checkpoints: CheckpointManager.Manager
    var view: nat
    var viewIsValid: bool
    var lastViewSent: nat
    var nextIssued: nat
    var accepted: map<(nat, nat), Hash>
    var viewchanges: map<nat, map<Uuid, Envelope>>

    ghost function Model(): R.State
      reads this, operations, checkpoints
    {
      R.State(id, view, viewIsValid, lastViewSent, nextIssued, accepted, operations.held, checkpoints.Model(),
        viewchanges)
    }

    ghost predicate Valid()
      reads this, operations, checkpoints
    {
      && c.HasPeers() && checkpoints.n == c.n && HavePreprepares(operations.held)
      && forall w | w in viewchanges :: FromPeers(c, viewchanges[w])
    }

    constructor (c: Config, id: Uuid)
      requires c.HasPeers()
      ensures this.c == c && this.id == id && Valid() && Model() == R.Initial(id)
      ensures fresh(operations) && fresh(checkpoints)
    {
      this.c, this.id := c, id;
      operations := new OperationManager();
      checkpoints := new CheckpointManager.Manager(c.n);
      view, viewIsValid, lastViewSent, nextIssued, accepted, viewchanges := 1, true, 0, 1, map[], map[];
    }

    /** maybe_advance_operation_state */
    method MaybeAdvanceOperationState(k: OpKey) returns (out: set<Msg>, posted: set<OpKey>)
      requires Valid() && k in operations.held
      modifies operations
      ensures Valid() && R.Effect(Model(), out, posted) == R.MaybeAdvance(c, old(Model()), k)
    {
      out, posted := {}, {};
      var op := operations.held[k];
      if op.stage == PrepareStage && op.ReadyForCommit(c.n) {
        op := op.(stage := CommitStage);
        out := {k.CommitMsg()};
      }
      if op.stage == CommitStage && op.ReadyForExecute(c.n) {
        op := op.(stage := ExecuteStage);
        posted := {k};
      }
      operations.held := operations.held[k := op];
    }

    /** handle_preprepare */
    method HandlePreprepare(e: Envelope, requests: set<Hash>) returns (out: set<Msg>, posted: set<OpKey>)
      requires Valid() && e.msg.PrePrepare?
      modifies this`accepted, operations
      ensures Valid() && R.Effect(Model(), out, posted) == R.HandlePreprepare(c, old(Model()), e, requests)
    {
      var k := OpKey(e.msg.view, e.msg.sequence, e.msg.hash);
      var slot := (k.view, k.sequence);
      if slot in accepted && accepted[slot] != k.hash {
        return {}, {};
      }
      var op := operations.FindOrConstruct(k);
      op := op.Record(e);
      if k.hash in requests {
        op := op.(hasRequest := true);
      }
      operations.held := operations.held[k := op];
      accepted := accepted[slot := k.hash];
      assert operations.held == old(operations.held)[k := op];
      out, posted := MaybeAdvanceOperationState(k);
      out := out + {k.PrepareMsg()};
    }

    /** handle_prepare, handle_commit */
    method HandleVote(e: Envelope) returns (out: set<Msg>, posted: set<OpKey>)
      requires Valid() && (e.msg.Prepare? || e.msg.Commit?)
      modifies operations
      ensures Valid() && R.Effect(Model(), out, posted) == R.HandleVote(c, old(Model()), e)
    {
      var k := OpKey(e.msg.view, e.msg.sequence, e.msg.hash);
      var op := operations.FindOrConstruct(k);
      operations.held := operations.held[k := op.Record(e)];
      assert operations.held == old(operations.held)[k := op.Record(e)];
      out, posted := MaybeAdvanceOperationState(k);
    }

    /** initiate_viewchange. The broadcast is one that make_viewchange may produce. */
    method InitiateViewchange(w: nat) returns (out: set<Msg>, ghost vc: Msg)
      requires Valid()
      modifies this`viewIsValid, this`lastViewSent
      ensures Valid() && R.Effect(Model(), out, {}) == R.InitiateViewchange(old(Model()), w, vc)
      ensures w > old(lastViewSent) ==> ViewchangeFrom(checkpoints.Model(), operations.held, w, vc)
    {
      out, vc := {}, NewView(0, [], []);
      if w > lastViewSent {
        viewIsValid := false;
        var base := checkpoints.stable.sequence;
        var prepared := operations.PreparedOperationsSince(base);
        var message := MakeViewchange(w, base, checkpoints.stableProof, operations.held, prepared, checkpoints.Model());
        out, vc := {message}, message;
        lastViewSent := w;
      }
    }

    /** save_checkpoint */
    method SaveCheckpoint(es: seq<Envelope>)
      requires Valid()
      modifies checkpoints
      ensures Valid() && Model() == old(Model()).(cps := RecordClaims(c.n, old(checkpoints.Model()), es))
    {
      assert es[0..] == es;
      for i := 0 to |es|
        invariant Valid() && Model() == old(Model()).(cps := checkpoints.Model())
        invariant RecordClaims(c.n, checkpoints.Model(), es[i..]) == RecordClaims(c.n, old(checkpoints.Model()), es)
      {
        assert es[i..][0] == es[i] && es[i..][1..] == es[i + 1..];
        checkpoints.HandleCheckpointMessage(es[i]);
      }
      assert es[|es|..] == [];
    }

    /** save_all_requests */
    method SaveAllRequests(proofs: seq<Proof>, requests: set<Hash>)
      requires Valid()
      modifies operations
      ensures Valid() && Model() == old(Model()).(ops := R.SaveRequests(old(operations.held), proofs, requests))
    {
      assert proofs[0..] == proofs;
      for i := 0 to |proofs|
        invariant Valid() && Model() == old(Model()).(ops := operations.held)
        invariant R.SaveRequests(operations.held, proofs[i..], requests)
                  == R.SaveRequests(old(operations.held), proofs, requests)
      {
        assert proofs[i..][0] == proofs[i] && proofs[i..][1..] == proofs[i + 1..];
        var pp := proofs[i].prePrepare.msg;
        if pp.PrePrepare? && pp.hash in requests {
          var k := OpKey(pp.view, pp.sequence, pp.hash);
          ghost var before := operations.held;
          var op := operations.FindOrConstruct(k);
          operations.held := operations.held[k := op.(hasRequest := true)];
          assert operations.held == before[k := Find(before, k).(hasRequest := true)];
        }
      }
      assert proofs[|proofs|..] == [];
    }

    /** handle_viewchange. A viewchange of its own, if it sends one, is one make_viewchange may produce. */
    method HandleViewchange(e: Envelope, requests: set<Hash>) returns (out: set<Msg>, ghost vc: Msg)
      requires Valid()
      modifies this, operations, checkpoints
      ensures Valid() && R.Effect(Model(), out, {}) == R.HandleViewchange(c, old(Model()), e, requests, vc)
      ensures Protocol.GoodChoice(c, old(Model()), e, requests, vc)
    {
      out, vc := {}, NewView(0, [], []);
      var good := IsValidViewchangeMessage(c, view, e);
      if !good {
        return;
      }
      ValidIsFromPeer(c, view, e);
      hide ValidViewchange, ViewchangeFrom, R.NewviewOut, R.SaveViewchange, AddClaim;
      SaveViewchange(e, requests);
      if viewIsValid && |viewchanges[e.msg.view]| == HonestMember(c.n) && e.msg.view > lastViewSent {
        out, vc := InitiateViewchange(e.msg.view);
      }
      var newview := AnnounceView(e.msg.view);
      out := out + newview;
    }

    /** What handle_viewchange keeps of a valid viewchange. */
    method SaveViewchange(e: Envelope, requests: set<Hash>)
      requires Valid() && e.msg.ViewChange? && e.sender < c.n
      modifies this`viewchanges, operations, checkpoints
      ensures Valid() && Model() == R.SaveViewchange(c, old(Model()), e, requests) && e.msg.view in viewchanges
    {
      hide RecordClaims, R.SaveRequests;
      SaveAllRequests(e.msg.proofs, requests);
      var known := if e.msg.view in viewchanges then viewchanges[e.msg.view] else map[];
      viewchanges := viewchanges[e.msg.view := AddClaim(known, e)];
      SaveCheckpoint(e.msg.checkpoints);
    }

    /** The end of handle_viewchange: a NEWVIEW for the least view this replica can open. */
    method AnnounceView(w: nat) returns (out: set<Msg>)
      requires Valid() && w in viewchanges
      ensures out == R.NewviewOut(c, Model(), w)
    {
      var candidates := set v | v in viewchanges && c.Primary(v) == id && v > view
        && |viewchanges[v]| == HonestMajority(c.n);
      assert candidates == R.Candidates(c, Model());
      if candidates == {} {
        return {};
      }
      var selected := MinOf(candidates);
      var nv := BuildNewviewMessage(c, id, selected, viewchanges[w]);
      var pps := NewPrePrepareList(c, selected, viewchanges[w]);
      return {nv} + set m | m in pps;
    }

    /** handle_newview */
    method HandleNewview(e: Envelope, requests: set<Hash>) returns (out: set<Msg>, posted: set<OpKey>)
      requires Valid()
      modifies this, operations, checkpoints
      ensures Valid() && R.Effect(Model(), out, posted) == R.HandleNewview(c, old(Model()), e, requests)
    {
      var good := IsValidNewviewMessage(c, view, e);
      if !good {
        return {}, {};
      }
      Views.NewviewFacts(c, view, e);
      hide ValidNewview, RecordClaims;
      var first := e.msg.viewchanges[0].msg;
      SaveCheckpoint(first.checkpoints);
      nextIssued, view, viewIsValid := first.base + 1, e.msg.view, true;
      assert Model() == R.EnterView(c, old(Model()), e.msg);
      out, posted := ProcessPreprepares(e.msg.preprepares, requests);
    }

    method ProcessPreprepares(es: seq<Envelope>, requests: set<Hash>) returns (out: set<Msg>, posted: set<OpKey>)
      requires Valid() && forall e | e in es :: e.msg.PrePrepare?
      modifies this`accepted, this`nextIssued, operations
      ensures Valid() && R.Effect(Model(), out, posted) == R.HandlePreprepares(c, old(Model()), es, requests)
    {
      hide R.HandlePreprepare, R.HandlePreprepares, Joined;
      out, posted := {}, {};
      assert es[0..] == es;
      JoinNothing(R.HandlePreprepares(c, Model(), es, requests));
      for i := 0 to |es|
        invariant Valid()
        invariant R.HandlePreprepares(c, old(Model()), es, requests)
                  == Joined(out, posted, R.HandlePreprepares(c, Model(), es[i..], requests))
      {
        assert es[i..][0] == es[i] && es[i..][1..] == es[i + 1..] && es[i] in es;
        PreprepareTurn(c, Model(), es[i..], requests);
        var more, done := HandlePreprepare(es[i], requests);
        nextIssued := es[i].msg.sequence + 1;
        JoinMore(out, posted, more, done, R.HandlePreprepares(c, Model(), es[i + 1..], requests));
        out, posted := out + more, posted + done;
      }
      assert es[|es|..] == [];
      JoinEnd(c, Model(), out, posted, requests);
    }

    /** handle_request from the point where a sequence number is assigned. */
    method HandleRequest(h: Hash) returns (out: set<Msg>)
      requires Valid()
      modifies this`nextIssued, operations
      ensures Valid() && R.Effect(Model(), out, {}) == R.HandleRequest(c, old(Model()), h)
    {
      if id != c.Primary(view) {
        return {};
      }
      var k := OpKey(view, nextIssued, h);
      nextIssued := nextIssued + 1;
      var op := operations.FindOrConstruct(k);
      operations.held := operations.held[k := op.(hasRequest := true)];
      assert operations.held == old(operations.held)[k := op.(hasRequest := true)];
      return {k.PrePrepareMsg()};
    }

    /** The execute handler at a checkpoint. */
    method HandleExecuted(cp: Checkpoint) returns (out: set<Msg>)
      requires Valid()
      modifies operations, checkpoints
      ensures Valid() && R.Effect(Model(), out, {}) == R.HandleExecuted(old(Model()), cp)
    {
      var newer := checkpoints.LocalCheckpointReached(cp);
      if !newer {
        return {};
      }
      var bound := if checkpoints.stable.sequence <= checkpoints.local.sequence
                   then checkpoints.stable.sequence else checkpoints.local.sequence;
      operations.DeleteOperationsUntil(null, bound);
      return {CheckpointMsg(cp)};
    }

    /** handle_message, with the checkpoint claims that have a handler of their own. */
    method HandleMessage(e: Envelope, requests: set<Hash>) returns (out: set<Msg>, posted: set<OpKey>, ghost vc: Msg)
      requires Valid()
      modifies this, operations, checkpoints
      ensures Valid() && R.Effect(Model(), out, posted) == R.HandleMessage(c, old(Model()), e, requests, vc)
      ensures Protocol.GoodChoice(c, old(Model()), e, requests, vc)
    {
      OtherChoice(c, Model(), e, requests);
      hide R.HandlePreprepare, R.HandleVote, R.HandleViewchange, R.HandleNewview, RecordClaim, Protocol.GoodChoice;
      out, posted, vc := {}, {}, NewView(0, [], []);
      if e.msg.CheckpointMsg? {
        checkpoints.HandleCheckpointMessage(e);
        return;
      }
      if !c.IsPeer(e.sender) {
        return;
      }
      match e.msg
      case PrePrepare(v, _, _) => if viewIsValid && v == view { out, posted := HandlePreprepare(e, requests); }
      case Prepare(v, _, _) => if viewIsValid && v == view { out, posted := HandleVote(e); }
      case Commit(v, _, _) => if viewIsValid && v == view { out, posted := HandleVote(e); }
      case ViewChange(_, _, _, _) =>
        out, vc := HandleViewchange(e, requests);
      case NewView(_, _, _) => out, posted := HandleNewview(e, requests);
    }
  }

  /** Only a viewchange leaves anything to choose. */
  lemma OtherChoice(c: Config, s: R.State, e: Envelope, requests: set<Hash>)
    requires c.HasPeers()
    ensures !e.msg.ViewChange? || !c.IsPeer(e.sender) ==> forall vc :: Protocol.GoodChoice(c, s, e, requests, vc)
  {
    hide R.SaveViewchange, R.JoinsViewchange, ViewchangeFrom;
  }

  function Joined(out: set<Msg>, posted: set<OpKey>, rest: R.Effect): R.Effect
  {
    R.Effect(rest.state, out + rest.out, posted + rest.posted)
  }

  lemma JoinNothing(rest: R.Effect)
    ensures Joined({}, {}, rest) == rest
  {
  }

  lemma JoinEnd(c: Config, s: R.State, out: set<Msg>, posted: set<OpKey>, requests: set<Hash>)
    requires c.HasPeers()
    ensures Joined(out, posted, R.HandlePreprepares(c, s, [], requests)) == R.Effect(s, out, posted)
  {
  }

  lemma PreprepareTurn(c: Config, s: R.State, es: seq<Envelope>, requests: set<Hash>)
    requires c.HasPeers() && es != [] && forall e | e in es :: e.msg.PrePrepare?
    ensures var first := R.HandlePreprepare(c, s, es[0], requests);
            R.HandlePreprepares(c, s, es, requests) ==
            Joined(first.out, first.posted,
                   R.HandlePreprepares(c, first.state.(nextIssued := es[0].msg.sequence + 1), es[1..], requests))
  {
    hide R.HandlePreprepare;
  }

  lemma JoinMore(out: set<Msg>, posted: set<OpKey>, more: set<Msg>, done: set<OpKey>, rest: R.Effect)
    ensures Joined(out, posted, Joined(more, done, rest)) == Joined(out + more, posted + done, rest)
  {
    assert out + (more + rest.out) == out + more + rest.out
           && posted + (done + rest.posted) == posted + done + rest.posted;
  }
}
