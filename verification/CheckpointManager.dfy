/** The checkpoint manager as an object that is updated in place. */
module CheckpointManager {
  import opened Quorum
  import opened Messages
  import opened Checkpoints

  class Manager {
    const n: nat
    var stable: Checkpoint
    var stableProof: map<Uuid, Envelope>
    var local: Checkpoint
    var partial: map<Checkpoint, map<Uuid, Envelope>>

    ghost function Model(): Checkpoints
      reads this
    {
      Checkpoints(stable, stableProof, local, partial)
    }

    constructor (n: nat)
      requires n > 0
      ensures this.n == n && Model() == Fresh
    {
      this.n := n;
      stable, stableProof, local, partial := INITIAL, map[], INITIAL, map[];
    }

    /** A checkpoint that is not newer than the last one is an error. */
    method LocalCheckpointReached(cp: Checkpoint) returns (ok: bool)
      modifies this
      ensures Model() == LocalReached(old(Model()), cp) && (ok <==> cp.sequence > old(local).sequence)
    {
      if cp.sequence <= local.sequence {
        return false;
      }
      local := cp;
      return true;
    }

    method HandleCheckpointMessage(e: Envelope)
      requires n > 0
      modifies this
      ensures Model() == RecordClaim(n, old(Model()), e)
    {
      if !e.msg.CheckpointMsg? || e.msg.cp.sequence < local.sequence {
        return;
      }
      var cp := e.msg.cp;
      if cp.sequence == stable.sequence {
        if cp == stable {
          stableProof := AddClaim(stableProof, e);
        }
      } else {
        var claims := if cp in partial then partial[cp] else map[];
        if e.sender !in claims {
          claims := claims[e.sender := e];
        }
        partial := partial[cp := claims];
        MaybeStabilizeCheckpoint(cp);
      }
    }

    /** How many claims for cp come from peers. */
    method CountAttestants(cp: Checkpoint) returns (count: nat)
      requires cp in partial
      ensures count == PeerClaims(n, partial[cp])
    {
      hide Peers;
      count := 0;
      var rest := partial[cp].Keys;
      ghost var done: set<Uuid> := {};
      while rest != {}
        invariant rest + done == partial[cp].Keys && rest !! done && count == |done * Peers(n)|
        decreases rest
      {
        var u :| u in rest;
        OneMoreAttestant(n, done, u);
        if u < n {
          count := count + 1;
        }
        rest, done := rest - {u}, done + {u};
      }
      assert done == partial[cp].Keys;
    }

    method MaybeStabilizeCheckpoint(cp: Checkpoint)
      requires n > 0 && cp in partial
      modifies this
      ensures Model() == if PeerClaims(n, old(partial)[cp]) >= HonestMember(n) then Stabilize(old(Model()), cp)
              else old(Model())
    {
      var count := CountAttestants(cp);
      if count >= HonestMember(n) {
        StabilizeCheckpoint(cp);
      }
    }

    /** The proof is replaced by the claims for cp, and claims that are not newer are erased. */
    method StabilizeCheckpoint(cp: Checkpoint)
      requires cp in partial
      modifies this
      ensures Model() == Stabilize(old(Model()), cp)
    {
      stable := cp;
      stableProof := map[];
      var claims := partial[cp];
      var senders := claims.Keys;
      while senders != {}
        invariant senders <= claims.Keys && partial == old(partial) && stable == cp && local == old(local)
        invariant stableProof == claims - senders
        decreases senders
      {
        var u :| u in senders;
        stableProof := stableProof[u := claims[u]];
        senders := senders - {u};
      }
      assert stableProof == claims;
      var rest := partial.Keys;
      while rest != {}
        invariant rest <= partial.Keys && stable == cp && local == old(local) && stableProof == claims
        invariant partial == map q | q in old(partial) && (q in rest || q.sequence > cp.sequence) :: old(partial)[q]
        decreases rest
      {
        var q :| q in rest;
        if q.sequence <= cp.sequence {
          partial := partial - {q};
        }
        rest := rest - {q};
      }
    }
  }

  lemma OneMoreAttestant(n: nat, done: set<Uuid>, u: Uuid)
    requires u !in done
    ensures |(done + {u}) * Peers(n)| == |done * Peers(n)| + if u < n then 1 else 0
  {
    if u < n {
      assert Below(u, n) && (done + {u}) * Peers(n) == done * Peers(n) + {u};
    } else {
      assert (done + {u}) * Peers(n) == done * Peers(n);
    }
  }
}
