/** The checkpoint manager: which checkpoint is stable, which one this peer reached,
    and the signed claims that support them. */
module Checkpoints {
  import opened Quorum
  import opened Messages

  const INITIAL: Checkpoint := Checkpoint(0, "<null db state>")

  datatype Checkpoints = Checkpoints(stable: Checkpoint, stableProof: map<Uuid, Envelope>,
                                     local: Checkpoint, partial: map<Checkpoint, map<Uuid, Envelope>>) {
    /** Operations at or below this sequence may be deleted. */
    function SafeBound(): nat {
      if stable.sequence <= local.sequence then stable.sequence else local.sequence
    }

    function Claims(cp: Checkpoint): map<Uuid, Envelope> {
      if cp in partial then partial[cp] else map[]
    }
  }

  const Fresh: Checkpoints := Checkpoints(INITIAL, map[], INITIAL, map[])

  /** How many peers of the swarm are among the claimants. */
  function PeerClaims(n: nat, claims: map<Uuid, Envelope>): nat
  {
    |claims.Keys * Peers(n)|
  }

  /** stabilize_checkpoint: adopt cp and its claims, drop claims not newer than it. */
  function Stabilize(m: Checkpoints, cp: Checkpoint): Checkpoints
  {
    m.(stable := cp, stableProof := m.Claims(cp),
       partial := map q | q in m.partial && q.sequence > cp.sequence :: m.partial[q])
  }

  /** A sender's first claim for a checkpoint is the one that is kept. */
  function AddClaim(claims: map<Uuid, Envelope>, e: Envelope): map<Uuid, Envelope>
  {
    if e.sender in claims then claims else claims[e.sender := e]
  }

  /** handle_checkpoint_message followed by maybe_stabilize_checkpoint. */
  function RecordClaim(n: nat, m: Checkpoints, e: Envelope): Checkpoints
    requires n > 0
  {
    if !e.msg.CheckpointMsg? || e.msg.cp.sequence < m.local.sequence then m
    else
      var cp := e.msg.cp;
      if cp.sequence == m.stable.sequence then
        if cp == m.stable then m.(stableProof := AddClaim(m.stableProof, e)) else m
      else
        var m1 := m.(partial := m.partial[cp := AddClaim(m.Claims(cp), e)]);
        if PeerClaims(n, m1.partial[cp]) >= HonestMember(n) then Stabilize(m1, cp) else m1
  }

  /** save_checkpoint: record the claims of a viewchange message one after the other. */
  function RecordClaims(n: nat, m: Checkpoints, es: seq<Envelope>): Checkpoints
    requires n > 0
    decreases |es|
  {
    if es == [] then m else RecordClaims(n, RecordClaim(n, m, es[0]), es[1..])
  }

  /** local_checkpoint_reached; a checkpoint that is not newer raises an error and changes nothing. */
  function LocalReached(m: Checkpoints, cp: Checkpoint): Checkpoints
  {
    if cp.sequence <= m.local.sequence then m else m.(local := cp)
  }
}
