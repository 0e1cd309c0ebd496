/** Wire messages, signed envelopes, and what it means for an envelope to be authentic.
    A uuid is the peer's rank in the sorted peer list: peers are 0..n-1, other ids are outsiders. */
module Messages {
  import opened Quorum

  type Uuid = nat
  type Hash = string

  datatype Option<+T> = None | Some(value: T)

  datatype Checkpoint = Checkpoint(sequence: nat, hash: Hash)

  datatype Msg =
    | PrePrepare(view: nat, sequence: nat, hash: Hash)
    | Prepare(view: nat, sequence: nat, hash: Hash)
    | Commit(view: nat, sequence: nat, hash: Hash)
    | CheckpointMsg(cp: Checkpoint)
    | ViewChange(view: nat, base: nat, checkpoints: seq<Envelope>, proofs: seq<Proof>)
    | NewView(view: nat, viewchanges: seq<Envelope>, preprepares: seq<Envelope>)

  datatype Envelope = Envelope(sender: Uuid, msg: Msg)

  /** A pre-prepare and the prepares that are claimed to match it. */
  datatype Proof = Proof(prePrepare: Envelope, prepares: seq<Envelope>)

  /** The swarm: n peers, those of them that may deviate from the protocol, and the
      hash of the request that does nothing. */
  datatype Config = Config(n: nat, faulty: set<Uuid>, nullHash: Hash) {
    predicate HasPeers() { n > 0 }

    function F(): nat
      requires HasPeers()
    {
      FaultBound(n)
    }

    predicate IsPeer(u: Uuid) { u < n }

    predicate Correct(u: Uuid) { u < n && u !in faulty }

    function Primary(view: nat): Uuid
      requires HasPeers()
    {
      view % n
    }

    /** The failure assumption of the agreement results: n = 3f + 1, at most f faulty peers. */
    predicate Tolerable() {
      HasPeers() && n == 3 * F() + 1 && faulty <= Peers(n) && |faulty| <= F()
    }
  }

  /** An envelope that names a correct sender was sent by it, and so was every envelope inside. */
  ghost predicate Authentic(c: Config, sent: set<Envelope>, e: Envelope)
    decreases e
  {
    && (c.Correct(e.sender) ==> e in sent)
    && match e.msg
       case ViewChange(_, _, checkpoints, proofs) =>
         && (forall x | x in checkpoints :: Authentic(c, sent, x))
         && (forall p | p in proofs ::
               && Authentic(c, sent, p.prePrepare)
               && forall x | x in p.prepares :: Authentic(c, sent, x))
       case NewView(_, viewchanges, preprepares) =>
         && (forall x | x in viewchanges :: Authentic(c, sent, x))
         && (forall x | x in preprepares :: Authentic(c, sent, x))
       case _ => true
  }

  lemma {:induction false} AuthenticGrows(c: Config, sent: set<Envelope>, more: set<Envelope>, e: Envelope)
    requires Authentic(c, sent, e) && sent <= more
    ensures Authentic(c, more, e)
    decreases e
  {
    match e.msg
    case ViewChange(_, _, checkpoints, proofs) =>
      forall x | x in checkpoints ensures Authentic(c, more, x) { AuthenticGrows(c, sent, more, x); }
      forall p | p in proofs
        ensures Authentic(c, more, p.prePrepare) && forall x | x in p.prepares :: Authentic(c, more, x)
      {
        AuthenticGrows(c, sent, more, p.prePrepare);
        forall x | x in p.prepares ensures Authentic(c, more, x) { AuthenticGrows(c, sent, more, x); }
      }
    case NewView(_, viewchanges, preprepares) =>
      forall x | x in viewchanges ensures Authentic(c, more, x) { AuthenticGrows(c, sent, more, x); }
      forall x | x in preprepares ensures Authentic(c, more, x) { AuthenticGrows(c, sent, more, x); }
    case _ =>
  }

  /** The correct peers that have sent m. */
  ghost function Voters(c: Config, sent: set<Envelope>, m: Msg): set<Uuid>
  {
    set u | u in Peers(c.n) && u !in c.faulty && Envelope(u, m) in sent
  }

  /** So many correct peers sent m that at least 2f+1 peers may have. */
  ghost predicate Certified(c: Config, sent: set<Envelope>, m: Msg)
    requires c.HasPeers()
  {
    |Voters(c, sent, m)| >= HonestMajority(c.n) - |c.faulty|
  }

  lemma CertifiedGrows(c: Config, sent: set<Envelope>, more: set<Envelope>, m: Msg)
    requires c.HasPeers() && sent <= more && Certified(c, sent, m)
    ensures Certified(c, more, m)
  {
    SubsetSize(Voters(c, sent, m), Voters(c, more, m));
  }

  /** A vote count of 2f+1 peers, the correct ones among them genuine, certifies the message. */
  lemma VotesCertify(c: Config, sent: set<Envelope>, m: Msg, votes: set<Uuid>)
    requires c.HasPeers() && |votes| >= HonestMajority(c.n)
    requires forall u | u in votes :: u < c.n && (c.Correct(u) ==> Envelope(u, m) in sent)
    ensures Certified(c, sent, m)
  {
    CorrectPart(c.n, votes, c.faulty);
    SubsetSize(votes - c.faulty, Voters(c, sent, m));
  }

  /** Two certified messages have a correct sender in common. */
  lemma CertifiedMeet(c: Config, sent: set<Envelope>, m1: Msg, m2: Msg) returns (u: Uuid)
    requires c.Tolerable() && Certified(c, sent, m1) && Certified(c, sent, m2)
    ensures c.Correct(u) && Envelope(u, m1) in sent && Envelope(u, m2) in sent
  {
    u := CorrectVotersMeet(c.n, Voters(c, sent, m1), Voters(c, sent, m2), c.faulty);
  }
}
