/** The operations and their manager as objects that are updated in place. */
module OperationClasses {
  import opened Quorum
  import opened Messages
  import opened Operations
  import opened Strings
  import opened Words
  import opened MemStorage
  import opened OperationKeys
  import opened PersistentOperation
  import opened Rehydration

  class MemoryOperation {
    var stage: Stage
    var preprepareSeen: bool
    var preprepareMessage: Envelope
    var preparesSeen: set<Uuid>
    var prepareMessages: map<Uuid, Envelope>
    var commitsSeen: set<Uuid>
    var requestSaved: bool

    ghost predicate Valid()
      reads this
    {
      preparesSeen == prepareMessages.Keys
    }

    ghost function Model(): Op
      reads this
    {
      Op(stage, if preprepareSeen then Some(preprepareMessage) else None, prepareMessages, commitsSeen, requestSaved)
    }

    constructor ()
      ensures Valid() && Model() == NewOp
    {
      stage, preprepareSeen, preparesSeen, prepareMessages, commitsSeen, requestSaved :=
        PrepareStage, false, {}, map[], {}, false;
    }

    /** An envelope that holds neither a database nor an internal request is not recorded. */
    method RecordRequest(isRequest: bool)
      requires Valid()
      modifies this`requestSaved
      ensures Valid() && Model() == old(Model()).(hasRequest := old(requestSaved) || isRequest)
    {
      if isRequest {
        requestSaved := true;
      }
    }

    method RecordPbftMsg(e: Envelope) returns (ok: bool)
      requires Valid()
      modifies this
      ensures Valid() && Model() == old(Model()).Record(e)
      ensures ok <==> e.msg.PrePrepare? || e.msg.Prepare? || e.msg.Commit?
    {
      match e.msg {
      case PrePrepare(_, _, _) =>
        preprepareSeen := true;
        preprepareMessage := e;
      case Prepare(_, _, _) =>
        preparesSeen := preparesSeen + {e.sender};
        prepareMessages := prepareMessages[e.sender := e];
      case Commit(_, _, _) =>
        commitsSeen := commitsSeen + {e.sender};
      case _ =>
        return false;
      }
      return true;
    }

    method IsReadyForCommit(n: nat) returns (ready: bool)
      requires Valid() && n > 0
      ensures ready <==> Model().ReadyForCommit(n)
    {
      assert |preparesSeen| == |prepareMessages|;
      return requestSaved && preprepareSeen && |preparesSeen| >= HonestMajority(n);
    }

    method IsReadyForExecute(n: nat) returns (ready: bool)
      requires Valid() && n > 0
      ensures ready <==> Model().ReadyForExecute(n)
    {
      return stage != PrepareStage && |commitsSeen| >= HonestMajority(n);
    }

    /** Stages are taken in order, each with its quorum; anything else is an error. */
    method AdvanceOperationStage(next: Stage, n: nat) returns (ok: bool)
      requires Valid() && n > 0
      modifies this`stage
      ensures Valid() && (ok <==> old(Model()).CanAdvance(next, n))
      ensures Model() == if ok then old(Model()).(stage := next) else old(Model())
    {
      match next {
      case PrepareStage => return false;
      case CommitStage =>
        var ready := IsReadyForCommit(n);
        if !ready || stage != PrepareStage { return false; }
      case ExecuteStage =>
        var ready := IsReadyForExecute(n);
        if !ready || stage != CommitStage { return false; }
      }
      stage := next;
      return true;
    }
  }

  class StoredOperation {
    const codec: Codec
    const key: OpKey
    const store: MemStore
    var requestLoaded: bool

    ghost predicate Valid()
      reads this, store
    {
      store.Valid() && (requestLoaded ==> RequestKey(codec, key) in store.View(OPERATIONS_UUID))
    }

    /** The stored stage of an operation that exists already is left as it is. */
    constructor (codec: Codec, key: OpKey, store: MemStore)
      requires store.Valid() && |StageKey(codec, key)| <= MAX_KEY_SIZE
      modifies store
      ensures this.codec == codec && this.key == key && this.store == store && Valid()
      ensures forall n | n > 0 ::
                store.View(OPERATIONS_UUID) == OnStorage(codec, n, old(store.View(OPERATIONS_UUID)), Construct(key))
    {
      this.codec, this.key, this.store, this.requestLoaded := codec, key, store, false;
      new;
      var _ := store.Create(OPERATIONS_UUID, StageKey(codec, key), StageText(PrepareStage));
    }

    /** Storage failures other than a duplicate are errors. */
    method RecordPbftMsg(e: Envelope, n: nat) returns (ok: bool)
      requires Valid() && n > 0
      modifies store
      ensures Valid()
      ensures store.View(OPERATIONS_UUID) == OnStorage(codec, n, old(store.View(OPERATIONS_UUID)), RecordMsg(key, e))
      ensures ok <==> MsgType(e).None? ||
                      CreateResult(old(store.View(OPERATIONS_UUID)), VoteKey(codec, key, MsgType(e).value, e.sender),
                        codec.encode(e))
                      in {Ok, Exists}
    {
      if MsgType(e).None? {
        return true;
      }
      hide ItemKey;
      var r := store.Create(OPERATIONS_UUID, VoteKey(codec, key, MsgType(e).value, e.sender), codec.encode(e));
      return r == Ok || r == Exists;
    }

    method CountVotes(t: nat) returns (count: nat)
      requires IsType(t)
      ensures count == |VoteKeys(store.View(OPERATIONS_UUID), key, t)|
    {
      var p := TypedPrefix(key, t);
      assert p[|p| - 1] == Dec(t)[0];
      var keys := store.GetKeysIf(OPERATIONS_UUID, p, IncrementPrefix(p), None);
      ListingIsUnique(keys, keys, VoteKeys(store.View(OPERATIONS_UUID), key, t));
      return |keys|;
    }

    /** A request that is too large is not stored and not an error. */
    method RecordRequest(text: string, n: nat)
      requires Valid() && n > 0
      modifies this`requestLoaded, store
      ensures Valid()
      ensures store.View(OPERATIONS_UUID)
              == OnStorage(codec, n, old(store.View(OPERATIONS_UUID)), Call.RecordRequest(key, text, true))
    {
      hide ItemKey;
      if requestLoaded {
        return;
      }
      var _ := store.Create(OPERATIONS_UUID, RequestKey(codec, key), text);
      var _ := HasRequest();
    }

    method HasRequest() returns (has: bool)
      requires Valid()
      modifies this`requestLoaded
      ensures Valid() && (has <==> RequestKey(codec, key) in store.View(OPERATIONS_UUID))
    {
      if !requestLoaded {
        var found := store.Read(OPERATIONS_UUID, RequestKey(codec, key));
        requestLoaded := found.Some?;
      }
      return requestLoaded;
    }

    method IsReadyForCommit(n: nat) returns (ready: bool)
      requires Valid() && n > 0
      modifies this`requestLoaded
      ensures Valid() && (ready <==> StoredReadyForCommit(codec, store.View(OPERATIONS_UUID), key, n))
    {
      var prepares := CountVotes(PREPARE_TYPE);
      if prepares < HonestMajority(n) {
        return false;
      }
      var preprepares := CountVotes(PREPREPARE_TYPE);
      if preprepares == 0 {
        return false;
      }
      ready := HasRequest();
    }

    method GetStage() returns (stage: Option<Stage>)
      ensures stage == StoredStage(codec, store.View(OPERATIONS_UUID), key)
    {
      var text := store.Read(OPERATIONS_UUID, StageKey(codec, key));
      return if text.Some? then ReadStage(text.value) else None;
    }

    method AdvanceOperationStage(next: Stage, n: nat) returns (ok: bool)
      requires Valid() && n > 0
      modifies this`requestLoaded, store
      ensures Valid()
      ensures ok <==> StoredCanAdvance(codec, old(store.View(OPERATIONS_UUID)), key, next, n)
      ensures store.View(OPERATIONS_UUID) == OnStorage(codec, n, old(store.View(OPERATIONS_UUID)), Advance(key, next))
    {
      hide ItemKey, VoteKeys;
      var stage := GetStage();
      match next {
      case PrepareStage => return false;
      case CommitStage =>
        var ready := IsReadyForCommit(n);
        if !ready || stage != Some(PrepareStage) { return false; }
      case ExecuteStage =>
        var commits := CountVotes(COMMIT_TYPE);
        if commits < HonestMajority(n) || stage != Some(CommitStage) { return false; }
      }
      var r := store.Update(OPERATIONS_UUID, StageKey(codec, key), StageText(next));
      return true;
    }
  }

  // ---- The manager ----

  /** result holds, for each sequence among ks, the one of its operations with the highest view. */
  ghost predicate Highest(ks: set<OpKey>, result: map<nat, OpKey>)
  {
    && (forall s | s in result :: result[s] in ks && result[s].sequence == s)
    && (forall k | k in ks :: k.sequence in result && k.view <= result[k.sequence].view)
  }

  function Elements(ks: seq<OpKey>): set<OpKey> { set k | k in ks }

  function MaybeStore(result: map<nat, OpKey>, k: OpKey): map<nat, OpKey>
  {
    if k.sequence !in result || result[k.sequence].view < k.view then result[k.sequence := k] else result
  }

  lemma StoresHighest(ks: set<OpKey>, result: map<nat, OpKey>, k: OpKey)
    requires Highest(ks, result)
    ensures Highest(ks + {k}, MaybeStore(result, k))
  {
  }

  /** The highest prepared operations of the whole set are the latest prepared ones. */
  lemma HighestIsPreparedSince(ops: map<OpKey, Op>, base: nat, ks: set<OpKey>, result: map<nat, OpKey>)
    requires Highest(ks, result)
    requires forall k :: k in ks <==> k in ops && ops[k].IsPrepared() && k.sequence > base
    ensures PreparedSince(ops, base, result)
  {
    forall s | s in result ensures LatestPrepared(ops, base, result[s]) {
      forall j | j in ops && ops[j].IsPrepared() && j.sequence == s ensures j.view <= result[s].view {
        assert j in ks;
      }
    }
  }

  lemma FirstSequence(sequence: nat)
    requires sequence < U64
    ensures forall key :: Less(key, SequencePrefix(0)) ==> Less(key, SequencePrefix(sequence))
  {
    if sequence > 0 {
      PadOrder(sequence, 0, "_", "_");
      assert !Less(SequencePrefix(sequence), SequencePrefix(0));
      hide Less, SequencePrefix;
      forall key | Less(key, SequencePrefix(0)) ensures Less(key, SequencePrefix(sequence)) {
        LessTransitive(key, SequencePrefix(0), SequencePrefix(sequence));
      }
    }
  }

  class OperationManager {
    var held: map<OpKey, Op>

    constructor ()
      ensures held == map[]
    {
      held := map[];
    }

    method FindOrConstruct(k: OpKey) returns (op: Op)
      modifies this
      ensures op == Find(old(held), k) && held == old(held)[k := op]
    {
      if k !in held {
        held := held[k := NewOp];
      }
      assert k in old(held) ==> held == held[k := held[k]];
      return held[k];
    }

    /** Memory forgets the operations up to the sequence, storage those below it. */
    method DeleteOperationsUntil(store: MemStore?, sequence: nat)
      requires store != null ==> store.Valid() && sequence < U64
      modifies this, store
      ensures held == DeleteUntil(old(held), sequence)
      ensures store != null
              ==> store.Valid() && store.View(OPERATIONS_UUID) == Removed(old(store.View(OPERATIONS_UUID)), sequence)
      ensures store != null ==> forall u | u != OPERATIONS_UUID :: store.View(u) == old(store.View(u))
    {
      var rest := held.Keys;
      while rest != {}
        invariant rest <= held.Keys
        invariant held == map k | k in old(held) && (k in rest || k.sequence > sequence) :: old(held)[k]
        modifies this
        decreases rest
      {
        var k :| k in rest;
        if k.sequence <= sequence {
          held := held - {k};
        }
        rest := rest - {k};
      }
      if store != null {
        FirstSequence(sequence);
        var defined := store.RemoveRange(OPERATIONS_UUID, SequencePrefix(0), SequencePrefix(sequence));
        assert defined;
      }
    }

    /** The prepared operation of the highest view for each sequence above base that has one. */
    method PreparedOperationsSince(base: nat) returns (result: map<nat, OpKey>)
      ensures PreparedSince(held, base, result)
    {
      result := map[];
      var rest := held.Keys;
      ghost var seen: set<OpKey> := {};
      while rest != {}
        invariant rest <= held.Keys && Highest(seen, result)
        invariant forall k :: k in seen <==> k in held && k !in rest && held[k].IsPrepared() && k.sequence > base
        decreases rest
      {
        var k :| k in rest;
        if k.sequence > base && held[k].IsPrepared() {
          StoresHighest(seen, result, k);
          result := MaybeStore(result, k);
          seen := seen + {k};
        }
        rest := rest - {k};
      }
      HighestIsPreparedSince(held, base, seen, result);
    }
  }

  // ---- The same from storage ----

  /** Every found operation, in key order; threw tells that a number in a key did not parse. */
  method PreparedOperationsInRange(store: MemStore, start: nat, end: Option<nat>) returns (ks: seq<OpKey>, threw: bool)
    ensures !threw ==> forall k :: k in ks <==> Found(store.View(OPERATIONS_UUID), start, end, k)
    ensures threw ==> exists key :: key in StageKeysFrom(store.View(OPERATIONS_UUID), start, end)
                                    && OperationAt(store.View(OPERATIONS_UUID), key) == BadNumber
  {
    hide Search, ParsePrefix, Less;
    var last := if end.Some? then SequencePrefix(end.value) else "";
    var keys := store.GetKeysIf(OPERATIONS_UUID, SequencePrefix(start), last, Some((k, v) => StageMatch(k, v)));
    ghost var m := store.View(OPERATIONS_UUID);
    assert forall key :: key in keys <==> key in StageKeysFrom(m, start, end);
    ks := [];
    for i := 0 to |keys|
      invariant forall k :: k in ks <==> exists j :: 0 <= j < i && OperationAt(m, keys[j]) == Key(k)
    {
      var prefix := CutPrefix(keys[i]);
      var request := store.Read(OPERATIONS_UUID, prefix + "_request");
      if request.Some? {
        var parsed := ParsePrefix(prefix);
        if parsed == BadNumber {
          assert keys[i] in keys;
          return ks, true;
        }
        if parsed.Key? {
          ks := ks + [parsed.k];
        }
      }
    }
    threw := false;
    forall k ensures k in ks <==> Found(m, start, end, k) {
      if k in ks {
        var j :| 0 <= j < |keys| && OperationAt(m, keys[j]) == Key(k);
        assert keys[j] in keys && StandsFor(m, start, end, keys[j], k);
      }
      if key :| StandsFor(m, start, end, key, k) {
        var j :| 0 <= j < |keys| && keys[j] == key;
      }
    }
  }

  /** The operations whose hash does not hide the mark of a stage key. */
  ghost function Findable(ops: map<OpKey, Op>): map<OpKey, Op>
  {
    map k | k in ops && SafeHash(k.hash) :: ops[k]
  }

  /** From a storage that refines ops: the latest prepared operations above base, as memory has
      them, of those that can be found. */
  method StoredOperationsSince(ghost c: Codec, ghost ops: map<OpKey, Op>, store: MemStore, base: nat)
    returns (result: map<nat, OpKey>, threw: bool)
    requires Refines(c, store.View(OPERATIONS_UUID), ops) && VotesLong(c, store.View(OPERATIONS_UUID))
    requires PreparedHaveRequests(ops) && base + 1 < U64
    ensures !threw && PreparedSince(Findable(ops), base, result)
  {
    hide Refines, VotesLong, Found, OperationAt, StageKeysFrom, SafeHash;
    var ks;
    ghost var m := store.View(OPERATIONS_UUID);
    ks, threw := PreparedOperationsInRange(store, base + 1, None);
    result := map[];
    if threw {
      ghost var key :| key in StageKeysFrom(m, base + 1, None) && OperationAt(m, key) == BadNumber;
      FoundIsWanted(c, m, ops, base + 1, None, key);
      return;
    }
    for i := 0 to |ks|
      invariant Highest(Elements(ks[..i]), result)
    {
      StoresHighest(Elements(ks[..i]), result, ks[i]);
      result := MaybeStore(result, ks[i]);
      assert Elements(ks[..i + 1]) == Elements(ks[..i]) + {ks[i]};
    }
    assert ks[..|ks|] == ks;
    forall k ensures k in ks <==> Wanted(ops, base + 1, None, k) && SafeHash(k.hash) {
      FoundIff(c, m, ops, base + 1, None, k);
    }
    HighestIsPreparedSince(Findable(ops), base, Elements(ks), result);
  }
}
