/** The storage-backed operation, and why it answers as the in-memory operation does. */
module PersistentOperation {
  import opened Quorum
  import opened Messages
  import opened Operations
  import opened Strings
  import opened Words
  import opened MemStorage
  import opened OperationKeys

  const OPERATIONS_UUID: string := "pbft_operations_data"

  /** The text of a uuid, the serialized form of an envelope, the length of a request hash. */
  datatype Codec = Codec(names: Uuid -> string, encode: Envelope -> string, hashLength: nat)

  function StageText(s: Stage): string
  {
    match s
    case PrepareStage => "0"
    case CommitStage => "1"
    case ExecuteStage => "2"
  }

  function ReadStage(text: string): Option<Stage>
  {
    if text == "0" then Some(PrepareStage)
    else if text == "1" then Some(CommitStage)
    else if text == "2" then Some(ExecuteStage)
    else None
  }

  // ---- What the operation reads from storage ----

  function StageKey(c: Codec, k: OpKey): string { ItemKey(c.names, k, StageItem) }
  function RequestKey(c: Codec, k: OpKey): string { ItemKey(c.names, k, RequestItem) }
  function VoteKey(c: Codec, k: OpKey, t: nat, u: Uuid): string { ItemKey(c.names, k, VoteItem(t, u)) }

  /** The keys of the recorded votes of one type. */
  function VoteKeys(m: Entries, k: OpKey, t: nat): set<string>
    requires IsType(t)
  {
    var p := TypedPrefix(k, t);
    assert p[|p| - 1] == Dec(t)[0];
    Matches(m, p, IncrementPrefix(p), None)
  }

  function StoredStage(c: Codec, m: Entries, k: OpKey): Option<Stage>
  {
    if StageKey(c, k) in m then ReadStage(m[StageKey(c, k)]) else None
  }

  predicate StoredPreprepared(m: Entries, k: OpKey) { |VoteKeys(m, k, PREPREPARE_TYPE)| > 0 }

  predicate StoredReadyForCommit(c: Codec, m: Entries, k: OpKey, n: nat)
    requires n > 0
  {
    |VoteKeys(m, k, PREPARE_TYPE)| >= HonestMajority(n) && StoredPreprepared(m, k) && RequestKey(c, k) in m
  }

  predicate StoredPrepared(c: Codec, m: Entries, k: OpKey) { StoredStage(c, m, k) != Some(PrepareStage) }

  predicate StoredReadyForExecute(c: Codec, m: Entries, k: OpKey, n: nat)
    requires n > 0
  {
    |VoteKeys(m, k, COMMIT_TYPE)| >= HonestMajority(n) && StoredPrepared(c, m, k)
  }

  predicate StoredCanAdvance(c: Codec, m: Entries, k: OpKey, next: Stage, n: nat)
    requires n > 0
  {
    match next
    case PrepareStage => false
    case CommitStage => StoredReadyForCommit(c, m, k, n) && StoredStage(c, m, k) == Some(PrepareStage)
    case ExecuteStage => StoredReadyForExecute(c, m, k, n) && StoredStage(c, m, k) == Some(CommitStage)
  }

  // ---- Calls, on storage and in memory ----

  datatype Call =
    | Construct(k: OpKey)
    | RecordMsg(k: OpKey, e: Envelope)
    | RecordRequest(k: OpKey, text: string, isRequest: bool)
    | Advance(k: OpKey, next: Stage)
    | Delete(sequence: nat)

  function MsgType(e: Envelope): Option<nat>
  {
    match e.msg
    case PrePrepare(_, _, _) => Some(PREPREPARE_TYPE)
    case Prepare(_, _, _) => Some(PREPARE_TYPE)
    case Commit(_, _, _) => Some(COMMIT_TYPE)
    case _ => None
  }

  /** storage create, whose result is not an error when the key is there already. */
  function PutNew(m: Entries, key: string, value: string): Entries
  {
    if CreateResult(m, key, value) == Ok then m[key := value] else m
  }

  function OnStorage(c: Codec, n: nat, m: Entries, call: Call): Entries
    requires n > 0
  {
    match call
    case Construct(k) => PutNew(m, StageKey(c, k), StageText(PrepareStage))
    case RecordMsg(k, e) =>
      if MsgType(e).None? then m else PutNew(m, VoteKey(c, k, MsgType(e).value, e.sender), c.encode(e))
    case RecordRequest(k, text, _) => PutNew(m, RequestKey(c, k), text)
    case Advance(k, next) =>
      if StoredCanAdvance(c, m, k, next, n) then m[StageKey(c, k) := StageText(next)] else m
    case Delete(sequence) => Removed(m, sequence)
  }

  /** What remove_range leaves of the operations up to a sequence. */
  function Removed(m: Entries, sequence: nat): Entries
  {
    map key | key in m && !(!Less(key, SequencePrefix(0)) && Less(key, SequencePrefix(sequence))) :: m[key]
  }

  function InMemory(n: nat, ops: map<OpKey, Op>, call: Call): map<OpKey, Op>
    requires n > 0
  {
    match call
    case Construct(k) => ops[k := Find(ops, k)]
    case RecordMsg(k, e) => ops[k := Find(ops, k).Record(e)]
    case RecordRequest(k, _, isRequest) =>
      if isRequest then ops[k := Find(ops, k).(hasRequest := true)] else ops
    case Advance(k, next) =>
      if Find(ops, k).CanAdvance(next, n) then ops[k := Find(ops, k).(stage := next)] else ops
    case Delete(sequence) => DeleteUntil(ops, sequence)
  }

  /** A call on an operation that exists, whose key and value storage accepts. A request is a
      database or an internal request. */
  predicate WellFormed(c: Codec, ops: map<OpKey, Op>, call: Call)
  {
    && (!call.Delete? ==> WellKeyed(c.hashLength, call.k))
    && match call
       case Construct(k) => |StageKey(c, k)| <= MAX_KEY_SIZE
       case RecordMsg(k, e) =>
         k in ops && (MsgType(e).Some? ==> |VoteKey(c, k, MsgType(e).value, e.sender)| <= MAX_KEY_SIZE
                                           && |c.encode(e)| <= MAX_VALUE_SIZE)
       case RecordRequest(k, text, isRequest) =>
         k in ops && isRequest && |RequestKey(c, k)| <= MAX_KEY_SIZE && |text| <= MAX_VALUE_SIZE
       case Advance(k, _) => k in ops
       case Delete(sequence) => sequence < U64
  }

  // ---- The relation between the two ----

  /** What storage must hold for an operation. Memory keeps the last pre-prepare only. */
  predicate Has(op: Op, item: Item)
  {
    match item
    case StageItem => true
    case RequestItem => op.hasRequest
    case VoteItem(t, u) =>
      if t == PREPREPARE_TYPE then op.prePrepare.Some? && op.prePrepare.value.sender == u
      else if t == PREPARE_TYPE then u in op.prepares
      else t == COMMIT_TYPE && u in op.commits
  }

  /** What storage may hold for it. */
  predicate May(op: Op, item: Item)
  {
    Has(op, item) || (item.VoteItem? && item.t == PREPREPARE_TYPE && op.prePrepare.Some?)
  }

  ghost predicate Owned(c: Codec, ops: map<OpKey, Op>, key: string)
  {
    exists k, item :: k in ops && GoodItem(item) && May(ops[k], item) && key == ItemKey(c.names, k, item)
  }

  ghost predicate Complete(c: Codec, m: Entries, k: OpKey, op: Op)
  {
    forall item | GoodItem(item) && Has(op, item) :: ItemKey(c.names, k, item) in m
  }

  ghost predicate Refines(c: Codec, m: Entries, ops: map<OpKey, Op>)
  {
    && Distinct(c.names)
    && (forall key | key in m :: Owned(c, ops, key))
    && (forall k | k in ops :: WellKeyed(c.hashLength, k) && Complete(c, m, k, ops[k]))
    && (forall k | k in ops && StageKey(c, k) in m :: m[StageKey(c, k)] == StageText(ops[k].stage))
  }

  lemma OwnedItem(c: Codec, m: Entries, ops: map<OpKey, Op>, k: OpKey, item: Item)
    requires Refines(c, m, ops) && WellKeyed(c.hashLength, k) && GoodItem(item) && ItemKey(c.names, k, item) in m
    ensures k in ops && May(ops[k], item)
  {
    var key := ItemKey(c.names, k, item);
    assert Owned(c, ops, key);
    var k', item' :| k' in ops && GoodItem(item') && May(ops[k'], item') && key == ItemKey(c.names, k', item');
    ItemKeyInjective(c.hashLength, c.names, k, item, k', item');
  }

  lemma OwnerOf(c: Codec, m: Entries, ops: map<OpKey, Op>, key: string) returns (k: OpKey, item: Item)
    requires Refines(c, m, ops) && key in m
    ensures k in ops && WellKeyed(c.hashLength, k) && GoodItem(item) && May(ops[k], item)
            && key == ItemKey(c.names, k, item)
  {
    assert Owned(c, ops, key);
    hide Complete, ItemKey;
    k, item :| k in ops && GoodItem(item) && May(ops[k], item) && key == ItemKey(c.names, k, item);
  }

  lemma {:induction false} ImageSize(senders: set<Uuid>, keys: set<string>, f: Uuid -> string)
    requires forall u, v | u in senders && v in senders :: f(u) == f(v) ==> u == v
    requires keys == set u | u in senders :: f(u)
    ensures |keys| == |senders|
    decreases senders
  {
    if senders != {} {
      var u :| u in senders;
      var rest := keys - {f(u)};
      assert rest == set v | v in senders - {u} :: f(v);
      ImageSize(senders - {u}, rest, f);
      assert keys == rest + {f(u)};
    }
  }

  /** A key the scan finds is that of a vote of this operation and type. */
  lemma FoundVote(c: Codec, m: Entries, ops: map<OpKey, Op>, k: OpKey, t: nat, key: string) returns (u: Uuid)
    requires Refines(c, m, ops) && k in ops && IsType(t) && key in VoteKeys(m, k, t)
    ensures May(ops[k], VoteItem(t, u)) && key == VoteKey(c, k, t, u)
  {
    assert Owned(c, ops, key);
    var k', item :| k' in ops && GoodItem(item) && May(ops[k'], item) && key == ItemKey(c.names, k', item);
    TypedScan(c.hashLength, c.names, k, t, k', item);
    u := item.u;
  }

  /** The scan finds every vote that was recorded. */
  lemma VoteIsFound(c: Codec, m: Entries, ops: map<OpKey, Op>, k: OpKey, t: nat, u: Uuid)
    requires Refines(c, m, ops) && k in ops && IsType(t) && Has(ops[k], VoteItem(t, u))
    ensures VoteKey(c, k, t, u) in VoteKeys(m, k, t)
  {
    TypedScan(c.hashLength, c.names, k, t, k, VoteItem(t, u));
  }

  lemma VoteKeyInjective(c: Codec, m: Entries, ops: map<OpKey, Op>, k: OpKey, t: nat, u: Uuid, v: Uuid)
    requires Refines(c, m, ops) && k in ops && IsType(t) && VoteKey(c, k, t, u) == VoteKey(c, k, t, v)
    ensures u == v
  {
    ItemKeyInjective(c.hashLength, c.names, k, VoteItem(t, u), k, VoteItem(t, v));
  }

  /** The scan returns one key for each distinct sender. */
  lemma OneKeyPerSender(c: Codec, m: Entries, ops: map<OpKey, Op>, k: OpKey, t: nat, senders: set<Uuid>)
    requires Refines(c, m, ops) && k in ops && (t == PREPARE_TYPE || t == COMMIT_TYPE)
    requires senders == if t == PREPARE_TYPE then ops[k].prepares.Keys else ops[k].commits
    ensures |VoteKeys(m, k, t)| == |senders|
  {
    hide Refines, VoteKeys, VoteKey;
    var f := (u: Uuid) => VoteKey(c, k, t, u);
    forall u: Uuid, v: Uuid | f(u) == f(v) ensures u == v { VoteKeyInjective(c, m, ops, k, t, u, v); }
    var keys := VoteKeys(m, k, t);
    forall key | key in keys ensures exists u :: u in senders && key == f(u) {
      var u := FoundVote(c, m, ops, k, t, key);
      assert u in senders && key == f(u);
    }
    forall u | u in senders ensures f(u) in keys { VoteIsFound(c, m, ops, k, t, u); }
    assert keys == set u | u in senders :: f(u);
    ImageSize(senders, keys, f);
  }

  lemma SamePreprepared(c: Codec, m: Entries, ops: map<OpKey, Op>, k: OpKey)
    requires Refines(c, m, ops) && k in ops
    ensures StoredPreprepared(m, k) <==> ops[k].IsPreprepared()
  {
    hide Refines, VoteKeys, VoteKey;
    var keys := VoteKeys(m, k, PREPREPARE_TYPE);
    if keys != {} {
      var key :| key in keys;
      var _ := FoundVote(c, m, ops, k, PREPREPARE_TYPE, key);
    }
    if ops[k].IsPreprepared() {
      VoteIsFound(c, m, ops, k, PREPREPARE_TYPE, ops[k].prePrepare.value.sender);
    }
  }

  lemma SameStage(c: Codec, m: Entries, ops: map<OpKey, Op>, k: OpKey)
    requires Refines(c, m, ops) && k in ops
    ensures StageKey(c, k) in m && StoredStage(c, m, k) == Some(ops[k].stage)
  {
    hide Owned, ItemKey;
    assert Has(ops[k], StageItem) && Complete(c, m, k, ops[k]);
    hide Refines, Complete;
    assert ItemKey(c.names, k, StageItem) in m;
  }

  lemma SameRequest(c: Codec, m: Entries, ops: map<OpKey, Op>, k: OpKey)
    requires Refines(c, m, ops) && k in ops
    ensures RequestKey(c, k) in m <==> ops[k].hasRequest
  {
    if ops[k].hasRequest { assert Has(ops[k], RequestItem); }
    if RequestKey(c, k) in m { OwnedItem(c, m, ops, k, RequestItem); }
  }

  /** The operation at k, computed from storage, answers every question as op does. */
  ghost predicate AnswersAs(c: Codec, m: Entries, k: OpKey, op: Op, n: nat)
    requires n > 0
  {
    && StoredStage(c, m, k) == Some(op.stage)
    && (StoredPreprepared(m, k) <==> op.IsPreprepared())
    && (StoredPrepared(c, m, k) <==> op.IsPrepared())
    && (RequestKey(c, k) in m <==> op.hasRequest)
    && (StoredReadyForCommit(c, m, k, n) <==> op.ReadyForCommit(n))
    && (StoredReadyForExecute(c, m, k, n) <==> op.ReadyForExecute(n))
    && forall next :: StoredCanAdvance(c, m, k, next, n) <==> op.CanAdvance(next, n)
  }

  /** Everything the storage-backed operation answers is what the in-memory one answers. */
  lemma SameAnswers(c: Codec, m: Entries, ops: map<OpKey, Op>, k: OpKey, n: nat)
    requires Refines(c, m, ops) && k in ops && n > 0
    ensures AnswersAs(c, m, k, ops[k], n)
  {
    hide Refines, VoteKeys, StageKey, RequestKey, StoredStage, StoredPreprepared;
    var op := ops[k];
    SameStage(c, m, ops, k);
    SameRequest(c, m, ops, k);
    SamePreprepared(c, m, ops, k);
    OneKeyPerSender(c, m, ops, k, PREPARE_TYPE, op.prepares.Keys);
    OneKeyPerSender(c, m, ops, k, COMMIT_TYPE, op.commits);
    assert |op.prepares| == |op.prepares.Keys|;
  }

  // ---- Every call keeps the relation ----

  /** op' is what the operation at k may become when item is put into storage. */
  ghost predicate Extends(ops: map<OpKey, Op>, k: OpKey, op': Op, item: Item)
  {
    && GoodItem(item) && May(op', item)
    && (forall i | k in ops && May(ops[k], i) :: May(op', i))
    && (forall i | GoodItem(i) && Has(op', i) :: i == item || (k in ops && Has(ops[k], i)))
  }

  lemma ExtendsGood(ops: map<OpKey, Op>, k: OpKey, op': Op, item: Item)
    requires Extends(ops, k, op', item)
    ensures GoodItem(item)
  {
  }

  lemma StillOwned(c: Codec, ops: map<OpKey, Op>, k: OpKey, op': Op, item: Item, key: string)
    requires Extends(ops, k, op', item)
    requires Owned(c, ops, key) || key == ItemKey(c.names, k, item)
    ensures Owned(c, ops[k := op'], key)
  {
    hide ItemKey, Has, May;
    var ops' := ops[k := op'];
    if Owned(c, ops, key) {
      var j, i :| j in ops && GoodItem(i) && May(ops[j], i) && key == ItemKey(c.names, j, i);
      assert j in ops' && May(ops'[j], i);
    } else {
      assert k in ops' && May(ops'[k], item);
    }
  }

  lemma StillComplete(c: Codec, m: Entries, m': Entries, ops: map<OpKey, Op>, k: OpKey, op': Op, item: Item, j: OpKey)
    requires Refines(c, m, ops) && Extends(ops, k, op', item) && (j in ops || j == k)
    requires m'.Keys == m.Keys + {ItemKey(c.names, k, item)}
    ensures Complete(c, m', j, ops[k := op'][j])
  {
    hide Owned, ItemKey;
    forall i | GoodItem(i) && Has(ops[k := op'][j], i) ensures ItemKey(c.names, j, i) in m' {
      if j in ops { assert Complete(c, m, j, ops[j]); }
    }
  }

  lemma Grows(c: Codec, m: Entries, m': Entries, ops: map<OpKey, Op>, k: OpKey, op': Op, item: Item)
    requires Refines(c, m, ops) && WellKeyed(c.hashLength, k) && Extends(ops, k, op', item)
    requires m'.Keys == m.Keys + {ItemKey(c.names, k, item)}
    requires StageKey(c, k) in m' && m'[StageKey(c, k)] == StageText(op'.stage)
    requires forall key | key in m && key != StageKey(c, k) :: m'[key] == m[key]
    ensures Refines(c, m', ops[k := op'])
  {
    hide Owned, Complete, StageKey, ItemKey, Extends;
    var ops' := ops[k := op'];
    forall key | key in m' ensures Owned(c, ops', key) { StillOwned(c, ops, k, op', item, key); }
    forall j | j in ops' ensures Complete(c, m', j, ops'[j]) { StillComplete(c, m, m', ops, k, op', item, j); }
    forall j | j in ops' && StageKey(c, j) in m' ensures m'[StageKey(c, j)] == StageText(ops'[j].stage) {
      if j != k {
        SameStage(c, m, ops, j);
        StageKeysDiffer(c, j, k);
      }
    }
  }

  lemma StageKeysDiffer(c: Codec, j: OpKey, k: OpKey)
    requires Distinct(c.names) && WellKeyed(c.hashLength, j) && WellKeyed(c.hashLength, k) && j != k
    ensures StageKey(c, j) != StageKey(c, k)
  {
    if StageKey(c, j) == StageKey(c, k) { ItemKeyInjective(c.hashLength, c.names, j, StageItem, k, StageItem); }
  }

  lemma ConstructStep(c: Codec, n: nat, m: Entries, ops: map<OpKey, Op>, call: Call)
    requires Refines(c, m, ops) && WellFormed(c, ops, call) && n > 0 && call.Construct?
    ensures Refines(c, OnStorage(c, n, m, call), InMemory(n, ops, call))
  {
    hide Refines, ItemKey;
    var k := call.k;
    if k in ops {
      SameStage(c, m, ops, k);
      assert ops[k := ops[k]] == ops;
    } else {
      if StageKey(c, k) in m { OwnedItem(c, m, ops, k, StageItem); }
      Grows(c, m, m[StageKey(c, k) := StageText(PrepareStage)], ops, k, NewOp, StageItem);
    }
  }

  lemma PutStep(c: Codec, m: Entries, ops: map<OpKey, Op>, k: OpKey, op': Op, item: Item, value: string)
    requires Refines(c, m, ops) && k in ops && Extends(ops, k, op', item) && op'.stage == ops[k].stage
    requires !item.StageItem? && |ItemKey(c.names, k, item)| <= MAX_KEY_SIZE && |value| <= MAX_VALUE_SIZE
    ensures Refines(c, PutNew(m, ItemKey(c.names, k, item), value), ops[k := op'])
  {
    hide Refines, ItemKey, StageKey, Extends;
    var key := ItemKey(c.names, k, item);
    assert GoodItem(item) by { ExtendsGood(ops, k, op', item); }
    NotStageKey(c, m, ops, k, item);
    assert m.Keys + {key} == PutNew(m, key, value).Keys;
    WellKeyedOps(c, m, ops, k);
    Grows(c, m, PutNew(m, key, value), ops, k, op', item);
  }

  lemma WellKeyedOps(c: Codec, m: Entries, ops: map<OpKey, Op>, k: OpKey)
    requires Refines(c, m, ops) && k in ops
    ensures WellKeyed(c.hashLength, k) && StageKey(c, k) in m && m[StageKey(c, k)] == StageText(ops[k].stage)
  {
    SameStage(c, m, ops, k);
    hide Owned, Complete;
  }

  lemma NotStageKey(c: Codec, m: Entries, ops: map<OpKey, Op>, k: OpKey, item: Item)
    requires Refines(c, m, ops) && k in ops && GoodItem(item) && !item.StageItem?
    ensures ItemKey(c.names, k, item) != StageKey(c, k)
  {
    if ItemKey(c.names, k, item) == StageKey(c, k) {
      ItemKeyInjective(c.hashLength, c.names, k, item, k, StageItem);
    }
  }

  lemma RecordStep(c: Codec, n: nat, m: Entries, ops: map<OpKey, Op>, call: Call)
    requires Refines(c, m, ops) && WellFormed(c, ops, call) && n > 0 && (call.RecordMsg? || call.RecordRequest?)
    ensures Refines(c, OnStorage(c, n, m, call), InMemory(n, ops, call))
  {
    hide Refines;
    var k := call.k;
    if call.RecordRequest? {
      PutStep(c, m, ops, k, ops[k].(hasRequest := true), RequestItem, call.text);
    } else if MsgType(call.e).Some? {
      PutStep(c, m, ops, k, ops[k].Record(call.e), VoteItem(MsgType(call.e).value, call.e.sender), c.encode(call.e));
    } else {
      assert ops[k := ops[k]] == ops;
    }
  }

  lemma AdvanceStep(c: Codec, n: nat, m: Entries, ops: map<OpKey, Op>, call: Call)
    requires Refines(c, m, ops) && WellFormed(c, ops, call) && n > 0 && call.Advance?
    ensures Refines(c, OnStorage(c, n, m, call), InMemory(n, ops, call))
  {
    hide Refines, StoredCanAdvance, ItemKey;
    var k := call.k;
    SameAnswers(c, m, ops, k, n);
    if ops[k].CanAdvance(call.next, n) {
      SameStage(c, m, ops, k);
      var m' := m[StageKey(c, k) := StageText(call.next)];
      assert m'.Keys == m.Keys + {StageKey(c, k)};
      Grows(c, m, m', ops, k, ops[k].(stage := call.next), StageItem);
    }
  }

  // ---- Deleting ----

  lemma RemovedKey(c: Codec, m: Entries, k: OpKey, item: Item, sequence: nat)
    requires WellKeyed(c.hashLength, k) && sequence < U64
    ensures ItemKey(c.names, k, item) in Removed(m, sequence)
            <==> ItemKey(c.names, k, item) in m && k.sequence >= sequence
  {
    BelowSequence(k, Suffix(c.names, item), 0);
    BelowSequence(k, Suffix(c.names, item), sequence);
  }

  function From(ops: map<OpKey, Op>, sequence: nat): map<OpKey, Op>
  {
    map k | k in ops && k.sequence >= sequence :: ops[k]
  }

  /** After deletion storage still stands for the operations from that sequence on. It keeps the
      ones at the sequence itself, which memory forgets. */
  lemma RemovedRefines(c: Codec, m: Entries, ops: map<OpKey, Op>, sequence: nat)
    requires Refines(c, m, ops) && sequence < U64
    ensures Refines(c, Removed(m, sequence), From(ops, sequence))
  {
    var m', ops' := Removed(m, sequence), From(ops, sequence);
    forall key | key in m' ensures Owned(c, ops', key) { RemovedOwned(c, m, ops, sequence, key); }
    forall k | k in ops' ensures Complete(c, m', k, ops'[k]) { RemovedComplete(c, m, ops, sequence, k); }
    hide Owned, Complete, Less, StageKey;
  }

  lemma RemovedOwned(c: Codec, m: Entries, ops: map<OpKey, Op>, sequence: nat, key: string)
    requires Refines(c, m, ops) && sequence < U64 && key in Removed(m, sequence)
    ensures Owned(c, From(ops, sequence), key)
  {
    hide Refines, May, ItemKey, Less;
    var k, item := OwnerOf(c, m, ops, key);
    RemovedKey(c, m, k, item, sequence);
  }

  lemma RemovedComplete(c: Codec, m: Entries, ops: map<OpKey, Op>, sequence: nat, k: OpKey)
    requires Refines(c, m, ops) && sequence < U64 && k in From(ops, sequence)
    ensures Complete(c, Removed(m, sequence), k, ops[k])
  {
    hide Owned;
    assert WellKeyed(c.hashLength, k) && Complete(c, m, k, ops[k]);
    hide Refines, Removed, ItemKey;
    forall item | GoodItem(item) && Has(ops[k], item) ensures ItemKey(c.names, k, item) in Removed(m, sequence) {
      RemovedKey(c, m, k, item, sequence);
    }
  }

  /** So storage stands for what memory keeps exactly if there was no operation at the sequence. */
  lemma RemovedRefinesIff(c: Codec, m: Entries, ops: map<OpKey, Op>, sequence: nat)
    requires Refines(c, m, ops) && sequence < U64
    ensures Refines(c, Removed(m, sequence), DeleteUntil(ops, sequence))
            <==> forall k | k in ops :: k.sequence != sequence
  {
    hide Refines, ItemKey;
    RemovedRefines(c, m, ops, sequence);
    if forall k | k in ops :: k.sequence != sequence {
      assert DeleteUntil(ops, sequence) == From(ops, sequence);
    } else if Refines(c, Removed(m, sequence), DeleteUntil(ops, sequence)) {
      var k :| k in ops && k.sequence == sequence;
      WellKeyedOps(c, Removed(m, sequence), From(ops, sequence), k);
      OwnedItem(c, Removed(m, sequence), DeleteUntil(ops, sequence), k, StageItem);
    }
  }

  // ---- Runs ----

  function StorageAfter(c: Codec, n: nat, calls: seq<Call>): Entries
    requires n > 0
  {
    if calls == [] then map[] else OnStorage(c, n, StorageAfter(c, n, calls[..|calls| - 1]), calls[|calls| - 1])
  }

  function MemoryAfter(n: nat, calls: seq<Call>): map<OpKey, Op>
    requires n > 0
  {
    if calls == [] then map[] else InMemory(n, MemoryAfter(n, calls[..|calls| - 1]), calls[|calls| - 1])
  }

  /** The operations that storage stands for: it deletes below a sequence, memory up to it. */
  function Tracked(n: nat, ops: map<OpKey, Op>, call: Call): map<OpKey, Op>
    requires n > 0
  {
    if call.Delete? then From(ops, call.sequence) else InMemory(n, ops, call)
  }

  function TrackedAfter(n: nat, calls: seq<Call>): map<OpKey, Op>
    requires n > 0
  {
    if calls == [] then map[] else Tracked(n, TrackedAfter(n, calls[..|calls| - 1]), calls[|calls| - 1])
  }

  ghost predicate AllWellFormed(c: Codec, n: nat, calls: seq<Call>)
    requires n > 0
  {
    forall i | 0 <= i < |calls| :: WellFormed(c, MemoryAfter(n, calls[..i]), calls[i])
  }

  lemma Shorter(c: Codec, n: nat, calls: seq<Call>)
    requires n > 0 && AllWellFormed(c, n, calls) && calls != []
    ensures AllWellFormed(c, n, calls[..|calls| - 1])
    ensures WellFormed(c, MemoryAfter(n, calls[..|calls| - 1]), calls[|calls| - 1])
  {
    hide WellFormed, MemoryAfter;
    var before := calls[..|calls| - 1];
    forall i | 0 <= i < |before| ensures WellFormed(c, MemoryAfter(n, before[..i]), before[i]) {
      assert before[..i] == calls[..i] && before[i] == calls[i];
    }
  }

  lemma {:induction false} MemoryIsTracked(c: Codec, n: nat, calls: seq<Call>)
    requires n > 0 && AllWellFormed(c, n, calls)
    ensures MemoryAfter(n, calls).Keys <= TrackedAfter(n, calls).Keys
    decreases |calls|
  {
    if calls != [] {
      Shorter(c, n, calls);
      hide WellFormed, AllWellFormed;
      MemoryIsTracked(c, n, calls[..|calls| - 1]);
    }
  }

  lemma WellFormedMore(c: Codec, ops: map<OpKey, Op>, more: map<OpKey, Op>, call: Call)
    requires WellFormed(c, ops, call) && ops.Keys <= more.Keys
    ensures WellFormed(c, more, call)
  {
    hide ItemKey;
  }

  lemma TrackedStep(c: Codec, n: nat, m: Entries, ops: map<OpKey, Op>, call: Call)
    requires Refines(c, m, ops) && WellFormed(c, ops, call) && n > 0
    ensures Refines(c, OnStorage(c, n, m, call), Tracked(n, ops, call))
  {
    hide Refines, WellFormed;
    match call
    case Construct(_) => ConstructStep(c, n, m, ops, call);
    case Advance(_, _) => AdvanceStep(c, n, m, ops, call);
    case Delete(sequence) =>
      assert sequence < U64 by { DeleteInRange(c, ops, call); }
      RemovedRefines(c, m, ops, sequence);
    case _ => RecordStep(c, n, m, ops, call);
  }

  lemma DeleteInRange(c: Codec, ops: map<OpKey, Op>, call: Call)
    requires WellFormed(c, ops, call) && call.Delete?
    ensures call.sequence < U64
  {
  }

  /** After every sequence of well-formed, size-bounded calls, deletions among them, storage stands
      for the tracked operations. */
  lemma {:induction false} AlwaysRefines(c: Codec, n: nat, calls: seq<Call>)
    requires n > 0 && Distinct(c.names) && AllWellFormed(c, n, calls)
    ensures Refines(c, StorageAfter(c, n, calls), TrackedAfter(n, calls))
    decreases |calls|
  {
    if calls != [] {
      var before, last := calls[..|calls| - 1], calls[|calls| - 1];
      Shorter(c, n, calls);
      AlwaysRefines(c, n, before);
      MemoryIsTracked(c, n, before);
      hide Refines, WellFormed, AllWellFormed, OnStorage, Tracked, MemoryAfter;
      WellFormedMore(c, MemoryAfter(n, before), TrackedAfter(n, before), last);
      TrackedStep(c, n, StorageAfter(c, n, before), TrackedAfter(n, before), last);
    }
  }

  /** The highest sequence up to which operations were deleted. */
  function DeletedUpTo(calls: seq<Call>): nat
  {
    if calls == [] then 0
    else
      var bound, last := DeletedUpTo(calls[..|calls| - 1]), calls[|calls| - 1];
      if last.Delete? && last.sequence > bound then last.sequence else bound
  }

  /** Above that sequence memory and storage stand for the same operations. */
  lemma {:induction false} SameAboveDeleted(n: nat, calls: seq<Call>, k: OpKey)
    requires n > 0 && k.sequence > DeletedUpTo(calls)
    ensures k in MemoryAfter(n, calls) <==> k in TrackedAfter(n, calls)
    ensures k in MemoryAfter(n, calls) ==> MemoryAfter(n, calls)[k] == TrackedAfter(n, calls)[k]
    decreases |calls|
  {
    if calls != [] { SameAboveDeleted(n, calls[..|calls| - 1], k); }
  }

  /** No operation that memory has dropped and storage has kept is constructed again. */
  ghost predicate NoneReturns(n: nat, calls: seq<Call>)
    requires n > 0
  {
    forall i | 0 <= i < |calls| && calls[i].Construct? ::
      calls[i].k in TrackedAfter(n, calls[..i]) ==> calls[i].k in MemoryAfter(n, calls[..i])
  }

  /** Every operation in memory is tracked, and alike. */
  predicate Within(ops: map<OpKey, Op>, tracked: map<OpKey, Op>)
  {
    forall k | k in ops :: k in tracked && tracked[k] == ops[k]
  }

  lemma WithinStep(c: Codec, n: nat, ops: map<OpKey, Op>, tracked: map<OpKey, Op>, call: Call)
    requires n > 0 && Within(ops, tracked) && WellFormed(c, ops, call)
    requires call.Construct? && call.k in tracked ==> call.k in ops
    ensures Within(InMemory(n, ops, call), Tracked(n, tracked, call))
  {
  }

  lemma {:induction false} SameWhileHeld(c: Codec, n: nat, calls: seq<Call>)
    requires n > 0 && AllWellFormed(c, n, calls) && NoneReturns(n, calls)
    ensures Within(MemoryAfter(n, calls), TrackedAfter(n, calls))
    decreases |calls|
  {
    if calls != [] {
      var before, last := calls[..|calls| - 1], calls[|calls| - 1];
      Shorter(c, n, calls);
      FewerReturn(n, calls);
      hide AllWellFormed, NoneReturns, WellFormed, InMemory, Tracked, Within;
      SameWhileHeld(c, n, before);
      WithinStep(c, n, MemoryAfter(n, before), TrackedAfter(n, before), last);
    }
  }

  lemma FewerReturn(n: nat, calls: seq<Call>)
    requires n > 0 && NoneReturns(n, calls) && calls != []
    ensures NoneReturns(n, calls[..|calls| - 1])
    ensures var before, last := calls[..|calls| - 1], calls[|calls| - 1];
            last.Construct? && last.k in TrackedAfter(n, before) ==> last.k in MemoryAfter(n, before)
  {
    hide TrackedAfter, MemoryAfter;
    var before := calls[..|calls| - 1];
    forall i | 0 <= i < |before| && before[i].Construct?
      ensures before[i].k in TrackedAfter(n, before[..i]) ==> before[i].k in MemoryAfter(n, before[..i])
    {
      assert before[..i] == calls[..i] && before[i] == calls[i];
    }
  }

  /** Both kinds of operation answer alike in every run: for each operation that was never deleted,
      and for each one held if none returns that memory alone has dropped. */
  lemma AlwaysSameAnswers(c: Codec, n: nat, calls: seq<Call>, k: OpKey)
    requires n > 0 && Distinct(c.names) && AllWellFormed(c, n, calls) && k in MemoryAfter(n, calls)
    requires k.sequence > DeletedUpTo(calls) || NoneReturns(n, calls)
    ensures AnswersAs(c, StorageAfter(c, n, calls), k, MemoryAfter(n, calls)[k], n)
  {
    AlwaysRefines(c, n, calls);
    if k.sequence > DeletedUpTo(calls) {
      SameAboveDeleted(n, calls, k);
    } else {
      SameWhileHeld(c, n, calls);
    }
    hide Refines, AnswersAs, AllWellFormed, NoneReturns;
    SameAnswers(c, StorageAfter(c, n, calls), TrackedAfter(n, calls), k, n);
  }

  /** One that does return is in its old stage for storage, and in the first one for memory. */
  lemma ReturnedStageIff(c: Codec, n: nat, m: Entries, ops: map<OpKey, Op>, k: OpKey)
    requires Refines(c, m, ops) && k in ops && n > 0
    ensures StoredStage(c, OnStorage(c, n, m, Construct(k)), k) == Some(InMemory(n, map[], Construct(k))[k].stage)
            <==> ops[k].stage == PrepareStage
  {
    hide Refines;
    SameStage(c, m, ops, k);
  }

  /** Nothing that storage would still answer for. */
  predicate Untouched(op: Op) { op.stage == PrepareStage && op.prePrepare.None? && !op.hasRequest }

  /** An operation that is constructed again answers as a new one exactly if it was untouched. */
  lemma ReturnedAnswersIff(c: Codec, n: nat, m: Entries, ops: map<OpKey, Op>, k: OpKey)
    requires Refines(c, m, ops) && k in ops && n > 0
    ensures AnswersAs(c, OnStorage(c, n, m, Construct(k)), k, NewOp, n) <==> Untouched(ops[k])
  {
    hide Refines;
    SameStage(c, m, ops, k);
    SameAnswers(c, m, ops, k, n);
    assert OnStorage(c, n, m, Construct(k)) == m;
    hide StoredStage, StoredPreprepared, StoredReadyForCommit, StoredReadyForExecute, StoredCanAdvance;
    hide StoredPrepared, RequestKey;
  }

  lemma OneMoreCall(c: Codec, n: nat, calls: seq<Call>, call: Call)
    requires n > 0
    ensures StorageAfter(c, n, calls + [call]) == OnStorage(c, n, StorageAfter(c, n, calls), call)
    ensures MemoryAfter(n, calls + [call]) == InMemory(n, MemoryAfter(n, calls), call)
    ensures TrackedAfter(n, calls + [call]) == Tracked(n, TrackedAfter(n, calls), call)
  {
    hide OnStorage, InMemory, Tracked;
    assert (calls + [call])[..|calls|] == calls;
  }

  /** Over a run: constructing an operation that memory does not hold makes the two kinds answer alike
      exactly if storage has nothing of it, or nothing but an untouched operation. */
  lemma ConstructedAlikeIff(c: Codec, n: nat, calls: seq<Call>, k: OpKey)
    requires n > 0 && Distinct(c.names) && AllWellFormed(c, n, calls + [Construct(k)]) && k !in MemoryAfter(n, calls)
    ensures var after := calls + [Construct(k)];
            && k in MemoryAfter(n, after) && MemoryAfter(n, after)[k] == NewOp
            && (AnswersAs(c, StorageAfter(c, n, after), k, NewOp, n)
                <==> (k in TrackedAfter(n, calls) ==> Untouched(TrackedAfter(n, calls)[k])))
  {
    var after := calls + [Construct(k)];
    Shorter(c, n, after);
    assert after[..|after| - 1] == calls;
    AlwaysRefines(c, n, calls);
    AlwaysRefines(c, n, after);
    OneMoreCall(c, n, calls, Construct(k));
    hide Refines, AnswersAs, AllWellFormed, StorageAfter, MemoryAfter, TrackedAfter;
    if k in TrackedAfter(n, calls) {
      ReturnedAnswersIff(c, n, StorageAfter(c, n, calls), TrackedAfter(n, calls), k);
    } else {
      SameAnswers(c, StorageAfter(c, n, after), TrackedAfter(n, after), k, n);
    }
  }

  /** A request, a deletion at its sequence, and the same operation again: storage still has the request. */
  function ReturningCalls(k: OpKey, text: string): seq<Call>
  {
    [Construct(k), RecordRequest(k, text, true), Delete(k.sequence), Construct(k)]
  }

  lemma AfterOne(n: nat, k: OpKey)
    requires n > 0
    ensures MemoryAfter(n, []) == map[]
    ensures MemoryAfter(n, [Construct(k)]) == TrackedAfter(n, [Construct(k)]) == map[k := NewOp]
  {
    var none: seq<Call> := [];
    assert [Construct(k)][..0] == none;
    assert MemoryAfter(n, none) == map[] && TrackedAfter(n, none) == map[];
  }

  /** Memory and what storage stands for along these calls. */
  lemma ReturningStates(c: Codec, n: nat, k: OpKey, text: string)
    requires n > 0
    ensures var calls := ReturningCalls(k, text);
            && k in MemoryAfter(n, calls[..1]) && k !in MemoryAfter(n, calls[..3])
            && k in TrackedAfter(n, calls[..3]) && TrackedAfter(n, calls[..3])[k].hasRequest
  {
    var calls, first := ReturningCalls(k, text), [Construct(k)];
    var second := first + [RecordRequest(k, text, true)];
    assert calls[..1] == first && calls[..2] == second && calls[..3] == second + [Delete(k.sequence)];
    AfterOne(n, k);
    OneMoreCall(c, n, first, RecordRequest(k, text, true));
    OneMoreCall(c, n, second, Delete(k.sequence));
    hide StorageAfter, MemoryAfter, TrackedAfter, OnStorage;
  }

  lemma ReturnedDiffers(c: Codec, n: nat, k: OpKey, text: string)
    requires n > 0 && Distinct(c.names) && WellKeyed(c.hashLength, k) && |StageKey(c, k)| <= MAX_KEY_SIZE
    requires |RequestKey(c, k)| <= MAX_KEY_SIZE && |text| <= MAX_VALUE_SIZE
    ensures var calls := ReturningCalls(k, text);
            && AllWellFormed(c, n, calls) && k in MemoryAfter(n, calls)
            && !AnswersAs(c, StorageAfter(c, n, calls), k, MemoryAfter(n, calls)[k], n)
  {
    hide StageKey, RequestKey, AnswersAs, Distinct, MemoryAfter, TrackedAfter, StorageAfter;
    var calls := ReturningCalls(k, text);
    ReturningStates(c, n, k, text);
    forall i | 0 <= i < |calls| ensures WellFormed(c, MemoryAfter(n, calls[..i]), calls[i]) { }
    assert calls[..3] + [Construct(k)] == calls;
    hide WellFormed;
    ConstructedAlikeIff(c, n, calls[..3], k);
  }

  /** Where the two part ways: storage takes a request if and only if it is small enough, whatever
      it contains; memory takes it if and only if it is a request. */
  lemma RequestRecordedIff(c: Codec, n: nat, m: Entries, ops: map<OpKey, Op>, call: Call)
    requires Refines(c, m, ops) && n > 0 && call.RecordRequest? && call.k in ops && !ops[call.k].hasRequest
    ensures (RequestKey(c, call.k) in OnStorage(c, n, m, call) <==> InMemory(n, ops, call)[call.k].hasRequest)
            <==> (call.isRequest <==> |call.text| <= MAX_VALUE_SIZE && |RequestKey(c, call.k)| <= MAX_KEY_SIZE)
  {
    hide Refines, ItemKey;
    SameRequest(c, m, ops, call.k);
  }
}
