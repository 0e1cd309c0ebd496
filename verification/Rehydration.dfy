/** Finding the prepared operations again from storage alone. */
module Rehydration {
  import opened Messages
  import opened Operations
  import opened Strings
  import opened Words
  import opened MemStorage
  import opened OperationKeys
  import opened PersistentOperation

  const STAGE_MARK: string := "_stage"

  /** The scan keeps keys that end in "stage" with the value of a later stage. */
  predicate StageMatch(key: string, value: string)
  {
    (value == StageText(CommitStage) || value == StageText(ExecuteStage)) && |key| >= 5 && key[|key| - 5..] == "stage"
  }

  /** The prefix is what comes before the first "_stage". */
  function CutPrefix(key: string): string { key[..Search(key, STAGE_MARK, 0)] }

  /** The operation a matching key stands for, if its request is stored too. */
  function OperationAt(m: Entries, key: string): Parsed
  {
    if CutPrefix(key) + "_request" in m then ParsePrefix(CutPrefix(key)) else NotAPrefix
  }

  function StageKeysFrom(m: Entries, start: nat, end: Option<nat>): set<string>
  {
    var last := if end.Some? then SequencePrefix(end.value) else "";
    Matches(m, SequencePrefix(start), last, Some((k, v) => StageMatch(k, v)))
  }

  // ---- Cutting the prefix ----

  ghost predicate SafeHash(h: Hash) { !Contains("_" + h, STAGE_MARK) }

  lemma JoinedParts(a: string, h: string, b: string)
    requires |a| == |b| == 20
    ensures var key := a + "_" + (h + "_" + b) + STAGE_MARK; var n := |h|;
            && |key| == 48 + n && key[20..21 + n] == "_" + h && key[21 + n] == '_'
            && key[..20] == a && key[22 + n..42 + n] == b
            && key[42 + n..] == STAGE_MARK && key[..42 + n] == a + "_" + (h + "_" + b)
  {
    var p := a + "_" + (h + "_" + b);
    assert (p + STAGE_MARK)[..42 + |h|] == p && (p + STAGE_MARK)[42 + |h|..] == STAGE_MARK;
  }

  lemma DigitsOnly(key: string, from: nat, digits: string)
    requires from + |digits| <= |key| && key[from..from + |digits|] == digits && forall c | c in digits :: IsDigit(c)
    ensures forall i | from <= i < from + |digits| :: key[i] != '_' && key[i] != 's'
  {
    forall i | from <= i < from + |digits| ensures key[i] != '_' && key[i] != 's' {
      assert key[i] == digits[i - from] && digits[i - from] in digits;
    }
  }

  /** The parts of a stage key. */
  lemma StageKeyParts(k: OpKey)
    requires Fits64(k)
    ensures var key := Prefix(k) + STAGE_MARK; var n := |k.hash|;
            && |key| == 48 + n && key[20..21 + n] == "_" + k.hash && key[21 + n] == '_'
            && (forall i | 0 <= i < 20 :: key[i] != '_')
            && (forall i | 22 + n <= i < 42 + n :: key[i] != '_' && key[i] != 's')
            && key[42 + n..] == STAGE_MARK && key[..42 + n] == Prefix(k)
  {
    hide Pad, Parse;
    PadValue(k.sequence);
    PadValue(k.view);
    JoinedParts(Pad(k.sequence), k.hash, Pad(k.view));
    var key, n := Prefix(k) + STAGE_MARK, |k.hash|;
    assert key == Pad(k.sequence) + "_" + (k.hash + "_" + Pad(k.view)) + STAGE_MARK;
    hide Prefix;
    DigitsOnly(key, 0, Pad(k.sequence));
    DigitsOnly(key, 22 + n, Pad(k.view));
  }

  /** A mark that starts before the last 48 characters fits between the joints of the key. */
  lemma MarkInside(key: string, n: nat, j: nat)
    requires |key| == 48 + n && key[21 + n] == '_' && j < 42 + n && Occurs(STAGE_MARK, key, j)
    requires forall i | 0 <= i < 20 :: key[i] != '_'
    requires forall i | 22 + n <= i < 42 + n :: key[i] != '_' && key[i] != 's'
    ensures 20 <= j && j + 6 <= 21 + n
  {
    var w := key[j..j + 6];
    assert key[j] == w[0] && key[j + 1] == w[1] && key[j + 2] == w[2] && key[j + 3] == w[3] && key[j + 4] == w[4]
           && key[j + 5] == w[5];
  }

  /** A piece of the body of the key is a piece of the key. */
  lemma Piece(key: string, end: nat, i: nat)
    requires end <= |key| && 20 + i + 6 <= end
    ensures key[20..end][i..i + 6] == key[20 + i..26 + i]
  {
    var a, b := key[20..end][i..i + 6], key[20 + i..26 + i];
    forall t | 0 <= t < 6 ensures a[t] == b[t] { assert key[20..end][i + t] == key[20 + i + t]; }
  }

  /** An early occurrence of the mark lies inside the hash. */
  lemma EarlyMark(k: OpKey, j: nat)
    requires Fits64(k) && j < 42 + |k.hash| && Occurs(STAGE_MARK, Prefix(k) + STAGE_MARK, j)
    ensures j >= 20 && Occurs(STAGE_MARK, "_" + k.hash, j - 20)
  {
    StageKeyParts(k);
    var key, n := Prefix(k) + STAGE_MARK, |k.hash|;
    hide Prefix;
    MarkInside(key, n, j);
    Piece(key, 21 + n, j - 20);
  }

  lemma HashMark(k: OpKey, i: nat)
    requires Fits64(k) && Occurs(STAGE_MARK, "_" + k.hash, i)
    ensures Occurs(STAGE_MARK, Prefix(k) + STAGE_MARK, 20 + i) && 20 + i < 42 + |k.hash|
  {
    StageKeyParts(k);
    var key, n := Prefix(k) + STAGE_MARK, |k.hash|;
    hide Prefix;
    Piece(key, 21 + n, i);
  }

  /** The prefix is cut in the right place exactly when "_stage" does not occur in the hash or in
      the underscore before it. */
  lemma CutPrefixIff(k: OpKey)
    requires Fits64(k)
    ensures CutPrefix(Prefix(k) + STAGE_MARK) == Prefix(k) <==> SafeHash(k.hash)
  {
    StageKeyParts(k);
    hide Prefix;
    var key, n := Prefix(k) + STAGE_MARK, 42 + |k.hash|;
    assert key[n..n + 6] == STAGE_MARK && Occurs(STAGE_MARK, key, n);
    var at := Search(key, STAGE_MARK, 0);
    if !SafeHash(k.hash) {
      var i: nat :| Occurs(STAGE_MARK, "_" + k.hash, i);
      HashMark(k, i);
      assert |CutPrefix(key)| == at < n;
    } else {
      assert at <= n;
      if at < n { EarlyMark(k, at); }
    }
  }

  // ---- What the scan finds ----

  /** A stored vote is longer than a stage. */
  ghost predicate VotesLong(c: Codec, m: Entries)
  {
    forall k, t, u | WellKeyed(c.hashLength, k) && IsType(t) && VoteKey(c, k, t, u) in m :: |m[VoteKey(c, k, t, u)]| > 1
  }

  /** k is an operation the node should find: prepared, with its request, in the range. */
  predicate Wanted(ops: map<OpKey, Op>, start: nat, end: Option<nat>, k: OpKey)
  {
    && k in ops && ops[k].IsPrepared() && ops[k].hasRequest
    && start <= k.sequence && (end.Some? ==> k.sequence < end.value)
  }

  /** Every stored key is longer than the prefix of its operation. */
  lemma KeysAreLong(c: Codec, m: Entries, ops: map<OpKey, Op>, key: string)
    requires Refines(c, m, ops) && key in m
    ensures |key| >= 42 + c.hashLength
  {
    hide Refines;
    var k, item := OwnerOf(c, m, ops, key);
    StageKeyParts(k);
  }

  /** A prefix cut too early is too short for any request to be stored under it. */
  lemma CutTooEarly(c: Codec, m: Entries, ops: map<OpKey, Op>, k: OpKey)
    requires Refines(c, m, ops) && k in ops && !SafeHash(k.hash)
    ensures CutPrefix(Prefix(k) + STAGE_MARK) + "_request" !in m
  {
    WellKeyedOps(c, m, ops, k);
    hide Refines, Prefix;
    var key := Prefix(k) + STAGE_MARK;
    var i: nat :| Occurs(STAGE_MARK, "_" + k.hash, i);
    assert i + 6 <= 1 + |k.hash|;
    HashMark(k, i);
    assert |CutPrefix(key)| <= 20 + i;
    if CutPrefix(key) + "_request" in m { KeysAreLong(c, m, ops, CutPrefix(key) + "_request"); }
  }

  /** A stage key stands for its operation if the request is there and the prefix is cut in the
      right place, for nothing otherwise. */
  lemma StageKeyStands(c: Codec, m: Entries, ops: map<OpKey, Op>, k: OpKey)
    requires Refines(c, m, ops) && k in ops
    ensures OperationAt(m, StageKey(c, k)) == if ops[k].hasRequest && SafeHash(k.hash) then Key(k) else NotAPrefix
    ensures Fits64(k) && StageKey(c, k) == Prefix(k) + STAGE_MARK
  {
    WellKeyedOps(c, m, ops, k);
    SameRequest(c, m, ops, k);
    hide Refines, Prefix, ParsePrefix, SafeHash, CutPrefix;
    if SafeHash(k.hash) {
      CutPrefixIff(k);
      PrefixReadsBack(k);
    } else {
      CutTooEarly(c, m, ops, k);
    }
  }

  /** Only stage keys match: a request key ends otherwise, a vote is longer. */
  lemma MatchIsStage(c: Codec, m: Entries, ops: map<OpKey, Op>, key: string) returns (k: OpKey)
    requires Refines(c, m, ops) && VotesLong(c, m) && key in m && StageMatch(key, m[key])
    ensures k in ops && key == StageKey(c, k)
  {
    hide Refines, Prefix;
    var item;
    k, item := OwnerOf(c, m, ops, key);
    LastFive(Prefix(k));
    if item.VoteItem? {
      VoteIsLong(c, m, k, item.t, item.u);
      assert false;
    }
  }

  lemma VoteIsLong(c: Codec, m: Entries, k: OpKey, t: nat, u: Uuid)
    requires VotesLong(c, m) && WellKeyed(c.hashLength, k) && IsType(t) && ItemKey(c.names, k, VoteItem(t, u)) in m
    ensures |m[ItemKey(c.names, k, VoteItem(t, u))]| > 1
  {
    assert VoteKey(c, k, t, u) in m;
  }

  lemma LastFive(p: string)
    ensures (p + "_stage")[|p| + 1..] == "stage" && (p + "_request")[|p| + 3..] == "quest"
  {
  }

  lemma StageMatches(c: Codec, m: Entries, ops: map<OpKey, Op>, k: OpKey)
    requires Refines(c, m, ops) && k in ops
    ensures StageKey(c, k) in m && (StageMatch(StageKey(c, k), m[StageKey(c, k)]) <==> ops[k].IsPrepared())
  {
    hide Refines, Prefix;
    WellKeyedOps(c, m, ops, k);
    LastFive(Prefix(k));
  }

  /** A key stands for a found operation. */
  ghost predicate StandsFor(m: Entries, start: nat, end: Option<nat>, key: string, k: OpKey)
  {
    key in StageKeysFrom(m, start, end) && OperationAt(m, key) == Key(k)
  }

  ghost predicate Found(m: Entries, start: nat, end: Option<nat>, k: OpKey)
  {
    exists key :: StandsFor(m, start, end, key, k)
  }

  lemma FoundIsWanted(c: Codec, m: Entries, ops: map<OpKey, Op>, start: nat, end: Option<nat>, key: string)
    requires Refines(c, m, ops) && VotesLong(c, m)
    requires start < U64 && (end.Some? ==> end.value < U64) && key in StageKeysFrom(m, start, end)
    ensures OperationAt(m, key) != BadNumber
    ensures OperationAt(m, key).Key?
            ==> Wanted(ops, start, end, OperationAt(m, key).k) && SafeHash(OperationAt(m, key).k.hash)
  {
    hide Refines, Prefix, OperationAt, VotesLong, SafeHash;
    var k := MatchIsStage(c, m, ops, key);
    StageKeyStands(c, m, ops, k);
    StageMatches(c, m, ops, k);
    hide StageKey;
    SequenceRange(k, STAGE_MARK, start, end);
  }

  lemma WantedIsFound(c: Codec, m: Entries, ops: map<OpKey, Op>, start: nat, end: Option<nat>, k: OpKey)
    requires Refines(c, m, ops) && SafeHash(k.hash) && Wanted(ops, start, end, k)
    requires start < U64 && (end.Some? ==> end.value < U64)
    ensures StandsFor(m, start, end, StageKey(c, k), k)
  {
    hide Refines, Prefix, OperationAt, SafeHash;
    StageKeyStands(c, m, ops, k);
    StageMatches(c, m, ops, k);
    hide StageKey;
    SequenceRange(k, STAGE_MARK, start, end);
  }

  /** What is found in a storage that stands for ops. */
  lemma FoundIff(c: Codec, m: Entries, ops: map<OpKey, Op>, start: nat, end: Option<nat>, k: OpKey)
    requires Refines(c, m, ops) && VotesLong(c, m) && start < U64 && (end.Some? ==> end.value < U64)
    ensures Found(m, start, end, k) <==> Wanted(ops, start, end, k) && SafeHash(k.hash)
  {
    hide Refines, VotesLong, OperationAt, StageKeysFrom, SafeHash;
    if key :| StandsFor(m, start, end, key, k) { FoundIsWanted(c, m, ops, start, end, key); }
    if Wanted(ops, start, end, k) && SafeHash(k.hash) { WantedIsFound(c, m, ops, start, end, k); }
  }

  // ---- Runs ----

  /** A prepared operation has its request: it could not have left the first stage without. */
  ghost predicate PreparedHaveRequests(ops: map<OpKey, Op>)
  {
    forall k | k in ops && ops[k].IsPrepared() :: ops[k].hasRequest
  }

  lemma CallKeepsLong(c: Codec, n: nat, m: Entries, ops: map<OpKey, Op>, call: Call)
    requires n > 0 && Distinct(c.names) && (forall e :: |c.encode(e)| > 1)
    requires VotesLong(c, m) && WellFormed(c, ops, call)
    ensures VotesLong(c, OnStorage(c, n, m, call))
  {
    hide ItemKey, StoredCanAdvance;
    var m' := OnStorage(c, n, m, call);
    forall k, t, u | WellKeyed(c.hashLength, k) && IsType(t) && VoteKey(c, k, t, u) in m'
      ensures |m'[VoteKey(c, k, t, u)]| > 1
    {
      var item := if call.RecordRequest? then RequestItem else StageItem;
      if !call.RecordMsg? && !call.Delete? && VoteKey(c, k, t, u) == ItemKey(c.names, call.k, item) {
        ItemKeyInjective(c.hashLength, c.names, k, VoteItem(t, u), call.k, item);
      }
    }
  }

  lemma {:induction false} VotesStayLong(c: Codec, n: nat, calls: seq<Call>)
    requires n > 0 && Distinct(c.names) && (forall e :: |c.encode(e)| > 1) && AllWellFormed(c, n, calls)
    ensures VotesLong(c, StorageAfter(c, n, calls))
    decreases |calls|
  {
    hide WellFormed, AllWellFormed, OnStorage, MemoryAfter, VoteKey;
    if calls != [] {
      var before, last := calls[..|calls| - 1], calls[|calls| - 1];
      Shorter(c, n, calls);
      VotesStayLong(c, n, before);
      CallKeepsLong(c, n, StorageAfter(c, n, before), MemoryAfter(n, before), last);
    }
  }

  lemma {:induction false} RequestsStay(n: nat, calls: seq<Call>)
    requires n > 0
    ensures PreparedHaveRequests(TrackedAfter(n, calls))
    decreases |calls|
  {
    if calls != [] { RequestsStay(n, calls[..|calls| - 1]); }
  }

  /** After every run of well-formed calls, exactly those prepared operations in the asked range
      are found in storage whose hash does not hide the mark. Above what was deleted they are
      the operations of memory. */
  lemma RehydratesExactly(c: Codec, n: nat, calls: seq<Call>, start: nat, end: Option<nat>, k: OpKey)
    requires n > 0 && Distinct(c.names) && (forall e :: |c.encode(e)| > 1) && AllWellFormed(c, n, calls)
    requires DeletedUpTo(calls) < start < U64 && (end.Some? ==> end.value < U64)
    ensures var m, ops := StorageAfter(c, n, calls), MemoryAfter(n, calls);
            Found(m, start, end, k)
            <==> (k in ops && ops[k].IsPrepared() && SafeHash(k.hash)
                  && start <= k.sequence && (end.Some? ==> k.sequence < end.value))
  {
    AlwaysRefines(c, n, calls);
    VotesStayLong(c, n, calls);
    RequestsStay(n, calls);
    if k.sequence >= start { SameAboveDeleted(n, calls, k); }
    hide Refines, VotesLong, StorageAfter, MemoryAfter, TrackedAfter, AllWellFormed, Found, SafeHash;
    FoundIff(c, StorageAfter(c, n, calls), TrackedAfter(n, calls), start, end, k);
  }

  /** Whatever the storage holds, an operation whose hash hides the mark is lost. */
  lemma LostOperation(c: Codec, m: Entries, ops: map<OpKey, Op>, start: nat, end: Option<nat>, k: OpKey)
    requires Refines(c, m, ops) && VotesLong(c, m) && start < U64 && (end.Some? ==> end.value < U64)
    requires Contains("_" + k.hash, STAGE_MARK)
    ensures !Found(m, start, end, k)
  {
    hide Refines, VotesLong, Found, Wanted;
    FoundIff(c, m, ops, start, end, k);
  }

  /** Such a hash exists among those of the length the code uses, 32 bytes. */
  lemma HidingHash(prefix: string, suffix: string)
    requires |prefix| + |suffix| == 26
    ensures var h := prefix + STAGE_MARK + suffix; |h| == 32 && Contains("_" + h, STAGE_MARK)
  {
    var h := prefix + STAGE_MARK + suffix;
    assert ("_" + h)[|prefix| + 1..|prefix| + 7] == STAGE_MARK;
    assert Occurs(STAGE_MARK, "_" + h, |prefix| + 1);
  }
}
