/** The storage keys of operations: a prefix made of sequence, request hash and view, then what is stored. */
module OperationKeys {
  import opened Messages
  import opened Operations
  import opened Strings
  import opened Words
  import opened MemStorage

  predicate Fits64(k: OpKey) { k.view < U64 && k.sequence < U64 }

  /** generate_prefix */
  function Prefix(k: OpKey): string
  {
    Pad(k.sequence) + "_" + (k.hash + "_" + Pad(k.view))
  }

  datatype Parsed = Key(k: OpKey) | NotAPrefix | BadNumber

  /** parse_prefix; a number that does not parse is an exception. */
  function ParsePrefix(p: string): Parsed
  {
    var start, end := FindFirst(p, '_'), FindLast(p, '_');
    if end >= |p| - 1 || start >= end then NotAPrefix else ParseFields(p, start, end)
  }

  function ParseFields(p: string, start: nat, end: nat): Parsed
    requires start < end < |p| - 1
  {
    var sequence, view := Parse(p[..start]), Parse(p[end + 1..]);
    if sequence.Some? && view.Some? then Key(OpKey(view.value, sequence.value, p[start + 1..end])) else BadNumber
  }

  /** Text without underscores on both sides of a hash: the outermost underscores are the joints. */
  lemma Joints(a: string, h: string, b: string)
    requires '_' !in a && '_' !in b
    ensures var p := a + "_" + (h + "_" + b);
            && |p| == |a| + |h| + |b| + 2 && FindFirst(p, '_') == |a| && FindLast(p, '_') == |p| - |b| - 1
            && p[..|a|] == a && p[|a| + 1..|p| - |b| - 1] == h && p[|p| - |b|..] == b
  {
    hide FindFirst, FindLast;
    var p := a + "_" + (h + "_" + b);
    assert p[..|a|] == a && p[|p| - |b|..] == b;
    Outermost(p, |a|, |p| - |b| - 1);
  }

  lemma Outermost(p: string, n: nat, m: nat)
    requires n < |p| && m < |p| && p[n] == p[m] == '_' && '_' !in p[..n] && '_' !in p[m + 1..]
    ensures FindFirst(p, '_') == n && FindLast(p, '_') == m
  {
    hide FindFirst, FindLast;
    assert FindFirst(p, '_') >= n by { assert forall i | 0 <= i < n :: p[i] in p[..n]; }
    assert FindLast(p, '_') <= m by { assert forall i | m < i < |p| :: p[i] in p[m + 1..]; }
  }

  lemma PadHasNoUnderscore(n: nat)
    requires n < U64
    ensures |Pad(n)| == 20 && '_' !in Pad(n)
  {
    PadValue(n);
  }

  /** parse_prefix undoes generate_prefix for every hash, underscores in it or not. */
  lemma PrefixReadsBack(k: OpKey)
    requires Fits64(k)
    ensures ParsePrefix(Prefix(k)) == Key(k) && |Prefix(k)| == 42 + |k.hash|
  {
    PadHasNoUnderscore(k.sequence);
    PadHasNoUnderscore(k.view);
    Joints(Pad(k.sequence), k.hash, Pad(k.view));
    PadValue(k.sequence);
    PadValue(k.view);
  }

  /** The ends of the hash in a text that can be parsed. */
  lemma ParsedEnds(p: string)
    requires ParsePrefix(p).Key?
    ensures var start, end := FindFirst(p, '_'), FindLast(p, '_');
            start < end < |p| - 1 && ParsePrefix(p) == ParseFields(p, start, end)
  {
    hide FindFirst, FindLast, ParseFields;
  }

  lemma ParsedFields(p: string)
    requires ParsePrefix(p).Key?
    ensures var k, start, end := ParsePrefix(p).k, FindFirst(p, '_'), FindLast(p, '_');
            && start < end < |p| - 1 && p[start] == p[end] == '_' && k.hash == p[start + 1..end]
            && Parse(p[..start]) == Some(k.sequence) && Parse(p[end + 1..]) == Some(k.view)
  {
    hide Parse, FindFirst, FindLast, ParseFields, ParsePrefix;
    ParsedEnds(p);
    FieldsOf(p, FindFirst(p, '_'), FindLast(p, '_'));
  }

  lemma FieldsOf(p: string, start: nat, end: nat)
    requires start < end < |p| - 1 && ParseFields(p, start, end).Key?
    ensures var k := ParseFields(p, start, end).k;
            k.hash == p[start + 1..end] && Parse(p[..start]) == Some(k.sequence) && Parse(p[end + 1..]) == Some(k.view)
  {
    hide Parse;
  }

  lemma CanonicalReadsBack(p: string)
    requires ParsePrefix(p).Key? && FindFirst(p, '_') == 20 && FindLast(p, '_') == |p| - 21
    ensures Prefix(ParsePrefix(p).k) == p
  {
    hide Pad, Parse, FindFirst, FindLast, ParsePrefix, Prefix;
    ParsedFields(p);
    var k := ParsePrefix(p).k;
    assert p[..20] == p[..FindFirst(p, '_')] && p[|p| - 20..] == p[FindLast(p, '_') + 1..];
    TwentyDigits(p[..20], k.sequence);
    TwentyDigits(p[|p| - 20..], k.view);
    Rebuilt(p, k, |p| - 21);
  }

  lemma Rebuilt(p: string, k: OpKey, end: nat)
    requires 20 < end < |p| && p[20] == '_' && p[end] == '_'
    requires Pad(k.sequence) == p[..20] && k.hash == p[21..end] && Pad(k.view) == p[end + 1..]
    ensures Prefix(k) == p
  {
    hide Pad;
    Pieces(p, 20, end);
  }

  /** generate_prefix undoes parse_prefix exactly where both numbers are written with 20 digits. */
  lemma ParseReadsBackIff(p: string)
    requires ParsePrefix(p).Key?
    ensures Prefix(ParsePrefix(p).k) == p <==> FindFirst(p, '_') == 20 && FindLast(p, '_') == |p| - 21
  {
    ParsedFields(p);
    hide Pad, Parse, FindFirst, FindLast, ParsePrefix;
    var k := ParsePrefix(p).k;
    if FindFirst(p, '_') == 20 && FindLast(p, '_') == |p| - 21 {
      CanonicalReadsBack(p);
    } else if Prefix(k) == p {
      ParsedFits(p);
      PadHasNoUnderscore(k.sequence);
      PadHasNoUnderscore(k.view);
      Joints(Pad(k.sequence), k.hash, Pad(k.view));
    }
  }

  lemma ParsedFits(p: string)
    requires ParsePrefix(p).Key?
    ensures Fits64(ParsePrefix(p).k)
  {
  }

  lemma Pieces(p: string, i: nat, j: nat)
    requires i < j < |p| && p[i] == '_' && p[j] == '_'
    ensures p == p[..i] + "_" + (p[i + 1..j] + "_" + p[j + 1..])
  {
  }

  lemma TwentyDigits(s: string, n: nat)
    requires |s| == 20 && Parse(s) == Some(n)
    ensures s == Pad(n)
  {
    PadValue(n);
    SameLengthOrder(s, Pad(n));
  }

  // ---- Order ----

  /** The string order of keys is the order of their sequence numbers. */
  lemma SequenceOrder(k: OpKey, j: OpKey, x: string, y: string)
    requires Fits64(k) && Fits64(j) && k.sequence != j.sequence
    ensures Less(Prefix(k) + x, Prefix(j) + y) <==> k.sequence < j.sequence
  {
    var u, v := "_" + (k.hash + "_" + Pad(k.view)), "_" + (j.hash + "_" + Pad(j.view));
    assert Prefix(k) + x == Pad(k.sequence) + (u + x) && Prefix(j) + y == Pad(j.sequence) + (v + y);
    PadOrder(k.sequence, j.sequence, u + x, v + y);
  }

  /** prefix_for_sequence */
  function SequencePrefix(sequence: nat): string { Pad(sequence) + "_" }

  /** A key is below the prefix of a sequence number exactly when its own number is below. */
  lemma BelowSequence(k: OpKey, x: string, sequence: nat)
    requires Fits64(k) && sequence < U64
    ensures Less(Prefix(k) + x, SequencePrefix(sequence)) <==> k.sequence < sequence
  {
    var u := k.hash + "_" + Pad(k.view) + x;
    assert Prefix(k) + x == Pad(k.sequence) + ("_" + u);
    if k.sequence == sequence {
      assert Prefix(k) + x == SequencePrefix(sequence) + u && SequencePrefix(sequence) == SequencePrefix(sequence) + "";
      LessAfterPrefix(SequencePrefix(sequence), u, "");
    } else {
      PadOrder(k.sequence, sequence, "_" + u, "_");
    }
  }

  /** The scan from one sequence to another, or to the end, hits exactly the operations between. */
  lemma SequenceRange(k: OpKey, x: string, start: nat, end: Option<nat>)
    requires Fits64(k) && start < U64 && (end.Some? ==> end.value < U64)
    ensures InRange(SequencePrefix(start), if end.Some? then SequencePrefix(end.value) else "", Prefix(k) + x)
            <==> start <= k.sequence && (end.Some? ==> k.sequence < end.value)
  {
    BelowSequence(k, x, start);
    if end.Some? { BelowSequence(k, x, end.value); }
  }

  // ---- Prefix scans ----

  /** increment_prefix, on signed characters: 255 is -1, 127 is the largest. */
  function IncrementPrefix(p: string): string
    requires p != "" && p[|p| - 1] as int < 256
  {
    var last := p[|p| - 1] as int;
    if last == 127 then p + [1 as char] else p[..|p| - 1] + [((last + 1) % 256) as char]
  }

  /** The scan [p, increment_prefix(p)) finds exactly the keys that start with p, unless the last
      character of p is 127 or 255. */
  lemma IncrementScansIff(p: string)
    requires p != "" && p[|p| - 1] as int < 256
    ensures (forall s :: InRange(p, IncrementPrefix(p), s) <==> p <= s)
            <==> p[|p| - 1] as int != 127 && p[|p| - 1] as int != 255
  {
    var last, q := p[|p| - 1] as int, IncrementPrefix(p);
    if last == 127 {
      var s := p + [2 as char];
      LessAfterPrefix(p, [2 as char], [1 as char]);
      assert p <= s && !InRange(p, q, s);
    } else if last == 255 {
      assert p == p[..|p| - 1] + [p[|p| - 1]];
      LessAfterPrefix(p[..|p| - 1], [p[|p| - 1]], [0 as char]);
      assert p <= p && !InRange(p, q, p);
    } else {
      forall s ensures InRange(p, q, s) <==> p <= s { RangeIsPrefix(p, q, s); }
    }
  }

  // ---- What is stored under a prefix ----

  const PREPREPARE_TYPE: nat := 2
  const PREPARE_TYPE: nat := 3
  const COMMIT_TYPE: nat := 4

  datatype Item = StageItem | RequestItem | VoteItem(t: nat, u: Uuid)

  predicate IsType(t: nat) { t == PREPREPARE_TYPE || t == PREPARE_TYPE || t == COMMIT_TYPE }

  predicate GoodItem(item: Item) { item.VoteItem? ==> IsType(item.t) }

  /** names gives each peer the text of its uuid. */
  function Suffix(names: Uuid -> string, item: Item): string
  {
    match item
    case StageItem => "_stage"
    case RequestItem => "_request"
    case VoteItem(t, u) => "_" + Dec(t) + "_" + names(u)
  }

  function ItemKey(names: Uuid -> string, k: OpKey, item: Item): string { Prefix(k) + Suffix(names, item) }

  ghost predicate Distinct(names: Uuid -> string) { forall u, v :: names(u) == names(v) ==> u == v }

  function TypedPrefix(k: OpKey, t: nat): string { Prefix(k) + ("_" + Dec(t)) }

  /** Request hashes all have one length. */
  predicate WellKeyed(hashLength: nat, k: OpKey) { Fits64(k) && |k.hash| == hashLength }

  lemma SuffixInjective(names: Uuid -> string, i: Item, j: Item)
    requires Distinct(names) && GoodItem(i) && GoodItem(j) && Suffix(names, i) == Suffix(names, j)
    ensures i == j
  {
    var a, b := Suffix(names, i), Suffix(names, j);
    assert a[1] == b[1];
    if i.VoteItem? && j.VoteItem? {
      assert a[3..] == names(i.u) && b[3..] == names(j.u);
    }
  }

  lemma SamePrefix(hashLength: nat, k: OpKey, j: OpKey, x: string, y: string)
    requires WellKeyed(hashLength, k) && WellKeyed(hashLength, j) && Prefix(k) + x == Prefix(j) + y
    ensures k == j && x == y
  {
    PrefixReadsBack(k);
    PrefixReadsBack(j);
    hide Prefix, ParsePrefix;
    var n := |Prefix(k)|;
    assert (Prefix(k) + x)[..n] == Prefix(k) && (Prefix(j) + y)[..n] == Prefix(j);
    assert (Prefix(k) + x)[n..] == x && (Prefix(j) + y)[n..] == y;
  }

  /** Different things are stored under different keys. */
  lemma ItemKeyInjective(hashLength: nat, names: Uuid -> string, k: OpKey, i: Item, k': OpKey, i': Item)
    requires Distinct(names) && WellKeyed(hashLength, k) && WellKeyed(hashLength, k') && GoodItem(i) && GoodItem(i')
    requires ItemKey(names, k, i) == ItemKey(names, k', i')
    ensures k == k' && i == i'
  {
    SamePrefix(hashLength, k, k', Suffix(names, i), Suffix(names, i'));
    SuffixInjective(names, i, i');
  }

  /** The scan over a typed prefix hits exactly that operation's votes of that type. */
  lemma TypedScan(hashLength: nat, names: Uuid -> string, k: OpKey, t: nat, j: OpKey, item: Item)
    requires WellKeyed(hashLength, k) && WellKeyed(hashLength, j) && IsType(t) && GoodItem(item)
    ensures var p := TypedPrefix(k, t);
            InRange(p, IncrementPrefix(p), ItemKey(names, j, item)) <==> j == k && item.VoteItem? && item.t == t
  {
    var p, key := TypedPrefix(k, t), ItemKey(names, j, item);
    assert p[|p| - 1] == Dec(t)[0];
    IncrementScansIff(p);
    TypedStart(hashLength, names, k, t, j, item);
  }

  lemma TypedStart(hashLength: nat, names: Uuid -> string, k: OpKey, t: nat, j: OpKey, item: Item)
    requires WellKeyed(hashLength, k) && WellKeyed(hashLength, j) && IsType(t) && GoodItem(item)
    ensures TypedPrefix(k, t) <= ItemKey(names, j, item) <==> j == k && item.VoteItem? && item.t == t
  {
    hide Prefix, Dec, TypedPrefix, ItemKey, Suffix, WellKeyed, GoodItem;
    if TypedPrefix(k, t) <= ItemKey(names, j, item) { StartMeansVote(hashLength, names, k, t, j, item); }
    if j == k && item.VoteItem? && item.t == t { VoteStarts(names, k, t, item.u); }
  }

  lemma VoteStarts(names: Uuid -> string, k: OpKey, t: nat, u: Uuid)
    ensures TypedPrefix(k, t) <= ItemKey(names, k, VoteItem(t, u))
  {
    hide Prefix, Dec;
    assert ItemKey(names, k, VoteItem(t, u)) == TypedPrefix(k, t) + ("_" + names(u));
  }

  lemma StartMeansVote(hashLength: nat, names: Uuid -> string, k: OpKey, t: nat, j: OpKey, item: Item)
    requires WellKeyed(hashLength, k) && WellKeyed(hashLength, j) && IsType(t) && GoodItem(item)
    requires TypedPrefix(k, t) <= ItemKey(names, j, item)
    ensures j == k && item.VoteItem? && item.t == t
  {
    hide Prefix;
    var p, key, x := TypedPrefix(k, t), ItemKey(names, j, item), Suffix(names, item);
    var rest := "_" + Dec(t) + key[|p|..];
    assert key == p + key[|p|..];
    assert p + key[|p|..] == Prefix(k) + rest;
    SamePrefix(hashLength, k, j, rest, x);
    assert rest[1] == x[1] && rest[1] == Dec(t)[0];
  }
}
