/** Byte strings in the order std::map keeps them, and decimal numbers in them. */
module Strings {
  import opened Messages
  import opened Words

  // ---- Order ----

  /** std::string's operator<. */
  predicate Less(a: string, b: string)
  {
    b != "" && (a == "" || a[0] < b[0] || (a[0] == b[0] && Less(a[1..], b[1..])))
  }

  lemma {:induction false} LessTotal(a: string, b: string)
    ensures Less(a, b) || a == b || Less(b, a)
    ensures !(Less(a, b) && Less(b, a))
    decreases |a|
  {
    if a != "" && b != "" {
      assert a == [a[0]] + a[1..] && b == [b[0]] + b[1..];
      LessTotal(a[1..], b[1..]);
    }
  }

  lemma {:induction false} LessTransitive(a: string, b: string, c: string)
    requires Less(a, b) && !Less(c, b)
    ensures Less(a, c)
    decreases |a| + |b| + |c|
  {
    if a != "" && c != "" && a[0] == b[0] == c[0] { LessTransitive(a[1..], b[1..], c[1..]); }
  }

  /** A common prefix does not matter. */
  lemma {:induction false} LessAfterPrefix(p: string, a: string, b: string)
    ensures Less(p + a, p + b) <==> Less(a, b)
    decreases |p|
  {
    if p == "" {
      assert p + a == a && p + b == b;
    } else {
      assert (p + a)[1..] == p[1..] + a && (p + b)[1..] == p[1..] + b;
      LessAfterPrefix(p[1..], a, b);
    }
  }

  /** Once two strings of one length differ, what follows does not matter. */
  lemma {:induction false} LessDecided(a: string, b: string, x: string, y: string)
    requires |a| == |b| && a != b
    ensures Less(a + x, b + y) <==> Less(a, b)
    decreases |a|
  {
    assert (a + x)[1..] == a[1..] + x && (b + y)[1..] == b[1..] + y;
    if a[0] == b[0] {
      assert a == [a[0]] + a[1..] && b == [b[0]] + b[1..];
      LessDecided(a[1..], b[1..], x, y);
    }
  }

  /** The strings from p up to, not including, q are those that start with p, when q is p with
      its last character moved up by one. */
  lemma {:induction false} RangeIsPrefix(p: string, q: string, k: string)
    requires |p| == |q| > 0 && p[..|p| - 1] == q[..|q| - 1] && q[|q| - 1] as int == p[|p| - 1] as int + 1
    ensures !Less(k, p) && Less(k, q) <==> p <= k
    decreases |p|
  {
    if |p| == 1 {
      assert p <= k <==> k != "" && k[0] == p[0];
      assert p[1..] == "" && q[1..] == "";
    } else {
      assert p[0] == p[..|p| - 1][0] && q[0] == q[..|q| - 1][0];
      if k != "" && k[0] == p[0] {
        assert p[1..][..|p| - 2] == p[..|p| - 1][1..] && q[1..][..|q| - 2] == q[..|q| - 1][1..];
        RangeIsPrefix(p[1..], q[1..], k[1..]);
        assert p <= k <==> p[1..] <= k[1..];
      } else {
        assert !(p <= k);
        assert k != "" ==> (Less(k, p) <==> k[0] < p[0]) && (Less(k, q) <==> k[0] < q[0]);
      }
    }
  }

  // ---- Decimal ----

  function Digit(d: nat): char
    requires d < 10
  {
    ('0' as int + d) as char
  }

  predicate IsDigit(c: char) { '0' <= c <= '9' }

  /** std::to_string */
  function Dec(n: nat): string
  {
    if n < 10 then [Digit(n)] else Dec(n / 10) + [Digit(n % 10)]
  }

  function Zeros(n: nat): string { seq(n, _ => '0') }

  /** The format "%020u". */
  function Pad(n: nat): string
  {
    if |Dec(n)| < 20 then Zeros(20 - |Dec(n)|) + Dec(n) else Dec(n)
  }

  function Value(s: string): nat
    requires forall c | c in s :: IsDigit(c)
  {
    if s == "" then 0
    else
      assert IsDigit(s[|s| - 1]);
      10 * Value(s[..|s| - 1]) + (s[|s| - 1] as int - '0' as int)
  }

  /** A string of digits as an unsigned 64-bit number. */
  function Parse(s: string): Option<nat>
  {
    if s != "" && (forall c | c in s :: IsDigit(c)) && Value(s) < U64 then Some(Value(s)) else None
  }

  lemma {:induction false} DecValue(n: nat)
    ensures Dec(n) != "" && (forall c | c in Dec(n) :: IsDigit(c)) && Value(Dec(n)) == n
  {
    if n >= 10 {
      DecValue(n / 10);
      assert Dec(n)[..|Dec(n)| - 1] == Dec(n / 10);
    } else {
      assert Dec(n)[..0] == "";
    }
  }

  function Pow10(w: nat): nat { if w == 0 then 1 else 10 * Pow10(w - 1) }

  lemma {:induction false} DecLength(n: nat, w: nat)
    requires 0 < w && n < Pow10(w)
    ensures |Dec(n)| <= w
  {
    if n >= 10 { DecLength(n / 10, w - 1); }
  }

  lemma Pow20()
    ensures U64 <= Pow10(20)
  {
    assert Pow10(5) == 100000;
    assert Pow10(10) == 100000 * Pow10(5);
    assert Pow10(15) == 100000 * Pow10(10);
    assert Pow10(20) == 100000 * Pow10(15);
  }

  lemma {:induction false} ZerosValue(k: nat, s: string)
    requires forall c | c in s :: IsDigit(c)
    ensures forall c | c in Zeros(k) + s :: IsDigit(c)
    ensures Value(Zeros(k) + s) == Value(s)
    decreases k + |s|
  {
    var z := Zeros(k) + s;
    if s != "" {
      assert z[..|z| - 1] == Zeros(k) + s[..|s| - 1];
      ZerosValue(k, s[..|s| - 1]);
    } else if k > 0 {
      assert z[..|z| - 1] == Zeros(k - 1) + s;
      ZerosValue(k - 1, s);
    }
  }

  /** Twenty digits hold every 64-bit number and read back as it. */
  lemma PadValue(n: nat)
    requires n < U64
    ensures |Pad(n)| == 20 && (forall c | c in Pad(n) :: IsDigit(c)) && Parse(Pad(n)) == Some(n)
  {
    Pow20();
    DecLength(n, 20);
    DecValue(n);
    if |Dec(n)| < 20 { ZerosValue(20 - |Dec(n)|, Dec(n)); }
  }

  /** Digit strings of one length are ordered as the numbers they are. */
  lemma {:induction false} SameLengthOrder(a: string, b: string)
    requires |a| == |b| && (forall c | c in a :: IsDigit(c)) && (forall c | c in b :: IsDigit(c))
    ensures Value(a) < Value(b) <==> Less(a, b)
    ensures Value(a) == Value(b) <==> a == b
    decreases |a|
  {
    if a != "" {
      var p, q := a[..|a| - 1], b[..|b| - 1];
      assert a == p + [a[|a| - 1]] && b == q + [b[|b| - 1]];
      SameLengthOrder(p, q);
      if p == q {
        LessAfterPrefix(p, [a[|a| - 1]], [b[|b| - 1]]);
      } else {
        LessDecided(p, q, [a[|a| - 1]], [b[|b| - 1]]);
        assert Value(p) < Value(q) || Value(q) < Value(p);
        assert IsDigit(a[|a| - 1]) && IsDigit(b[|b| - 1]);
      }
    }
  }

  /** String order of padded numbers, whatever follows them, is number order. */
  lemma PadOrder(a: nat, b: nat, x: string, y: string)
    requires a < U64 && b < U64 && a != b
    ensures Less(Pad(a) + x, Pad(b) + y) <==> a < b
    ensures Pad(a) != Pad(b)
  {
    PadValue(a);
    PadValue(b);
    SameLengthOrder(Pad(a), Pad(b));
    LessDecided(Pad(a), Pad(b), x, y);
  }

  // ---- Searching ----

  /** The first place of c, or |s|. */
  function FindFirst(s: string, c: char): (i: nat)
    ensures i <= |s| && c !in s[..i] && (i < |s| ==> s[i] == c)
  {
    if s == "" || s[0] == c then 0
    else
      var i := FindFirst(s[1..], c);
      assert s[..1 + i] == [s[0]] + s[1..][..i];
      1 + i
  }

  /** The last place of c, or |s| when there is none. */
  function FindLast(s: string, c: char): (i: nat)
    ensures i <= |s| && (i < |s| ==> s[i] == c && c !in s[i + 1..]) && (i == |s| ==> c !in s)
  {
    if s == "" then 0
    else if s[|s| - 1] == c then |s| - 1
    else
      var t := s[..|s| - 1];
      var i := FindLast(t, c);
      assert s == t + [s[|s| - 1]];
      assert i < |t| ==> s[i + 1..] == t[i + 1..] + [s[|s| - 1]];
      if i == |t| then |s| else i
  }

  /** w occurs in s at i. */
  predicate Occurs(w: string, s: string, i: nat)
  {
    i + |w| <= |s| && s[i..i + |w|] == w
  }

  ghost predicate Contains(s: string, w: string)
  {
    exists i: nat :: Occurs(w, s, i)
  }

  /** The first place where w occurs at or after i, or |s|. */
  function Search(s: string, w: string, i: nat): (r: nat)
    requires i <= |s|
    ensures i <= r <= |s| && (forall j: nat | i <= j < r :: !Occurs(w, s, j)) && (r < |s| ==> Occurs(w, s, r))
    decreases |s| - i
  {
    if i == |s| || Occurs(w, s, i) then i else Search(s, w, i + 1)
  }
}
