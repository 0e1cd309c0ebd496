/** Protocol state kept in storage under string keys: how a key is made from the name of a variable
    and the subkeys inside a container, and how a container is found again. */
module PersistentState {
  import opened Messages
  import opened Strings
  import opened MemStorage

  const STATE_UUID: string := "pbftstate"
  const SEPARATOR: string := "//"
  const SEPARATOR_END: string := "/0"

  // ---- Escaping ----

  function Escape(s: string): string
  {
    if s == "" then "" else (if s[0] == '/' then "/$" else [s[0]]) + Escape(s[1..])
  }

  /** A slash that no dollar follows is an error. */
  function Unescape(s: string): Option<string>
  {
    if s == "" then Some("")
    else if s[0] != '/' then
      var r := Unescape(s[1..]);
      if r.Some? then Some([s[0]] + r.value) else None
    else if |s| > 1 && s[1] == '$' then
      var r := Unescape(s[2..]);
      if r.Some? then Some("/" + r.value) else None
    else None
  }

  lemma UnescapeTurn(c: char, rest: string)
    ensures Unescape((if c == '/' then "/$" else [c]) + rest) == Prepend([c], Unescape(rest))
  {
    var head := if c == '/' then "/$" else [c];
    assert (head + rest)[|head|..] == rest;
  }

  lemma {:induction false} UnescapeInvertsEscape(s: string)
    ensures Unescape(Escape(s)) == Some(s)
  {
    if s != "" {
      UnescapeInvertsEscape(s[1..]);
      UnescapeTurn(s[0], Escape(s[1..]));
      assert s == [s[0]] + s[1..];
    }
  }

  function Escaped(c: char): string { if c == '/' then "/$" else [c] }

  lemma EscapeTurn(c: char, t: string)
    ensures Escape([c] + t) == Escaped(c) + Escape(t)
  {
    assert ([c] + t)[1..] == t;
  }

  lemma UnescapedHead(s: string)
    requires s != "" && Unescape(s).Some?
    ensures var n := |Escaped(s[0])|;
            n <= |s| && s[..n] == Escaped(s[0]) && Unescape(s[n..]).Some?
              && Unescape(s).value == [s[0]] + Unescape(s[n..]).value
  {
  }

  /** Whatever unescapes is the escape of what it unescapes to. */
  lemma {:induction false} EscapeInvertsUnescape(s: string)
    ensures Unescape(s).Some? ==> Escape(Unescape(s).value) == s
    decreases |s|
  {
    if s != "" && Unescape(s).Some? {
      UnescapedHead(s);
      hide Escape, Unescape;
      var n := |Escaped(s[0])|;
      EscapeInvertsUnescape(s[n..]);
      EscapeTurn(s[0], Unescape(s[n..]).value);
      assert s == s[..n] + s[n..];
    }
  }

  /** The first slash at or after offset that is not an escape; |key| if there is none. */
  function Boundary(key: string, offset: nat): (r: nat)
    requires offset <= |key|
    ensures offset <= r <= |key|
    decreases |key| - offset
  {
    if offset == |key| then offset
    else if key[offset] != '/' then Boundary(key, offset + 1)
    else if offset + 1 < |key| && key[offset + 1] == '$' then Boundary(key, offset + 2)
    else offset
  }

  /** The scan runs over an escaped string to the separator behind it. */
  lemma {:induction false} BoundaryOfEscape(done: string, s: string, rest: string)
    requires rest == "" || SEPARATOR <= rest
    ensures Boundary(done + Escape(s) + rest, |done|) == |done| + |Escape(s)|
    decreases |s|
  {
    var key := done + Escape(s) + rest;
    if s == "" {
      assert key == done + rest;
      assert rest != "" ==> key[|done|] == rest[0] && key[|done| + 1] == rest[1];
    } else {
      var head := if s[0] == '/' then "/$" else [s[0]];
      assert key == (done + head) + Escape(s[1..]) + rest;
      BoundaryOfEscape(done + head, s[1..], rest);
      assert key[|done|] == head[0];
      assert |head| == 2 ==> key[|done| + 1] == head[1];
    }
  }

  // ---- Keys ----

  /** generate_key */
  function Subkeys(ks: seq<string>): string
  {
    if ks == [] then "" else SEPARATOR + Escape(ks[0]) + Subkeys(ks[1..])
  }

  function StateKey(name: string, ks: seq<string>): string
  {
    Escape(name) + Subkeys(ks)
  }

  /** Nothing, or something that starts with a separator. */
  predicate Ends(x: string) { x == "" || SEPARATOR <= x }

  lemma SubkeysEnd(ks: seq<string>)
    ensures Ends(Subkeys(ks)) && (Subkeys(ks) == "" <==> ks == [])
  {
    if ks != [] { Regroup(SEPARATOR, Escape(ks[0]), Subkeys(ks[1..])); }
  }

  /** An escaped string can be told from what follows it. */
  lemma SameLead(a: string, x: string, b: string, y: string)
    requires Escape(a) + x == Escape(b) + y && Ends(x) && Ends(y)
    ensures a == b && x == y
  {
    var key := Escape(a) + x;
    assert key == "" + Escape(a) + x && key == "" + Escape(b) + y;
    BoundaryOfEscape("", a, x);
    BoundaryOfEscape("", b, y);
    hide Boundary, Ends;
    var n := |Escape(a)|;
    assert key[..n] == Escape(a) && key[..n] == Escape(b) && key[n..] == x && key[n..] == y;
    UnescapeInvertsEscape(a);
    UnescapeInvertsEscape(b);
  }

  /** A key that starts with a container's name and a separator belongs to that container. */
  lemma StartsWithName(name: string, ks: seq<string>, base: string)
    ensures Escape(base) + SEPARATOR <= StateKey(name, ks) <==> name == base && ks != []
  {
    var key, lead := StateKey(name, ks), Escape(base) + SEPARATOR;
    SubkeysEnd(ks);
    if lead <= key {
      var rest := SEPARATOR + key[|lead|..];
      assert key == lead + key[|lead|..] == Escape(base) + rest;
      SameLead(base, rest, name, Subkeys(ks));
    }
    if name == base && ks != [] {
      assert key == lead + Subkeys(ks)[2..];
    }
  }

  /** The scan [name//, name/0) finds exactly the keys of the container called name. */
  lemma ScanFindsContainer(name: string, ks: seq<string>, base: string)
    ensures InRange(Escape(base) + SEPARATOR, Escape(base) + SEPARATOR_END, StateKey(name, ks))
            <==> name == base && ks != []
  {
    var first, last := Escape(base) + SEPARATOR, Escape(base) + SEPARATOR_END;
    assert first[..|first| - 1] == last[..|last| - 1] == Escape(base) + "/";
    RangeIsPrefix(first, last, StateKey(name, ks));
    StartsWithName(name, ks, base);
  }

  lemma AfterSeparator(ks: seq<string>)
    requires ks != []
    ensures |Subkeys(ks)| >= 2 && Subkeys(ks)[2..] == Escape(ks[0]) + Subkeys(ks[1..])
  {
    Regroup(SEPARATOR, Escape(ks[0]), Subkeys(ks[1..]));
  }

  lemma Regroup(x: string, y: string, z: string)
    ensures x + y + z == x + (y + z) && (x + y + z)[|x|..] == y + z
  {
  }

  lemma {:induction false} SubkeysInjective(ks: seq<string>, js: seq<string>)
    requires Subkeys(ks) == Subkeys(js)
    ensures ks == js
    decreases |ks|
  {
    SubkeysEnd(ks);
    SubkeysEnd(js);
    if ks != [] {
      SubkeysEnd(ks[1..]);
      SubkeysEnd(js[1..]);
      AfterSeparator(ks);
      AfterSeparator(js);
      hide Subkeys, Escape, Ends;
      SameLead(ks[0], Subkeys(ks[1..]), js[0], Subkeys(js[1..]));
      SubkeysInjective(ks[1..], js[1..]);
      assert ks == [ks[0]] + ks[1..] && js == [js[0]] + js[1..];
    }
  }

  /** No two variables share a storage key, whatever characters names and subkeys contain. */
  lemma KeysInjective(name: string, ks: seq<string>, other: string, js: seq<string>)
    requires StateKey(name, ks) == StateKey(other, js)
    ensures name == other && ks == js
  {
    SubkeysEnd(ks);
    SubkeysEnd(js);
    SameLead(name, Subkeys(ks), other, Subkeys(js));
    SubkeysInjective(ks, js);
  }

  /** The part of a key behind its container's name and the first separator. */
  function Pair(a: string, b: string): string { Escape(a) + SEPARATOR + Escape(b) }

  /** extract_subkeys; None where its assertions or an unescape fail. */
  function Split(key: string): Option<(string, string)>
  {
    var at := Boundary(key, 0);
    if at + 2 > |key| || key[at + 1] != '/' then None
    else
      var a, b := Unescape(key[..at]), Unescape(key[at + 2..]);
      if a.Some? && b.Some? then Some((a.value, b.value)) else None
  }

  /** extract_subkeys inverts a key of two subkeys, whatever characters they contain. */
  lemma SplitsBack(a: string, b: string)
    ensures Split(Pair(a, b)) == Some((a, b))
  {
    var key := Pair(a, b);
    assert key == "" + Escape(a) + (SEPARATOR + Escape(b));
    BoundaryOfEscape("", a, SEPARATOR + Escape(b));
    assert key[..|Escape(a)|] == Escape(a) && key[|Escape(a)| + 2..] == Escape(b);
    UnescapeInvertsEscape(a);
    UnescapeInvertsEscape(b);
  }

  // ---- The loops ----

  method EscapeText(input: string) returns (output: string)
    ensures output == Escape(input)
  {
    output := "";
    for i := 0 to |input|
      invariant output + Escape(input[i..]) == Escape(input)
    {
      output := output + if input[i] == '/' then "/$" else [input[i]];
      assert input[i..][1..] == input[i + 1..];
    }
  }

  method UnescapeText(input: string) returns (output: Option<string>)
    ensures output == Unescape(input)
  {
    var text, i := "", 0;
    assert input[0..] == input;
    assert Unescape(input).Some? ==> "" + Unescape(input).value == Unescape(input).value;
    while i < |input|
      invariant i <= |input|
      invariant Unescape(input) == Prepend(text, Unescape(input[i..]))
    {
      if input[i] == '/' {
        if i + 1 < |input| && input[i + 1] == '$' {
          assert input[i..][2..] == input[i + 2..];
          PrependMore(text, "/", Unescape(input[i + 2..]));
          text := text + "/";
          i := i + 2;
        } else {
          return None;
        }
      } else {
        assert input[i..][1..] == input[i + 1..];
        PrependMore(text, [input[i]], Unescape(input[i + 1..]));
        text := text + [input[i]];
        i := i + 1;
      }
    }
    assert input[i..] == "" && text + "" == text;
    return Some(text);
  }

  function Prepend(text: string, r: Option<string>): Option<string>
  {
    if r.Some? then Some(text + r.value) else None
  }

  lemma PrependMore(text: string, head: string, r: Option<string>)
    ensures Prepend(text, Prepend(head, r)) == Prepend(text + head, r)
  {
    if r.Some? { assert text + (head + r.value) == text + head + r.value; }
  }

  method ExtractSubkeys(key: string) returns (r: Option<(string, string)>)
    ensures r == Split(key)
  {
    var offset := 0;
    while offset < |key|
      invariant offset <= |key| && Boundary(key, 0) == Boundary(key, offset)
    {
      var from := offset;
      while offset < |key| && key[offset] != '/'
        invariant from <= offset <= |key| && Boundary(key, 0) == Boundary(key, offset)
      {
        offset := offset + 1;
      }
      if offset >= |key| || offset + 1 == |key| || key[offset + 1] != '$' {
        break;
      }
      offset := offset + 2;
    }
    if offset + |SEPARATOR| > |key| || key[offset + 1] != '/' {
      return None;
    }
    var a := UnescapeText(key[..offset]);
    var b := UnescapeText(key[offset + |SEPARATOR|..]);
    return if a.Some? && b.Some? then Some((a.value, b.value)) else None;
  }
}
