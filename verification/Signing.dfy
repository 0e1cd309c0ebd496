/** The bytes that are signed for an envelope. */
module Signing {
  import opened Messages
  import opened Strings

  datatype Payload =
    | NoPayload
    | DatabaseMsg(bytes: string)
    | InternalRequest(bytes: string)
    | DatabaseResponse(bytes: string)
    | Json(bytes: string)
    | Audit(bytes: string)
    | Pbft(bytes: string)
    | PbftMembership(bytes: string)
    | StatusRequest(bytes: string)
    | StatusResponse(bytes: string)
    | CheckpointPayload(bytes: string)
    | SwarmError(bytes: string)

  datatype WireEnvelope = WireEnvelope(
    swarmId: string, sender: string, signature: string, timestamp: nat, piggybacked: seq<WireEnvelope>,
      payload: Payload)

  /** The field number of the payload, as the message definition gives it. */
  function PayloadCase(p: Payload): nat
  {
    match p
    case NoPayload => 0
    case DatabaseMsg(_) => 10
    case InternalRequest(_) => 11
    case DatabaseResponse(_) => 12
    case Json(_) => 13
    case Audit(_) => 14
    case Pbft(_) => 15
    case PbftMembership(_) => 16
    case StatusRequest(_) => 17
    case StatusResponse(_) => 18
    case CheckpointPayload(_) => 19
    case SwarmError(_) => 20
  }

  /** extract_payload; an envelope without payload is an error. */
  function ExtractPayload(p: Payload): Option<string>
  {
    if p.NoPayload? then None else Some(p.bytes)
  }

  function Framed(token: string): string { Dec(|token|) + "|" + token }

  function Frames(tokens: seq<string>): string
  {
    if tokens == [] then "" else Framed(tokens[0]) + Frames(tokens[1..])
  }

  function Tokens(e: WireEnvelope, payload: string): seq<string>
  {
    [e.sender, Dec(PayloadCase(e.payload)), payload, Dec(e.timestamp)]
  }

  function Serialized(e: WireEnvelope): Option<string>
  {
    var payload := ExtractPayload(e.payload);
    if payload.Some? then Some(Frames(Tokens(e, payload.value))) else None
  }

  /** deterministic_serialize */
  method DeterministicSerialize(e: WireEnvelope) returns (text: Option<string>)
    ensures text == Serialized(e)
  {
    var payload := ExtractPayload(e.payload);
    if payload.None? {
      return None;
    }
    hide Dec, Frames;
    var tokens := Tokens(e, payload.value);
    var result := "";
    for i := 0 to |tokens|
      invariant result + Frames(tokens[i..]) == Frames(tokens)
    {
      OneFrame(result, tokens, i);
      result := result + (Dec(|tokens[i]|) + "|" + tokens[i]);
    }
    assert Frames([]) == "" by { NoFrames(); }
    assert tokens[|tokens|..] == [] && result + "" == result;
    return Some(result);
  }

  lemma OneFrame(done: string, tokens: seq<string>, i: nat)
    requires i < |tokens|
    ensures done + Frames(tokens[i..]) == done + Framed(tokens[i]) + Frames(tokens[i + 1..])
  {
    hide Framed;
    assert tokens[i..][0] == tokens[i] && tokens[i..][1..] == tokens[i + 1..];
  }

  lemma NoFrames()
    ensures Frames([]) == ""
  {
  }

  lemma SameNumber(d: string, u: string, e: string, v: string)
    requires (forall c | c in d :: IsDigit(c)) && (forall c | c in e :: IsDigit(c)) && d + "|" + u == e + "|" + v
    ensures d == e && u == v
  {
    BarAfterDigits(d, u);
    BarAfterDigits(e, v);
    var text := d + "|" + u;
    assert text[..|d|] == d && text[..|e|] == e && text[|d| + 1..] == u && text[|e| + 1..] == v;
  }

  lemma SameHead(a: string, x: string, b: string, y: string)
    requires a + x == b + y && |a| == |b|
    ensures a == b && x == y
  {
    assert (a + x)[..|a|] == a && (b + y)[..|b|] == b && (a + x)[|a|..] == x && (b + y)[|b|..] == y;
  }

  /** Where a frame ends can be read off its beginning. */
  lemma SameFrame(a: string, x: string, b: string, y: string)
    requires Framed(a) + x == Framed(b) + y
    ensures a == b && x == y
  {
    DecValue(|a|);
    DecValue(|b|);
    hide Dec;
    assert Framed(a) + x == Dec(|a|) + "|" + (a + x) && Framed(b) + y == Dec(|b|) + "|" + (b + y);
    SameNumber(Dec(|a|), a + x, Dec(|b|), b + y);
    SameHead(a, x, b, y);
  }

  lemma BarAfterDigits(digits: string, rest: string)
    requires forall c | c in digits :: IsDigit(c)
    ensures FindFirst(digits + "|" + rest, '|') == |digits|
  {
    hide FindFirst;
    var text := digits + "|" + rest;
    var at := FindFirst(text, '|');
    assert text[|digits|] == '|';
    assert at >= |digits| by { assert forall i | 0 <= i < |digits| :: text[i] in digits; }
  }

  lemma {:induction false} FramesInjective(a: seq<string>, b: seq<string>)
    requires Frames(a) == Frames(b) && |a| == |b|
    ensures a == b
    decreases |a|
  {
    if a != [] {
      SameFrame(a[0], Frames(a[1..]), b[0], Frames(b[1..]));
      FramesInjective(a[1..], b[1..]);
      assert a == [a[0]] + a[1..] && b == [b[0]] + b[1..];
    }
  }

  /** Two envelopes have the same signed bytes exactly when sender, payload with its kind, and
      timestamp agree, for strings of any length and content. */
  lemma SerializationIsInjective(a: WireEnvelope, b: WireEnvelope)
    requires !a.payload.NoPayload? && !b.payload.NoPayload?
    ensures Serialized(a) == Serialized(b)
            <==> a.sender == b.sender && a.payload == b.payload && a.timestamp == b.timestamp
  {
    if Serialized(a) == Serialized(b) {
      var s, t := Tokens(a, a.payload.bytes), Tokens(b, b.payload.bytes);
      FramesInjective(s, t);
      assert s[0] == t[0] && s[1] == t[1] && s[2] == t[2] && s[3] == t[3];
      DecValue(PayloadCase(a.payload));
      DecValue(PayloadCase(b.payload));
      DecValue(a.timestamp);
      DecValue(b.timestamp);
    }
  }

  // ---- Reading the bytes ----

  /** Reads frames from the front: the digits up to a bar, and as many characters as they say. */
  function Unframed(text: string): Option<seq<string>>
    decreases |text|
  {
    if text == "" then Some([])
    else
      var bar := FindFirst(text, '|');
      if bar >= |text| || exists c :: c in text[..bar] && !IsDigit(c) then None
      else
        var size, rest := Value(text[..bar]), text[bar + 1..];
        if size > |rest| then None
        else
          var more := Unframed(rest[size..]);
          if more.None? then None else Some([rest[..size]] + more.value)
  }

  lemma OneUnframed(token: string, rest: string)
    ensures var text := Framed(token) + rest;
            && text != "" && FindFirst(text, '|') == |Dec(|token|)| < |text|
            && text[..|Dec(|token|)|] == Dec(|token|) && text[|Dec(|token|)| + 1..] == token + rest
  {
    DecValue(|token|);
    hide Dec, FindFirst;
    var digits := Dec(|token|);
    BarAfterDigits(digits, token + rest);
    assert Framed(token) + rest == digits + "|" + (token + rest);
  }

  lemma {:induction false} FramesUnframed(tokens: seq<string>)
    ensures Unframed(Frames(tokens)) == Some(tokens)
    decreases |tokens|
  {
    if tokens != [] {
      var token, rest := tokens[0], Frames(tokens[1..]);
      OneUnframed(token, rest);
      DecValue(|token|);
      FramesUnframed(tokens[1..]);
      hide Dec, FindFirst, Framed;
      assert (token + rest)[..|token|] == token && (token + rest)[|token|..] == rest;
      assert tokens == [token] + tokens[1..];
    }
  }

  /** The signed bytes are read back as sender, kind of payload, payload and timestamp, in this order. */
  lemma SerializationReadsBack(e: WireEnvelope)
    requires !e.payload.NoPayload?
    ensures Serialized(e).Some?
    ensures Unframed(Serialized(e).value)
            == Some([e.sender, Dec(PayloadCase(e.payload)), e.payload.bytes, Dec(e.timestamp)])
  {
    FramesUnframed(Tokens(e, e.payload.bytes));
    hide Unframed, Frames, Dec;
  }
}
