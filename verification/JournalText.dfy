/**
 The text of one journal line: a JSON object written by the JavaScript
 serializer (strings escaped as in section 7 of RFC 8259) and encoded as UTF-8.
 Strings are held as their UTF-8 bytes, so a line can be torn at any byte.
 */
module JournalText {
  import opened Outcomes

  type byte = x: int | 0 <= x < 256

  const NEWLINE: byte := 10
  const QUOTE: byte := 34
  const BACKSLASH: byte := 92

  /** One journal event; `data` is the payload text. */
  datatype Event = Event(sequence: nat, runId: seq<byte>, kind: seq<byte>, data: seq<byte>)

  predicate NoNewline(s: seq<byte>) {
    forall i :: 0 <= i < |s| ==> s[i] != NEWLINE
  }

  function Ascii(s: string): (r: seq<byte>)
    ensures |r| == |s|
    ensures (forall i :: 0 <= i < |s| ==> s[i] != '\n') ==> NoNewline(r)
  {
    seq(|s|, i requires 0 <= i < |s| => var c := s[i] as int; if c < 128 then c else 63)
  }

  // ----- writing -----

  function Digits(n: nat): (r: seq<byte>)
    ensures |r| > 0 && forall i :: 0 <= i < |r| ==> IsDigit(r[i])
  {
    if n < 10 then [48 + n] else Digits(n / 10) + [48 + n % 10]
  }

  predicate IsDigit(b: byte) { 48 <= b <= 57 }

  function HexDigit(n: nat): (b: byte)
    requires n < 16
    ensures b >= 32
  {
    if n < 10 then 48 + n else 87 + n
  }

  /** The escape the serializer writes for one byte of a string. */
  function EscapeByte(b: byte): (r: seq<byte>)
    ensures |r| > 0 && forall i :: 0 <= i < |r| ==> r[i] >= 32
  {
    if b == QUOTE || b == BACKSLASH then [BACKSLASH, b]
    else if b == 8 then [BACKSLASH, 98]
    else if b == 9 then [BACKSLASH, 116]
    else if b == NEWLINE then [BACKSLASH, 110]
    else if b == 12 then [BACKSLASH, 102]
    else if b == 13 then [BACKSLASH, 114]
    else if b < 32 then [BACKSLASH, 117, 48, 48, HexDigit(b / 16), HexDigit(b % 16)]
    else [b]
  }

  function Escape(s: seq<byte>): (r: seq<byte>)
    ensures forall i :: 0 <= i < |r| ==> r[i] >= 32
  {
    if s == [] then [] else EscapeByte(s[0]) + Escape(s[1..])
  }

  function Quoted(s: seq<byte>): (r: seq<byte>)
    ensures NoNewline(r)
  {
    Escape(s) + [QUOTE]
  }

  /** The line's text, without the newline that commits it. */
  function Encode(e: Event): seq<byte> {
    Ascii("{\"sequence\":") + (Digits(e.sequence) +
    (Ascii(",\"runId\":\"") + (Quoted(e.runId) +
    (Ascii(",\"type\":\"") + (Quoted(e.kind) +
    (Ascii(",\"data\":\"") + (Quoted(e.data) +
    Ascii("}"))))))))
  }

  function Line(e: Event): seq<byte> {
    Encode(e) + [NEWLINE]
  }

  // ----- reading -----

  function Expect(text: seq<byte>, s: seq<byte>): Option<seq<byte>> {
    if text <= s then Some(s[|text|..]) else None
  }

  /** The value of the digits read so far, and what follows the last digit. */
  function ReadDigits(s: seq<byte>, value: nat): (nat, seq<byte>) {
    if s == [] || !IsDigit(s[0]) then (value, s)
    else ReadDigits(s[1..], value * 10 + (s[0] - 48))
  }

  function HexValue(b: byte): Option<nat> {
    if IsDigit(b) then Some(b - 48)
    else if 97 <= b <= 102 then Some(b - 87)
    else None
  }

  /** The byte an escape stands for and the escape's length. */
  function ReadEscape(s: seq<byte>): (r: Option<(byte, nat)>)
    requires s != [] && s[0] == BACKSLASH
    ensures r.Some? ==> 2 <= r.value.1 <= |s|
  {
    if |s| < 2 then None
    else if s[1] == QUOTE || s[1] == BACKSLASH || s[1] == 47 then Some((s[1], 2))
    else if s[1] == 98 then Some((8, 2))
    else if s[1] == 116 then Some((9, 2))
    else if s[1] == 110 then Some((10, 2))
    else if s[1] == 102 then Some((12, 2))
    else if s[1] == 114 then Some((13, 2))
    else if |s| >= 6 && s[1] == 117 && s[2] == 48 && s[3] == 48 then
      match (HexValue(s[4]), HexValue(s[5]))
      case (Some(high), Some(low)) => if high < 8 then Some((high * 16 + low, 6)) else None
      case _ => None
    else None
  }

  /** Reads up to the closing quote; a raw control character is refused. */
  function ReadString(s: seq<byte>, value: seq<byte>): Option<(seq<byte>, seq<byte>)>
    decreases |s|
  {
    if s == [] then None
    else if s[0] == QUOTE then Some((value, s[1..]))
    else if s[0] == BACKSLASH then
      match ReadEscape(s)
      case Some(escape) => ReadString(s[escape.1..], value + [escape.0])
      case None => None
    else if s[0] < 32 then None
    else ReadString(s[1..], value + [s[0]])
  }

  function Field(name: seq<byte>, s: seq<byte>): Option<(seq<byte>, seq<byte>)> {
    match Expect(name, s)
    case Some(rest) => ReadString(rest, [])
    case None => None
  }

  function Decode(line: seq<byte>): Option<Event> {
    match Expect(Ascii("{\"sequence\":"), line)
    case None => None
    case Some(afterOpen) =>
      if afterOpen == [] || !IsDigit(afterOpen[0]) then None else
      var number := ReadDigits(afterOpen, 0);
      match Field(Ascii(",\"runId\":\""), number.1)
      case None => None
      case Some(runId) =>
        match Field(Ascii(",\"type\":\""), runId.1)
        case None => None
        case Some(kind) =>
          match Field(Ascii(",\"data\":\""), kind.1)
          case None => None
          case Some(data) =>
            if data.1 == Ascii("}") then Some(Event(number.0, runId.0, kind.0, data.0)) else None
  }

  // ----- round trip -----

  lemma {:induction false} DigitsRoundTrip(n: nat, rest: seq<byte>)
    ensures ReadDigits(Digits(n) + rest, 0) == ReadDigits(rest, n)
  {
    var s := Digits(n) + rest;
    if n < 10 {
      assert s[1..] == rest;
    } else {
      var tail := [48 + n % 10] + rest;
      assert s == Digits(n / 10) + tail;
      DigitsRoundTrip(n / 10, tail);
      assert tail[1..] == rest;
    }
  }

  lemma EscapeByteRoundTrip(b: byte, rest: seq<byte>, value: seq<byte>)
    ensures ReadString(EscapeByte(b) + rest, value) == ReadString(rest, value + [b])
  {
    var s := EscapeByte(b) + rest;
    assert s[|EscapeByte(b)|..] == rest;
  }

  lemma {:induction false} StringRoundTrip(t: seq<byte>, rest: seq<byte>, value: seq<byte>)
    ensures ReadString(Quoted(t) + rest, value) == Some((value + t, rest))
    decreases |t|
  {
    if t == [] {
      assert (Quoted(t) + rest)[1..] == rest;
      assert value + t == value;
    } else {
      assert Quoted(t) + rest == EscapeByte(t[0]) + (Quoted(t[1..]) + rest);
      EscapeByteRoundTrip(t[0], Quoted(t[1..]) + rest, value);
      StringRoundTrip(t[1..], rest, value + [t[0]]);
      assert value + [t[0]] + t[1..] == value + t;
    }
  }

  lemma FieldRoundTrip(name: seq<byte>, t: seq<byte>, rest: seq<byte>)
    ensures Field(name, name + (Quoted(t) + rest)) == Some((t, rest))
  {
    var s := name + (Quoted(t) + rest);
    assert s[|name|..] == Quoted(t) + rest;
    StringRoundTrip(t, rest, []);
    assert [] + t == t;
  }

  /** Parsing a written line gives back the event, whatever bytes its strings hold. */
  lemma DecodeEncode(e: Event)
    ensures Decode(Encode(e)) == Some(e)
  {
    var end := Ascii("}");
    var data := Ascii(",\"data\":\"") + (Quoted(e.data) + end);
    var kind := Ascii(",\"type\":\"") + (Quoted(e.kind) + data);
    var runId := Ascii(",\"runId\":\"") + (Quoted(e.runId) + kind);
    var open := Ascii("{\"sequence\":");
    assert Encode(e)[|open|..] == Digits(e.sequence) + runId;
    DigitsRoundTrip(e.sequence, runId);
    assert !IsDigit(runId[0]);
    FieldRoundTrip(Ascii(",\"runId\":\""), e.runId, kind);
    FieldRoundTrip(Ascii(",\"type\":\""), e.kind, data);
    FieldRoundTrip(Ascii(",\"data\":\""), e.data, end);
  }

  /** No string content can put a raw newline into a line. */
  lemma EncodeHasNoNewline(e: Event)
    ensures NoNewline(Encode(e))
  {
    var data := Ascii(",\"data\":\"") + (Quoted(e.data) + Ascii("}"));
    assert NoNewline(Quoted(e.data) + Ascii("}"));
    assert NoNewline(data);
    var kind := Ascii(",\"type\":\"") + (Quoted(e.kind) + data);
    assert NoNewline(Quoted(e.kind) + data);
    assert NoNewline(kind);
    var runId := Ascii(",\"runId\":\"") + (Quoted(e.runId) + kind);
    assert NoNewline(Quoted(e.runId) + kind);
    assert NoNewline(runId);
    assert NoNewline(Digits(e.sequence) + runId);
  }
}
