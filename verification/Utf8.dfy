/**
 The UTF-8 encoding of section 3 of RFC 3629: what a text's byte length and a message's estimate count.
 */
module Utf8 {
  import opened Wrappers
  import opened Chat
  import Compaction

  /** Up to four bytes: a lead byte that says how many follow, six bits in each of those. */
  function Encoded(c: char): seq<Byte> {
    var u := c as int;
    if u < 0x80 then [u as Byte]
    else if u < 0x800 then [(0xC0 + u / 64) as Byte, (0x80 + u % 64) as Byte]
    else if u < 0x10000 then [(0xE0 + u / 4096) as Byte, (0x80 + u / 64 % 64) as Byte, (0x80 + u % 64) as Byte]
    else
      [(0xF0 + u / 262144) as Byte, (0x80 + u / 4096 % 64) as Byte, (0x80 + u / 64 % 64) as Byte,
       (0x80 + u % 64) as Byte]
  }

  function Bytes(text: string): seq<Byte> {
    if text == "" then [] else Encoded(text[0]) + Bytes(text[1..])
  }

  /** How many bytes a lead byte announces. */
  function Announced(lead: Byte): nat {
    if lead < 0x80 then 1 else if lead < 0xE0 then 2 else if lead < 0xF0 then 3 else 4
  }

  /** The number the bytes of one character spell. */
  function Spelled(bytes: seq<Byte>): int
    requires 1 <= |bytes| <= 4
  {
    if |bytes| == 1 then bytes[0] as int
    else if |bytes| == 2 then (bytes[0] as int - 0xC0) * 64 + (bytes[1] as int - 0x80)
    else if |bytes| == 3 then
      (bytes[0] as int - 0xE0) * 4096 + (bytes[1] as int - 0x80) * 64 + (bytes[2] as int - 0x80)
    else
      (bytes[0] as int - 0xF0) * 262144 + (bytes[1] as int - 0x80) * 4096 + (bytes[2] as int - 0x80) * 64
      + (bytes[3] as int - 0x80)
  }

  /** One character's bytes are told from what follows, and spell it. */
  lemma EncodedMeaning(c: char)
    ensures var e := Encoded(c);
      1 <= |e| <= 4 && Announced(e[0]) == |e| && Spelled(e) == c as int
  {
    var u := c as int;
    assert u / 64 / 64 == u / 4096 && u / 4096 / 64 == u / 262144;
  }

  /** Different texts have different bytes. */
  lemma {:induction false} BytesInjective(a: string, b: string)
    requires Bytes(a) == Bytes(b)
    ensures a == b
  {
    if a != "" {
      EncodedMeaning(a[0]);
    }
    if b != "" {
      EncodedMeaning(b[0]);
    }
    if a != "" && b != "" {
      var e, f := Encoded(a[0]), Encoded(b[0]);
      hide Encoded, Spelled, Announced;
      assert Bytes(a)[0] == e[0] && Bytes(b)[0] == f[0];
      assert e == Bytes(a)[..|e|] && f == Bytes(b)[..|f|];
      assert Bytes(a[1..]) == Bytes(a)[|e|..] && Bytes(b[1..]) == Bytes(b)[|f|..];
      BytesInjective(a[1..], b[1..]);
      assert a == [a[0]] + a[1..] && b == [b[0]] + b[1..];
    }
  }

  /** The length estimates count is that of this encoding. */
  lemma {:induction false} ByteLenIs(text: string)
    ensures ByteLen(text) == |Bytes(text)|
  {
    if text != "" {
      ByteLenIs(text[1..]);
    }
  }

  // ---------------------------------------------------------------------
  // What a message counts
  // ---------------------------------------------------------------------

  lemma {:induction false} BytesAppend(a: string, b: string)
    ensures Bytes(a + b) == Bytes(a) + Bytes(b)
  {
    if a == "" {
      assert a + b == b;
    } else {
      BytesAppend(a[1..], b);
      assert (a + b)[1..] == a[1..] + b;
    }
  }

  function CallsText(calls: seq<ToolCall>): string {
    if calls == [] then "" else calls[0].name + calls[0].arguments + CallsText(calls[1..])
  }

  /** Every text of a message that its estimate counts, one after the other. */
  function TextOf(m: Message): string {
    (match m.content case Some(text) => text case None => "")
    + (match m.reasoning case Some(text) => text case None => "")
    + CallsText(m.calls)
  }

  lemma {:induction false} CallBytesIs(calls: seq<ToolCall>)
    ensures Compaction.CallBytes(calls) == |Bytes(CallsText(calls))|
  {
    if calls != [] {
      var name, arguments := calls[0].name, calls[0].arguments;
      CallBytesIs(calls[1..]);
      BytesAppend(name + arguments, CallsText(calls[1..]));
      BytesAppend(name, arguments);
      ByteLenIs(name);
      ByteLenIs(arguments);
    }
  }

  /** A message costs four tokens and one for every three bytes begun, of its text in UTF-8 and 32 bytes more. */
  lemma {:induction false} CostIs(m: Message)
    ensures var bytes := |Bytes(TextOf(m))| + 32;
      3 * (Compaction.Cost(m) - 4) - 3 < bytes <= 3 * (Compaction.Cost(m) - 4)
  {
    var content, reasoning := m.content.GetOr(""), m.reasoning.GetOr("");
    BytesAppend(content + reasoning, CallsText(m.calls));
    BytesAppend(content, reasoning);
    ByteLenIs(content);
    ByteLenIs(reasoning);
    CallBytesIs(m.calls);
    Compaction.EstimateMeaning(Compaction.MessageBytes(m));
  }
}
