/**
 Chat messages as the provider sees them: the message record, the two in-place repairs every replayed history
 goes through, and what it means for a history to answer each tool call exactly once, in place and in order.
 */
module Chat {
  import opened Wrappers

  datatype Role = System | User | Assistant | Tool

  datatype ToolCall = ToolCall(id: string, name: string, arguments: string)

  // An absent call list and an empty one are treated alike everywhere, so both
  // are the empty sequence.
  datatype Message = Message(
    role: Role,
    content: Option<string>,
    reasoning: Option<string>,
    calls: seq<ToolCall>,
    callId: Option<string>)

  function SystemMessage(text: string): Message {
    Message(System, Some(text), None, [], None)
  }

  function UserMessage(text: string): Message {
    Message(User, Some(text), None, [], None)
  }

  function ToolMessage(id: string, text: string): Message {
    Message(Tool, Some(text), None, [], Some(id))
  }

  function UserMessages(texts: seq<string>): (ms: seq<Message>)
    ensures |ms| == |texts|
    ensures forall i :: 0 <= i < |ms| ==> ms[i] == UserMessage(texts[i])
  {
    seq(|texts|, i requires 0 <= i < |texts| => UserMessage(texts[i]))
  }

  /** Unicode White_Space, the set string trimming removes. */
  predicate IsWhitespace(c: char) {
    var u := c as int;
    || 9 <= u <= 13 || u == 0x20 || u == 0x85 || u == 0xA0 || u == 0x1680
    || 0x2000 <= u <= 0x200A || u == 0x2028 || u == 0x2029 || u == 0x202F
    || u == 0x205F || u == 0x3000
  }

  predicate Blank(text: string) {
    forall i :: 0 <= i < |text| ==> IsWhitespace(text[i])
  }

  function TrimStart(text: string): string {
    if text != [] && IsWhitespace(text[0]) then TrimStart(text[1..]) else text
  }

  function TrimEnd(text: string): string {
    if text != [] && IsWhitespace(text[|text| - 1]) then TrimEnd(text[..|text| - 1]) else text
  }

  function Trim(text: string): string {
    TrimEnd(TrimStart(text))
  }

  /** Length of the UTF-8 encoding. */
  function ByteLen(text: string): nat {
    if text == [] then 0
    else
      var u := text[0] as int;
      (if u < 0x80 then 1 else if u < 0x800 then 2 else if u < 0x10000 then 3 else 4)
      + ByteLen(text[1..])
  }

  // ---------------------------------------------------------------------
  // Empty assistant turns and the history repair
  // ---------------------------------------------------------------------

  predicate HasCalls(m: Message) {
    m.role == Assistant && m.calls != []
  }

  /** Neither text nor a call: the shape the provider refuses. */
  predicate IsEmptyAssistant(m: Message) {
    m.role == Assistant && Blank(m.content.GetOr("")) && m.calls == []
  }

  /** Reasoning survives only on an assistant message that still carries calls. */
  function Strip(m: Message): Message {
    if m.role == Assistant && m.calls == [] then m.(reasoning := None) else m
  }

  function Repair(m: Message): seq<Message> {
    if IsEmptyAssistant(m) then [] else [Strip(m)]
  }

  /** The history as it is sent: reasoning stripped, empty assistant turns gone. */
  function Normalize(ms: seq<Message>): seq<Message> {
    if ms == [] then [] else Repair(ms[0]) + Normalize(ms[1..])
  }

  ghost predicate Normal(ms: seq<Message>) {
    forall i :: 0 <= i < |ms| ==> !IsEmptyAssistant(ms[i]) && Strip(ms[i]) == ms[i]
  }

  lemma ConcatAssociates(a: seq<Message>, b: seq<Message>, c: seq<Message>)
    ensures a + (b + c) == (a + b) + c
  {
  }

  lemma {:induction false} NormalizeAppend(a: seq<Message>, b: seq<Message>)
    ensures Normalize(a + b) == Normalize(a) + Normalize(b)
  {
    if a == [] {
      assert a + b == b;
    } else {
      calc {
        Normalize(a + b);
        { assert (a + b)[1..] == a[1..] + b; }
        Repair(a[0]) + Normalize(a[1..] + b);
        { NormalizeAppend(a[1..], b); }
        Repair(a[0]) + (Normalize(a[1..]) + Normalize(b));
        { ConcatAssociates(Repair(a[0]), Normalize(a[1..]), Normalize(b)); }
        Normalize(a) + Normalize(b);
      }
    }
  }

  lemma {:induction false} NormalizeNormal(ms: seq<Message>)
    ensures Normal(Normalize(ms))
  {
    if ms != [] {
      NormalizeNormal(ms[1..]);
      var rest := Normalize(ms[1..]);
      assert Normalize(ms) == Repair(ms[0]) + rest;
    }
  }

  /** An assistant message the provider refuses: no call, and no text but white space. */
  predicate Refused(m: Message) {
    m.role == Assistant && m.calls == [] && (m.content.None? || Blank(m.content.value))
  }

  /** The message as sent: only the reasoning of an assistant message without calls is gone. */
  predicate SentAs(m: Message, sent: Message) {
    && sent.role == m.role && sent.content == m.content && sent.calls == m.calls && sent.callId == m.callId
    && sent.reasoning == (if m.role == Assistant && m.calls == [] then None else m.reasoning)
  }

  /** `sent` is the history without its refused messages: message j of it is message at[j]. */
  ghost predicate Repaired(ms: seq<Message>, sent: seq<Message>, at: seq<nat>) {
    && |at| == |sent|
    && (forall j, k :: 0 <= j < k < |at| ==> at[j] < at[k])
    && (forall i: nat :: i in at <==> i < |ms| && !Refused(ms[i]))
    && (forall j :: 0 <= j < |at| ==> at[j] < |ms| && SentAs(ms[at[j]], sent[j]))
  }

  /** The repair keeps every message but the refused ones, in order. */
  lemma {:induction false} NormalizeKeeps(ms: seq<Message>) returns (at: seq<nat>)
    ensures Repaired(ms, Normalize(ms), at)
  {
    at := [];
    if ms != [] {
      hide *;
      var init, last := ms[..|ms| - 1], ms[|ms| - 1];
      at := NormalizeKeeps(init);
      NormalizeAppend(init, [last]);
      assert ms == init + [last];
      NormalizeOne(last);
      if !Refused(last) {
        var r := Normalize([last])[0];
        RepairedSnoc(init, Normalize(init), at, last, r);
        assert Normalize([last]) == [r];
        at := at + [|init|];
      } else {
        RepairedSkip(init, Normalize(init), at, last);
        assert Normalize(init) + [] == Normalize(init);
      }
    }
  }

  lemma {:induction false} NormalizeOne(m: Message)
    ensures Refused(m) ==> Normalize([m]) == []
    ensures !Refused(m) ==> |Normalize([m])| == 1 && SentAs(m, Normalize([m])[0])
  {
    assert [m][1..] == [];
    assert Normalize([m]) == Repair(m) + Normalize([]);
  }

  lemma {:induction false} RepairedSnoc(ms: seq<Message>, sent: seq<Message>, at: seq<nat>, m: Message, r: Message)
    requires Repaired(ms, sent, at) && !Refused(m) && SentAs(m, r)
    ensures Repaired(ms + [m], sent + [r], at + [|ms|])
  {
    hide Refused, SentAs;
    var all := at + [|ms|];
    forall i: nat
      ensures i in all <==> i < |ms + [m]| && !Refused((ms + [m])[i])
    {
      assert i in all <==> i in at || i == |ms|;
      assert i < |ms| ==> (ms + [m])[i] == ms[i];
    }
    forall j | 0 <= j < |all|
      ensures all[j] < |ms + [m]| && SentAs((ms + [m])[all[j]], (sent + [r])[j])
    {
      if j < |at| {
        assert (ms + [m])[all[j]] == ms[at[j]];
      }
    }
  }

  lemma {:induction false} RepairedSkip(ms: seq<Message>, sent: seq<Message>, at: seq<nat>, m: Message)
    requires Repaired(ms, sent, at) && Refused(m)
    ensures Repaired(ms + [m], sent, at)
  {
    hide Refused, SentAs;
    forall i: nat
      ensures i in at <==> i < |ms + [m]| && !Refused((ms + [m])[i])
    {
      assert i < |ms| ==> (ms + [m])[i] == ms[i];
    }
    forall j | 0 <= j < |at|
      ensures at[j] < |ms + [m]| && SentAs((ms + [m])[at[j]], sent[j])
    {
      assert (ms + [m])[at[j]] == ms[at[j]];
    }
  }

  /** A repaired history is left alone, so repairing every step keeps the prefix. */
  lemma {:induction false} NormalFixed(ms: seq<Message>)
    requires Normal(ms)
    ensures Normalize(ms) == ms
  {
    if ms != [] {
      NormalFixed(ms[1..]);
      assert ms == [ms[0]] + ms[1..];
    }
  }

  lemma {:induction false} NormalizeIdempotent(ms: seq<Message>)
    ensures Normalize(Normalize(ms)) == Normalize(ms)
  {
    NormalizeNormal(ms);
    NormalFixed(Normalize(ms));
  }

  lemma UsersNormal(texts: seq<string>)
    ensures Normalize(UserMessages(texts)) == UserMessages(texts)
  {
    NormalFixed(UserMessages(texts));
  }

  /** The repair as it runs: strip in place, then retain. */
  method NormalizeHistory(history: seq<Message>) returns (messages: seq<Message>)
    ensures messages == Normalize(history)
    ensures Normal(messages)
  {
    var stripped := history;
    for i := 0 to |history|
      invariant |stripped| == |history|
      invariant forall k :: 0 <= k < i ==> stripped[k] == Strip(history[k])
      invariant forall k :: i <= k < |history| ==> stripped[k] == history[k]
    {
      var m := stripped[i];
      if m.role == Assistant && m.calls == [] {
        stripped := stripped[i := m.(reasoning := None)];
      }
    }
    messages := DropEmptyAssistantMessages(stripped);
    StripThenDrop(history, stripped);
    NormalizeNormal(history);
  }

  function WithoutEmpty(ms: seq<Message>): seq<Message> {
    if ms == [] then []
    else (if IsEmptyAssistant(ms[0]) then [] else [ms[0]]) + WithoutEmpty(ms[1..])
  }

  lemma {:induction false} WithoutEmptySnoc(ms: seq<Message>, m: Message)
    ensures WithoutEmpty(ms + [m]) == WithoutEmpty(ms) + (if IsEmptyAssistant(m) then [] else [m])
  {
    hide IsEmptyAssistant;
    if ms == [] {
      assert ms + [m] == [m];
      assert WithoutEmpty([m]) == (if IsEmptyAssistant(m) then [] else [m]) + WithoutEmpty([m][1..]);
    } else {
      assert (ms + [m])[1..] == ms[1..] + [m];
      WithoutEmptySnoc(ms[1..], m);
      var head := if IsEmptyAssistant(ms[0]) then [] else [ms[0]];
      ConcatAssociates(head, WithoutEmpty(ms[1..]), if IsEmptyAssistant(m) then [] else [m]);
    }
  }

  method DropEmptyAssistantMessages(messages: seq<Message>) returns (kept: seq<Message>)
    ensures kept == WithoutEmpty(messages)
  {
    kept := [];
    for i := 0 to |messages|
      invariant kept == WithoutEmpty(messages[..i])
    {
      assert messages[..i + 1] == messages[..i] + [messages[i]];
      WithoutEmptySnoc(messages[..i], messages[i]);
      if !IsEmptyAssistant(messages[i]) {
        kept := kept + [messages[i]];
      }
    }
    assert messages[..|messages|] == messages;
  }

  lemma {:induction false} StripThenDrop(history: seq<Message>, stripped: seq<Message>)
    requires |stripped| == |history|
    requires forall k :: 0 <= k < |history| ==> stripped[k] == Strip(history[k])
    ensures WithoutEmpty(stripped) == Normalize(history)
  {
    if history != [] {
      StripThenDrop(history[1..], stripped[1..]);
    }
  }

  // ---------------------------------------------------------------------
  // Tool arguments
  // ---------------------------------------------------------------------

  /** `isObject` stands for the JSON parser's verdict on an argument string. */
  function SanitizedCall(call: ToolCall, isObject: string -> bool): ToolCall {
    if isObject(call.arguments) then call else call.(arguments := "{}")
  }

  function Sanitized(calls: seq<ToolCall>, isObject: string -> bool): (r: seq<ToolCall>)
    ensures |r| == |calls|
    ensures forall i :: 0 <= i < |r| ==> r[i] == SanitizedCall(calls[i], isObject)
  {
    seq(|calls|, i requires 0 <= i < |calls| => SanitizedCall(calls[i], isObject))
  }

  method SanitizeToolArguments(calls: seq<ToolCall>, isObject: string -> bool) returns (r: seq<ToolCall>)
    ensures r == Sanitized(calls, isObject)
  {
    r := calls;
    for i := 0 to |calls|
      invariant |r| == |calls|
      invariant forall k :: 0 <= k < i ==> r[k] == SanitizedCall(calls[k], isObject)
      invariant forall k :: i <= k < |calls| ==> r[k] == calls[k]
    {
      if !isObject(r[i].arguments) {
        r := r[i := r[i].(arguments := "{}")];
      }
    }
  }

  predicate ValidCalls(calls: seq<ToolCall>, isObject: string -> bool) {
    forall i :: 0 <= i < |calls| ==> isObject(calls[i].arguments)
  }

  /** Only unusable arguments change, to the empty object, after which all are usable and nothing is left to change. */
  lemma {:induction false} SanitizedMeaning(calls: seq<ToolCall>, isObject: string -> bool)
    requires isObject("{}")
    ensures var r := Sanitized(calls, isObject);
      && |r| == |calls| && ValidCalls(r, isObject) && Sanitized(r, isObject) == r
      && (r == calls <==> ValidCalls(calls, isObject))
      && forall i :: 0 <= i < |r| ==>
        && r[i].id == calls[i].id && r[i].name == calls[i].name
        && r[i].arguments == if isObject(calls[i].arguments) then calls[i].arguments else "{}"
  {
    var r := Sanitized(calls, isObject);
    assert Sanitized(r, isObject) == r;
    assert r == calls <==> ValidCalls(calls, isObject) by {
      if r == calls {
        assert forall i :: 0 <= i < |calls| ==> r[i] == SanitizedCall(calls[i], isObject);
      }
    }
  }

  /** The request check made before the bytes are frozen. */
  predicate ValidRequest(ms: seq<Message>, isObject: string -> bool) {
    forall i :: 0 <= i < |ms| ==> ValidCalls(ms[i].calls, isObject)
  }

  lemma {:induction false} NormalizeValid(ms: seq<Message>, isObject: string -> bool)
    requires ValidRequest(ms, isObject)
    ensures ValidRequest(Normalize(ms), isObject)
  {
    if ms != [] {
      NormalizeValid(ms[1..], isObject);
      var rest := Normalize(ms[1..]);
      assert Normalize(ms) == Repair(ms[0]) + rest;
    }
  }
}
