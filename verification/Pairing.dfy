/**
 Every tool call is answered exactly once: right after the assistant message that made it, by results with
 the same ids in the same order, and no result stands anywhere else.
 */
module Pairing {
  import opened Wrappers
  import opened Chat

  predicate IsResult(m: Message, id: string) {
    m.role == Tool && m.callId == Some(id)
  }

  predicate Answers(ms: seq<Message>, calls: seq<ToolCall>) {
    |calls| <= |ms| && forall i :: 0 <= i < |calls| ==> IsResult(ms[i], calls[i].id)
  }

  predicate Paired(ms: seq<Message>) {
    ms == [] ||
    (ms[0].role != Tool &&
     if HasCalls(ms[0]) then
       Answers(ms[1..], ms[0].calls) && Paired(ms[1 + |ms[0].calls|..])
     else
       Paired(ms[1..]))
  }

  /** Length of the first group: a message, with its results if it made calls. */
  function GroupLen(ms: seq<Message>): nat
    requires ms != []
  {
    if HasCalls(ms[0]) then 1 + |ms[0].calls| else 1
  }

  lemma {:induction false} GroupIsResults(ms: seq<Message>)
    requires Paired(ms) && ms != []
    ensures GroupLen(ms) <= |ms|
    ensures forall k :: 1 <= k < GroupLen(ms) ==>
      ms[k].role == Tool && ms[k].callId == Some(ms[0].calls[k - 1].id)
    ensures Paired(ms[GroupLen(ms)..])
  {
    forall k | 1 <= k < GroupLen(ms)
      ensures ms[k].role == Tool && ms[k].callId == Some(ms[0].calls[k - 1].id)
    {
      assert IsResult(ms[1..][k - 1], ms[0].calls[k - 1].id);
    }
  }

  /** A list that starts with a whole group is paired if the rest is. */
  lemma {:induction false} HeadGroup(ms: seq<Message>)
    requires ms != [] && ms[0].role != Tool && GroupLen(ms) <= |ms| && Paired(ms[GroupLen(ms)..])
    requires forall k :: 1 <= k < GroupLen(ms) ==> IsResult(ms[k], ms[0].calls[k - 1].id)
    ensures Paired(ms)
  {
    if HasCalls(ms[0]) {
      forall k | 0 <= k < |ms[0].calls|
        ensures IsResult(ms[1..][k], ms[0].calls[k].id)
      {
        assert ms[1..][k] == ms[k + 1];
      }
    }
  }

  lemma {:induction false} PairedAppend(a: seq<Message>, b: seq<Message>)
    requires Paired(a)
    requires Paired(b)
    ensures Paired(a + b)
    decreases |a|
  {
    if a == [] {
      assert a + b == b;
    } else {
      var g := GroupLen(a);
      GroupIsResults(a);
      PairedAppend(a[g..], b);
      assert (a + b)[g..] == a[g..] + b;
      HeadGroup(a + b);
    }
  }

  lemma {:induction false} PrefixGroup(ms: seq<Message>, i: nat)
    requires Paired(ms) && ms != [] && GroupLen(ms) <= i <= |ms|
    requires Paired(ms[GroupLen(ms)..][..i - GroupLen(ms)])
    ensures Paired(ms[..i])
  {
    var g := GroupLen(ms);
    GroupIsResults(ms);
    assert ms[..i][g..] == ms[g..][..i - g];
    hide Paired;
    HeadGroup(ms[..i]);
  }

  /** Cutting a paired list in front of anything but a result keeps both halves paired. */
  lemma {:induction false} PairedSplit(ms: seq<Message>, i: nat)
    requires Paired(ms)
    requires i <= |ms|
    requires i < |ms| ==> ms[i].role != Tool
    ensures Paired(ms[..i]) && Paired(ms[i..])
    decreases |ms|
  {
    if i == 0 {
      assert ms[0..] == ms;
    } else {
      var g := GroupLen(ms);
      GroupIsResults(ms);
      PairedSplit(ms[g..], i - g);
      assert ms[i..] == ms[g..][i - g..];
      PrefixGroup(ms, i);
    }
  }

  /** The exact condition: a cut leaves a paired tail just when it is not at a result. */
  lemma {:induction false} PairedTailIff(ms: seq<Message>, i: nat)
    requires Paired(ms)
    requires i <= |ms|
    ensures Paired(ms[i..]) <==> (i < |ms| ==> ms[i].role != Tool)
    ensures Paired(ms[..i]) && Paired(ms[i..]) <==> (i < |ms| ==> ms[i].role != Tool)
  {
    if i < |ms| && ms[i].role == Tool {
      assert ms[i..][0] == ms[i];
    } else {
      PairedSplit(ms, i);
    }
  }

  /** A paired suffix neither repairs nor breaks what stands before it. */
  lemma {:induction false} PairedPrefixIff(a: seq<Message>, b: seq<Message>)
    requires Paired(b)
    ensures Paired(a + b) <==> Paired(a)
  {
    if Paired(a) {
      PairedAppend(a, b);
    }
    if Paired(a + b) {
      assert b != [] ==> (a + b)[|a|] == b[0];
      PairedSplit(a + b, |a|);
      assert (a + b)[..|a|] == a;
    }
  }

  /** Everything pairing looks at. */
  ghost predicate SameShape(a: Message, b: Message) {
    a.role == b.role && a.callId == b.callId && |a.calls| == |b.calls| &&
    forall i :: 0 <= i < |a.calls| ==> a.calls[i].id == b.calls[i].id
  }

  lemma {:induction false} PairedShape(a: seq<Message>, b: seq<Message>)
    requires |a| == |b|
    requires forall i :: 0 <= i < |a| ==> SameShape(a[i], b[i])
    requires Paired(a)
    ensures Paired(b)
    decreases |a|
  {
    if a != [] {
      var g := GroupLen(a);
      assert SameShape(a[0], b[0]);
      PairedShape(a[g..], b[g..]);
      if HasCalls(a[0]) {
        forall k | 0 <= k < |b[0].calls|
          ensures IsResult(b[1..][k], b[0].calls[k].id)
        {
          assert SameShape(a[1 + k], b[1 + k]);
          assert IsResult(a[1..][k], a[0].calls[k].id);
        }
      }
    }
  }

  lemma {:induction false} PairedShapeIff(a: seq<Message>, b: seq<Message>)
    requires |a| == |b|
    requires forall i :: 0 <= i < |a| ==> SameShape(a[i], b[i])
    ensures forall i :: 0 <= i < |a| ==> SameShape(b[i], a[i])
    ensures Paired(a) <==> Paired(b)
  {
    forall i | 0 <= i < |a|
      ensures SameShape(b[i], a[i])
    {
      assert SameShape(a[i], b[i]);
    }
    if Paired(a) {
      PairedShape(a, b);
    }
    if Paired(b) {
      PairedShape(b, a);
    }
  }

  lemma {:induction false} PairedPlain(ms: seq<Message>)
    requires forall i :: 0 <= i < |ms| ==> ms[i].role != Tool && !HasCalls(ms[i])
    ensures Paired(ms)
  {
    if ms != [] {
      PairedPlain(ms[1..]);
    }
  }

  lemma {:induction false} PairedTurn(assistant: Message, results: seq<Message>)
    requires assistant.role == Assistant
    requires |results| == |assistant.calls|
    requires Answers(results, assistant.calls)
    ensures Paired([assistant] + results)
  {
    var ms := [assistant] + results;
    assert ms[1..] == results;
    assert ms[1 + |assistant.calls|..] == [];
  }

  /** A group of calls and results is already as the repair would leave it. */
  lemma {:induction false} NormalizeGroup(ms: seq<Message>)
    requires Paired(ms) && ms != []
    ensures Paired(Normalize(ms[..GroupLen(ms)]))
  {
    var g := GroupLen(ms);
    GroupIsResults(ms);
    var group := ms[..g];
    if HasCalls(ms[0]) {
      NormalFixed(group);
      assert group == [ms[0]] + ms[1..g];
      PairedTurn(ms[0], ms[1..g]);
    } else {
      NormalizeNormal(group);
      assert group == [ms[0]];
      assert Normalize(group[1..]) == [];
      PairedPlain(Normalize(group));
    }
  }

  lemma {:induction false} NormalizeSplit(ms: seq<Message>, i: nat)
    requires i <= |ms|
    ensures Normalize(ms) == Normalize(ms[..i]) + Normalize(ms[i..])
  {
    assert ms == ms[..i] + ms[i..];
    NormalizeAppend(ms[..i], ms[i..]);
  }

  /** Dropping empty assistant turns and reasoning never separates a call from its result. */
  lemma {:induction false} NormalizePaired(ms: seq<Message>)
    requires Paired(ms)
    ensures Paired(Normalize(ms))
    decreases |ms|
  {
    if ms != [] {
      var g := GroupLen(ms);
      GroupIsResults(ms);
      NormalizePaired(ms[g..]);
      NormalizeGroup(ms);
      NormalizeSplit(ms, g);
      PairedAppend(Normalize(ms[..g]), Normalize(ms[g..]));
    }
  }

  // ---------------------------------------------------------------------
  // The same thing said by index
  // ---------------------------------------------------------------------

  ghost predicate Answered(ms: seq<Message>, i: nat)
    requires i < |ms|
  {
    HasCalls(ms[i]) ==> Answers(ms[i + 1..], ms[i].calls)
  }

  /** Message j stands among the results of the calls made by message i. */
  ghost predicate InGroupOf(ms: seq<Message>, i: nat, j: nat) {
    i < j < |ms| && HasCalls(ms[i]) && j <= i + |ms[i].calls|
  }

  ghost predicate PairedByIndex(ms: seq<Message>) {
    (forall i: nat :: i < |ms| ==> Answered(ms, i)) &&
    (forall j: nat :: j < |ms| && ms[j].role == Tool ==> exists i: nat :: InGroupOf(ms, i, j))
  }

  lemma {:induction false} PairedMeaning(ms: seq<Message>)
    ensures Paired(ms) <==> PairedByIndex(ms)
    decreases |ms|, 1
  {
    if ms != [] {
      if Paired(ms) {
        PairedGivesIndex(ms);
      }
      if PairedByIndex(ms) {
        IndexGivesPaired(ms);
      }
    }
  }

  lemma {:induction false} PairedGivesIndex(ms: seq<Message>)
    requires Paired(ms) && ms != []
    ensures PairedByIndex(ms)
    decreases |ms|, 0
  {
    var g := GroupLen(ms);
    GroupIsResults(ms);
    PairedMeaning(ms[g..]);
    forall i: nat | i < |ms|
      ensures Answered(ms, i)
    {
      if i >= g {
        assert Answered(ms[g..], i - g);
        assert ms[g..][i - g + 1..] == ms[i + 1..];
      }
    }
    forall j: nat | j < |ms| && ms[j].role == Tool
      ensures exists i: nat :: InGroupOf(ms, i, j)
    {
      if j < g {
        assert InGroupOf(ms, 0, j);
      } else {
        assert ms[g..][j - g] == ms[j];
        var i: nat :| InGroupOf(ms[g..], i, j - g);
        assert InGroupOf(ms, i + g, j);
      }
    }
  }

  lemma {:induction false} IndexHead(ms: seq<Message>)
    requires PairedByIndex(ms) && ms != []
    ensures ms[0].role != Tool && GroupLen(ms) <= |ms|
    ensures forall k :: 1 <= k < GroupLen(ms) ==> IsResult(ms[k], ms[0].calls[k - 1].id)
  {
    assert ms[0].role == Tool ==> exists i: nat :: InGroupOf(ms, i, 0);
    assert Answered(ms, 0);
    forall k | 1 <= k < GroupLen(ms)
      ensures IsResult(ms[k], ms[0].calls[k - 1].id)
    {
      assert IsResult(ms[1..][k - 1], ms[0].calls[k - 1].id);
    }
  }

  /** Behind the first group nothing answers calls of that group, so the rest is paired by itself. */
  lemma {:induction false} IndexTail(ms: seq<Message>, g: nat)
    requires PairedByIndex(ms) && ms != [] && g == GroupLen(ms) <= |ms|
    requires forall k :: 1 <= k < g ==> ms[k].role == Tool
    ensures PairedByIndex(ms[g..])
  {
    var rest := ms[g..];
    forall i: nat | i < |rest|
      ensures Answered(rest, i)
    {
      assert Answered(ms, g + i);
      assert rest[i + 1..] == ms[g + i + 1..];
    }
    forall j: nat | j < |rest| && rest[j].role == Tool
      ensures exists i: nat :: InGroupOf(rest, i, j)
    {
      assert rest[j] == ms[g + j];
      var i: nat :| InGroupOf(ms, i, g + j);
      assert i >= g;
      assert InGroupOf(rest, i - g, j);
    }
  }

  lemma {:induction false} IndexGivesPaired(ms: seq<Message>)
    requires PairedByIndex(ms) && ms != []
    ensures Paired(ms)
    decreases |ms|, 0
  {
    IndexHead(ms);
    var g := GroupLen(ms);
    IndexTail(ms, g);
    hide PairedByIndex, Paired;
    PairedMeaning(ms[g..]);
    HeadGroup(ms);
  }

  /** From message `from` on, each result stands behind its call or behind another result. */
  ghost predicate ResultsFollow(ms: seq<Message>, from: nat) {
    forall j :: 1 <= from <= j < |ms| && ms[j].role == Tool ==> FollowsCall(ms[j - 1])
  }

  ghost predicate FollowsCall(before: Message) {
    before.role == Tool || HasCalls(before)
  }

  lemma {:induction false} PairedResultsFollow(ms: seq<Message>)
    requires Paired(ms)
    ensures ResultsFollow(ms, 1)
  {
    PairedMeaning(ms);
    forall j | 1 <= j < |ms| && ms[j].role == Tool
      ensures FollowsCall(ms[j - 1])
    {
      var i: nat :| InGroupOf(ms, i, j);
      if i < j - 1 {
        assert Answered(ms, i);
        assert IsResult(ms[i + 1..][j - 2 - i], ms[i].calls[j - 2 - i].id);
      }
    }
  }

  // ---------------------------------------------------------------------
  // When the repair makes a pairing
  // ---------------------------------------------------------------------

  predicate BeforeResult(ms: seq<Message>, i: nat) {
    i + 1 < |ms| && ms[i + 1].role == Tool
  }

  /** No empty assistant turn stands directly in front of a result. */
  ghost predicate NoneBeforeResult(ms: seq<Message>) {
    forall i: nat :: BeforeResult(ms, i) ==> !IsEmptyAssistant(ms[i])
  }

  lemma NoneBeforeTail(ms: seq<Message>, n: nat)
    requires NoneBeforeResult(ms) && n <= |ms|
    ensures NoneBeforeResult(ms[n..])
  {
    hide IsEmptyAssistant;
    forall i: nat | BeforeResult(ms[n..], i)
      ensures !IsEmptyAssistant(ms[n..][i])
    {
      assert BeforeResult(ms, n + i);
    }
  }

  /** What the repair keeps, it keeps in shape. */
  lemma {:induction false} NormalizeKept(ms: seq<Message>)
    ensures |Normalize(ms)| == |WithoutEmpty(ms)|
    ensures forall i :: 0 <= i < |Normalize(ms)| ==> SameShape(WithoutEmpty(ms)[i], Normalize(ms)[i])
  {
    if ms != [] {
      NormalizeKept(ms[1..]);
      hide IsEmptyAssistant;
      assert Normalize(ms) == Repair(ms[0]) + Normalize(ms[1..]);
    }
  }

  lemma {:induction false} PairedHasNone(ms: seq<Message>)
    requires Paired(ms)
    ensures NoneBeforeResult(ms)
  {
    PairedResultsFollow(ms);
    forall i: nat | BeforeResult(ms, i)
      ensures !IsEmptyAssistant(ms[i])
    {
      assert FollowsCall(ms[i + 1 - 1]);
    }
  }

  /** Empty turns in front of what becomes the first kept result: the last of them stands right before it. */
  lemma {:induction false} EmptyFirst(ms: seq<Message>)
    requires ms != [] && IsEmptyAssistant(ms[0]) && WithoutEmpty(ms) != [] && WithoutEmpty(ms)[0].role == Tool
    ensures !NoneBeforeResult(ms)
  {
    if IsEmptyAssistant(ms[1]) {
      EmptyFirst(ms[1..]);
      var i: nat :| BeforeResult(ms[1..], i) && IsEmptyAssistant(ms[1..][i]);
      assert BeforeResult(ms, i + 1);
    } else {
      assert BeforeResult(ms, 0);
    }
  }

  /** So results that come first among the kept messages came first before. */
  lemma {:induction false} FirstResults(ms: seq<Message>, n: nat)
    requires NoneBeforeResult(ms) && n <= |WithoutEmpty(ms)|
    requires forall k :: 0 <= k < n ==> WithoutEmpty(ms)[k].role == Tool
    ensures n <= |ms| && WithoutEmpty(ms)[..n] == ms[..n] && WithoutEmpty(ms)[n..] == WithoutEmpty(ms[n..])
  {
    if n == 0 {
      assert ms[0..] == ms;
    } else {
      if IsEmptyAssistant(ms[0]) {
        EmptyFirst(ms);
      }
      NoneBeforeTail(ms, 1);
      hide IsEmptyAssistant;
      var kept := WithoutEmpty(ms[1..]);
      assert WithoutEmpty(ms) == [ms[0]] + kept;
      forall k | 0 <= k < n - 1
        ensures kept[k].role == Tool
      {
        assert kept[k] == WithoutEmpty(ms)[1..][k];
      }
      FirstResults(ms[1..], n - 1);
      assert WithoutEmpty(ms)[..n] == [ms[0]] + kept[..n - 1];
      assert ms[..n] == [ms[0]] + ms[1..][..n - 1];
      assert WithoutEmpty(ms)[n..] == kept[n - 1..] && ms[n..] == ms[1..][n - 1..];
    }
  }

  lemma {:induction false} KeptPaired(ms: seq<Message>)
    requires Paired(WithoutEmpty(ms)) && NoneBeforeResult(ms)
    ensures Paired(ms)
    decreases |ms|
  {
    if ms != [] {
      NoneBeforeTail(ms, 1);
      if IsEmptyAssistant(ms[0]) {
        assert WithoutEmpty(ms) == WithoutEmpty(ms[1..]);
        KeptPaired(ms[1..]);
      } else {
        KeptGroup(ms);
        var g := GroupLen(ms);
        NoneBeforeTail(ms, g);
        KeptPaired(ms[g..]);
        hide NoneBeforeResult, WithoutEmpty, Paired;
        HeadGroup(ms);
      }
    }
  }

  /** The first kept group stands in the list as it is. */
  lemma {:induction false} KeptGroup(ms: seq<Message>)
    requires ms != [] && !IsEmptyAssistant(ms[0]) && NoneBeforeResult(ms) && Paired(WithoutEmpty(ms))
    ensures ms[0].role != Tool && GroupLen(ms) <= |ms| && Paired(WithoutEmpty(ms[GroupLen(ms)..]))
    ensures forall k :: 1 <= k < GroupLen(ms) ==> IsResult(ms[k], ms[0].calls[k - 1].id)
  {
    var all, kept := WithoutEmpty(ms), WithoutEmpty(ms[1..]);
    var n := GroupLen(ms) - 1;
    assert all == [ms[0]] + kept;
    GroupIsResults(all);
    NoneBeforeTail(ms, 1);
    hide IsEmptyAssistant, NoneBeforeResult, WithoutEmpty, Paired;
    forall k | 0 <= k < n
      ensures kept[k].role == Tool
    {
      assert kept[k] == all[1..][k];
    }
    FirstResults(ms[1..], n);
    forall k | 1 <= k < GroupLen(ms)
      ensures IsResult(ms[k], ms[0].calls[k - 1].id)
    {
      assert ms[k] == ms[1..][..n][k - 1] == kept[..n][k - 1] == all[k];
    }
    assert all[n + 1..] == kept[n..] && ms[n + 1..] == ms[1..][n..];
  }

  /**
   A history is well paired if and only if its repair is and no empty assistant
   turn stands directly in front of a result. So the repair breaks no pairing, and
   makes one exactly by dropping such turns.
   */
  lemma {:induction false} NormalizePairedIff(ms: seq<Message>)
    ensures Paired(ms) <==> Paired(Normalize(ms)) && NoneBeforeResult(ms)
  {
    NormalizeKept(ms);
    PairedShapeIff(WithoutEmpty(ms), Normalize(ms));
    if Paired(ms) {
      NormalizePaired(ms);
      PairedHasNone(ms);
    }
    if Paired(Normalize(ms)) && NoneBeforeResult(ms) {
      KeptPaired(ms);
    }
  }

  /** The repair does make one: a call, an empty turn, and the call's result. */
  lemma RepairMakesPairing() returns (ms: seq<Message>)
    ensures !Paired(ms) && Paired(Normalize(ms))
  {
    var call := Message(Assistant, None, None, [ToolCall("a", "", "")], None);
    var empty := Message(Assistant, None, None, [], None);
    var result := ToolMessage("a", "");
    ms := [call, empty, result];
    assert !IsResult(ms[1..][0], ms[0].calls[0].id);
    assert ms[1..][1..] == [result] && [result][1..] == [];
    assert Normalize([result]) == [result] + [];
    assert Normalize(ms) == [call] + [result];
    PairedTurn(call, [result]);
  }
}
