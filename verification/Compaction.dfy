/**
 Context accounting and the chunked summarisation that rewrites old history: which messages may be shadowed,
 how far one chunk reaches, what the history is after every accepted chunk, and when the result is adopted.
 */
module Compaction {
  import opened Wrappers
  import opened Chat
  import opened Pairing

  const U32_MAX: nat := 0xFFFF_FFFF
  const BYTES_PER_TOKEN: nat := 3
  const CONTEXT_SAFETY_TOKENS: nat := 8192

  datatype Ratio = NotFinite | Finite(value: real)

  // Wording is free: the note and checkpoint texts only enter through their bytes.
  datatype Config = Config(
    contextWindow: nat,
    maxOutputTokens: nat,
    compactMaxTokens: nat,
    compactAt: Ratio,
    retainRecent: Ratio,
    maxSteps: nat,
    catalog: Option<string>,
    systemPrompt: string,
    instruction: string,
    checkpointHead: string,
    checkpointTail: string,
    cutCallNote: string,
    cutAnswerNote: string,
    cutCallResult: string -> string,
    interruptedResult: string -> string,
    parallelSafe: ToolCall -> bool,
    isObject: string -> bool)

  // ---------------------------------------------------------------------
  // Estimates
  // ---------------------------------------------------------------------

  function CallBytes(calls: seq<ToolCall>): nat {
    if calls == [] then 0
    else ByteLen(calls[0].name) + ByteLen(calls[0].arguments) + CallBytes(calls[1..])
  }

  function MessageBytes(m: Message): nat {
    ByteLen(m.content.GetOr("")) + ByteLen(m.reasoning.GetOr("")) + CallBytes(m.calls) + 32
  }

  /** Bytes over three, rounded up. */
  function EstimateTokens(bytes: nat): nat {
    (bytes + BYTES_PER_TOKEN - 1) / BYTES_PER_TOKEN
  }

  function Cost(m: Message): (c: nat) {
    EstimateTokens(MessageBytes(m)) + 4
  }

  function TotalCost(ms: seq<Message>): nat {
    if ms == [] then 0 else Cost(ms[0]) + TotalCost(ms[1..])
  }

  function TotalBytes(ms: seq<Message>): nat {
    if ms == [] then 0 else MessageBytes(ms[0]) + TotalBytes(ms[1..])
  }

  function RequestTokens(ms: seq<Message>, toolTokens: nat): nat {
    TotalCost(ms) + toolTokens
  }

  function RatioTokens(ratio: Ratio, window: nat): nat {
    match ratio
    case NotFinite => 0
    case Finite(v) =>
      if v <= 0.0 then 0
      else
        var share := window as real * (if v <= 1.0 then v else 1.0);
        if share >= 0.0 then share.Floor else 0
  }

  function Safety(cfg: Config): (s: nat)
    ensures 1 <= s <= CONTEXT_SAFETY_TOKENS
  {
    Max(Min(CONTEXT_SAFETY_TOKENS, cfg.contextWindow / 8), 1)
  }

  /** A third of the bytes, rounded up. */
  lemma EstimateMeaning(bytes: nat)
    ensures 3 * EstimateTokens(bytes) >= bytes > 3 * (EstimateTokens(bytes) - 1)
      || (bytes == 0 && EstimateTokens(bytes) == 0)
  {
  }

  /** The share of the window, rounded down: none for a ratio that is no positive number, all from one on. */
  lemma RatioMeaning(ratio: Ratio, window: nat)
    ensures ratio.NotFinite? || ratio.value <= 0.0 ==> RatioTokens(ratio, window) == 0
    ensures ratio.Finite? && ratio.value >= 1.0 ==> RatioTokens(ratio, window) == window
    ensures ratio.Finite? && 0.0 < ratio.value < 1.0 ==>
      RatioTokens(ratio, window) as real <= window as real * ratio.value < RatioTokens(ratio, window) as real + 1.0
  {
  }

  /** An eighth of the window is kept back, one token at least and 8192 at most. */
  lemma SafetyMeaning(cfg: Config)
    ensures cfg.contextWindow >= 65536 ==> Safety(cfg) == 8192
    ensures cfg.contextWindow < 65536 ==>
      Safety(cfg) == 1 > cfg.contextWindow / 8 || 8 * Safety(cfg) <= cfg.contextWindow < 8 * Safety(cfg) + 8
  {
  }

  lemma {:induction false} TotalCostAppend(a: seq<Message>, b: seq<Message>)
    ensures TotalCost(a + b) == TotalCost(a) + TotalCost(b)
  {
    if a == [] {
      assert a + b == b;
    } else {
      assert (a + b)[1..] == a[1..] + b;
      TotalCostAppend(a[1..], b);
    }
  }

  lemma TotalCostSnoc(ms: seq<Message>, lo: nat, hi: nat)
    requires lo <= hi < |ms|
    ensures TotalCost(ms[lo..hi + 1]) == TotalCost(ms[lo..hi]) + Cost(ms[hi])
  {
    assert ms[lo..hi + 1] == ms[lo..hi] + [ms[hi]];
    TotalCostAppend(ms[lo..hi], [ms[hi]]);
    assert TotalCost([ms[hi]]) == Cost(ms[hi]);
  }

  lemma TotalCostCons(ms: seq<Message>, lo: nat, hi: nat)
    requires lo < hi <= |ms|
    ensures TotalCost(ms[lo..hi]) == Cost(ms[lo]) + TotalCost(ms[lo + 1..hi])
  {
    assert ms[lo..hi][1..] == ms[lo + 1..hi];
  }

  lemma TotalCostMonotone(ms: seq<Message>, lo: nat, mid: nat, hi: nat)
    requires lo <= mid <= hi <= |ms|
    ensures TotalCost(ms[lo..mid]) <= TotalCost(ms[lo..hi])
    ensures TotalCost(ms[mid..hi]) <= TotalCost(ms[lo..hi])
  {
    assert ms[lo..hi] == ms[lo..mid] + ms[mid..hi];
    TotalCostAppend(ms[lo..mid], ms[mid..hi]);
  }

  // ---------------------------------------------------------------------
  // The last message compaction may shadow
  // ---------------------------------------------------------------------

  /** A place to start the retained tail: a user turn with enough history up to `turn`. */
  ghost predicate KeepsEnough(ms: seq<Message>, turn: nat, retain: nat, k: nat) {
    1 < k < turn <= |ms| && ms[k].role == User && TotalCost(ms[k..turn]) >= retain
  }

  /** The latest such place at or before k, or 0. */
  function CutPoint(ms: seq<Message>, turn: nat, retain: nat, k: nat): (cut: nat)
    requires k < turn <= |ms|
    ensures cut <= k
  {
    if k <= 1 then 0
    else if ms[k].role == User && TotalCost(ms[k..turn]) >= retain then k
    else CutPoint(ms, turn, retain, k - 1)
  }

  function ClampTurn(ms: seq<Message>, turnStart: nat): nat {
    Min(turnStart, SaturatingSub(|ms|, 1))
  }

  function CompactionEnd(ms: seq<Message>, turnStart: nat, retain: nat): (r: Option<nat>)
    ensures r.Some? ==> 1 <= r.value < ClampTurn(ms, turnStart) - 1
  {
    var turn := ClampTurn(ms, turnStart);
    if turn <= 1 then None
    else
      var cut := CutPoint(ms, turn, retain, turn - 1);
      if cut <= 1 then None else Some(cut - 1)
  }

  lemma {:induction false} CutPointGreatest(ms: seq<Message>, turn: nat, retain: nat, k: nat)
    requires k < turn <= |ms|
    ensures var cut := CutPoint(ms, turn, retain, k);
      && (cut > 0 ==> KeepsEnough(ms, turn, retain, cut))
      && forall j :: cut < j <= k ==> !KeepsEnough(ms, turn, retain, j)
  {
    if k > 1 && !(ms[k].role == User && TotalCost(ms[k..turn]) >= retain) {
      CutPointGreatest(ms, turn, retain, k - 1);
    }
  }

  /** What the chosen end means: the latest user turn that leaves enough retained. */
  lemma CompactionEndMeaning(ms: seq<Message>, turnStart: nat, retain: nat)
    ensures var turn := ClampTurn(ms, turnStart);
      match CompactionEnd(ms, turnStart, retain)
      case None => forall k: nat :: !KeepsEnough(ms, turn, retain, k)
      case Some(e) =>
        && KeepsEnough(ms, turn, retain, e + 1)
        && forall k: nat :: KeepsEnough(ms, turn, retain, k) ==> k <= e + 1
  {
    var turn := ClampTurn(ms, turnStart);
    if turn > 1 {
      CutPointGreatest(ms, turn, retain, turn - 1);
    }
  }

  ghost predicate LastUserBefore(ms: seq<Message>, turn: nat, p: nat) {
    p < turn <= |ms| && ms[p].role == User && forall q :: p < q < turn ==> ms[q].role != User
  }

  lemma {:induction false} LastUserExists(ms: seq<Message>, turn: nat, k: nat)
    requires k < turn <= |ms| && ms[k].role == User
    ensures exists p: nat :: LastUserBefore(ms, turn, p)
    decreases turn - k
  {
    if q :| k < q < turn && ms[q].role == User {
      LastUserExists(ms, turn, q);
    } else {
      assert LastUserBefore(ms, turn, k);
    }
  }

  /** The previous and the current user turn stay whole, and no pair is split. */
  lemma {:induction false} CompactionEndKeepsTurns(ms: seq<Message>, turnStart: nat, retain: nat, e: nat)
    requires CompactionEnd(ms, turnStart, retain) == Some(e)
    ensures var turn := ClampTurn(ms, turnStart);
      && e + 1 < turn
      && (exists p: nat :: LastUserBefore(ms, turn, p))
      && (forall p: nat :: LastUserBefore(ms, turn, p) ==> e < p)
      && TotalCost(ms[e + 1..turn]) >= retain
    ensures Paired(ms) ==> Paired(ms[..e + 1]) && Paired(ms[e + 1..])
  {
    CompactionEndMeaning(ms, turnStart, retain);
    assert ms[e + 1].role == User;
    LastUserExists(ms, ClampTurn(ms, turnStart), e + 1);
    if Paired(ms) {
      PairedSplit(ms, e + 1);
    }
  }

  lemma {:induction false} CutPointSkips(ms: seq<Message>, turn: nat, retain: nat, lo: nat, hi: nat)
    requires lo <= hi < turn <= |ms|
    requires forall k :: lo < k <= hi ==> ms[k].role != User
    ensures CutPoint(ms, turn, retain, hi) == CutPoint(ms, turn, retain, lo)
    decreases hi
  {
    if lo < hi {
      CutPointSkips(ms, turn, retain, lo, hi - 1);
    }
  }

  /** Position of the last user message before `end`, or `end` when there is none. */
  method LastUser(messages: seq<Message>, end: nat) returns (p: nat)
    requires end <= |messages|
    ensures p <= end
    ensures p < end ==> LastUserBefore(messages, end, p)
    ensures p == end ==> forall k :: 0 <= k < end ==> messages[k].role != User
  {
    p := end;
    while p > 0
      invariant 0 <= p <= end
      invariant forall k :: p <= k < end ==> messages[k].role != User
    {
      p := p - 1;
      if messages[p].role == User {
        return;
      }
    }
    p := end;
  }

  /** Walk back from the current turn until enough tokens are retained. */
  method RetainTokens(messages: seq<Message>, turn: nat, retainTokens: nat) returns (keepFrom: nat)
    requires 1 < turn <= |messages|
    ensures 1 <= keepFrom < turn
    ensures keepFrom > 1 ==> TotalCost(messages[keepFrom..turn]) >= retainTokens
    ensures CutPoint(messages, turn, retainTokens, keepFrom)
      == CutPoint(messages, turn, retainTokens, turn - 1)
  {
    keepFrom := turn - 1;
    TotalCostCons(messages, keepFrom, turn);
    assert messages[turn..turn] == [];
    var retained := EstimateTokens(MessageBytes(messages[keepFrom])) + 4;
    while retained < retainTokens && keepFrom > 1
      invariant 1 <= keepFrom < turn
      invariant retained == TotalCost(messages[keepFrom..turn])
      invariant CutPoint(messages, turn, retainTokens, keepFrom)
        == CutPoint(messages, turn, retainTokens, turn - 1)
    {
      keepFrom := keepFrom - 1;
      TotalCostCons(messages, keepFrom, turn);
      retained := retained + (EstimateTokens(MessageBytes(messages[keepFrom])) + 4);
    }
  }

  /** Move back to the user message that starts the turn the boundary landed in. */
  method BackToUser(messages: seq<Message>, turn: nat, retainTokens: nat, from: nat) returns (keepFrom: nat)
    requires 1 <= from < turn <= |messages|
    requires from > 1 ==> TotalCost(messages[from..turn]) >= retainTokens
    ensures 1 <= keepFrom <= from
    ensures (if keepFrom <= 1 then 0 else keepFrom) == CutPoint(messages, turn, retainTokens, from)
  {
    hide TotalCost;
    keepFrom := from;
    while keepFrom > 1 && messages[keepFrom].role != User
      invariant 1 <= keepFrom <= from
      invariant keepFrom > 1 ==> TotalCost(messages[keepFrom..turn]) >= retainTokens
      invariant CutPoint(messages, turn, retainTokens, from) == CutPoint(messages, turn, retainTokens, keepFrom)
    {
      keepFrom := keepFrom - 1;
      TotalCostMonotone(messages, keepFrom, keepFrom + 1, turn);
    }
  }

  /** Keep the previous user turn as well, when it lies further back. */
  method KeepPreviousTurn(messages: seq<Message>, turn: nat, retainTokens: nat, from: nat) returns (keepFrom: nat)
    requires 1 <= from < turn <= |messages|
    requires from > 1 ==> TotalCost(messages[from..turn]) >= retainTokens
    requires CutPoint(messages, turn, retainTokens, from) == CutPoint(messages, turn, retainTokens, turn - 1)
    ensures 1 <= keepFrom <= from
    ensures keepFrom > 1 ==> TotalCost(messages[keepFrom..turn]) >= retainTokens
    ensures CutPoint(messages, turn, retainTokens, keepFrom) == CutPoint(messages, turn, retainTokens, turn - 1)
  {
    keepFrom := from;
    var previous := LastUser(messages, turn);
    hide TotalCost, CutPoint;
    if previous < turn && Max(previous, 1) < keepFrom {
      CutPointSkips(messages, turn, retainTokens, Max(previous, 1), keepFrom);
      TotalCostMonotone(messages, Max(previous, 1), keepFrom, turn);
      keepFrom := Max(previous, 1);
    }
  }

  /** Three backward scans: by tokens, by previous turn, back to a user message. */
  method SelectCompactionEnd(messages: seq<Message>, turnStart: nat, retainTokens: nat)
    returns (r: Option<nat>)
    ensures r == CompactionEnd(messages, turnStart, retainTokens)
  {
    hide TotalCost, CutPoint;
    var turn := Min(turnStart, SaturatingSub(|messages|, 1));
    if turn <= 1 {
      return None;
    }
    var keepFrom := RetainTokens(messages, turn, retainTokens);
    keepFrom := KeepPreviousTurn(messages, turn, retainTokens, keepFrom);
    keepFrom := BackToUser(messages, turn, retainTokens, keepFrom);
    if keepFrom <= 1 {
      return None;
    }
    return Some(keepFrom - 1);
  }

  // ---------------------------------------------------------------------
  // The last message of one chunk
  // ---------------------------------------------------------------------

  /** What messages 1..=k cost together. */
  function ChunkCost(ms: seq<Message>, k: nat): nat
    requires k < |ms|
  {
    if k == 0 then 0 else ChunkCost(ms, k - 1) + Cost(ms[k])
  }

  lemma {:induction false} ChunkCostTotal(ms: seq<Message>, k: nat)
    requires k < |ms|
    ensures ChunkCost(ms, k) == TotalCost(ms[1..k + 1])
  {
    if k > 0 {
      ChunkCostTotal(ms, k - 1);
      TotalCostSnoc(ms, 1, k);
    }
  }

  lemma {:induction false} ChunkCostMonotone(ms: seq<Message>, j: nat, k: nat)
    requires j <= k < |ms|
    ensures ChunkCost(ms, j) <= ChunkCost(ms, k)
  {
    if j < k {
      ChunkCostMonotone(ms, j, k - 1);
    }
  }

  predicate IsUser(ms: seq<Message>, k: nat) {
    k < |ms| && ms[k].role == User
  }

  /** Grow from k while the next message still fits the budget. */
  function Fit(ms: seq<Message>, end: nat, budget: nat, k: nat): (fit: nat)
    requires 1 <= k <= end < |ms|
    ensures k <= fit <= end
    decreases end - k
  {
    if k < end && ChunkCost(ms, k + 1) <= budget then Fit(ms, end, budget, k + 1) else k
  }

  function AlignToTurn(ms: seq<Message>, k: nat): (a: nat)
    requires 1 <= k
    ensures 1 <= a <= k
    ensures a > 1 ==> IsUser(ms, a + 1)
  {
    if k > 1 && !IsUser(ms, k + 1) then AlignToTurn(ms, k - 1) else k
  }

  function BackOff(ms: seq<Message>, k: nat): (c: nat)
    requires 1 <= k < |ms|
    ensures 1 <= c <= k
    ensures c > 1 ==> !HasCalls(ms[c])
  {
    if k > 1 && HasCalls(ms[k]) then BackOff(ms, k - 1) else k
  }

  /** Where the chunk would stop before backing off a pending call. */
  function Anchor(ms: seq<Message>, end: nat, budget: nat): (a: nat)
    requires 1 <= end < |ms|
    ensures 1 <= a <= Fit(ms, end, budget, 1)
  {
    var fit := Fit(ms, end, budget, 1);
    if fit == end then fit
    else
      var aligned := AlignToTurn(ms, fit);
      if aligned > 1 then aligned else fit
  }

  function ChunkEnd(ms: seq<Message>, end: nat, budget: nat): (r: Option<nat>)
    requires end < |ms|
    ensures r.Some? ==> 1 <= r.value <= end && (end > 1 ==> r.value >= 2)
  {
    if end < 1 || budget == 0 || ChunkCost(ms, 1) > budget then None
    else
      var c := BackOff(ms, Anchor(ms, end, budget));
      if end > 1 && c < 2 then None else Some(c)
  }

  lemma {:induction false} FitGreatest(ms: seq<Message>, end: nat, budget: nat, k: nat)
    requires 1 <= k <= end < |ms|
    requires ChunkCost(ms, k) <= budget
    ensures ChunkCost(ms, Fit(ms, end, budget, k)) <= budget
    ensures forall j: nat :: Fit(ms, end, budget, k) < j <= end ==> ChunkCost(ms, j) > budget
    decreases end - k
  {
    if k < end && ChunkCost(ms, k + 1) <= budget {
      FitGreatest(ms, end, budget, k + 1);
    } else {
      forall j: nat | k < j <= end
        ensures ChunkCost(ms, j) > budget
      {
        ChunkCostMonotone(ms, k + 1, j);
      }
    }
  }

  lemma {:induction false} AlignGreatest(ms: seq<Message>, k: nat)
    requires 1 <= k
    ensures forall j: nat :: AlignToTurn(ms, k) + 1 < j <= k + 1 ==> !IsUser(ms, j)
  {
    if k > 1 && !IsUser(ms, k + 1) {
      AlignGreatest(ms, k - 1);
    }
  }

  lemma {:induction false} BackOffGreatest(ms: seq<Message>, k: nat)
    requires 1 <= k < |ms|
    ensures forall j :: BackOff(ms, k) < j <= k ==> HasCalls(ms[j])
  {
    if k > 1 && HasCalls(ms[k]) {
      BackOffGreatest(ms, k - 1);
    }
  }

  /** `fit` is as far as the budget reaches. */
  ghost predicate ReachesTo(ms: seq<Message>, end: nat, budget: nat, fit: nat) {
    1 <= fit <= end < |ms| && ChunkCost(ms, fit) <= budget &&
    forall j: nat :: fit < j <= end ==> ChunkCost(ms, j) > budget
  }

  /** `anchor` is the last turn boundary within reach, or the reach itself when there is none. */
  ghost predicate Anchored(ms: seq<Message>, end: nat, fit: nat, anchor: nat) {
    if fit == end then anchor == end
    else if IsUser(ms, anchor + 1) && 1 < anchor <= fit then
      forall j: nat :: anchor + 1 < j <= fit + 1 ==> !IsUser(ms, j)
    else
      anchor == fit && forall j: nat :: 2 < j <= fit + 1 ==> !IsUser(ms, j)
  }

  lemma {:induction false} AnchorMeaning(ms: seq<Message>, end: nat, budget: nat)
    requires 1 <= end < |ms|
    ensures Anchored(ms, end, Fit(ms, end, budget, 1), Anchor(ms, end, budget))
  {
    var fit := Fit(ms, end, budget, 1);
    if fit != end {
      AlignGreatest(ms, fit);
    }
  }

  /** The chunk costs at most the budget, and everything it leaves out has a reason. */
  lemma {:induction false} ChunkMeaning(ms: seq<Message>, end: nat, budget: nat, c: nat)
    requires end < |ms|
    requires ChunkEnd(ms, end, budget) == Some(c)
    ensures ChunkCost(ms, c) <= budget
    ensures c > 1 ==> !HasCalls(ms[c])
    ensures exists fit: nat, anchor: nat ::
      ReachesTo(ms, end, budget, fit) && Anchored(ms, end, fit, anchor) && c <= anchor <= fit &&
      forall j :: c < j <= anchor ==> HasCalls(ms[j])
  {
    var fit := Fit(ms, end, budget, 1);
    var anchor := Anchor(ms, end, budget);
    FitGreatest(ms, end, budget, 1);
    ChunkCostMonotone(ms, c, fit);
    AnchorMeaning(ms, end, budget);
    BackOffGreatest(ms, anchor);
    assert ReachesTo(ms, end, budget, fit) && Anchored(ms, end, fit, anchor);
  }

  lemma {:induction false} FitUnique(ms: seq<Message>, end: nat, budget: nat, f: nat, g: nat)
    ensures ReachesTo(ms, end, budget, f) && ReachesTo(ms, end, budget, g) ==> f == g
  {
    hide ChunkCost;
  }

  lemma {:induction false} AnchorUnique(ms: seq<Message>, end: nat, fit: nat, a: nat, b: nat)
    ensures Anchored(ms, end, fit, a) && Anchored(ms, end, fit, b) ==> a == b
  {
    hide IsUser;
  }

  /**
   No chunk is chosen exactly when there is nothing to cover, nothing fits, or nothing but calls would be left behind
   the first message of a longer range: a checkpoint alone is not summarised again.
   */
  lemma {:induction false} ChunkRefused(ms: seq<Message>, end: nat, budget: nat)
    requires end < |ms|
    ensures ChunkEnd(ms, end, budget).None? <==>
      || end < 1 || budget == 0 || ChunkCost(ms, 1) > budget
      || (end > 1 && exists fit: nat, anchor: nat ::
           ReachesTo(ms, end, budget, fit) && Anchored(ms, end, fit, anchor) && forall j :: 1 < j <= anchor ==> HasCalls(ms[j]))
  {
    if end >= 1 && budget != 0 && ChunkCost(ms, 1) <= budget {
      var fit := Fit(ms, end, budget, 1);
      var anchor := Anchor(ms, end, budget);
      FitGreatest(ms, end, budget, 1);
      AnchorMeaning(ms, end, budget);
      BackOffGreatest(ms, anchor);
      assert ReachesTo(ms, end, budget, fit) && Anchored(ms, end, fit, anchor);
      hide ChunkCost, Fit, Anchor, HasCalls;
      forall f: nat, a: nat | ReachesTo(ms, end, budget, f) && Anchored(ms, end, f, a)
        ensures f == fit && a == anchor
      {
        FitUnique(ms, end, budget, f, fit);
        AnchorUnique(ms, end, fit, a, anchor);
      }
      hide ReachesTo, Anchored;
    }
  }

  method SelectCompactionChunk(messages: seq<Message>, end: nat, budgetTokens: nat)
    returns (r: Option<nat>)
    requires end < |messages|
    ensures r == ChunkEnd(messages, end, budgetTokens)
  {
    if end < 1 || budgetTokens == 0 {
      return None;
    }
    var used := EstimateTokens(MessageBytes(messages[1])) + 4;
    if used > budgetTokens {
      return None;
    }
    assert ChunkCost(messages, 1) == Cost(messages[1]);
    var chunkEnd := 1;
    while chunkEnd < end
      invariant 1 <= chunkEnd <= end
      invariant used == ChunkCost(messages, chunkEnd)
      invariant Fit(messages, end, budgetTokens, 1) == Fit(messages, end, budgetTokens, chunkEnd)
    {
      var tokens := EstimateTokens(MessageBytes(messages[chunkEnd + 1])) + 4;
      if used + tokens > budgetTokens {
        break;
      }
      used := used + tokens;
      chunkEnd := chunkEnd + 1;
    }
    if chunkEnd < end {
      var aligned := chunkEnd;
      while aligned > 1 && messages[aligned + 1].role != User
        invariant 1 <= aligned <= chunkEnd
        invariant AlignToTurn(messages, chunkEnd) == AlignToTurn(messages, aligned)
      {
        aligned := aligned - 1;
      }
      if aligned > 1 && messages[aligned + 1].role == User {
        chunkEnd := aligned;
      }
    }
    ghost var anchor := chunkEnd;
    while chunkEnd > 1 && HasCalls(messages[chunkEnd])
      invariant 1 <= chunkEnd <= anchor
      invariant BackOff(messages, anchor) == BackOff(messages, chunkEnd)
    {
      chunkEnd := chunkEnd - 1;
    }
    if end > 1 && chunkEnd < 2 {
      return None;
    }
    return Some(chunkEnd);
  }

  /** Whether a cut after message c leaves a result on the far side without its call. */
  predicate CleanCut(ms: seq<Message>, c: nat) {
    c + 1 < |ms| ==> ms[c + 1].role != Tool
  }

  /** That much is left of a paired history after its first messages became a checkpoint. */
  lemma TailResultsFollow(original: seq<Message>, ms: seq<Message>, d: nat)
    requires ResultsFollow(original, 1)
    requires |original| == |ms| + d && |ms| >= 2 && ms[2..] == original[2 + d..]
    ensures ResultsFollow(ms, 3)
  {
    forall j | 3 <= j < |ms| && ms[j].role == Tool
      ensures FollowsCall(ms[j - 1])
    {
      assert ms[j] == ms[2..][j - 2] == original[2 + d..][j - 2];
      assert ms[j - 1] == ms[2..][j - 3] == original[2 + d..][j - 3];
      assert FollowsCall(original[j + d - 1]);
    }
  }

  /** The budget ends between two results, and no turn starts after the first one within reach. */
  predicate StopsBetweenResults(ms: seq<Message>, end: nat, budget: nat)
    requires 1 <= end < |ms|
  {
    var fit := Fit(ms, end, budget, 1);
    && fit < end
    && ms[fit].role == Tool && ms[fit + 1].role == Tool
    && forall j: nat :: 2 < j <= fit + 1 ==> !IsUser(ms, j)
  }

  lemma {:induction false} AlignNowhere(ms: seq<Message>, k: nat)
    requires 1 <= k < |ms| - 1
    requires forall j: nat :: 2 < j <= k + 1 ==> !IsUser(ms, j)
    ensures AlignToTurn(ms, k) == 1
  {
    if k > 1 {
      AlignNowhere(ms, k - 1);
    }
  }

  lemma OpenCutStops(ms: seq<Message>, end: nat, budget: nat, c: nat)
    requires ResultsFollow(ms, 3)
    requires 1 <= end && end + 1 < |ms| && ms[end + 1].role == User
    requires ChunkEnd(ms, end, budget) == Some(c) && !CleanCut(ms, c)
    ensures StopsBetweenResults(ms, end, budget)
  {
    var anchor := Anchor(ms, end, budget);
    AnchorMeaning(ms, end, budget);
    BackOffGreatest(ms, anchor);
    hide Anchor, Fit, BackOff;
    assert c != end;
    assert FollowsCall(ms[c]) && ms[c].role == Tool;
    assert !IsUser(ms, anchor + 1);
  }

  lemma StopsCutOpen(ms: seq<Message>, end: nat, budget: nat, c: nat)
    requires 1 <= end < |ms| && StopsBetweenResults(ms, end, budget)
    requires ChunkEnd(ms, end, budget) == Some(c)
    ensures !CleanCut(ms, c)
  {
    AlignNowhere(ms, Fit(ms, end, budget, 1));
  }

  /** Exactly when a chunk splits calls from their results. */
  lemma ChunkCutsClean(ms: seq<Message>, end: nat, budget: nat, c: nat)
    requires ResultsFollow(ms, 3)
    requires 1 <= end && end + 1 < |ms| && ms[end + 1].role == User
    requires ChunkEnd(ms, end, budget) == Some(c)
    ensures CleanCut(ms, c) <==> !StopsBetweenResults(ms, end, budget)
  {
    hide StopsBetweenResults, ChunkEnd;
    if StopsBetweenResults(ms, end, budget) {
      StopsCutOpen(ms, end, budget, c);
    } else if !CleanCut(ms, c) {
      OpenCutStops(ms, end, budget, c);
    }
  }

  /** With at most one call per message, backing off is enough: no cut splits a pair. */
  lemma {:induction false} SingleCallsCutClean(ms: seq<Message>, end: nat, budget: nat, c: nat)
    requires Paired(ms)
    requires end < |ms|
    requires ChunkEnd(ms, end, budget) == Some(c)
    requires forall i :: 0 <= i < |ms| ==> |ms[i].calls| <= 1
    requires c > 1
    ensures CleanCut(ms, c)
  {
    if !CleanCut(ms, c) {
      PairedMeaning(ms);
      var i: nat :| InGroupOf(ms, i, c + 1);
    }
  }

  /** Two parallel calls in an old turn, and a budget that runs out between their results. */
  const PARALLEL_HISTORY: seq<Message> := [
    SystemMessage(""),
    UserMessage(""),
    Message(Assistant, None, None, [ToolCall("a", "", ""), ToolCall("b", "", "")], None),
    ToolMessage("a", ""),
    ToolMessage("b", ""),
    UserMessage(""),
    UserMessage("")]

  lemma ParallelHistoryPaired()
    ensures Paired(PARALLEL_HISTORY)
  {
    var ms := PARALLEL_HISTORY;
    PairedPlain(ms[5..]);
    assert ms[2..][1 + |ms[2].calls|..] == ms[5..];
    assert Paired(ms[2..]);
    assert ms[1..][1..] == ms[2..];
    assert Paired(ms[1..]);
  }

  lemma ParallelHistoryCosts()
    ensures forall i :: 0 <= i < |PARALLEL_HISTORY| ==> Cost(PARALLEL_HISTORY[i]) == 15
  {
    assert CallBytes(PARALLEL_HISTORY[2].calls[1..]) == 0;
  }

  /** The loop does select that end there, and the chunk ends between the two results. */
  lemma ParallelCallsCutOpen()
    ensures Paired(PARALLEL_HISTORY)
    ensures CompactionEnd(PARALLEL_HISTORY, 6, 0) == Some(4)
    ensures ChunkEnd(PARALLEL_HISTORY, 4, 45) == Some(3)
    ensures !CleanCut(PARALLEL_HISTORY, 3)
  {
    var ms := PARALLEL_HISTORY;
    ParallelHistoryPaired();
    ParallelHistoryCosts();
    hide Paired, Cost;
    assert CutPoint(ms, 6, 0, 5) == 5;
    assert ChunkCost(ms, 1) == 15 && ChunkCost(ms, 2) == 30 && ChunkCost(ms, 3) == 45 && ChunkCost(ms, 4) == 60;
    assert Fit(ms, 4, 45, 3) == 3;
    assert Fit(ms, 4, 45, 2) == 3;
    assert AlignToTurn(ms, 1) == 1;
    assert AlignToTurn(ms, 2) == 1;
  }

  // ---------------------------------------------------------------------
  // The summariser call
  // ---------------------------------------------------------------------

  datatype SummaryCall = SummaryCall(messages: seq<Message>, maxTokens: nat)

  datatype Summarized = Summarized(sent: seq<SummaryCall>, text: Option<string>)

  function SummaryRoom(cfg: Config, request: seq<Message>, toolTokens: nat): nat {
    SaturatingSub(cfg.contextWindow, RequestTokens(request, toolTokens) + Safety(cfg))
  }

  /** `reply` is the provider's text, or None when the call failed. */
  function SummarizeRange(cfg: Config, range: seq<Message>, toolTokens: nat, reply: Option<string>): Summarized {
    var request := range + [UserMessage(cfg.instruction)];
    var room := SummaryRoom(cfg, request, toolTokens);
    if room == 0 || !ValidRequest(request, cfg.isObject) then Summarized([], None)
    else
      var limit := Max(Min(Max(cfg.compactMaxTokens, 1), Min(room, U32_MAX)), 1);
      var call := SummaryCall(request, limit);
      match reply
      case None => Summarized([call], None)
      case Some(text) => Summarized([call], if Trim(text) == "" then None else Some(Trim(text)))
  }

  function CheckpointText(cfg: Config, summary: string): string {
    cfg.checkpointHead + Trim(summary) + cfg.checkpointTail
  }

  function ChunkBudget(cfg: Config, ms: seq<Message>, toolTokens: nat): nat
    requires ms != []
  {
    SaturatingSub(cfg.contextWindow,
      EstimateTokens(MessageBytes(ms[0])) + toolTokens + EstimateTokens(ByteLen(cfg.instruction))
      + cfg.compactMaxTokens + Safety(cfg))
  }

  /** The chunk's budget and everything else that goes with it fill the window; none is left if that is too much. */
  lemma BudgetMeaning(cfg: Config, ms: seq<Message>, toolTokens: nat)
    requires ms != []
    ensures var rest := EstimateTokens(MessageBytes(ms[0])) + toolTokens + EstimateTokens(ByteLen(cfg.instruction))
      + cfg.compactMaxTokens + Safety(cfg);
      if rest < cfg.contextWindow then ChunkBudget(cfg, ms, toolTokens) + rest == cfg.contextWindow
      else ChunkBudget(cfg, ms, toolTokens) == 0
  {
  }

  lemma {:induction false} SummaryRequestCost(cfg: Config, ms: seq<Message>, toolTokens: nat, c: nat)
    requires 1 <= c < |ms|
    ensures RequestTokens(ms[..c + 1] + [UserMessage(cfg.instruction)], toolTokens)
      <= Cost(ms[0]) + ChunkCost(ms, c) + EstimateTokens(ByteLen(cfg.instruction)) + 15 + toolTokens
  {
    var ask := UserMessage(cfg.instruction);
    TotalCostAppend(ms[..c + 1], [ask]);
    TotalCostCons(ms, 0, c + 1);
    assert ms[0..c + 1] == ms[..c + 1];
    ChunkCostTotal(ms, c);
    assert TotalCost([ask]) == Cost(ask);
  }

  /** A chunk within budget leaves the summariser its output allowance, less 19 tokens. */
  lemma ChunkLeavesRoom(cfg: Config, ms: seq<Message>, toolTokens: nat, end: nat, c: nat)
    requires end < |ms|
    requires ChunkEnd(ms, end, ChunkBudget(cfg, ms, toolTokens)) == Some(c)
    ensures SummaryRoom(cfg, ms[..c + 1] + [UserMessage(cfg.instruction)], toolTokens)
      >= cfg.compactMaxTokens - 19
    ensures cfg.compactMaxTokens > 19 ==>
      RequestTokens(ms[..c + 1] + [UserMessage(cfg.instruction)], toolTokens)
      + Safety(cfg) + (cfg.compactMaxTokens - 19) <= cfg.contextWindow
  {
    ChunkMeaning(ms, end, ChunkBudget(cfg, ms, toolTokens), c);
    SummaryRequestCost(cfg, ms, toolTokens, c);
  }

  // ---------------------------------------------------------------------
  // The chunked rewrite
  // ---------------------------------------------------------------------

  datatype Pass = Pass(
    messages: seq<Message>,
    remaining: nat,
    checkpoint: Option<string>,
    first: bool,
    sent: seq<SummaryCall>)

  function PassEnd(p: Pass): nat {
    if p.first then p.remaining else p.remaining + 1
  }

  /** Replace messages 1..=c by the checkpoint. */
  function Accept(cfg: Config, p: Pass, c: nat, text: string, sent: seq<SummaryCall>): (q: Pass)
    requires 1 <= c <= PassEnd(p) < |p.messages|
    requires !p.first ==> c >= 2
    ensures PassEnd(q) < |q.messages|
    ensures q.remaining < p.remaining
  {
    var replaced := if p.first then c else c - 1;
    Pass(
      [p.messages[0], UserMessage(CheckpointText(cfg, text))] + p.messages[c + 1..],
      p.remaining - replaced,
      Some(CheckpointText(cfg, text)),
      false,
      p.sent + sent)
  }

  datatype PassStep = Stopped(p: Pass) | Accepted(p: Pass)

  function Splice(cfg: Config, p: Pass, c: nat, s: Summarized): (r: PassStep)
    requires 1 <= c <= PassEnd(p) < |p.messages|
    requires !p.first ==> c >= 2
    ensures PassEnd(r.p) < |r.p.messages|
    ensures r.Accepted? ==> r.p.remaining < p.remaining
  {
    match s.text
    case None => Stopped(p.(sent := p.sent + s.sent))
    case Some(text) => Accepted(Accept(cfg, p, c, text, s.sent))
  }

  /** One turn of the loop: choose a chunk, ask for its summary, splice. */
  function StepPass(cfg: Config, toolTokens: nat, budget: nat, reply: Option<string>, p: Pass): (r: PassStep)
    requires 0 < p.remaining && PassEnd(p) < |p.messages|
    ensures PassEnd(r.p) < |r.p.messages|
    ensures r.Accepted? ==> r.p.remaining < p.remaining
  {
    match ChunkEnd(p.messages, PassEnd(p), budget)
    case None => Stopped(p)
    case Some(c) =>
      Splice(cfg, p, c, SummarizeRange(cfg, p.messages[..c + 1], toolTokens, reply))
  }

  function CompactPasses(cfg: Config, toolTokens: nat, budget: nat, replies: nat -> Option<string>, p: Pass): Pass
    requires PassEnd(p) < |p.messages|
    decreases p.remaining
  {
    if p.remaining == 0 then p
    else
      match StepPass(cfg, toolTokens, budget, replies(|p.sent|), p)
      case Stopped(q) => q
      case Accepted(q) => CompactPasses(cfg, toolTokens, budget, replies, q)
  }

  /** After every accepted chunk the list is system, latest checkpoint, untouched rest. */
  ghost predicate PassShape(original: seq<Message>, target: nat, p: Pass) {
    && target < |original|
    && p.remaining <= target
    && (p.first ==> p.messages == original && p.remaining == target && p.checkpoint.None?)
    && (!p.first ==>
        && p.remaining < target
        && p.checkpoint.Some?
        && p.messages == [original[0], UserMessage(p.checkpoint.value)] + original[1 + (target - p.remaining)..])
  }

  lemma SpliceShape(original: seq<Message>, target: nat, cfg: Config, p: Pass, c: nat, s: Summarized)
    requires PassShape(original, target, p)
    requires 1 <= c <= PassEnd(p) < |p.messages|
    requires !p.first ==> c >= 2
    ensures PassShape(original, target, Splice(cfg, p, c, s).p)
  {
    if s.text.Some? {
      var q := Accept(cfg, p, c, s.text.value, s.sent);
      assert p.messages[c + 1..] == original[1 + (target - q.remaining)..];
      assert q.messages == [original[0], UserMessage(q.checkpoint.value)] + original[1 + (target - q.remaining)..];
    }
  }

  lemma StepPassShape(original: seq<Message>, target: nat, cfg: Config,
      toolTokens: nat, budget: nat, reply: Option<string>, p: Pass)
    requires PassShape(original, target, p)
    requires 0 < p.remaining && PassEnd(p) < |p.messages|
    ensures PassShape(original, target, StepPass(cfg, toolTokens, budget, reply, p).p)
  {
    hide SummarizeRange, Splice;
    match ChunkEnd(p.messages, PassEnd(p), budget)
    case None =>
    case Some(c) =>
      var s := SummarizeRange(cfg, p.messages[..c + 1], toolTokens, reply);
      SpliceShape(original, target, cfg, p, c, s);
      assert StepPass(cfg, toolTokens, budget, reply, p) == Splice(cfg, p, c, s);
  }

  lemma {:induction false} CompactPassesShape(original: seq<Message>, target: nat, cfg: Config,
      toolTokens: nat, budget: nat, replies: nat -> Option<string>, p: Pass)
    requires PassShape(original, target, p)
    requires PassEnd(p) < |p.messages|
    ensures PassShape(original, target, CompactPasses(cfg, toolTokens, budget, replies, p))
    decreases p.remaining
  {
    if p.remaining != 0 {
      StepPassShape(original, target, cfg, toolTokens, budget, replies(|p.sent|), p);
      var r := StepPass(cfg, toolTokens, budget, replies(|p.sent|), p);
      if r.Accepted? {
        CompactPassesShape(original, target, cfg, toolTokens, budget, replies, r.p);
      }
    }
  }

  // ---------------------------------------------------------------------
  // Whether the rewrite left the calls of a retained result behind
  // ---------------------------------------------------------------------

  /** Whether the last chunk accepted from here on stops between results; `open` says so of the one before. */
  predicate PassesCutOpen(cfg: Config, toolTokens: nat, budget: nat, replies: nat -> Option<string>, p: Pass, open: bool)
    requires PassEnd(p) < |p.messages|
    decreases p.remaining
  {
    if p.remaining == 0 then open
    else
      match StepPass(cfg, toolTokens, budget, replies(|p.sent|), p)
      case Stopped(_) => open
      case Accepted(q) =>
        PassesCutOpen(cfg, toolTokens, budget, replies, q, StopsBetweenResults(p.messages, PassEnd(p), budget))
  }

  predicate RangeCutOpen(cfg: Config, ms: seq<Message>, toolTokens: nat, target: nat, replies: nat -> Option<string>)
    requires target < |ms|
  {
    PassesCutOpen(cfg, toolTokens, ChunkBudget(cfg, ms, toolTokens), replies, Pass(ms, target, None, true, []), false)
  }

  /** What a pass keeps besides its shape. */
  ghost predicate PassOpen(p: Pass, open: bool) {
    |p.messages| >= 3 && (!p.first ==> (p.messages[2].role == Tool <==> open)) && (p.first ==> !open)
  }

  lemma AcceptedStep(cfg: Config, toolTokens: nat, budget: nat, reply: Option<string>, p: Pass)
    requires 0 < p.remaining && PassEnd(p) < |p.messages|
    ensures var r := StepPass(cfg, toolTokens, budget, reply, p);
      var c := ChunkEnd(p.messages, PassEnd(p), budget);
      r.Accepted? ==> c.Some? && !r.p.first && |r.p.messages| >= 2 && r.p.messages[2..] == p.messages[c.value + 1..]
  {
    hide SummarizeRange;
  }

  lemma PassTail(original: seq<Message>, target: nat, p: Pass) returns (d: nat)
    requires PassShape(original, target, p) && target + 1 < |original|
    ensures
      && |original| == |p.messages| + d && |p.messages| >= 2 && p.messages[2..] == original[2 + d..]
      && PassEnd(p) + 1 < |p.messages| && p.messages[PassEnd(p) + 1] == original[target + 1]
      && (0 < p.remaining ==> 1 <= PassEnd(p))
  {
    d := if p.first then 0 else target - p.remaining - 1;
  }

  lemma StepCutOpen(original: seq<Message>, target: nat, cfg: Config, toolTokens: nat, budget: nat,
      reply: Option<string>, p: Pass)
    requires ResultsFollow(original, 1) && target + 1 < |original| && original[target + 1].role == User
    requires PassShape(original, target, p)
    requires 0 < p.remaining && PassEnd(p) < |p.messages|
    ensures var r := StepPass(cfg, toolTokens, budget, reply, p);
      r.Accepted? ==> PassOpen(r.p, StopsBetweenResults(p.messages, PassEnd(p), budget))
  {
    hide *;
    var ms, end := p.messages, PassEnd(p);
    var d := PassTail(original, target, p);
    AcceptedStep(cfg, toolTokens, budget, reply, p);
    var r := StepPass(cfg, toolTokens, budget, reply, p);
    if r.Accepted? {
      var c := ChunkEnd(ms, end, budget).value;
      TailResultsFollow(original, ms, d);
      ChunkCutsClean(ms, end, budget, c);
      CutIsTail(ms, c, r.p, StopsBetweenResults(ms, end, budget));
    }
  }

  lemma CutIsTail(ms: seq<Message>, c: nat, q: Pass, open: bool)
    requires c + 1 < |ms| && !q.first && |q.messages| >= 2 && q.messages[2..] == ms[c + 1..]
    requires CleanCut(ms, c) <==> !open
    ensures PassOpen(q, open)
  {
    assert |q.messages[2..]| == |ms| - (c + 1);
    assert q.messages[2] == q.messages[2..][0] == ms[c + 1];
  }

  lemma {:induction false} PassesOpen(original: seq<Message>, target: nat, cfg: Config, toolTokens: nat, budget: nat,
      replies: nat -> Option<string>, p: Pass, open: bool)
    requires ResultsFollow(original, 1) && target + 1 < |original| && original[target + 1].role == User
    requires PassShape(original, target, p) && PassEnd(p) < |p.messages|
    requires PassOpen(p, open)
    ensures PassOpen(CompactPasses(cfg, toolTokens, budget, replies, p),
                     PassesCutOpen(cfg, toolTokens, budget, replies, p, open))
    decreases p.remaining
  {
    hide ResultsFollow, StepPass, PassShape, StopsBetweenResults;
    if p.remaining != 0 {
      var r := StepPass(cfg, toolTokens, budget, replies(|p.sent|), p);
      if r.Accepted? {
        StepPassShape(original, target, cfg, toolTokens, budget, replies(|p.sent|), p);
        StepCutOpen(original, target, cfg, toolTokens, budget, replies(|p.sent|), p);
        PassesOpen(original, target, cfg, toolTokens, budget, replies, r.p,
          StopsBetweenResults(p.messages, PassEnd(p), budget));
      } else {
        StoppedStep(cfg, toolTokens, budget, replies(|p.sent|), p);
      }
    }
  }

  lemma StoppedStep(cfg: Config, toolTokens: nat, budget: nat, reply: Option<string>, p: Pass)
    requires 0 < p.remaining && PassEnd(p) < |p.messages|
    ensures var r := StepPass(cfg, toolTokens, budget, reply, p);
      r.Stopped? ==> r.p.messages == p.messages && r.p.first == p.first
  {
    hide SummarizeRange, ChunkEnd;
  }

  // ---------------------------------------------------------------------
  // Adoption
  // ---------------------------------------------------------------------

  datatype Record = Record(
    summary: string,
    shadowed: nat,
    newMessagesBefore: nat,
    beforeBytes: nat,
    afterBytes: nat)

  datatype Rewritten = Rewritten(messages: seq<Message>, record: Option<Record>, sent: seq<SummaryCall>)

  /** A checkpoint that does not shrink the prompt is dropped and the original list kept. */
  function Adopt(ms: seq<Message>, target: nat, p: Pass, newBefore: nat): Rewritten {
    var shadowed := SaturatingSub(target, p.remaining);
    var after := TotalBytes(p.messages);
    if shadowed == 0 || p.checkpoint.None? || after >= TotalBytes(ms) then
      Rewritten(ms, None, p.sent)
    else
      Rewritten(p.messages, Some(Record(p.checkpoint.value, shadowed, newBefore, TotalBytes(ms), after)), p.sent)
  }

  function CompactRange(cfg: Config, ms: seq<Message>, toolTokens: nat, target: nat,
                        replies: nat -> Option<string>, newBefore: nat): Rewritten
    requires target < |ms|
  {
    var start := Pass(ms, target, None, true, []);
    Adopt(ms, target, CompactPasses(cfg, toolTokens, ChunkBudget(cfg, ms, toolTokens), replies, start), newBefore)
  }

  /** What an adopted record says is exactly what happened to the list; otherwise nothing did. */
  ghost predicate RecordTells(ms: seq<Message>, target: nat, newBefore: nat, r: Rewritten) {
    match r.record
    case None => r.messages == ms
    case Some(record) =>
      && target < |ms|
      && 0 < record.shadowed <= target
      && r.messages == [ms[0], UserMessage(record.summary)] + ms[1 + record.shadowed..]
      && record.beforeBytes == TotalBytes(ms)
      && record.afterBytes == TotalBytes(r.messages)
      && record.afterBytes < record.beforeBytes
      && record.newMessagesBefore == newBefore
  }

  lemma {:induction false} AdoptMeaning(ms: seq<Message>, target: nat, p: Pass, newBefore: nat)
    requires PassShape(ms, target, p)
    ensures RecordTells(ms, target, newBefore, Adopt(ms, target, p, newBefore))
    ensures Adopt(ms, target, p, newBefore).record.Some? <==>
      (p.remaining < target && TotalBytes(p.messages) < TotalBytes(ms))
  {
  }

  lemma CompactRangeMeaning(cfg: Config, ms: seq<Message>, toolTokens: nat, target: nat,
                            replies: nat -> Option<string>, newBefore: nat)
    requires target < |ms|
    ensures RecordTells(ms, target, newBefore, CompactRange(cfg, ms, toolTokens, target, replies, newBefore))
  {
    var budget := ChunkBudget(cfg, ms, toolTokens);
    var start := Pass(ms, target, None, true, []);
    CompactPassesShape(ms, target, cfg, toolTokens, budget, replies, start);
    AdoptMeaning(ms, target, CompactPasses(cfg, toolTokens, budget, replies, start), newBefore);
  }

  /** A rewrite leaves a result without its call just when the last chunk it accepted stopped between results. */
  lemma {:induction false} CompactRangeCuts(cfg: Config, ms: seq<Message>, toolTokens: nat, target: nat,
                         replies: nat -> Option<string>, newBefore: nat)
    requires Paired(ms) && 1 <= target && target + 1 < |ms| && ms[target + 1].role == User
    ensures var r := CompactRange(cfg, ms, toolTokens, target, replies, newBefore);
      r.record.Some? ==>
        |r.messages| >= 3 &&
        (r.messages[2].role == Tool <==> RangeCutOpen(cfg, ms, toolTokens, target, replies))
  {
    var budget := ChunkBudget(cfg, ms, toolTokens);
    var start := Pass(ms, target, None, true, []);
    CompactPassesShape(ms, target, cfg, toolTokens, budget, replies, start);
    PairedResultsFollow(ms);
    PassesOpen(ms, target, cfg, toolTokens, budget, replies, start, false);
    hide Paired, CompactPasses, PassesCutOpen, ChunkBudget;
  }

  method AttemptPass(cfg: Config, toolTokens: nat, budget: nat, reply: Option<string>, p: Pass)
    returns (r: PassStep)
    requires 0 < p.remaining && PassEnd(p) < |p.messages|
    ensures r == StepPass(cfg, toolTokens, budget, reply, p)
  {
    hide ChunkEnd, SummarizeRange, CheckpointText;
    var end := if p.first then p.remaining else p.remaining + 1;
    var chunkEnd := SelectCompactionChunk(p.messages, end, budget);
    if chunkEnd.None? {
      return Stopped(p);
    }
    var summary := SummarizeRange(cfg, p.messages[..chunkEnd.value + 1], toolTokens, reply);
    if summary.text.None? {
      return Stopped(p.(sent := p.sent + summary.sent));
    }
    var checkpoint := CheckpointText(cfg, summary.text.value);
    var replaced := if p.first then chunkEnd.value else chunkEnd.value - 1;
    return Accepted(Pass(
      [p.messages[0], UserMessage(checkpoint)] + p.messages[chunkEnd.value + 1..],
      SaturatingSub(p.remaining, replaced),
      Some(checkpoint), false, p.sent + summary.sent));
  }

  /** The chunk loop: every accepted chunk shortens what remains, so it ends. */
  method RunPasses(cfg: Config, toolTokens: nat, budget: nat, replies: nat -> Option<string>, start: Pass)
    returns (p: Pass)
    requires PassEnd(start) < |start.messages|
    ensures p == CompactPasses(cfg, toolTokens, budget, replies, start)
  {
    p := start;
    while p.remaining > 0
      invariant PassEnd(p) < |p.messages|
      invariant CompactPasses(cfg, toolTokens, budget, replies, start)
        == CompactPasses(cfg, toolTokens, budget, replies, p)
      decreases p.remaining
    {
      var r := AttemptPass(cfg, toolTokens, budget, replies(|p.sent|), p);
      if r.Stopped? {
        return r.p;
      }
      p := r.p;
    }
  }

  method CompactHistory(cfg: Config, original: seq<Message>, toolTokens: nat, target: nat,
                        replies: nat -> Option<string>, newBefore: nat)
    returns (r: Rewritten)
    requires target < |original|
    ensures r == CompactRange(cfg, original, toolTokens, target, replies, newBefore)
    ensures RecordTells(original, target, newBefore, r)
  {
    CompactRangeMeaning(cfg, original, toolTokens, target, replies, newBefore);
    var budget := ChunkBudget(cfg, original, toolTokens);
    var p := RunPasses(cfg, toolTokens, budget, replies, Pass(original, target, None, true, []));
    r := Adopt(original, target, p, newBefore);
  }
}
