/**
 Which messages the summariser is given and what becomes of its replies, told from the original list and the
 replies alone: each call merges the previous checkpoint with the next span, and no message is skipped or lost.
 */
module CompactionCalls {
  import opened Wrappers
  import opened Chat
  import opened Compaction

  // ---------------------------------------------------------------------
  // Trimming
  // ---------------------------------------------------------------------

  /** White space is taken off at both ends, all of it, and nothing else. */
  ghost predicate TrimmedFrom(text: string, front: nat, trimmed: string) {
    && front + |trimmed| <= |text| && trimmed == text[front..front + |trimmed|]
    && Blank(text[..front]) && Blank(text[front + |trimmed|..])
    && (trimmed != "" ==> !IsWhitespace(trimmed[0]) && !IsWhitespace(trimmed[|trimmed| - 1]))
  }

  lemma {:induction false} TrimStartMeaning(text: string)
    ensures var rest := TrimStart(text);
      && |rest| <= |text| && rest == text[|text| - |rest|..] && Blank(text[..|text| - |rest|])
      && (rest != "" ==> !IsWhitespace(rest[0]))
  {
    if text != [] && IsWhitespace(text[0]) {
      TrimStartMeaning(text[1..]);
    }
  }

  lemma {:induction false} TrimEndMeaning(text: string)
    ensures var rest := TrimEnd(text);
      && |rest| <= |text| && rest == text[..|rest|] && Blank(text[|rest|..])
      && (rest != "" ==> !IsWhitespace(rest[|rest| - 1]))
  {
    if text != [] && IsWhitespace(text[|text| - 1]) {
      TrimEndMeaning(text[..|text| - 1]);
      var n := |TrimEnd(text)|;
      assert text[n..] == text[..|text| - 1][n..] + [text[|text| - 1]];
    }
  }

  lemma {:induction false} TrimMeaning(text: string)
    ensures exists front: nat :: TrimmedFrom(text, front, Trim(text))
    ensures Trim(Trim(text)) == Trim(text)
  {
    var rest := TrimStart(text);
    var trimmed := TrimEnd(rest);
    TrimStartMeaning(text);
    TrimEndMeaning(rest);
    hide TrimStart, TrimEnd, IsWhitespace, Blank;
    var front: nat := |text| - |rest|;
    assert trimmed == text[front..front + |trimmed|];
    assert rest[|trimmed|..] == text[front + |trimmed|..];
    assert trimmed != "" ==> trimmed[0] == rest[0];
    assert TrimmedFrom(text, front, trimmed);
    assert Trim(text) == trimmed;
    TrimEnds(trimmed);
  }

  lemma {:induction false} TrimEnds(text: string)
    requires text != "" ==> !IsWhitespace(text[0]) && !IsWhitespace(text[|text| - 1])
    ensures Trim(text) == text
  {
  }

  // ---------------------------------------------------------------------
  // The calls
  // ---------------------------------------------------------------------

  /** The reply gives a summary: it came, and is not blank. */
  predicate Usable(reply: Option<string>) {
    reply.Some? && Trim(reply.value) != ""
  }

  /** The checkpoint a reply makes. */
  function CheckpointOf(cfg: Config, reply: Option<string>): string {
    cfg.checkpointHead + Trim(reply.GetOr("")) + cfg.checkpointTail
  }

  /** What stands for everything before call i: nothing at first, then the checkpoint of the call before. */
  function Merged(cfg: Config, replies: nat -> Option<string>, i: nat): seq<Message> {
    if i == 0 then [] else [UserMessage(CheckpointOf(cfg, replies(i - 1)))]
  }

  /** The list when i calls have been merged and the original is covered up to `at`. */
  function Standing(cfg: Config, original: seq<Message>, replies: nat -> Option<string>, i: nat, at: nat): seq<Message>
    requires 1 <= at <= |original|
  {
    [original[0]] + Merged(cfg, replies, i) + original[at..]
  }

  /** Call i: system message, what is merged so far, the next span of the original, the instruction. */
  function CallMessages(cfg: Config, original: seq<Message>, replies: nat -> Option<string>, i: nat, from: nat, to: nat):
      seq<Message>
    requires 1 <= from <= to <= |original|
  {
    [original[0]] + Merged(cfg, replies, i) + original[from..to] + [UserMessage(cfg.instruction)]
  }

  /** The chunk chosen for call i ends the span `from..to`. */
  predicate Chosen(cfg: Config, original: seq<Message>, toolTokens: nat, target: nat, replies: nat -> Option<string>,
                   i: nat, from: nat, to: nat)
  {
    && 1 <= from < to <= target + 1 <= |original|
    && var ahead := |Merged(cfg, replies, i)|;
      ChunkEnd(Standing(cfg, original, replies, i, from), ahead + (target + 1 - from),
        ChunkBudget(cfg, original, toolTokens)) == Some(ahead + (to - from))
  }

  /** No chunk can be chosen for call i. */
  predicate NoChunk(cfg: Config, original: seq<Message>, toolTokens: nat, target: nat, replies: nat -> Option<string>,
                    i: nat, from: nat)
  {
    && 1 <= from <= target + 1 <= |original|
    && ChunkEnd(Standing(cfg, original, replies, i, from), |Merged(cfg, replies, i)| + (target + 1 - from),
        ChunkBudget(cfg, original, toolTokens)) == None
  }

  /** n tokens of output fit beside these messages. */
  predicate RoomFor(cfg: Config, messages: seq<Message>, toolTokens: nat, n: nat) {
    RequestTokens(messages, toolTokens) + Safety(cfg) + n <= cfg.contextWindow
  }

  predicate Sendable(cfg: Config, messages: seq<Message>, toolTokens: nat) {
    RoomFor(cfg, messages, toolTokens, 1) && ValidRequest(messages, cfg.isObject)
  }

  /** The output a summariser call is allowed: the most that keeps all limits. */
  predicate MayAsk(cfg: Config, messages: seq<Message>, toolTokens: nat, n: nat) {
    n <= Max(cfg.compactMaxTokens, 1) && n <= U32_MAX && RoomFor(cfg, messages, toolTokens, n)
  }

  ghost predicate CallTold(cfg: Config, original: seq<Message>, toolTokens: nat, target: nat,
                           replies: nat -> Option<string>, i: nat, from: nat, to: nat, call: SummaryCall)
  {
    && Chosen(cfg, original, toolTokens, target, replies, i, from, to)
    && call.messages == CallMessages(cfg, original, replies, i, from, to)
    && Sendable(cfg, call.messages, toolTokens)
    && MayAsk(cfg, call.messages, toolTokens, call.maxTokens)
    && forall n: nat :: MayAsk(cfg, call.messages, toolTokens, n) ==> n <= call.maxTokens
  }

  /** The calls sent, call i about the span bounds[i]..bounds[i + 1]; the first `accepted` replies were usable. */
  ghost predicate CallsTold(cfg: Config, original: seq<Message>, toolTokens: nat, target: nat,
                            replies: nat -> Option<string>, sent: seq<SummaryCall>, accepted: nat, bounds: seq<nat>)
  {
    && |bounds| == |sent| + 1 && bounds[0] == 1 && accepted <= |sent|
    && (forall i :: 0 <= i < |sent| ==>
          CallTold(cfg, original, toolTokens, target, replies, i, bounds[i], bounds[i + 1], sent[i]))
    && (forall i: nat :: i < accepted ==> Usable(replies(i)))
  }

  /** A pass so far: every call was accepted, and the list stands as they make it. */
  ghost predicate PassTold(cfg: Config, original: seq<Message>, toolTokens: nat, target: nat,
                           replies: nat -> Option<string>, p: Pass, bounds: seq<nat>)
  {
    var n := |p.sent|;
    && target < |original|
    && CallsTold(cfg, original, toolTokens, target, replies, p.sent, n, bounds)
    && p.remaining <= target && bounds[n] == target + 1 - p.remaining
    && p.first == (n == 0)
    && p.messages == Standing(cfg, original, replies, n, bounds[n])
    && p.checkpoint == (if n == 0 then None else Some(CheckpointOf(cfg, replies(n - 1))))
  }

  /** Why no further call was made: all is covered, the last reply was of no use, or no call could be made. */
  ghost predicate Ended(cfg: Config, original: seq<Message>, toolTokens: nat, target: nat,
                        replies: nat -> Option<string>, sent: nat, accepted: nat, bounds: seq<nat>)
    requires accepted < |bounds|
  {
    var from := bounds[accepted];
    || (sent == accepted && from == target + 1)
    || (sent == accepted && NoChunk(cfg, original, toolTokens, target, replies, accepted, from))
    || (sent == accepted && exists to: nat ::
          && Chosen(cfg, original, toolTokens, target, replies, accepted, from, to)
          && !Sendable(cfg, CallMessages(cfg, original, replies, accepted, from, to), toolTokens))
    || (sent == accepted + 1 && !Usable(replies(accepted)))
  }

  /** The finished pass: its calls, why it ended, and the list it leaves. */
  ghost predicate PassEnded(cfg: Config, original: seq<Message>, toolTokens: nat, target: nat,
                            replies: nat -> Option<string>, p: Pass, accepted: nat, bounds: seq<nat>)
  {
    && target < |original|
    && CallsTold(cfg, original, toolTokens, target, replies, p.sent, accepted, bounds)
    && Ended(cfg, original, toolTokens, target, replies, |p.sent|, accepted, bounds)
    && p.remaining <= target && bounds[accepted] == target + 1 - p.remaining
    && p.messages == Standing(cfg, original, replies, accepted, bounds[accepted])
    && p.checkpoint == (if accepted == 0 then None else Some(CheckpointOf(cfg, replies(accepted - 1))))
  }

  lemma {:induction false} StartTold(cfg: Config, original: seq<Message>, toolTokens: nat, target: nat,
                                     replies: nat -> Option<string>)
    requires target < |original|
    ensures PassTold(cfg, original, toolTokens, target, replies, Pass(original, target, None, true, []), [1])
  {
    assert Standing(cfg, original, replies, 0, 1) == original;
  }

  lemma {:induction false} PassEndIs(cfg: Config, original: seq<Message>, toolTokens: nat, target: nat,
                                     replies: nat -> Option<string>, p: Pass, bounds: seq<nat>)
    requires PassTold(cfg, original, toolTokens, target, replies, p, bounds)
    ensures var n := |p.sent|;
      && bounds != [] && |bounds| == n + 1
      && 1 <= bounds[n] <= target + 1 <= |original| && p.remaining == target + 1 - bounds[n]
      && PassEnd(p) == |Merged(cfg, replies, n)| + p.remaining
      && PassEnd(p) < |p.messages| && p.first == (n == 0)
      && p.messages == Standing(cfg, original, replies, n, bounds[n])
  {
    hide CallsTold, CheckpointOf, ChunkBudget;
    CallsTold1(cfg, original, toolTokens, target, replies, p.sent, |p.sent|, bounds);
  }

  lemma {:induction false} CallsTold1(cfg: Config, original: seq<Message>, toolTokens: nat, target: nat,
      replies: nat -> Option<string>, sent: seq<SummaryCall>, accepted: nat, bounds: seq<nat>)
    requires CallsTold(cfg, original, toolTokens, target, replies, sent, accepted, bounds)
    ensures |bounds| == |sent| + 1 && bounds[0] == 1 && accepted <= |sent|
  {
  }

  /** The summariser call over a span. */
  lemma {:induction false} SummarizeTells(cfg: Config, original: seq<Message>, toolTokens: nat, target: nat,
      replies: nat -> Option<string>, i: nat, from: nat, to: nat, range: seq<Message>)
    requires Chosen(cfg, original, toolTokens, target, replies, i, from, to)
    requires range == [original[0]] + Merged(cfg, replies, i) + original[from..to]
    ensures var s := SummarizeRange(cfg, range, toolTokens, replies(i));
      if Sendable(cfg, CallMessages(cfg, original, replies, i, from, to), toolTokens) then
        && |s.sent| == 1
        && CallTold(cfg, original, toolTokens, target, replies, i, from, to, s.sent[0])
        && s.text == (if Usable(replies(i)) then Some(Trim(replies(i).value)) else None)
      else s == Summarized([], None)
    ensures Usable(replies(i)) ==> replies(i).Some?
  {
    hide Chosen, RequestTokens, ValidRequest, Trim, Merged;
  }

  /** What the choice of a chunk says about the original list. */
  ghost predicate ChunkTold(cfg: Config, original: seq<Message>, toolTokens: nat, target: nat,
      replies: nat -> Option<string>, i: nat, from: nat, ms: seq<Message>, chunk: Option<nat>)
  {
    if chunk.None? then NoChunk(cfg, original, toolTokens, target, replies, i, from)
    else
      var c := chunk.value;
      var to := from + c - |Merged(cfg, replies, i)|;
      && c < |ms| && 0 <= to
      && Chosen(cfg, original, toolTokens, target, replies, i, from, to)
      && ms[..c + 1] == [original[0]] + Merged(cfg, replies, i) + original[from..to]
      && ms[c + 1..] == original[to..]
  }

  lemma {:induction false} ChunkTells(cfg: Config, original: seq<Message>, toolTokens: nat, target: nat,
      replies: nat -> Option<string>, i: nat, from: nat)
    requires 1 <= from <= target < |original|
    ensures var ms := Standing(cfg, original, replies, i, from);
      var end := |Merged(cfg, replies, i)| + (target + 1 - from);
      && end < |ms|
      && ChunkTold(cfg, original, toolTokens, target, replies, i, from, ms,
                   ChunkEnd(ms, end, ChunkBudget(cfg, original, toolTokens)))
  {
    hide *;
    var ms := Standing(cfg, original, replies, i, from);
    var end := |Merged(cfg, replies, i)| + (target + 1 - from);
    MergedLength(cfg, replies, i);
    StandingParts(cfg, original, replies, i, from, target + 1);
    var chunk := ChunkEnd(ms, end, ChunkBudget(cfg, original, toolTokens));
    if chunk.Some? {
      var to := from + chunk.value - |Merged(cfg, replies, i)|;
      StandingParts(cfg, original, replies, i, from, to);
    }
    ChunkHere(cfg, original, toolTokens, target, replies, i, from, chunk);
  }

  lemma {:induction false} MergedLength(cfg: Config, replies: nat -> Option<string>, i: nat)
    ensures |Merged(cfg, replies, i)| == if i == 0 then 0 else 1
  {
  }

  lemma {:induction false} ChunkHere(cfg: Config, original: seq<Message>, toolTokens: nat, target: nat,
      replies: nat -> Option<string>, i: nat, from: nat, chunk: Option<nat>)
    requires 1 <= from <= target < |original|
    requires var ms := Standing(cfg, original, replies, i, from);
      var ahead := |Merged(cfg, replies, i)|;
      && ahead + (target + 1 - from) < |ms|
      && chunk == ChunkEnd(ms, ahead + (target + 1 - from), ChunkBudget(cfg, original, toolTokens))
      && (chunk.Some? ==>
        && ahead < chunk.value <= ahead + (target + 1 - from)
        && var to := from + chunk.value - ahead;
        && ms[..chunk.value + 1] == [original[0]] + Merged(cfg, replies, i) + original[from..to]
        && ms[chunk.value + 1..] == original[to..])
    ensures ChunkTold(cfg, original, toolTokens, target, replies, i, from, Standing(cfg, original, replies, i, from), chunk)
  {
    hide ChunkEnd, ChunkBudget, Standing, Merged;
  }

  lemma {:induction false} StandingParts(cfg: Config, original: seq<Message>, replies: nat -> Option<string>, i: nat,
                                         from: nat, to: nat)
    requires 1 <= from <= to <= |original|
    ensures var ms := Standing(cfg, original, replies, i, from);
      var c := |Merged(cfg, replies, i)| + (to - from);
      && c + 1 <= |ms|
      && ms[..c + 1] == [original[0]] + Merged(cfg, replies, i) + original[from..to]
      && ms[c + 1..] == original[to..]
  {
    hide Merged;
  }

  // ---------------------------------------------------------------------
  // The passes
  // ---------------------------------------------------------------------

  lemma {:induction false} CallsSnoc(cfg: Config, original: seq<Message>, toolTokens: nat, target: nat,
      replies: nat -> Option<string>, sent: seq<SummaryCall>, bounds: seq<nat>, call: SummaryCall, to: nat)
    requires CallsTold(cfg, original, toolTokens, target, replies, sent, |sent|, bounds)
    requires CallTold(cfg, original, toolTokens, target, replies, |sent|, bounds[|sent|], to, call)
    ensures CallsTold(cfg, original, toolTokens, target, replies, sent + [call], |sent|, bounds + [to])
    ensures Usable(replies(|sent|)) ==>
      CallsTold(cfg, original, toolTokens, target, replies, sent + [call], |sent| + 1, bounds + [to])
  {
    hide CallTold, Usable;
  }

  /** What one turn of the loop makes of a pass. */
  ghost predicate StepTold(cfg: Config, original: seq<Message>, toolTokens: nat, target: nat,
      replies: nat -> Option<string>, p: Pass, bounds: seq<nat>, to: nat, r: PassStep)
  {
    if r.Accepted? then PassTold(cfg, original, toolTokens, target, replies, r.p, bounds + [to])
    else
      PassEnded(cfg, original, toolTokens, target, replies, r.p, |p.sent|,
                if |r.p.sent| == |p.sent| then bounds else bounds + [to])
  }

  lemma {:induction false} StepIs(cfg: Config, toolTokens: nat, budget: nat, reply: Option<string>, p: Pass)
    requires 0 < p.remaining && PassEnd(p) < |p.messages|
    ensures match ChunkEnd(p.messages, PassEnd(p), budget)
      case None => StepPass(cfg, toolTokens, budget, reply, p) == Stopped(p)
      case Some(c) =>
        var s := SummarizeRange(cfg, p.messages[..c + 1], toolTokens, reply);
        StepPass(cfg, toolTokens, budget, reply, p) == Splice(cfg, p, c, s)
  {
    hide SummarizeRange, Splice, ChunkEnd;
  }

  lemma {:induction false} StepNoChunk(cfg: Config, original: seq<Message>, toolTokens: nat, target: nat,
      replies: nat -> Option<string>, p: Pass, bounds: seq<nat>)
    requires PassTold(cfg, original, toolTokens, target, replies, p, bounds)
    requires bounds != [] && |bounds| == |p.sent| + 1
    requires NoChunk(cfg, original, toolTokens, target, replies, |p.sent|, bounds[|p.sent|])
    ensures StepTold(cfg, original, toolTokens, target, replies, p, bounds, 0, Stopped(p))
  {
    hide CallsTold, CheckpointOf, NoChunk, Standing;
  }

  lemma {:induction false} StepUnsent(cfg: Config, original: seq<Message>, toolTokens: nat, target: nat,
      replies: nat -> Option<string>, p: Pass, bounds: seq<nat>, to: nat)
    requires PassTold(cfg, original, toolTokens, target, replies, p, bounds)
    requires bounds != [] && |bounds| == |p.sent| + 1
    requires Chosen(cfg, original, toolTokens, target, replies, |p.sent|, bounds[|p.sent|], to)
    requires !Sendable(cfg, CallMessages(cfg, original, replies, |p.sent|, bounds[|p.sent|], to), toolTokens)
    ensures StepTold(cfg, original, toolTokens, target, replies, p, bounds, to, Stopped(p))
  {
    hide CallsTold, CheckpointOf, Standing, Sendable, CallMessages, NoChunk, ChunkEnd;
  }

  lemma {:induction false} StepFailed(cfg: Config, original: seq<Message>, toolTokens: nat, target: nat,
      replies: nat -> Option<string>, p: Pass, bounds: seq<nat>, to: nat, call: SummaryCall)
    requires PassTold(cfg, original, toolTokens, target, replies, p, bounds)
    requires bounds != [] && |bounds| == |p.sent| + 1
    requires CallTold(cfg, original, toolTokens, target, replies, |p.sent|, bounds[|p.sent|], to, call)
    requires !Usable(replies(|p.sent|))
    ensures StepTold(cfg, original, toolTokens, target, replies, p, bounds, to,
                     Stopped(p.(sent := p.sent + [call])))
  {
    hide *;
    PassCalls(cfg, original, toolTokens, target, replies, p, bounds);
    CallsSnoc(cfg, original, toolTokens, target, replies, p.sent, bounds, call, to);
    FailedTold(cfg, original, toolTokens, target, replies, p, bounds, to, call);
  }

  lemma {:induction false} FailedTold(cfg: Config, original: seq<Message>, toolTokens: nat, target: nat,
      replies: nat -> Option<string>, p: Pass, bounds: seq<nat>, to: nat, call: SummaryCall)
    requires PassTold(cfg, original, toolTokens, target, replies, p, bounds)
    requires |bounds| == |p.sent| + 1 && !Usable(replies(|p.sent|))
    requires CallsTold(cfg, original, toolTokens, target, replies, p.sent + [call], |p.sent|, bounds + [to])
    ensures StepTold(cfg, original, toolTokens, target, replies, p, bounds, to,
                     Stopped(p.(sent := p.sent + [call])))
  {
    hide CallsTold, CheckpointOf, Standing, CallTold, NoChunk, Usable, Chosen, Sendable, CallMessages;
    assert (bounds + [to])[|p.sent|] == bounds[|p.sent|];
  }

  lemma {:induction false} PassCalls(cfg: Config, original: seq<Message>, toolTokens: nat, target: nat,
      replies: nat -> Option<string>, p: Pass, bounds: seq<nat>)
    requires PassTold(cfg, original, toolTokens, target, replies, p, bounds)
    ensures CallsTold(cfg, original, toolTokens, target, replies, p.sent, |p.sent|, bounds)
  {
  }

  lemma {:induction false} ChosenWithin(cfg: Config, original: seq<Message>, toolTokens: nat, target: nat,
      replies: nat -> Option<string>, i: nat, from: nat, to: nat, call: SummaryCall)
    requires CallTold(cfg, original, toolTokens, target, replies, i, from, to, call)
    ensures 1 <= from < to <= target + 1 <= |original|
  {
  }

  lemma {:induction false} AcceptIs(cfg: Config, p: Pass, c: nat, reply: Option<string>, call: SummaryCall)
    requires 1 <= c <= PassEnd(p) < |p.messages| && reply.Some?
    requires !p.first ==> c >= 2
    ensures var q := Accept(cfg, p, c, Trim(reply.value), [call]);
      && q.messages == [p.messages[0], UserMessage(CheckpointOf(cfg, reply))] + p.messages[c + 1..]
      && q.remaining == p.remaining - (if p.first then c else c - 1)
      && q.checkpoint == Some(CheckpointOf(cfg, reply))
      && !q.first && q.sent == p.sent + [call]
  {
    TrimMeaning(reply.value);
    hide Trim;
  }

  lemma {:induction false} PassHere(cfg: Config, original: seq<Message>, toolTokens: nat, target: nat,
      replies: nat -> Option<string>, q: Pass, bounds: seq<nat>, n: nat)
    requires target < |original| && |q.sent| == n + 1
    requires CallsTold(cfg, original, toolTokens, target, replies, q.sent, n + 1, bounds)
    requires |bounds| == n + 2 && q.remaining <= target && bounds[n + 1] == target + 1 - q.remaining
    requires !q.first && q.checkpoint == Some(CheckpointOf(cfg, replies(n)))
    requires q.messages
      == [original[0], UserMessage(CheckpointOf(cfg, replies(n)))] + original[bounds[n + 1]..]
    ensures PassTold(cfg, original, toolTokens, target, replies, q, bounds)
  {
    hide CallsTold, CheckpointOf;
    assert q.messages == Standing(cfg, original, replies, n + 1, bounds[n + 1]);
  }

  lemma {:induction false} StepAccepted(cfg: Config, original: seq<Message>, toolTokens: nat, target: nat,
      replies: nat -> Option<string>, p: Pass, bounds: seq<nat>, c: nat, to: nat, call: SummaryCall)
    requires PassTold(cfg, original, toolTokens, target, replies, p, bounds)
    requires bounds != [] && |bounds| == |p.sent| + 1 && 1 <= c <= PassEnd(p) < |p.messages|
    requires !p.first ==> c >= 2
    requires CallTold(cfg, original, toolTokens, target, replies, |p.sent|, bounds[|p.sent|], to, call)
    requires to == bounds[|p.sent|] + c - |Merged(cfg, replies, |p.sent|)| && to <= |original|
    requires p.messages[c + 1..] == original[to..]
    requires Usable(replies(|p.sent|)) && replies(|p.sent|).Some?
    ensures StepTold(cfg, original, toolTokens, target, replies, p, bounds, to,
                     Accepted(Accept(cfg, p, c, Trim(replies(|p.sent|).value), [call])))
  {
    hide *;
    var n := |p.sent|;
    var q := Accept(cfg, p, c, Trim(replies(n).value), [call]);
    PassCalls(cfg, original, toolTokens, target, replies, p, bounds);
    CallsSnoc(cfg, original, toolTokens, target, replies, p.sent, bounds, call, to);
    ChosenWithin(cfg, original, toolTokens, target, replies, n, bounds[n], to, call);
    MergedLength(cfg, replies, n);
    StandingHead(cfg, original, replies, n, bounds[n]);
    PassEndIs(cfg, original, toolTokens, target, replies, p, bounds);
    AcceptIs(cfg, p, c, replies(n), call);
    PassHere(cfg, original, toolTokens, target, replies, q, bounds + [to], n);
    AcceptedTold(cfg, original, toolTokens, target, replies, p, bounds, to, q);
  }

  lemma {:induction false} AcceptedTold(cfg: Config, original: seq<Message>, toolTokens: nat, target: nat,
      replies: nat -> Option<string>, p: Pass, bounds: seq<nat>, to: nat, q: Pass)
    requires PassTold(cfg, original, toolTokens, target, replies, q, bounds + [to])
    ensures StepTold(cfg, original, toolTokens, target, replies, p, bounds, to, Accepted(q))
  {
    hide PassTold, PassEnded;
  }

  lemma {:induction false} StandingHead(cfg: Config, original: seq<Message>, replies: nat -> Option<string>, i: nat,
                                        at: nat)
    requires 1 <= at <= |original|
    ensures Standing(cfg, original, replies, i, at)[0] == original[0]
  {
  }

  /** One turn of the loop asks one more call, or ends the passes. */
  lemma {:induction false} StepTells(cfg: Config, original: seq<Message>, toolTokens: nat, target: nat,
      replies: nat -> Option<string>, p: Pass, bounds: seq<nat>)
      returns (to: nat)
    requires PassTold(cfg, original, toolTokens, target, replies, p, bounds)
    requires 0 < p.remaining && PassEnd(p) < |p.messages|
    ensures StepTold(cfg, original, toolTokens, target, replies, p, bounds, to,
      StepPass(cfg, toolTokens, ChunkBudget(cfg, original, toolTokens), replies(|p.sent|), p))
  {
    hide *;
    var n := |p.sent|;
    PassEndIs(cfg, original, toolTokens, target, replies, p, bounds);
    ChunkTells(cfg, original, toolTokens, target, replies, n, bounds[n]);
    StepIs(cfg, toolTokens, ChunkBudget(cfg, original, toolTokens), replies(n), p);
    var chunk := ChunkEnd(p.messages, PassEnd(p), ChunkBudget(cfg, original, toolTokens));
    ChunkToldIs(cfg, original, toolTokens, target, replies, n, bounds[n], p.messages, chunk);
    to := 0;
    if chunk.None? {
      StepNoChunk(cfg, original, toolTokens, target, replies, p, bounds);
    } else {
      var c := chunk.value;
      MergedLength(cfg, replies, n);
      to := bounds[n] + c - |Merged(cfg, replies, n)|;
      StepChunk(cfg, original, toolTokens, target, replies, p, bounds, c, to);
    }
  }

  lemma {:induction false} ChunkToldIs(cfg: Config, original: seq<Message>, toolTokens: nat, target: nat,
      replies: nat -> Option<string>, i: nat, from: nat, ms: seq<Message>, chunk: Option<nat>)
    requires 1 <= from <= |original|
    requires ChunkTold(cfg, original, toolTokens, target, replies, i, from, ms, chunk)
    ensures chunk.None? ==> NoChunk(cfg, original, toolTokens, target, replies, i, from)
    ensures chunk.Some? ==>
      var c := chunk.value;
      var to := from + c - |Merged(cfg, replies, i)|;
      && c < |ms| && from < to <= |original|
      && Chosen(cfg, original, toolTokens, target, replies, i, from, to)
      && ms[..c + 1] == [original[0]] + Merged(cfg, replies, i) + original[from..to]
      && ms[c + 1..] == original[to..]
  {
    hide ChunkEnd, ChunkBudget, Standing, Merged;
  }

  lemma {:induction false} SpliceIs(cfg: Config, p: Pass, c: nat, s: Summarized)
    requires 1 <= c <= PassEnd(p) < |p.messages|
    requires !p.first ==> c >= 2
    ensures Splice(cfg, p, c, s)
      == if s.text.None? then Stopped(p.(sent := p.sent + s.sent)) else Accepted(Accept(cfg, p, c, s.text.value, s.sent))
  {
    hide Accept;
  }

  lemma {:induction false} StepChunk(cfg: Config, original: seq<Message>, toolTokens: nat, target: nat,
      replies: nat -> Option<string>, p: Pass, bounds: seq<nat>, c: nat, to: nat)
    requires PassTold(cfg, original, toolTokens, target, replies, p, bounds)
    requires |bounds| == |p.sent| + 1 && 0 < p.remaining && 1 <= c <= PassEnd(p) < |p.messages|
    requires !p.first ==> c >= 2
    requires to == bounds[|p.sent|] + c - |Merged(cfg, replies, |p.sent|)|
    requires 1 <= bounds[|p.sent|] < to <= |original|
    requires Chosen(cfg, original, toolTokens, target, replies, |p.sent|, bounds[|p.sent|], to)
    requires p.messages[..c + 1] == [original[0]] + Merged(cfg, replies, |p.sent|) + original[bounds[|p.sent|]..to]
    requires p.messages[c + 1..] == original[to..]
    ensures StepTold(cfg, original, toolTokens, target, replies, p, bounds, to,
      Splice(cfg, p, c, SummarizeRange(cfg, p.messages[..c + 1], toolTokens, replies(|p.sent|))))
  {
    hide *;
    var n := |p.sent|;
    var s := SummarizeRange(cfg, p.messages[..c + 1], toolTokens, replies(n));
    SummarizeTells(cfg, original, toolTokens, target, replies, n, bounds[n], to, p.messages[..c + 1]);
    SpliceIs(cfg, p, c, s);
    if !Sendable(cfg, CallMessages(cfg, original, replies, n, bounds[n], to), toolTokens) {
      assert p.sent + [] == p.sent;
      StepUnsent(cfg, original, toolTokens, target, replies, p, bounds, to);
    } else {
      assert s.sent == [s.sent[0]];
      if Usable(replies(n)) {
        StepAccepted(cfg, original, toolTokens, target, replies, p, bounds, c, to, s.sent[0]);
      } else {
        StepFailed(cfg, original, toolTokens, target, replies, p, bounds, to, s.sent[0]);
      }
    }
  }

  lemma {:induction false} StepToldIs(cfg: Config, original: seq<Message>, toolTokens: nat, target: nat,
      replies: nat -> Option<string>, p: Pass, bounds: seq<nat>, to: nat, r: PassStep)
    requires StepTold(cfg, original, toolTokens, target, replies, p, bounds, to, r)
    ensures r.Accepted? ==> PassTold(cfg, original, toolTokens, target, replies, r.p, bounds + [to])
    ensures r.Stopped? ==>
      PassEnded(cfg, original, toolTokens, target, replies, r.p, |p.sent|,
                if |r.p.sent| == |p.sent| then bounds else bounds + [to])
  {
    hide PassTold, PassEnded;
  }

  /** All is covered. */
  lemma {:induction false} CoveredEnds(cfg: Config, original: seq<Message>, toolTokens: nat, target: nat,
      replies: nat -> Option<string>, p: Pass, bounds: seq<nat>)
    requires PassTold(cfg, original, toolTokens, target, replies, p, bounds) && p.remaining == 0
    ensures PassEnded(cfg, original, toolTokens, target, replies, p, |p.sent|, bounds)
  {
    PassEndIs(cfg, original, toolTokens, target, replies, p, bounds);
    hide CallsTold, CheckpointOf, Standing, NoChunk, Chosen, Usable, Sendable;
  }

  lemma {:induction false} PassesTell(cfg: Config, original: seq<Message>, toolTokens: nat, target: nat,
      replies: nat -> Option<string>, p: Pass, bounds: seq<nat>)
      returns (accepted: nat, final: seq<nat>)
    requires PassTold(cfg, original, toolTokens, target, replies, p, bounds)
    requires PassEnd(p) < |p.messages|
    ensures PassEnded(cfg, original, toolTokens, target, replies,
      CompactPasses(cfg, toolTokens, ChunkBudget(cfg, original, toolTokens), replies, p), accepted, final)
    decreases p.remaining
  {
    hide StepPass, PassTold, PassEnded, ChunkBudget, PassEnd;
    PassEndIs(cfg, original, toolTokens, target, replies, p, bounds);
    if p.remaining == 0 {
      CoveredEnds(cfg, original, toolTokens, target, replies, p, bounds);
      accepted, final := |p.sent|, bounds;
    } else {
      var to := StepTells(cfg, original, toolTokens, target, replies, p, bounds);
      var r := StepPass(cfg, toolTokens, ChunkBudget(cfg, original, toolTokens), replies(|p.sent|), p);
      StepToldIs(cfg, original, toolTokens, target, replies, p, bounds, to, r);
      if r.Accepted? {
        accepted, final := PassesTell(cfg, original, toolTokens, target, replies, r.p, bounds + [to]);
      } else {
        accepted, final := |p.sent|, if |r.p.sent| == |p.sent| then bounds else bounds + [to];
      }
    }
  }

  // ---------------------------------------------------------------------
  // The rewrite
  // ---------------------------------------------------------------------

  /**
   A rewrite, from the original list and the replies. Call i is given the system message, the checkpoint of call
   i - 1 if there was one, and the span of the original behind the one before; the spans of the accepted calls
   are consecutive from the second message on. The checkpoint of the last accepted call then stands for all of
   them, provided the list gets smaller by it.
   */
  ghost predicate RewriteTold(cfg: Config, original: seq<Message>, toolTokens: nat, target: nat,
      replies: nat -> Option<string>, r: Rewritten, accepted: nat, bounds: seq<nat>)
  {
    && target < |original|
    && CallsTold(cfg, original, toolTokens, target, replies, r.sent, accepted, bounds)
    && Ended(cfg, original, toolTokens, target, replies, |r.sent|, accepted, bounds)
    && 1 <= bounds[accepted] <= target + 1
    && var after := Standing(cfg, original, replies, accepted, bounds[accepted]);
      if accepted > 0 && TotalBytes(after) < TotalBytes(original) then
        && r.record.Some? && r.messages == after
        && r.record.value.shadowed == bounds[accepted] - 1
        && r.record.value.summary == CheckpointOf(cfg, replies(accepted - 1))
        && r.record.value.beforeBytes == TotalBytes(original) && r.record.value.afterBytes == TotalBytes(after)
      else r.record.None? && r.messages == original
  }

  lemma {:induction false} AdoptTells(cfg: Config, original: seq<Message>, toolTokens: nat, target: nat,
      replies: nat -> Option<string>, p: Pass, accepted: nat, bounds: seq<nat>, newBefore: nat)
    requires PassEnded(cfg, original, toolTokens, target, replies, p, accepted, bounds)
    ensures RewriteTold(cfg, original, toolTokens, target, replies, Adopt(original, target, p, newBefore), accepted,
                        bounds)
    ensures var record := Adopt(original, target, p, newBefore).record;
      record.Some? ==> record.value.newMessagesBefore == newBefore
  {
    CallsTold1(cfg, original, toolTokens, target, replies, p.sent, accepted, bounds);
    BoundsGrow(cfg, original, toolTokens, target, replies, p.sent, accepted, bounds, accepted);
    hide CallsTold, Ended, Standing, CheckpointOf, TotalBytes;
  }

  /** The spans are not empty and stay within the range. */
  lemma {:induction false} BoundsGrow(cfg: Config, original: seq<Message>, toolTokens: nat, target: nat,
      replies: nat -> Option<string>, sent: seq<SummaryCall>, accepted: nat, bounds: seq<nat>, i: nat)
    requires CallsTold(cfg, original, toolTokens, target, replies, sent, accepted, bounds) && i <= |sent|
    ensures i < |bounds| && 1 + i <= bounds[i]
    ensures target < |original| && i > 0 ==> bounds[i] <= target + 1
  {
    hide CallTold;
    if i > 0 {
      BoundsGrow(cfg, original, toolTokens, target, replies, sent, accepted, bounds, i - 1);
      ChosenWithin(cfg, original, toolTokens, target, replies, i - 1, bounds[i - 1], bounds[i], sent[i - 1]);
    }
  }

  lemma {:induction false} RangeTold(cfg: Config, original: seq<Message>, toolTokens: nat, target: nat,
      replies: nat -> Option<string>, newBefore: nat)
    requires target < |original|
    ensures exists accepted: nat, bounds: seq<nat> ::
      RewriteTold(cfg, original, toolTokens, target, replies,
                  CompactRange(cfg, original, toolTokens, target, replies, newBefore), accepted, bounds)
  {
    hide *;
    var start := Pass(original, target, None, true, []);
    StartTold(cfg, original, toolTokens, target, replies);
    PassEndIs(cfg, original, toolTokens, target, replies, start, [1]);
    var accepted, bounds := PassesTell(cfg, original, toolTokens, target, replies, start, [1]);
    var p := CompactPasses(cfg, toolTokens, ChunkBudget(cfg, original, toolTokens), replies, start);
    AdoptTells(cfg, original, toolTokens, target, replies, p, accepted, bounds, newBefore);
    RangeIs(cfg, original, toolTokens, target, replies, newBefore);
  }

  lemma {:induction false} RangeIs(cfg: Config, original: seq<Message>, toolTokens: nat, target: nat,
      replies: nat -> Option<string>, newBefore: nat)
    requires target < |original|
    ensures var start := Pass(original, target, None, true, []);
      && PassEnd(start) < |start.messages|
      && CompactRange(cfg, original, toolTokens, target, replies, newBefore)
        == Adopt(original, target,
             CompactPasses(cfg, toolTokens, ChunkBudget(cfg, original, toolTokens), replies, start), newBefore)
  {
    hide CompactPasses, Adopt, ChunkBudget;
  }

  /** The spans of the accepted calls are consecutive: together they are what the checkpoint shadows. */
  lemma {:induction false} SpansCover(cfg: Config, original: seq<Message>, toolTokens: nat, target: nat,
      replies: nat -> Option<string>, sent: seq<SummaryCall>, accepted: nat, bounds: seq<nat>, k: nat)
    requires CallsTold(cfg, original, toolTokens, target, replies, sent, accepted, bounds)
    requires target < |original| && accepted > 0 && 1 <= k < bounds[accepted]
    ensures exists i: nat :: InSpan(original, sent, accepted, bounds, i, k)
  {
    hide *;
    CallsTold1(cfg, original, toolTokens, target, replies, sent, accepted, bounds);
    var i := FindSpan(bounds, accepted, k);
    SpanSent(cfg, original, toolTokens, target, replies, sent, accepted, bounds, i, k);
  }

  /** Accepted call i was given message k of the original. */
  ghost predicate InSpan(original: seq<Message>, sent: seq<SummaryCall>, accepted: nat, bounds: seq<nat>, i: nat, k: nat) {
    && i < accepted <= |sent| && i + 1 < |bounds|
    && bounds[i] <= k < bounds[i + 1] <= |original| && original[k] in sent[i].messages
  }

  lemma {:induction false} FindSpan(bounds: seq<nat>, n: nat, k: nat) returns (i: nat)
    requires 0 < n < |bounds| && bounds[0] <= k < bounds[n]
    ensures i < n && bounds[i] <= k < bounds[i + 1]
  {
    if bounds[n - 1] <= k {
      i := n - 1;
    } else {
      i := FindSpan(bounds, n - 1, k);
    }
  }

  lemma {:induction false} SpanSent(cfg: Config, original: seq<Message>, toolTokens: nat, target: nat,
      replies: nat -> Option<string>, sent: seq<SummaryCall>, accepted: nat, bounds: seq<nat>, i: nat, k: nat)
    requires CallsTold(cfg, original, toolTokens, target, replies, sent, accepted, bounds)
    requires i < accepted && bounds[i] <= k < bounds[i + 1]
    ensures InSpan(original, sent, accepted, bounds, i, k)
  {
    hide *;
    CallsTold1(cfg, original, toolTokens, target, replies, sent, accepted, bounds);
    CallOf(cfg, original, toolTokens, target, replies, sent, accepted, bounds, i);
    SpanIn(cfg, original, replies, i, bounds[i], bounds[i + 1], k);
    InSpanHere(original, sent, accepted, bounds, i, k);
  }

  lemma {:induction false} CallOf(cfg: Config, original: seq<Message>, toolTokens: nat, target: nat,
      replies: nat -> Option<string>, sent: seq<SummaryCall>, accepted: nat, bounds: seq<nat>, i: nat)
    requires CallsTold(cfg, original, toolTokens, target, replies, sent, accepted, bounds) && i < |sent|
    ensures i + 1 < |bounds| && 1 <= bounds[i] < bounds[i + 1] <= |original|
    ensures sent[i].messages == CallMessages(cfg, original, replies, i, bounds[i], bounds[i + 1])
  {
    hide Chosen, Sendable, MayAsk, Usable, CallMessages;
    ChosenWithin(cfg, original, toolTokens, target, replies, i, bounds[i], bounds[i + 1], sent[i]);
  }

  lemma {:induction false} SpanIn(cfg: Config, original: seq<Message>, replies: nat -> Option<string>, i: nat, from: nat,
                                  to: nat, k: nat)
    requires 1 <= from <= k < to <= |original|
    ensures original[k] in CallMessages(cfg, original, replies, i, from, to)
  {
    hide Merged;
    var front := [original[0]] + Merged(cfg, replies, i);
    assert CallMessages(cfg, original, replies, i, from, to)[|front| + (k - from)] == original[k];
  }

  lemma {:induction false} InSpanHere(original: seq<Message>, sent: seq<SummaryCall>, accepted: nat, bounds: seq<nat>,
                                      i: nat, k: nat)
    requires i < accepted <= |sent| && i + 1 < |bounds|
    requires bounds[i] <= k < bounds[i + 1] <= |original| && original[k] in sent[i].messages
    ensures InSpan(original, sent, accepted, bounds, i, k)
  {
  }
}
