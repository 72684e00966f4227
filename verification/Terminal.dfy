/**
 A terminal's output buffer: a reader thread appends what the shell prints and drops the oldest bytes beyond
 a bound; readers drain the front. Both hold the buffer's lock, so every execution is an interleaving of
 whole writes and reads.

 Models crates/openbad-terminal/src/lib.rs.
 */
module Terminal {
  import opened Wrappers

  const MAX_BUFFER_BYTES := 262144
  const MAX_READ_BYTES := 65536

  datatype Buffered = Buffered(bytes: seq<Byte>, dropped: bool)

  const EMPTY := Buffered([], false)

  datatype Output = Output(content: seq<Byte>, running: bool, truncated: bool)

  // A chunk printed by the shell, or a read that finds the child running, ended,
  // or in a state that cannot be told.
  datatype Op = Write(chunk: seq<Byte>) | Read(running: Option<bool>)

  function Written(b: Buffered, chunk: seq<Byte>): Buffered {
    var all := b.bytes + chunk;
    if |all| > MAX_BUFFER_BYTES then Buffered(all[|all| - MAX_BUFFER_BYTES..], true)
    else Buffered(all, b.dropped)
  }

  function Taken(b: Buffered): seq<Byte> {
    b.bytes[..Min(|b.bytes|, MAX_READ_BYTES)]
  }

  function Drained(b: Buffered): Buffered {
    Buffered(b.bytes[Min(|b.bytes|, MAX_READ_BYTES)..], false)
  }

  class Session {
    var buffer: seq<Byte>
    var dropped: bool

    function State(): Buffered
      reads this
    {
      Buffered(buffer, dropped)
    }

    constructor ()
      ensures State() == EMPTY
    {
      buffer, dropped := [], false;
    }

    method Extend(chunk: seq<Byte>)
      modifies this
      ensures State() == Written(old(State()), chunk)
      ensures |old(buffer)| <= MAX_BUFFER_BYTES ==> |buffer| <= MAX_BUFFER_BYTES
    {
      buffer := buffer + chunk;
      if |buffer| > MAX_BUFFER_BYTES {
        var excess := |buffer| - MAX_BUFFER_BYTES;
        buffer := buffer[excess..];
        dropped := true;
      }
    }

    /** The buffer is drained before the child is asked, so a failed question loses what was drained. */
    method ReadBuffer(running: Option<bool>) returns (output: Option<Output>)
      modifies this
      ensures State() == Drained(old(State()))
      ensures output
        == if running.Some? then Some(Output(Taken(old(State())), running.value, old(dropped))) else None
    {
      var take := Min(|buffer|, MAX_READ_BYTES);
      var bytes := buffer[..take];
      buffer := buffer[take..];
      var truncated := dropped;
      dropped := false;
      if running.None? {
        return None;
      }
      return Some(Output(bytes, running.value, truncated));
    }
  }

  // ---------------------------------------------------------------------
  // Any interleaving
  // ---------------------------------------------------------------------

  // One read: where in the printed stream it began, what it took, what it said.
  datatype Attempt = Attempt(start: nat, content: seq<Byte>, truncated: bool, delivered: bool)

  function Printed(ops: seq<Op>): seq<Byte> {
    if ops == [] then []
    else
      match ops[|ops| - 1]
      case Write(chunk) => Printed(ops[..|ops| - 1]) + chunk
      case Read(_) => Printed(ops[..|ops| - 1])
  }

  function After(ops: seq<Op>): Buffered {
    if ops == [] then EMPTY
    else
      match ops[|ops| - 1]
      case Write(chunk) => Written(After(ops[..|ops| - 1]), chunk)
      case Read(_) => Drained(After(ops[..|ops| - 1]))
  }

  /** The buffer is the end of what was printed, so its first byte's place is known. */
  function Front(ops: seq<Op>): int {
    |Printed(ops)| - |After(ops).bytes|
  }

  function Attempts(ops: seq<Op>): seq<Attempt> {
    if ops == [] then []
    else
      var init := ops[..|ops| - 1];
      match ops[|ops| - 1]
      case Write(_) => Attempts(init)
      case Read(running) =>
        Attempts(init)
        + [Attempt(Max(Front(init), 0), Taken(After(init)), After(init).dropped, running.Some?)]
  }

  function End(a: Attempt): nat {
    a.start + |a.content|
  }

  /** Where reading stood before the k-th attempt. */
  function EndBefore(attempts: seq<Attempt>, k: nat): nat
    requires k <= |attempts|
  {
    if k == 0 then 0 else End(attempts[k - 1])
  }

  ghost predicate IsSegment(stream: seq<Byte>, a: Attempt) {
    End(a) <= |stream| && a.content == stream[a.start..End(a)]
  }

  /** In place: a segment of the stream, not before the previous one, marked exactly when there is a gap. */
  ghost predicate InPlace(stream: seq<Byte>, attempts: seq<Attempt>, k: nat)
    requires k < |attempts|
  {
    && IsSegment(stream, attempts[k])
    && EndBefore(attempts, k) <= attempts[k].start
    && (attempts[k].truncated <==> EndBefore(attempts, k) < attempts[k].start)
  }

  ghost predicate Faithful(ops: seq<Op>) {
    var attempts := Attempts(ops);
    && (forall k: nat :: k < |attempts| ==> InPlace(Printed(ops), attempts, k))
    && |After(ops).bytes| <= MAX_BUFFER_BYTES
    && 0 <= Front(ops) && After(ops).bytes == Printed(ops)[Front(ops)..]
    && EndBefore(attempts, |attempts|) <= Front(ops)
    && (After(ops).dropped <==> EndBefore(attempts, |attempts|) < Front(ops))
  }

  lemma SegmentGrows(stream: seq<Byte>, chunk: seq<Byte>, a: Attempt)
    requires IsSegment(stream, a)
    ensures IsSegment(stream + chunk, a)
  {
    assert (stream + chunk)[a.start..End(a)] == stream[a.start..End(a)];
  }

  lemma WriteTail(stream: seq<Byte>, b: Buffered, chunk: seq<Byte>)
    requires |b.bytes| <= |stream| && b.bytes == stream[|stream| - |b.bytes|..]
    requires |b.bytes| <= MAX_BUFFER_BYTES
    ensures var w := Written(b, chunk);
      && |w.bytes| <= Min(|stream + chunk|, MAX_BUFFER_BYTES)
      && w.bytes == (stream + chunk)[|stream + chunk| - |w.bytes|..]
      && |w.bytes| <= |b.bytes| + |chunk|
      && (w.dropped <==> b.dropped || |w.bytes| < |b.bytes| + |chunk|)
  {
  }

  lemma WriteFaithful(ops: seq<Op>, op: Op)
    requires Faithful(ops) && op.Write?
    ensures Faithful(ops + [op])
  {
    hide Written;
    assert (ops + [op])[..|ops|] == ops;
    var attempts := Attempts(ops);
    WriteTail(Printed(ops), After(ops), op.chunk);
    assert Attempts(ops + [op]) == attempts;
    forall k: nat | k < |attempts|
      ensures InPlace(Printed(ops) + op.chunk, attempts, k)
    {
      assert InPlace(Printed(ops), attempts, k);
      SegmentGrows(Printed(ops), op.chunk, attempts[k]);
    }
    hide Attempts, InPlace, EndBefore;
  }

  lemma ReadFaithful(ops: seq<Op>, op: Op)
    requires Faithful(ops) && op.Read?
    ensures Faithful(ops + [op])
  {
    assert (ops + [op])[..|ops|] == ops;
    var attempts := Attempts(ops);
    var more := Attempts(ops + [op]);
    hide Printed, Attempts;
    assert more == attempts + [Attempt(Front(ops), Taken(After(ops)), After(ops).dropped, op.running.Some?)];
    forall k: nat | k < |more|
      ensures InPlace(Printed(ops), more, k)
    {
      if k < |attempts| {
        assert InPlace(Printed(ops), attempts, k);
      }
    }
  }

  /**
   For every interleaving of writes and reads: the buffer stays bounded, each
   read takes a contiguous segment of what was printed, segments neither overlap
   nor go back, and a read says truncated exactly when bytes were lost between
   the previous read's end and its own start.
   */
  lemma {:induction false} EveryRunFaithful(ops: seq<Op>)
    ensures Faithful(ops)
  {
    if ops != [] {
      var init, op := ops[..|ops| - 1], ops[|ops| - 1];
      EveryRunFaithful(init);
      assert ops == init + [op];
      if op.Write? {
        WriteFaithful(init, op);
      } else {
        ReadFaithful(init, op);
      }
    }
  }

  // ---------------------------------------------------------------------
  // How much is kept and taken
  // ---------------------------------------------------------------------

  /** No more is dropped than must be: the buffer starts where reading stood, or at the last 262144 bytes printed. */
  lemma {:induction false} FrontIs(ops: seq<Op>)
    ensures Front(ops) == Max(EndBefore(Attempts(ops), |Attempts(ops)|), |Printed(ops)| - 262144)
  {
    if ops != [] {
      var init, op := ops[..|ops| - 1], ops[|ops| - 1];
      FrontIs(init);
      EveryRunFaithful(init);
      assert ops == init + [op];
      OneMore(init, op);
      hide Printed, After, Attempts, InPlace;
    }
  }

  /**
   The next read takes, from there on, all that was printed up to 65536 bytes, says truncated exactly when
   something was dropped since reading stood, and delivers exactly when the child's state can be told.
   */
  lemma {:induction false} NextRead(ops: seq<Op>, running: Option<bool>)
    ensures var attempts := Attempts(ops);
      var stood := EndBefore(attempts, |attempts|);
      var start := Max(stood, |Printed(ops)| - 262144);
      var more := Attempts(ops + [Read(running)]);
      && 0 <= start <= |Printed(ops)|
      && |more| == |attempts| + 1 && more[..|attempts|] == attempts
      && var a := more[|attempts|];
      && a.start == start
      && a.content == Printed(ops)[start..Min(|Printed(ops)|, start + 65536)]
      && (a.truncated <==> stood < start) && (a.delivered <==> running.Some?)
  {
    FrontIs(ops);
    EveryRunFaithful(ops);
    OneMore(ops, Read(running));
    hide Printed, After, Attempts, InPlace, EndBefore;
  }

  // ---------------------------------------------------------------------
  // What was lost
  // ---------------------------------------------------------------------

  function Joined(attempts: seq<Attempt>): seq<Byte> {
    if attempts == [] then [] else Joined(attempts[..|attempts| - 1]) + attempts[|attempts| - 1].content
  }

  ghost predicate Gapless(attempts: seq<Attempt>) {
    forall k :: 0 <= k < |attempts| ==> !attempts[k].truncated
  }

  lemma {:induction false} JoinedUpTo(stream: seq<Byte>, attempts: seq<Attempt>)
    requires forall k: nat :: k < |attempts| ==> InPlace(stream, attempts, k)
    ensures EndBefore(attempts, |attempts|) <= |stream|
    ensures |Joined(attempts)| <= EndBefore(attempts, |attempts|)
    ensures Gapless(attempts) ==> Joined(attempts) == stream[..EndBefore(attempts, |attempts|)]
    ensures !Gapless(attempts) ==> |Joined(attempts)| < EndBefore(attempts, |attempts|)
  {
    if attempts != [] {
      var n := |attempts| - 1;
      var init, last := attempts[..n], attempts[n];
      forall k: nat | k < n
        ensures InPlace(stream, init, k)
      {
        assert InPlace(stream, attempts, k);
      }
      JoinedUpTo(stream, init);
      assert InPlace(stream, attempts, n);
      assert EndBefore(init, n) == EndBefore(attempts, n);
      if Gapless(attempts) {
        assert stream[..End(last)] == stream[..last.start] + stream[last.start..End(last)];
      } else if Gapless(init) {
        assert last.truncated;
      }
    }
  }

  lemma PartsMakeWhole(stream: seq<Byte>, joined: seq<Byte>, rest: seq<Byte>, end: nat, front: nat, gapless: bool)
    requires end <= front <= |stream| && rest == stream[front..]
    requires gapless ==> joined == stream[..end]
    requires !gapless ==> |joined| < end
    ensures joined + rest == stream <==> gapless && end == front
  {
    if gapless && end == front {
      assert stream[..front] + stream[front..] == stream;
    } else {
      assert |joined + rest| < |stream|;
    }
  }

  /** What was read plus what is buffered is all that was printed, if and only if nothing was ever marked lost. */
  lemma {:induction false} NothingLost(ops: seq<Op>)
    ensures Joined(Attempts(ops)) + After(ops).bytes == Printed(ops)
      <==> Gapless(Attempts(ops)) && !After(ops).dropped
  {
    hide Printed, After, Attempts, Joined, Gapless;
    EveryRunFaithful(ops);
    var a := Attempts(ops);
    JoinedUpTo(Printed(ops), a);
    PartsMakeWhole(Printed(ops), Joined(a), After(ops).bytes, EndBefore(a, |a|), Front(ops), Gapless(a));
  }

  /** Reads that could not say whether the child runs, and so returned nothing. */
  ghost predicate FailedBetween(attempts: seq<Attempt>, j: nat, k: nat) {
    j < k < |attempts| && forall i :: j < i < k ==> !attempts[i].delivered
  }

  ghost predicate TookNothing(attempts: seq<Attempt>, j: nat, k: nat)
    requires k <= |attempts|
  {
    forall i :: j < i < k ==> attempts[i].content == [] && !attempts[i].truncated
  }

  lemma {:induction false} GapAcross(stream: seq<Byte>, attempts: seq<Attempt>, j: nat, k: nat)
    requires j < k < |attempts| && forall i: nat :: i < |attempts| ==> InPlace(stream, attempts, i)
    ensures End(attempts[j]) <= EndBefore(attempts, k)
    ensures End(attempts[j]) == EndBefore(attempts, k) <==> TookNothing(attempts, j, k)
  {
    if j + 1 < k {
      GapAcross(stream, attempts, j, k - 1);
      assert InPlace(stream, attempts, k - 1);
      assert TookNothing(attempts, j, k) <==>
          && TookNothing(attempts, j, k - 1)
          && attempts[k - 1].content == [] && !attempts[k - 1].truncated;
    }
  }

  /**
   Between two outputs a caller receives, with only failed reads in between, the
   mark is right if and only if it is set or those reads took nothing: bytes
   drained by a failed read, and a mark it cleared, are lost in silence.
   */
  lemma {:induction false} MarkBetweenOutputs(ops: seq<Op>, j: nat, k: nat)
    requires FailedBetween(Attempts(ops), j, k)
    ensures var a := Attempts(ops);
      (a[k].truncated <==> End(a[j]) < a[k].start) <==> a[k].truncated || TookNothing(a, j, k)
  {
    EveryRunFaithful(ops);
    var a := Attempts(ops);
    GapAcross(Printed(ops), a, j, k);
    assert InPlace(Printed(ops), a, k);
  }

  lemma {:induction false} OneMore(ops: seq<Op>, op: Op)
    ensures Printed(ops + [op]) == if op.Write? then Printed(ops) + op.chunk else Printed(ops)
    ensures After(ops + [op]) == if op.Write? then Written(After(ops), op.chunk) else Drained(After(ops))
    ensures Attempts(ops + [op])
      == if op.Write? then Attempts(ops)
         else Attempts(ops)
              + [Attempt(Max(Front(ops), 0), Taken(After(ops)), After(ops).dropped, op.running.Some?)]
  {
    assert (ops + [op])[..|ops|] == ops;
  }

  /** One byte printed, a failed read, another read: the byte is gone and nothing says so. */
  lemma FailedReadLosesBytes()
    ensures var ops := [Read(Some(true))] + [Write([65])] + [Read(None)] + [Read(Some(true))];
      && Printed(ops) == [65]
      && After(ops) == EMPTY
      && var a := Attempts(ops);
      && |a| == 3 && FailedBetween(a, 0, 2)
      && a[2].content == [] && !a[2].truncated && End(a[0]) < a[2].start
  {
    var r, w, f := Read(Some(true)), Write([65]), Read(None);
    assert Printed([]) == [] && After([]) == EMPTY && Attempts([]) == [] && [] + [r] == [r];
    hide Printed, After, Attempts;
    OneMore([], r);
    assert After([r]) == EMPTY && Attempts([r]) == [Attempt(0, [], false, true)];
    OneMore([r], w);
    assert After([r] + [w]) == Buffered([65], false) && Printed([r] + [w]) == [65];
    OneMore([r] + [w], f);
    assert Taken(Buffered([65], false)) == [65] && Front([r] + [w]) == 0;
    assert After([r] + [w] + [f]) == EMPTY;
    assert Attempts([r] + [w] + [f]) == [Attempt(0, [], false, true), Attempt(0, [65], false, false)];
    OneMore([r] + [w] + [f], r);
  }
}
