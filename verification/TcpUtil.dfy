/** read_fully and write_fully: the loops over partial transfers, on arrays and as step machines. */
module TcpUtil {
  import opened IoStatus

  newtype Byte = x: int | 0 <= x < 256

  /** What a socket operation may do: move up to `limit` bytes (none at all included), or fail. */
  type Failure = s: Status | IO_OK < s <= IO_ESOCKTNOSUPPORT witness IO_EOF
  datatype Answer = Moves(limit: nat) | Fails(error: Failure)

  function Min(a: nat, b: nat): nat { if a <= b then a else b }

  /** The result of one operation on a window of the given size, with `avail` bytes to move. One operation
      moves at most an int32 count. */
  function Reply(a: Answer, window: nat, avail: nat): (op: IOResult)
    ensures op.Success() ==> op.value as int <= window && op.value as int <= avail
  {
    match a
    case Fails(e) => IOResult.FromStatus(e)
    case Moves(limit) => IOResult.Of(IO_OK, Min(Min(limit, INT32_MAX), Min(window, avail)) as int32)
  }

  /** The bytes an operation moved. */
  function Count(op: IOResult): nat {
    if op.Success() then op.value as int else 0
  }

  /** Why a loop returned: the window is exhausted, an operation moved nothing, an operation failed. */
  datatype Cause = Full | NoTransfer | SocketError

  datatype Phase = Ready | Waiting | Answered(op: IOResult) | Finished(r: IOResult, why: Cause)

  /** One call: `moved` bytes of its `size` are behind the window. */
  datatype Loop = Loop(size: nat, moved: nat, phase: Phase)

  function Begin(size: nat): Loop {
    Loop(size, 0, if size == 0 then Finished(IOResult.Of(IO_OK, 0), Full) else Ready)
  }

  /** The loop body, once its operation has been answered. */
  function Advance(l: Loop, op: IOResult): Loop {
    if !op.Success() then l.(phase := Finished(op, SocketError))
    else if op.Result() == 0 then l.(phase := Finished(IOResult.FromStatus(IO_EOF), NoTransfer))
    else if op.Result() as int == l.size - l.moved then
      Loop(l.size, l.size, Finished(IOResult.Of(IO_OK, ToInt32(l.size)), Full))
    else Loop(l.size, l.moved + Count(op), Ready)
  }

  predicate Between(l: Loop) {
    (l.phase.Ready? && l.moved < l.size) || (l.phase.Finished? && l.moved <= l.size)
  }

  datatype Run = Run(loop: Loop, calls: nat)

  /** The loop against a socket that answers its k-th operation with answers(k). */
  function Drive(l: Loop, answers: nat -> Answer, k: nat, avail: nat): Run
    requires Between(l)
    decreases if l.phase.Finished? then 0 else 1 + l.size - l.moved
  {
    if l.phase.Finished? then Run(l, k) else
      var op := Reply(answers(k), l.size - l.moved, avail);
      Drive(Advance(l, op), answers, k + 1, avail - Count(op))
  }

  /** n bytes were received into a buffer at lo; nothing else in it changed. */
  predicate Received(lo: nat, n: nat, b: seq<Byte>, incoming: seq<Byte>, b': seq<Byte>, rest: seq<Byte>) {
    && lo + n <= |b| && n <= |incoming|
    && b' == b[..lo] + incoming[..n] + b[lo + n..] && rest == incoming[n..]
  }

  class SocketTCP {
    const answers: nat -> Answer
    var calls: nat
    var incoming: seq<Byte>
    var sent: seq<Byte>

    constructor (answers: nat -> Answer, incoming: seq<Byte>)
      ensures this.answers == answers && calls == 0 && this.incoming == incoming && sent == []
    {
      this.answers, this.incoming := answers, incoming;
      calls, sent := 0, [];
    }

    /** recv into buffer[lo..hi]. */
    method Read(buffer: array<Byte>, lo: nat, hi: nat) returns (op: IOResult)
      requires lo <= hi <= buffer.Length
      modifies this`calls, this`incoming, buffer
      ensures Count(op) <= hi - lo && Count(op) <= |old(incoming)|
      ensures op == Reply(answers(old(calls)), hi - lo, |old(incoming)|) && calls == old(calls) + 1
      ensures Received(lo, Count(op), old(buffer[..]), old(incoming), buffer[..], incoming)
    {
      op := Reply(answers(calls), hi - lo, |incoming|);
      var n := Count(op);
      forall i | lo <= i < lo + n {
        buffer[i] := incoming[i - lo];
      }
      incoming := incoming[n..];
      calls := calls + 1;
    }

    /** send from buffer[lo..hi]. */
    method Write(buffer: array<Byte>, lo: nat, hi: nat) returns (op: IOResult)
      requires lo <= hi <= buffer.Length
      modifies this`calls, this`sent
      ensures Count(op) <= hi - lo
      ensures op == Reply(answers(old(calls)), hi - lo, hi - lo) && calls == old(calls) + 1
      ensures sent == old(sent) + buffer[..][lo..lo + Count(op)]
    {
      op := Reply(answers(calls), hi - lo, hi - lo);
      sent := sent + buffer[..][lo..lo + Count(op)];
      calls := calls + 1;
    }
  }

  /** One turn of the loop. */
  lemma DriveStep(l: Loop, answers: nat -> Answer, k: nat, avail: nat, op: IOResult) returns (l': Loop, rest: nat)
    requires Between(l) && l.phase.Ready? && op == Reply(answers(k), l.size - l.moved, avail)
    ensures l' == Advance(l, op) && Between(l') && rest == avail - Count(op) && l.moved <= l'.moved
    ensures Drive(l, answers, k, avail) == if l'.phase.Finished? then Run(l', k + 1) else Drive(l', answers, k + 1, rest)
    ensures l'.phase.Ready? ==> l'.moved == l.moved + Count(op) && 0 < Count(op) && l'.size == l.size
  {
    l', rest := Advance(l, op), avail - Count(op);
  }

  /** The buffer after m bytes of the stream were read into it, and the stream that is left. */
  predicate HasRead(m: nat, stream: seq<Byte>, was: seq<Byte>, buffer: seq<Byte>, rest: seq<Byte>) {
    m <= |was| && m <= |stream| && buffer == stream[..m] + was[m..] && rest == stream[m..]
  }

  /** The stream after the first m bytes of the data were sent. */
  predicate HasSent(m: nat, data: seq<Byte>, before: seq<Byte>, after: seq<Byte>) {
    m <= |data| && after == before + data[..m]
  }

  /** A window read behind the first lo bytes extends the filled prefix. */
  lemma ReadStep(lo: nat, n: nat, stream: seq<Byte>, was: seq<Byte>, b: seq<Byte>, rest: seq<Byte>, b': seq<Byte>,
                 rest': seq<Byte>)
    requires HasRead(lo, stream, was, b, rest) && Received(lo, n, b, rest, b', rest')
    ensures HasRead(lo + n, stream, was, b', rest') && |rest'| == |rest| - n
  {}

  lemma SendStep(lo: nat, n: nat, data: seq<Byte>, before: seq<Byte>, sent: seq<Byte>)
    requires HasSent(lo, data, before, sent) && lo + n <= |data|
    ensures HasSent(lo + n, data, before, sent + data[lo..lo + n])
  {
    assert data[..lo] + data[lo..lo + n] == data[..lo + n];
  }

  predicate Returns(run: Run, r: IOResult, calls: nat) {
    run.loop.phase.Finished? && r == run.loop.phase.r && calls == run.calls
  }

  /** The loop has moved lo bytes, has made its operations up to k, and will go on to end as `run`. */
  predicate InLoop(lo: nat, size: nat, answers: nat -> Answer, k: nat, avail: nat, run: Run) {
    lo < size && Drive(Loop(size, lo, Ready), answers, k, avail) == run
  }

  /** What an answer means for a loop that had moved lo bytes: it fails, finds nothing, is complete, or
      goes on with a smaller window. `k` and `avail` are those after the answer. */
  predicate TurnOf(lo: nat, size: nat, answers: nat -> Answer, k: nat, avail: nat, run: Run, op: IOResult) {
    && lo + Count(op) <= size
    && (!op.Success() ==> Returns(run, op, k) && run.loop.moved == lo)
    && (op.Success() && op.Result() == 0 ==> Returns(run, IOResult.FromStatus(IO_EOF), k) && run.loop.moved == lo)
    && (op.Success() && op.Result() as int == size - lo ==>
          Returns(run, IOResult.Of(IO_OK, ToInt32(size)), k) && run.loop.moved == size)
    && (op.Success() && 0 < op.Result() as int && op.Result() as int != size - lo ==>
          InLoop(lo + Count(op), size, answers, k, avail, run))
  }

  lemma Turn(lo: nat, size: nat, answers: nat -> Answer, k: nat, avail: nat, run: Run, op: IOResult)
    requires InLoop(lo, size, answers, k, avail, run) && op == Reply(answers(k), size - lo, avail)
    ensures Count(op) <= avail && TurnOf(lo, size, answers, k + 1, avail - Count(op), run, op)
  {
    var l', rest := DriveStep(Loop(size, lo, Ready), answers, k, avail, op);
  }

  /** One co_await of read_fully, and what its answer means. */
  method ReadTurn(s: SocketTCP, buffer: array<Byte>, lo: nat, ghost stream: seq<Byte>, ghost was: seq<Byte>,
                  ghost run: Run) returns (op: IOResult)
    requires lo <= buffer.Length && HasRead(lo, stream, was, buffer[..], s.incoming)
    requires InLoop(lo, buffer.Length, s.answers, s.calls, |s.incoming|, run)
    modifies s`calls, s`incoming, buffer
    ensures HasRead(lo + Count(op), stream, was, buffer[..], s.incoming)
    ensures TurnOf(lo, buffer.Length, s.answers, s.calls, |s.incoming|, run, op)
  {
    hide InLoop, HasRead, Received, Reply, TurnOf;
    ghost var k, rest, before := s.calls, s.incoming, buffer[..];
    op := s.Read(buffer, lo, buffer.Length);
    ReadStep(lo, Count(op), stream, was, before, rest, buffer[..], s.incoming);
    Turn(lo, buffer.Length, s.answers, k, |rest|, run, op);
  }

  /** However the socket behaves: the filled part of the buffer is exactly the consumed prefix of the
      stream, the rest of the buffer is untouched, and the result is the loop's. */
  method ReadFully(s: SocketTCP, buffer: array<Byte>) returns (r: IOResult)
    modifies s`calls, s`incoming, buffer
    ensures var run := Drive(Begin(buffer.Length), s.answers, old(s.calls), |old(s.incoming)|);
            && Returns(run, r, s.calls)
            && HasRead(run.loop.moved, old(s.incoming), old(buffer[..]), buffer[..], s.incoming)
  {
    ghost var stream, was, k0, size := s.incoming, buffer[..], s.calls, buffer.Length;
    ghost var run := Drive(Begin(size), s.answers, k0, |stream|);
    assert HasRead(0, stream, was, buffer[..], s.incoming);
    if buffer.Length == 0 {
      return IOResult.Of(IO_OK, 0);
    }
    assert InLoop(0, size, s.answers, k0, |stream|, run);
    hide Drive, Begin, Reply, InLoop, HasRead, Received, Returns, ToInt32, IOResult.Of, IOResult.FromStatus;
    var lo := 0;
    while true
      invariant lo < buffer.Length && HasRead(lo, stream, was, buffer[..], s.incoming)
      invariant InLoop(lo, size, s.answers, s.calls, |s.incoming|, run)
      decreases buffer.Length - lo
    {
      var op := ReadTurn(s, buffer, lo, stream, was, run);
      if op.Success() {
        var done := op.Result();
        if done == 0 {
          return IOResult.FromStatus(IO_EOF);
        }
        if done as int == buffer.Length - lo {
          return IOResult.Of(IO_OK, ToInt32(buffer.Length));
        }
        lo := lo + done as int;
      } else {
        return op;
      }
    }
  }

  /** Dually: exactly the prefix of the buffer that the loop moved has been sent. */
  method WriteFully(s: SocketTCP, buffer: array<Byte>) returns (r: IOResult)
    modifies s`calls, s`sent
    ensures var run := Drive(Begin(buffer.Length), s.answers, old(s.calls), buffer.Length);
            Returns(run, r, s.calls) && HasSent(run.loop.moved, buffer[..], old(s.sent), s.sent)
  {
    ghost var was, data, k0, size := s.sent, buffer[..], s.calls, buffer.Length;
    ghost var run := Drive(Begin(size), s.answers, k0, size);
    assert HasSent(0, data, was, s.sent);
    if buffer.Length == 0 {
      return IOResult.Of(IO_OK, 0);
    }
    assert InLoop(0, size, s.answers, k0, size, run);
    hide Drive, Begin, Reply, InLoop, HasSent, Returns, ToInt32, IOResult.Of, IOResult.FromStatus;
    var lo := 0;
    while true
      invariant lo < buffer.Length && HasSent(lo, data, was, s.sent)
      invariant InLoop(lo, size, s.answers, s.calls, size - lo, run)
      decreases buffer.Length - lo
    {
      ghost var k, sent := s.calls, s.sent;
      var op := s.Write(buffer, lo, buffer.Length);
      SendStep(lo, Count(op), data, was, sent);
      Turn(lo, size, s.answers, k, size - lo, run, op);
      if op.Success() {
        var done := op.Result();
        if done == 0 {
          return IOResult.FromStatus(IO_EOF);
        }
        if done as int == buffer.Length - lo {
          return IOResult.Of(IO_OK, ToInt32(buffer.Length));
        }
        lo := lo + done as int;
      } else {
        return op;
      }
    }
  }

  lemma {:induction false} DriveFinishes(l: Loop, answers: nat -> Answer, k: nat, avail: nat)
    requires Between(l)
    ensures var run := Drive(l, answers, k, avail);
            && run.loop.phase.Finished? && run.loop.size == l.size
            && l.moved <= run.loop.moved <= l.size && run.loop.moved - l.moved <= avail
            && k <= run.calls <= k + 1 + (l.size - l.moved)
    decreases l.size - l.moved, !l.phase.Finished?
  {
    if l.phase.Ready? {
      var op := Reply(answers(k), l.size - l.moved, avail);
      DriveFinishes(Advance(l, op), answers, k + 1, avail - Count(op));
    }
  }

  /** The operation that ended a loop: how it was answered, with the window and the supply it saw. */
  ghost predicate EndedBy(run: Run, why: Cause, answers: nat -> Answer, avail: nat, start: nat) {
    run.calls > 0 && start <= run.loop.moved <= run.loop.size && run.loop.moved - start <= avail &&
    var op := Reply(answers(run.calls - 1), run.loop.size - run.loop.moved, avail - (run.loop.moved - start));
    match why
    case Full => false
    case NoTransfer => op.Success() && op.Result() == 0
    case SocketError => !op.Success() && run.loop.phase == Finished(op, SocketError)
  }

  /** Why the loop ended, what that says about the bytes moved, and what it returned. */
  ghost predicate EndsFor(run: Run, size: nat, answers: nat -> Answer, avail: nat, start: nat) {
    && run.loop.phase.Finished? && run.loop.size == size
    && (run.loop.phase.why.Full? <==> run.loop.moved == size)
    && (run.loop.phase.why.Full? ==> run.loop.phase.r == IOResult.Of(IO_OK, ToInt32(size)))
    && (run.loop.phase.why.NoTransfer? ==> run.loop.phase.r == IOResult.FromStatus(IO_EOF))
    && (!run.loop.phase.why.Full? ==> EndedBy(run, run.loop.phase.why, answers, avail, start))
  }

  lemma {:induction false} DriveEndsFor(l: Loop, answers: nat -> Answer, k: nat, avail: nat)
    requires Between(l) && l.phase.Ready?
    ensures EndsFor(Drive(l, answers, k, avail), l.size, answers, avail, l.moved)
    decreases l.size - l.moved
  {
    var op := Reply(answers(k), l.size - l.moved, avail);
    var l', rest := DriveStep(l, answers, k, avail, op);
    hide Drive, Reply, ToInt32, IOResult.Of, IOResult.FromStatus;
    if l'.phase.Ready? {
      DriveEndsFor(l', answers, k + 1, rest);
      hide Advance;
    }
  }

  /** The outcome of read_fully and write_fully, for every socket behaviour. The whole buffer is moved
      exactly when the loop ends full; the loop's own IO_EOF comes only after an operation that moved
      nothing; and a failed operation's result is returned unchanged. */
  lemma OutcomeOfFully(size: nat, answers: nat -> Answer, k: nat, avail: nat)
    requires size > 0
    ensures EndsFor(Drive(Begin(size), answers, k, avail), size, answers, avail, 0)
  {
    DriveEndsFor(Begin(size), answers, k, avail);
  }

  /** Success means the whole buffer; and for a buffer that was moved whole, success with the buffer's
      size as result is exactly that the size is below 2^31. At 2^31 the narrowed size reads as failure. */
  lemma SuccessIffWholeBuffer(size: nat, answers: nat -> Answer, k: nat, avail: nat)
    ensures var run := Drive(Begin(size), answers, k, avail);
            run.loop.phase.Finished? &&
            var r := run.loop.phase.r;
            && (r.Success() ==> run.loop.moved == size)
            && (run.loop.moved == size ==>
                  ((r.Success() && r.Result() as int == size) <==> size <= INT32_MAX))
            && (run.loop.moved == size == 0x8000_0000 ==> !r.Success())
  {
    NarrowingIsExactIff(size);
    if size > 0 {
      OutcomeOfFully(size, answers, k, avail);
    }
  }
}
