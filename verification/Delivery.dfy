/** End-to-end delivery: a sequence of write_fully calls on one end of a bounded FIFO channel, a sequence
    of read_fully calls on the other, every interleaving of their operations with any partial transfers.

    Each side is a coroutine: it issues an operation for its window and suspends; the kernel answers by
    moving some bytes; the coroutine resumes, runs the loop body, and issues again or returns. At most one
    operation per side is ever outstanding, as each is awaited before the next. */
module Delivery {
  import opened IoStatus
  import opened TcpUtil

  /** A side: the sizes of its calls, the results of those that returned, and the current call. */
  datatype Side = Side(sizes: seq<nat>, results: seq<IOResult>, loop: Loop)

  /** `sent` and `filled` are the bytes that each returned call has moved, `now` and `part` those that the current
      call has. */
  datatype State = State(
    cap: nat, chan: seq<Byte>,
    out: Side, buffers: seq<seq<Byte>>, sent: seq<seq<Byte>>, now: seq<Byte>,
    inp: Side, filled: seq<seq<Byte>>, part: seq<Byte>)

  datatype Label =
    | SendIssue | SendMove(n: nat) | SendFail(op: IOResult) | SendResume | SendReturn
    | RecvIssue | RecvMove(n: nat) | RecvFail(op: IOResult) | RecvResume | RecvReturn

  predicate Active(d: Side) { |d.results| < |d.sizes| }

  predicate AllReturned(d: Side) { |d.results| == |d.sizes| }

  function Window(d: Side): int { d.loop.size - d.loop.moved }

  /** The call after k returned ones. */
  function Call(sizes: seq<nat>, k: nat): Loop {
    Begin(if k < |sizes| then sizes[k] else 0)
  }

  function Start(sizes: seq<nat>): Side { Side(sizes, [], Call(sizes, 0)) }

  function Sizes(buffers: seq<seq<Byte>>): seq<nat> { seq(|buffers|, i requires 0 <= i < |buffers| => |buffers[i]|) }

  function Init(cap: nat, buffers: seq<seq<Byte>>, sizes: seq<nat>): State {
    State(cap, [], Start(Sizes(buffers)), buffers, [], [], Start(sizes), [], [])
  }

  predicate CanIssue(d: Side) { Active(d) && d.loop.phase.Ready? }
  predicate CanMove(d: Side, n: nat, room: int) {
    Active(d) && d.loop.phase.Waiting? && 0 < n <= Window(d) && n <= room && n <= INT32_MAX
  }
  predicate CanFail(d: Side, op: IOResult) { Active(d) && d.loop.phase.Waiting? && (op.Success() ==> op.Result() == 0) }
  predicate CanResume(d: Side) { Active(d) && d.loop.phase.Answered? }
  predicate CanReturn(d: Side) { Active(d) && d.loop.phase.Finished? }

  function WithPhase(d: Side, p: Phase): Side { d.(loop := d.loop.(phase := p)) }

  function Moved(n: nat): IOResult
    requires n <= INT32_MAX
  {
    IOResult.Of(IO_OK, n as int32)
  }

  function Resumed(d: Side): Side
    requires CanResume(d)
  {
    d.(loop := Advance(d.loop, d.loop.phase.op))
  }

  function Returned(d: Side): Side
    requires CanReturn(d)
  {
    Side(d.sizes, d.results + [d.loop.phase.r], Call(d.sizes, |d.results| + 1))
  }

  predicate Enabled(s: State, l: Label) {
    match l
    case SendIssue => CanIssue(s.out)
    case SendMove(n) => CanMove(s.out, n, s.cap - |s.chan|) && InBuffer(s, n)
    case SendFail(op) => CanFail(s.out, op)
    case SendResume => CanResume(s.out)
    case SendReturn => CanReturn(s.out)
    case RecvIssue => CanIssue(s.inp)
    case RecvMove(n) => CanMove(s.inp, n, |s.chan|)
    case RecvFail(op) => CanFail(s.inp, op)
    case RecvResume => CanResume(s.inp)
    case RecvReturn => CanReturn(s.inp)
  }

  predicate InBuffer(s: State, n: nat) {
    |s.out.results| < |s.buffers| && s.out.loop.moved + n <= |s.buffers[|s.out.results|]|
  }

  function Next(s: State, l: Label): State
    requires Enabled(s, l)
  {
    match l
    case SendIssue => s.(out := WithPhase(s.out, Waiting))
    case SendMove(n) =>
      var bytes := s.buffers[|s.out.results|][s.out.loop.moved..s.out.loop.moved + n];
      s.(out := WithPhase(s.out, Answered(Moved(n))), chan := s.chan + bytes, now := s.now + bytes)
    case SendFail(op) => s.(out := WithPhase(s.out, Answered(op)))
    case SendResume => s.(out := Resumed(s.out))
    case SendReturn => s.(out := Returned(s.out), sent := s.sent + [s.now], now := [])
    case RecvIssue => s.(inp := WithPhase(s.inp, Waiting))
    case RecvMove(n) =>
      s.(inp := WithPhase(s.inp, Answered(Moved(n))), chan := s.chan[n..], part := s.part + s.chan[..n])
    case RecvFail(op) => s.(inp := WithPhase(s.inp, Answered(op)))
    case RecvResume => s.(inp := Resumed(s.inp))
    case RecvReturn => s.(inp := Returned(s.inp), filled := s.filled + [s.part], part := [])
  }

  ghost predicate Runs(s: State, ls: seq<Label>)
    decreases |ls|
  {
    ls == [] || (Enabled(s, ls[0]) && Runs(Next(s, ls[0]), ls[1..]))
  }

  ghost function End(s: State, ls: seq<Label>): State
    requires Runs(s, ls)
    decreases |ls|
  {
    if ls == [] then s else End(Next(s, ls[0]), ls[1..])
  }

  predicate Clean(l: Label) { !l.SendFail? && !l.RecvFail? }

  /* Sums and concatenations. */

  function Sum(ns: seq<nat>): nat {
    if ns == [] then 0 else Sum(ns[..|ns| - 1]) + ns[|ns| - 1]
  }

  function Concat(bs: seq<seq<Byte>>): seq<Byte> {
    if bs == [] then [] else Concat(bs[..|bs| - 1]) + bs[|bs| - 1]
  }

  lemma SumNext(ns: seq<nat>, k: nat)
    requires k < |ns|
    ensures Sum(ns[..k + 1]) == Sum(ns[..k]) + ns[k]
  {
    assert ns[..k + 1][..k] == ns[..k];
  }

  lemma {:induction false} SumPrefix(ns: seq<nat>, k: nat)
    requires k <= |ns|
    ensures Sum(ns[..k]) <= Sum(ns)
    decreases |ns| - k
  {
    if k < |ns| {
      SumNext(ns, k);
      SumPrefix(ns, k + 1);
    } else {
      assert ns[..k] == ns;
    }
  }

  lemma ConcatNext(bs: seq<seq<Byte>>, b: seq<Byte>)
    ensures Concat(bs + [b]) == Concat(bs) + b
  {
    assert (bs + [b])[..|bs|] == bs;
  }

  lemma {:induction false} ConcatLength(bs: seq<seq<Byte>>, k: nat)
    requires k <= |bs|
    ensures |Concat(bs[..k])| == Sum(Sizes(bs)[..k])
  {
    if k > 0 {
      ConcatLength(bs, k - 1);
      assert bs[..k] == bs[..k - 1] + [bs[k - 1]];
      ConcatNext(bs[..k - 1], bs[k - 1]);
      SumNext(Sizes(bs), k - 1);
    }
  }

  /** Buffer k sits in the concatenation right behind the buffers before it. */
  lemma {:induction false} ConcatPrefix(bs: seq<seq<Byte>>, k: nat)
    requires k <= |bs|
    ensures Concat(bs[..k]) <= Concat(bs)
    decreases |bs| - k
  {
    if k < |bs| {
      assert bs[..k + 1] == bs[..k] + [bs[k]];
      ConcatNext(bs[..k], bs[k]);
      ConcatPrefix(bs, k + 1);
    } else {
      assert bs[..k] == bs;
    }
  }

  lemma ExtendPrefix(c: seq<Byte>, p: seq<Byte>, b: seq<Byte>, m: nat, n: nat)
    requires p + b <= c && m + n <= |b|
    ensures |p| + m + n <= |c| && c[..|p| + m] + b[m..m + n] == c[..|p| + m + n]
  {
    assert forall i :: 0 <= i < |b| ==> (p + b)[|p| + i] == b[i];
  }

  lemma WindowOfStream(bs: seq<seq<Byte>>, k: nat, m: nat, n: nat)
    requires k < |bs| && m + n <= |bs[k]|
    ensures var at := Sum(Sizes(bs)[..k]) + m;
            at + n <= |Concat(bs)| && Concat(bs)[..at] + bs[k][m..m + n] == Concat(bs)[..at + n]
  {
    ConcatLength(bs, k);
    assert bs[..k + 1] == bs[..k] + [bs[k]];
    ConcatNext(bs[..k], bs[k]);
    ConcatPrefix(bs, k + 1);
    hide Concat, Sum, Sizes;
    ExtendPrefix(Concat(bs), Concat(bs[..k]), bs[k], m, n);
  }

  /* One side. */

  /** The bytes the kernel has moved for the current call; the coroutine may not know of the last ones. */
  function Behind(l: Loop): nat {
    l.moved + if l.phase.Answered? then Count(l.phase.op) else 0
  }

  predicate LoopShape(l: Loop) {
    && l.moved <= l.size
    && (!l.phase.Finished? ==> l.moved < l.size)
    && (l.phase.Answered? ==> l.moved + Count(l.phase.op) <= l.size)
  }

  predicate SideShape(d: Side) {
    && |d.results| <= |d.sizes|
    && LoopShape(d.loop)
    && (Active(d) ==> d.loop.size == d.sizes[|d.results|])
    && (!Active(d) ==> d.loop == Begin(0))
  }

  /** No operation of this side has failed or moved nothing. */
  predicate SideClean(d: Side) {
    && (forall i :: 0 <= i < |d.results| && i < |d.sizes| ==> d.results[i] == IOResult.Of(IO_OK, ToInt32(d.sizes[i])))
    && (d.loop.phase.Answered? ==> Count(d.loop.phase.op) > 0)
    && (d.loop.phase.Finished? ==>
          d.loop.moved == d.loop.size && d.loop.phase.r == IOResult.Of(IO_OK, ToInt32(d.loop.size)))
  }

  /** All the bytes the kernel has moved for a side. */
  function Position(d: Side): nat
    requires SideShape(d)
  {
    Sum(d.sizes[..|d.results|]) + Behind(d.loop)
  }

  /** Steps left for a loop, and for a side. */
  function LoopWork(l: Loop): int {
    match l.phase
    case Ready => 3 * (l.size - l.moved) + 1
    case Waiting => 3 * (l.size - l.moved)
    case Answered(_) => 3 * (l.size - l.moved) - 1
    case Finished(_, _) => 1
  }

  function SideWork(d: Side): int {
    if !Active(d) then 0
    else LoopWork(d.loop) + 3 * (Sum(d.sizes) - Sum(d.sizes[..|d.results| + 1])) + |d.sizes| - |d.results| - 1
  }

  /* What a call's result says about the bytes it moved. */

  /** What a loop makes of an operation that failed or moved nothing. */
  function EndOf(op: IOResult): IOResult {
    if op.Success() then IOResult.FromStatus(IO_EOF) else op
  }

  /** A call of the given size that moved n bytes and returned r: either all of them, or fewer, and then because of
      one of the operations that failed or moved nothing. */
  ghost predicate CallEnded(size: nat, n: nat, r: IOResult, fails: iset<IOResult>) {
    || (n == size && r == IOResult.Of(IO_OK, ToInt32(size)))
    || (n < size && exists op :: op in fails && r == EndOf(op))
  }

  ghost predicate SideAccounted(d: Side, parts: seq<seq<Byte>>, fails: iset<IOResult>)
    requires SideShape(d) && |parts| == |d.results|
  {
    && (forall i :: 0 <= i < |d.results| ==> CallEnded(d.sizes[i], |parts[i]|, d.results[i], fails))
    && (d.loop.phase.Finished? ==> CallEnded(d.loop.size, Behind(d.loop), d.loop.phase.r, fails))
    && (d.loop.phase.Answered? ==> Count(d.loop.phase.op) > 0 || d.loop.phase.op in fails)
  }

  lemma CallEndedGrows(size: nat, n: nat, r: IOResult, fails: iset<IOResult>, fails': iset<IOResult>)
    requires CallEnded(size, n, r, fails) && fails <= fails'
    ensures CallEnded(size, n, r, fails')
  {}

  lemma AccountedGrows(d: Side, parts: seq<seq<Byte>>, fails: iset<IOResult>, fails': iset<IOResult>)
    requires SideShape(d) && |parts| == |d.results| && SideAccounted(d, parts, fails) && fails <= fails'
    ensures SideAccounted(d, parts, fails')
  {
    hide CallEnded;
    forall i | 0 <= i < |d.results| ensures CallEnded(d.sizes[i], |parts[i]|, d.results[i], fails') {
      CallEndedGrows(d.sizes[i], |parts[i]|, d.results[i], fails, fails');
    }
    if d.loop.phase.Finished? {
      CallEndedGrows(d.loop.size, Behind(d.loop), d.loop.phase.r, fails, fails');
    }
  }

  lemma AccountedPhase(d: Side, p: Phase, parts: seq<seq<Byte>>, fails: iset<IOResult>)
    requires SideShape(d) && SideShape(WithPhase(d, p)) && |parts| == |d.results| && SideAccounted(d, parts, fails)
    requires p.Waiting? || (p.Answered? && (Count(p.op) > 0 || p.op in fails))
    ensures SideAccounted(WithPhase(d, p), parts, fails)
  {
    hide CallEnded, SideShape;
  }

  lemma AccountedResume(d: Side, parts: seq<seq<Byte>>, fails: iset<IOResult>)
    requires SideShape(d) && CanResume(d) && SideShape(Resumed(d)) && |parts| == |d.results| && SideAccounted(d, parts, fails)
    ensures SideAccounted(Resumed(d), parts, fails)
  {
    var l, op := d.loop, d.loop.phase.op;
    assert op in fails ==> EndOf(op) == EndOf(op);
    hide ToInt32;
  }

  lemma AccountedReturn(d: Side, parts: seq<seq<Byte>>, part: seq<Byte>, fails: iset<IOResult>)
    requires SideShape(d) && CanReturn(d) && SideShape(Returned(d)) && |parts| == |d.results|
    requires SideAccounted(d, parts, fails) && |part| == Behind(d.loop)
    ensures SideAccounted(Returned(d), parts + [part], fails)
  {
    assert CallEnded(0, 0, IOResult.Of(IO_OK, 0), fails);
    hide ToInt32;
  }

  lemma StartIsFine(sizes: seq<nat>)
    ensures SideShape(Start(sizes)) && SideClean(Start(sizes)) && Position(Start(sizes)) == 0
  {}

  lemma PhaseStep(d: Side, p: Phase)
    requires SideShape(d) && Active(d) && !d.loop.phase.Finished?
    requires p.Waiting? || (p.Answered? && Count(p.op) <= Window(d))
    requires d.loop.phase.Ready? || d.loop.phase.Waiting?
    ensures var d' := WithPhase(d, p);
            && SideShape(d')
            && (SideClean(d) && (p.Answered? ==> Count(p.op) > 0) ==> SideClean(d'))
            && Position(d') == Position(d) + (if p.Answered? then Count(p.op) else 0)
            && SideWork(d') == SideWork(d) - LoopWork(d.loop) + LoopWork(d'.loop)
  {}

  lemma ResumeStep(d: Side)
    requires SideShape(d) && CanResume(d)
    ensures var d' := Resumed(d);
            && SideShape(d') && (SideClean(d) ==> SideClean(d')) && Position(d') == Position(d)
            && SideWork(d') < SideWork(d)
  {
    hide Sum;
    var l, l' := d.loop, Resumed(d).loop;
    assert l'.size == l.size && Behind(l') == Behind(l) && LoopWork(l') < LoopWork(l);
  }

  lemma {:induction false} ReturnStep(d: Side)
    requires SideShape(d) && CanReturn(d)
    ensures var d' := Returned(d);
            && SideShape(d') && SideWork(d') < SideWork(d)
            && (SideClean(d) ==> SideClean(d') && Position(d') == Position(d))
  {
    var k, d' := |d.results|, Returned(d);
    SumNext(d.sizes, k);
    if k + 1 < |d.sizes| {
      SumNext(d.sizes, k + 1);
    } else {
      assert d.sizes[..k + 1] == d.sizes;
    }
    SumPrefix(d.sizes, k + 1);
  }
}
