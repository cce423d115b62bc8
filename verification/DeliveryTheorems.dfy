/** What every run of the two ends delivers. */
module DeliveryTheorems {
  import opened IoStatus
  import opened TcpUtil
  import opened Delivery

  /** The bytes that have reached the reader's buffers. */
  function Received(s: State): seq<Byte> { Concat(s.filled) + s.part }

  /** The bytes that have left the writer's buffers. */
  function Sent(s: State): seq<Byte> { Concat(s.sent) + s.now }

  /** Each call has sent the front of its own buffer. */
  ghost predicate SendsFronts(s: State) {
    && |s.sent| == |s.out.results|
    && (forall i :: 0 <= i < |s.sent| && i < |s.buffers| ==> s.sent[i] <= s.buffers[i])
    && |s.now| == Behind(s.out.loop)
    && (|s.out.results| < |s.buffers| ==> s.now <= s.buffers[|s.out.results|])
  }

  /** True of every run, failed operations included: the channel is a FIFO queue. */
  ghost predicate ShapeInv(s: State) {
    && SideShape(s.out) && SideShape(s.inp) && s.out.sizes == Sizes(s.buffers)
    && |s.chan| <= s.cap
    && SendsFronts(s) && Received(s) + s.chan == Sent(s)
    && |s.filled| == |s.inp.results| && |s.part| == Behind(s.inp.loop)
  }

  /** True while no operation has failed or moved nothing. */
  ghost predicate CleanInv(s: State)
    requires ShapeInv(s)
  {
    && SideClean(s.out) && SideClean(s.inp)
    && Position(s.out) <= |Concat(s.buffers)| && Sent(s) == Concat(s.buffers)[..Position(s.out)]
    && |Received(s)| == Position(s.inp)
    && (forall i :: 0 <= i < |s.filled| ==> |s.filled[i]| == s.inp.sizes[i])
  }

  function Work(s: State): int { SideWork(s.out) + SideWork(s.inp) }

  lemma InitIsFine(cap: nat, buffers: seq<seq<Byte>>, sizes: seq<nat>)
    ensures var s := Init(cap, buffers, sizes); ShapeInv(s) && CleanInv(s)
  {
    StartIsFine(Sizes(buffers));
    StartIsFine(sizes);
  }

  /** The sender's bytes are the next ones of the written stream. */
  lemma SendMoves(s: State, n: nat)
    requires ShapeInv(s) && Enabled(s, SendMove(n))
    ensures var s' := Next(s, SendMove(n));
            && ShapeInv(s') && Work(s') < Work(s) && (CleanInv(s) ==> CleanInv(s'))
  {
    hide Sum, Concat, SideShape, SideClean, SideWork;
    var s' := Next(s, SendMove(n));
    SideActive(s.out);
    PhaseStep(s.out, Answered(Moved(n)));
    var k, m := |s.out.results|, s.out.loop.moved;
    var bytes := s.buffers[k][m..m + n];
    assert Received(s') + s'.chan == Received(s) + s.chan + bytes;
    assert Sent(s') == Sent(s) + bytes;
    FrontGrows(s.buffers[k], s.now, m, n);
    if CleanInv(s) {
      WindowOfStream(s.buffers, k, m, n);
      assert Position(s.out) == Sum(Sizes(s.buffers)[..k]) + m;
    }
  }

  lemma FrontGrows(b: seq<Byte>, now: seq<Byte>, m: nat, n: nat)
    requires now <= b && |now| == m && m + n <= |b|
    ensures now + b[m..m + n] <= b
  {
    assert now == b[..m] && b[..m] + b[m..m + n] == b[..m + n];
  }

  lemma SendReturns(s: State)
    requires ShapeInv(s) && Enabled(s, SendReturn)
    ensures var s' := Next(s, SendReturn);
            && ShapeInv(s') && Work(s') < Work(s) && (CleanInv(s) ==> CleanInv(s'))
  {
    hide Sum, Concat, SideShape, SideClean, SideWork;
    var s' := Next(s, SendReturn);
    ReturnStep(s.out);
    ConcatNext(s.sent, s.now);
    assert Sent(s') == Sent(s);
    NewCallIsFresh(s.out.sizes, |s.out.results| + 1);
    assert [] <= s.buffers[|s.out.results|] && s.out.sizes == Sizes(s.buffers) by { SideActive(s.out); }
  }

  lemma NewCallIsFresh(sizes: seq<nat>, k: nat)
    ensures Behind(Delivery.Call(sizes, k)) == 0
  {}

  lemma SideActive(d: Side)
    requires SideShape(d) && Active(d)
    ensures d.loop.size == d.sizes[|d.results|] && LoopShape(d.loop)
  {}

  lemma RecvMoves(s: State, n: nat)
    requires ShapeInv(s) && Enabled(s, RecvMove(n))
    ensures var s' := Next(s, RecvMove(n));
            && ShapeInv(s') && Work(s') < Work(s) && (CleanInv(s) ==> CleanInv(s'))
  {
    hide Sum, Concat, SideShape, SideClean, SideWork;
    var s' := Next(s, RecvMove(n));
    SideActive(s.inp);
    PhaseStep(s.inp, Answered(Moved(n)));
    assert s.chan == s.chan[..n] + s.chan[n..];
    assert Received(s') == Received(s) + s.chan[..n];
    assert Received(s') + s'.chan == Received(s) + s.chan;
  }

  lemma RecvReturns(s: State)
    requires ShapeInv(s) && Enabled(s, RecvReturn)
    ensures var s' := Next(s, RecvReturn);
            && ShapeInv(s') && Work(s') < Work(s) && (CleanInv(s) ==> CleanInv(s'))
  {
    hide Sum, Concat, SideShape, SideClean, SideWork;
    var s' := Next(s, RecvReturn);
    ReturnStep(s.inp);
    SideActive(s.inp);
    ConcatNext(s.filled, s.part);
    assert Received(s') == Received(s);
    if CleanInv(s) {
      FinishedIsFull(s.inp);
    }
  }

  lemma FinishedIsFull(d: Side)
    requires SideClean(d) && d.loop.phase.Finished?
    ensures d.loop.moved == d.loop.size
  {}

  /** The steps that move no bytes and finish no call. */
  lemma QuietSteps(s: State, l: Label)
    requires ShapeInv(s) && Enabled(s, l) && !l.SendMove? && !l.RecvMove? && !l.RecvReturn? && !l.SendReturn?
    ensures ShapeInv(Next(s, l)) && Work(Next(s, l)) < Work(s)
    ensures Clean(l) && CleanInv(s) ==> CleanInv(Next(s, l))
  {
    hide Sum, Concat, SideShape, SideClean, SideWork;
    match l
    case SendIssue => PhaseStep(s.out, Waiting);
    case SendFail(op) => SideActive(s.out); PhaseStep(s.out, Answered(op));
    case SendResume => ResumeStep(s.out); ResumeKeepsBehind(s.out);
    case RecvIssue => PhaseStep(s.inp, Waiting);
    case RecvFail(op) => SideActive(s.inp); PhaseStep(s.inp, Answered(op));
    case RecvResume => ResumeStep(s.inp); ResumeKeepsBehind(s.inp);
  }

  lemma ResumeKeepsBehind(d: Side)
    requires SideShape(d) && CanResume(d)
    ensures Behind(Resumed(d).loop) == Behind(d.loop)
  {}

  lemma StepKeeps(s: State, l: Label)
    requires ShapeInv(s) && Enabled(s, l)
    ensures ShapeInv(Next(s, l)) && Work(Next(s, l)) < Work(s)
    ensures Clean(l) && CleanInv(s) ==> CleanInv(Next(s, l))
  {
    hide ShapeInv, CleanInv, Work;
    match l
    case SendMove(n) => SendMoves(s, n);
    case RecvMove(n) => RecvMoves(s, n);
    case SendReturn => SendReturns(s);
    case RecvReturn => RecvReturns(s);
    case _ => QuietSteps(s, l);
  }

  lemma {:induction false} RunKeeps(s: State, ls: seq<Label>)
    requires ShapeInv(s) && Runs(s, ls)
    ensures ShapeInv(End(s, ls)) && Work(End(s, ls)) + |ls| <= Work(s)
    ensures End(s, ls).cap == s.cap && End(s, ls).buffers == s.buffers && End(s, ls).inp.sizes == s.inp.sizes
    ensures (forall l :: l in ls ==> Clean(l)) && CleanInv(s) ==> CleanInv(End(s, ls))
    decreases |ls|
  {
    hide ShapeInv, CleanInv, Work, Clean;
    if ls != [] {
      assert ls[0] in ls;
      StepKeeps(s, ls[0]);
      RunKeeps(Next(s, ls[0]), ls[1..]);
    }
  }

  lemma WorkIsNatural(d: Side)
    requires SideShape(d)
    ensures SideWork(d) >= 0
  {
    if Active(d) {
      SumPrefix(d.sizes, |d.results| + 1);
    }
  }

  /** In every run, failures included, the reader has received a prefix of what the writer has sent, the
      rest of which is in the channel; and the run has a bounded number of steps. */
  lemma ChannelIsFifo(cap: nat, buffers: seq<seq<Byte>>, sizes: seq<nat>, ls: seq<Label>)
    requires Runs(Init(cap, buffers, sizes), ls)
    ensures var e := End(Init(cap, buffers, sizes), ls);
            && Received(e) + e.chan == Sent(e) && |e.chan| <= cap
            && |ls| <= Work(Init(cap, buffers, sizes))
  {
    InitIsFine(cap, buffers, sizes);
    RunKeeps(Init(cap, buffers, sizes), ls);
    var e := End(Init(cap, buffers, sizes), ls);
    WorkIsNatural(e.out);
    WorkIsNatural(e.inp);
  }

  /** No step but a failure is left. */
  ghost predicate Stuck(s: State) {
    forall l :: Clean(l) ==> !Enabled(s, l)
  }

  lemma StuckSides(s: State)
    requires ShapeInv(s) && s.cap >= 1 && Stuck(s)
    ensures Active(s.out) ==> s.out.loop.phase.Waiting? && |s.chan| == s.cap
    ensures Active(s.inp) ==> s.inp.loop.phase.Waiting? && s.chan == []
  {
    assert !Enabled(s, SendIssue) && !Enabled(s, SendResume) && !Enabled(s, SendReturn);
    assert !Enabled(s, RecvIssue) && !Enabled(s, RecvResume) && !Enabled(s, RecvReturn);
    assert !Enabled(s, SendMove(1)) && !Enabled(s, RecvMove(1));
  }

  lemma PositionBound(d: Side)
    requires SideShape(d)
    ensures AllReturned(d) ==> Position(d) == Sum(d.sizes)
    ensures Active(d) && d.loop.phase.Waiting? ==> Position(d) < Sum(d.sizes)
  {
    if Active(d) {
      SumNext(d.sizes, |d.results|);
      SumPrefix(d.sizes, |d.results| + 1);
    } else {
      assert d.sizes[..|d.results|] == d.sizes;
    }
  }

  /** A run without failures that cannot go on has returned every call on both ends exactly when the
      reader asks for no more than is written, and the rest fits into the channel. */
  lemma MaximalRunCompletesIff(cap: nat, buffers: seq<seq<Byte>>, sizes: seq<nat>, ls: seq<Label>)
    requires cap >= 1 && Runs(Init(cap, buffers, sizes), ls) && forall l :: l in ls ==> Clean(l)
    requires Stuck(End(Init(cap, buffers, sizes), ls))
    ensures var e := End(Init(cap, buffers, sizes), ls);
            AllReturned(e.out) && AllReturned(e.inp) <==> Sum(sizes) <= Sum(Sizes(buffers)) <= Sum(sizes) + cap
  {
    InitIsFine(cap, buffers, sizes);
    RunKeeps(Init(cap, buffers, sizes), ls);
    var e := End(Init(cap, buffers, sizes), ls);
    hide Init, Sum, Concat, Stuck, SideClean;
    StuckSides(e);
    PositionBound(e.out);
    PositionBound(e.inp);
    assert |Sent(e)| == Position(e.inp) + |e.chan|;
  }

  lemma ConcatWhole(buffers: seq<seq<Byte>>)
    ensures |Concat(buffers)| == Sum(Sizes(buffers))
  {
    ConcatLength(buffers, |buffers|);
    assert buffers[..|buffers|] == buffers && Sizes(buffers)[..|buffers|] == Sizes(buffers);
  }

  /** Bytes read, and bytes written, once nothing is left in between. */
  lemma AllBytes(filled: seq<Byte>, part: seq<Byte>, chan: seq<Byte>, log: seq<Byte>, whole: seq<Byte>)
    requires filled + part + chan == log && |log| == |whole| && log == whole[..|log|] && part == [] && |filled| == |log|
    ensures filled == whole
  {}

  /** Nothing is in a side's hands once all its calls have returned. */
  lemma NothingBehind(d: Side)
    requires SideShape(d) && AllReturned(d)
    ensures Behind(d.loop) == 0 && Position(d) == Sum(d.sizes)
  {
    PositionBound(d);
  }

  lemma CompletedMoves(e: State)
    requires ShapeInv(e) && CleanInv(e) && AllReturned(e.out) && AllReturned(e.inp)
    requires Sum(e.inp.sizes) == Sum(Sizes(e.buffers))
    ensures Concat(e.filled) == Concat(e.buffers)
  {
    hide Sum, Concat, SideShape, SideClean;
    NothingBehind(e.out);
    NothingBehind(e.inp);
    ConcatWhole(e.buffers);
    hide Position, Behind, Sizes;
    AllBytes(Concat(e.filled), e.part, e.chan, Sent(e), Concat(e.buffers));
  }

  /** What the results and the buffers are once all calls have returned. */
  lemma CompletedDelivers(e: State)
    requires ShapeInv(e) && CleanInv(e) && AllReturned(e.out) && AllReturned(e.inp)
    requires Sum(e.inp.sizes) == Sum(Sizes(e.buffers))
    ensures |e.filled| == |e.inp.sizes| && |e.out.results| == |e.buffers|
    ensures forall i :: 0 <= i < |e.buffers| ==> e.out.results[i] == IOResult.Of(IO_OK, ToInt32(|e.buffers[i]|))
    ensures forall i :: 0 <= i < |e.filled| ==>
              e.inp.results[i] == IOResult.Of(IO_OK, ToInt32(e.inp.sizes[i])) && |e.filled[i]| == e.inp.sizes[i]
    ensures Concat(e.filled) == Concat(e.buffers)
  {
    CompletedMoves(e);
    hide Sum, Concat, ToInt32, IOResult.Of, Position, Behind, Received;
  }

  /** End-to-end delivery. For any writes and any reads of equal total size, any capacity of at least one,
      and any interleaving with arbitrary partial transfers: a run without failures that cannot go on has
      returned every call, each with IO_OK and its narrowed size, and the read buffers hold, in order,
      exactly the written bytes. */
  lemma EveryByteIsDelivered(cap: nat, buffers: seq<seq<Byte>>, sizes: seq<nat>, ls: seq<Label>)
    requires cap >= 1 && Sum(sizes) == Sum(Sizes(buffers))
    requires Runs(Init(cap, buffers, sizes), ls) && forall l :: l in ls ==> Clean(l)
    requires Stuck(End(Init(cap, buffers, sizes), ls))
    ensures var e := End(Init(cap, buffers, sizes), ls);
            && AllReturned(e.out) && AllReturned(e.inp) && |e.filled| == |sizes|
            && (forall i :: 0 <= i < |buffers| && i < |e.out.results| ==>
                  e.out.results[i] == IOResult.Of(IO_OK, ToInt32(|buffers[i]|)))
            && (forall i :: 0 <= i < |sizes| && i < |e.inp.results| && i < |e.filled| ==>
                  e.inp.results[i] == IOResult.Of(IO_OK, ToInt32(sizes[i])) && |e.filled[i]| == sizes[i])
            && Concat(e.filled) == Concat(buffers)
  {
    MaximalRunCompletesIff(cap, buffers, sizes, ls);
    InitIsFine(cap, buffers, sizes);
    RunKeeps(Init(cap, buffers, sizes), ls);
    hide Stuck, Runs, End, Sum, Concat, Sizes, ShapeInv, CleanInv;
    CompletedDelivers(End(Init(cap, buffers, sizes), ls));
  }

  /** The kernel may answer a waiting side with any number of bytes that its window and the channel allow, or with a
      zero or any failure, at any time. */
  lemma KernelIsFree(s: State, n: nat, op: IOResult)
    requires ShapeInv(s) && 0 < n <= INT32_MAX && (op.Success() ==> op.Result() == 0)
    ensures Active(s.out) && s.out.loop.phase.Waiting? ==>
              Enabled(s, SendFail(op)) && (n <= Window(s.out) && |s.chan| + n <= s.cap ==> Enabled(s, SendMove(n)))
    ensures Active(s.inp) && s.inp.loop.phase.Waiting? ==>
              Enabled(s, RecvFail(op)) && (n <= Window(s.inp) && n <= |s.chan| ==> Enabled(s, RecvMove(n)))
  {
    if Active(s.out) {
      SideActive(s.out);
    }
  }

  /* Failures included: every call accounts for its bytes. */

  ghost function SendFails(ls: seq<Label>): iset<IOResult> { iset op | SendFail(op) in ls }

  ghost function RecvFails(ls: seq<Label>): iset<IOResult> { iset op | RecvFail(op) in ls }

  ghost predicate Accounted(s: State, done: seq<Label>)
    requires ShapeInv(s)
  {
    SideAccounted(s.out, s.sent, SendFails(done)) && SideAccounted(s.inp, s.filled, RecvFails(done))
  }

  lemma AccountedStep(s: State, l: Label, done: seq<Label>)
    requires ShapeInv(s) && Enabled(s, l) && Accounted(s, done) && ShapeInv(Next(s, l))
    ensures Accounted(Next(s, l), done + [l])
  {
    var done' := done + [l];
    assert forall x :: x in done ==> x in done';
    assert l in done';
    AccountedGrows(s.out, s.sent, SendFails(done), SendFails(done'));
    AccountedGrows(s.inp, s.filled, RecvFails(done), RecvFails(done'));
    hide SideAccounted, SideShape, Received, Sent;
    match l
    case SendIssue => AccountedPhase(s.out, Waiting, s.sent, SendFails(done'));
    case SendMove(n) => AccountedPhase(s.out, Answered(Moved(n)), s.sent, SendFails(done'));
    case SendFail(op) => AccountedPhase(s.out, Answered(op), s.sent, SendFails(done'));
    case SendResume => AccountedResume(s.out, s.sent, SendFails(done'));
    case SendReturn => AccountedReturn(s.out, s.sent, s.now, SendFails(done'));
    case RecvIssue => AccountedPhase(s.inp, Waiting, s.filled, RecvFails(done'));
    case RecvMove(n) => AccountedPhase(s.inp, Answered(Moved(n)), s.filled, RecvFails(done'));
    case RecvFail(op) => AccountedPhase(s.inp, Answered(op), s.filled, RecvFails(done'));
    case RecvResume => AccountedResume(s.inp, s.filled, RecvFails(done'));
    case RecvReturn => AccountedReturn(s.inp, s.filled, s.part, RecvFails(done'));
  }

  lemma {:induction false} RunAccounts(s: State, done: seq<Label>, ls: seq<Label>)
    requires ShapeInv(s) && Runs(s, ls) && Accounted(s, done)
    ensures ShapeInv(End(s, ls)) && Accounted(End(s, ls), done + ls)
    decreases |ls|
  {
    hide ShapeInv, Accounted, Enabled, Next;
    if ls == [] {
      assert done + ls == done;
    } else {
      StepKeeps(s, ls[0]);
      AccountedStep(s, ls[0], done);
      RunAccounts(Next(s, ls[0]), done + [ls[0]], ls[1..]);
      assert (done + [ls[0]]) + ls[1..] == done + ls;
    }
  }

  /** Delivery in every run, failed operations included. Each returned write has sent the front of its own buffer,
      each returned read has filled the front of its own; it returned IO_OK with its narrowed size after the whole
      buffer, or, after less, IO_EOF for an operation that moved nothing or the result of one that failed, unchanged.
      What was read and what the channel still holds is, in order, what was sent. */
  lemma EveryCallAccounts(cap: nat, buffers: seq<seq<Byte>>, sizes: seq<nat>, ls: seq<Label>)
    requires Runs(Init(cap, buffers, sizes), ls)
    ensures var e := End(Init(cap, buffers, sizes), ls);
            && Concat(e.filled) + e.part + e.chan == Concat(e.sent) + e.now
            && |e.sent| == |e.out.results| <= |buffers| && |e.filled| == |e.inp.results| <= |sizes|
            && (forall i :: 0 <= i < |e.sent| ==>
                  e.sent[i] <= buffers[i] && CallEnded(|buffers[i]|, |e.sent[i]|, e.out.results[i], SendFails(ls)))
            && (forall i :: 0 <= i < |e.filled| ==>
                  CallEnded(sizes[i], |e.filled[i]|, e.inp.results[i], RecvFails(ls)))
  {
    InitIsFine(cap, buffers, sizes);
    InitAccounts(cap, buffers, sizes);
    RunKeeps(Init(cap, buffers, sizes), ls);
    RunAccounts(Init(cap, buffers, sizes), [], ls);
    assert [] + ls == ls;
    hide Init, CallEnded, Concat, Runs, End;
  }

  lemma InitAccounts(cap: nat, buffers: seq<seq<Byte>>, sizes: seq<nat>)
    requires ShapeInv(Init(cap, buffers, sizes))
    ensures Accounted(Init(cap, buffers, sizes), [])
  {
    StartAccounts(Sizes(buffers));
    StartAccounts(sizes);
  }

  lemma StartAccounts(sizes: seq<nat>)
    requires SideShape(Start(sizes))
    ensures forall fails :: SideAccounted(Start(sizes), [], fails)
  {}

  /** A side's issue, answer and resumption are one turn of the loop that read_fully and write_fully are
      proved to run. */
  lemma TurnIsLoopBody(d: Side, op: IOResult)
    requires CanIssue(d)
    ensures Resumed(WithPhase(WithPhase(d, Waiting), Answered(op))).loop == Advance(d.loop, op)
  {}
}
