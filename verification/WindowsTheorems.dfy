/** What a run of concurrent read_fully / write_fully calls owes to its labels: every call works on the buffer it
    was started with, its operations get the rest of that buffer, and it ends as its operations' answers say. */
module WindowsTheorems {
  import opened IoStatus
  import opened OneShot
  import opened TcpUtil
  import opened Windows

  /** A call may start at any time on any memory that no running call works on, and a pending operation may be
      answered with any result that fits its window. */
  lemma SurroundingsAreFree(s: State, c: CallId, base: nat, size: nat, op: OpId, res: IOResult)
    requires Inv(s)
    ensures c !in s.calls &&
            (forall d :: d in s.calls && Running(s.calls[d]) ==> Apart(Window(base, base + size), BufferOf(s.calls[d]))) ==>
              Enabled(s, Start(c, base, size))
    ensures op in s.futures && s.futures[op].Pending? && s.ops[op].window.lo + Count(res) <= s.ops[op].window.hi ==>
              Enabled(s, Answer(op, res))
  {
    hide CallOk;
  }

  /** An operation of call c that was observed with the given answer, issued at the position `lo`. */
  ghost predicate ObservedAt(c: CallId, ops: map<OpId, Issued>, futures: map<OpId, Future<IOResult>>, lo: nat, v: IOResult) {
    exists op :: op in ops && op in futures && ops[op].call == c && ops[op].window.lo == lo && futures[op] == Observed(v)
  }

  /** Why a call is finished, told by its buffer and by the answers it observed. */
  ghost predicate EndedRightly(c: CallId, k: Call, ops: map<OpId, Issued>, futures: map<OpId, Future<IOResult>>) {
    k.loop.phase.Finished? ==>
      && k.loop.moved <= k.loop.size
      && (k.loop.phase.why.Full? <==> k.loop.moved == k.loop.size)
      && (k.loop.phase.why.Full? ==> k.loop.phase.r == IOResult.Of(IO_OK, ToInt32(k.loop.size)))
      && (k.loop.phase.why.SocketError? ==>
            !k.loop.phase.r.Success() && ObservedAt(c, ops, futures, k.base + k.loop.moved, k.loop.phase.r))
      && (k.loop.phase.why.NoTransfer? ==>
            k.loop.phase.r == IOResult.FromStatus(IO_EOF) &&
            ObservedAt(c, ops, futures, k.base + k.loop.moved, IOResult.Of(IO_OK, 0)))
  }

  ghost predicate AllEndedRightly(s: State) {
    forall c :: c in s.calls ==> EndedRightly(c, s.calls[c], s.ops, s.futures)
  }

  /** Observed answers stay observed. */
  lemma ObservedStays(c: CallId, ops: map<OpId, Issued>, futures: map<OpId, Future<IOResult>>,
                      ops': map<OpId, Issued>, futures': map<OpId, Future<IOResult>>, lo: nat, v: IOResult)
    requires ObservedAt(c, ops, futures, lo, v)
    requires forall o :: o in ops && o in futures && futures[o].Observed? ==>
               o in ops' && o in futures' && ops'[o] == ops[o] && futures'[o] == futures[o]
    ensures ObservedAt(c, ops', futures', lo, v)
  {
    var op :| op in ops && op in futures && ops[op].call == c && ops[op].window.lo == lo && futures[op] == Observed(v);
    assert futures'[op] == Observed(v);
  }

  lemma EndedStays(c: CallId, k: Call, k': Call, ops: map<OpId, Issued>, futures: map<OpId, Future<IOResult>>,
                   ops': map<OpId, Issued>, futures': map<OpId, Future<IOResult>>)
    requires EndedRightly(c, k, ops, futures)
    requires k'.loop.phase.Finished? ==> k'.loop == k.loop && k'.base == k.base
    requires forall o :: o in ops && o in futures && futures[o].Observed? ==>
               o in ops' && o in futures' && ops'[o] == ops[o] && futures'[o] == futures[o]
    ensures EndedRightly(c, k', ops', futures')
  {
    hide ObservedAt, IOResult.Of, IOResult.FromStatus, ToInt32;
    if k'.loop.phase.Finished? && k.loop.phase.why.SocketError? {
      ObservedStays(c, ops, futures, ops', futures', k.base + k.loop.moved, k.loop.phase.r);
    }
    if k'.loop.phase.Finished? && k.loop.phase.why.NoTransfer? {
      ObservedStays(c, ops, futures, ops', futures', k.base + k.loop.moved, IOResult.Of(IO_OK, 0));
    }
  }

  /** No step forgets an observed answer. */
  lemma StepKeepsObserved(s: State, l: Label)
    requires Inv(s) && Enabled(s, l)
    ensures forall o :: o in s.ops && o in s.futures && s.futures[o].Observed? ==>
              o in Next(s, l).ops && o in Next(s, l).futures && Next(s, l).ops[o] == s.ops[o] &&
              Next(s, l).futures[o] == s.futures[o]
  {
    hide Inv, Advance, TcpUtil.Begin;
  }

  /** The turn that a continuation takes, and how it may end the call. */
  lemma ContinueEnds(s: State, c: CallId)
    requires Inv(s) && Enabled(s, Continue(c))
    ensures var s' := Next(s, Continue(c)); EndedRightly(c, s'.calls[c], s'.ops, s'.futures)
  {
    OpOfCall(s, c);
    hide Tiles, Inv, ObservedAt, ToInt32;
    var s' := Next(s, Continue(c));
    var op, k := s.calls[c].op.value, s.calls[c];
    var v := s.futures[op].value;
    assert s'.ops[op].call == c && s'.ops[op].window.lo == k.base + k.loop.moved && s'.futures[op] == Observed(v);
    assert ObservedAt(c, s'.ops, s'.futures, k.base + k.loop.moved, v) by { ObservedNow(c, s'.ops, s'.futures, op, v); }
    if v.Success() && v.Result() == 0 {
      assert v == IOResult.Of(IO_OK, 0);
    }
  }

  lemma ObservedNow(c: CallId, ops: map<OpId, Issued>, futures: map<OpId, Future<IOResult>>, op: OpId, v: IOResult)
    requires op in ops && op in futures && ops[op].call == c && futures[op] == Observed(v)
    ensures ObservedAt(c, ops, futures, ops[op].window.lo, v)
  {}

  lemma OthersKeepTheirLoops(s: State, l: Label, c: CallId)
    requires Enabled(s, l) && c in s.calls && !(l == Continue(c))
    ensures c in Next(s, l).calls && Next(s, l).calls[c].base == s.calls[c].base
    ensures Next(s, l).calls[c].loop.phase.Finished? ==> Next(s, l).calls[c].loop == s.calls[c].loop
  {
    hide Advance, TcpUtil.Begin;
  }

  lemma EndedNext(s: State, l: Label)
    requires Inv(s) && AllEndedRightly(s) && Enabled(s, l)
    ensures AllEndedRightly(Next(s, l))
  {
    var s' := Next(s, l);
    StepKeepsObserved(s, l);
    forall c | c in s'.calls ensures EndedRightly(c, s'.calls[c], s'.ops, s'.futures) {
      if l == Continue(c) {
        ContinueEnds(s, c);
      } else if c in s.calls {
        OthersKeepTheirLoops(s, l, c);
        hide Next, Enabled, Inv;
        EndedStays(c, s.calls[c], s'.calls[c], s.ops, s.futures, s'.ops, s'.futures);
      } else {
        NewCallIsFine(s, l, c);
      }
    }
  }

  lemma NewCallIsFine(s: State, l: Label, c: CallId)
    requires Enabled(s, l) && c !in s.calls && c in Next(s, l).calls
    ensures EndedRightly(c, Next(s, l).calls[c], Next(s, l).ops, Next(s, l).futures)
    ensures l.Start? && l.c == c
  {}

  /** The answer that an operation got. */
  function AnswerOf(s: State, op: OpId): Option<IOResult> {
    if op !in s.futures || s.futures[op].Pending? then None else Some(s.futures[op].value)
  }

  /** Operation op of call c moved the range r. */
  ghost predicate MovedBy(s: State, c: CallId, r: Window, op: OpId) {
    op in s.ops && s.ops[op].call == c && s.ops[op].window.lo == r.lo &&
    AnswerOf(s, op).Some? && r.hi == r.lo + Count(AnswerOf(s, op).value)
  }

  ghost predicate Moved(s: State, c: CallId, r: Window) {
    exists op :: MovedBy(s, c, r, op)
  }

  /** Every range was moved by an operation of the call. */
  ghost predicate RangesMoved(s: State) {
    forall c :: c in s.calls ==> AllMoved(s, c, s.calls[c].ranges)
  }

  ghost predicate AllMoved(s: State, c: CallId, rs: seq<Window>) {
    forall i :: 0 <= i < |rs| ==> Moved(s, c, rs[i])
  }

  /** The step adds at most the range that an answer moved. */
  lemma RangeStep(s: State, l: Label, c: CallId)
    requires Enabled(s, l) && c in Next(s, l).calls
    ensures var s' := Next(s, l);
            var before := if c in s.calls then s.calls[c].ranges else [];
            || s'.calls[c].ranges == before
            || (l.Answer? && l.op in s'.ops && s'.ops[l.op].call == c &&
                s'.calls[c].ranges == before + [Window(s'.ops[l.op].window.lo, s'.ops[l.op].window.lo + Count(l.res))])
  {
    hide Advance, TcpUtil.Begin;
  }

  lemma RangesMovedNext(s: State, l: Label)
    requires RangesMoved(s) && Enabled(s, l)
    ensures RangesMoved(Next(s, l))
  {
    var s' := Next(s, l);
    hide Next, Enabled, Moved, AllMoved;
    forall c | c in s'.calls ensures AllMoved(s', c, s'.calls[c].ranges) {
      CallRangesMoved(s, l, c);
    }
  }

  lemma CallRangesMoved(s: State, l: Label, c: CallId)
    requires RangesMoved(s) && Enabled(s, l) && c in Next(s, l).calls
    ensures AllMoved(Next(s, l), c, Next(s, l).calls[c].ranges)
  {
    RangeStep(s, l, c);
    var rs := Next(s, l).calls[c].ranges;
    assert c in s.calls ==> AllMoved(s, c, s.calls[c].ranges);
    hide Next, Enabled, MovedBy;
    forall i | 0 <= i < |rs| ensures Moved(Next(s, l), c, rs[i]) {
      if c in s.calls && i < |s.calls[c].ranges| {
        assert rs[i] == s.calls[c].ranges[i];
        var op :| MovedBy(s, c, rs[i], op);
        MovedStays(s, l, c, rs[i], op);
      } else {
        NewRangeMoved(s, l, c, rs[i]);
      }
    }
  }

  lemma MovedStays(s: State, l: Label, c: CallId, r: Window, op: OpId)
    requires Enabled(s, l) && MovedBy(s, c, r, op)
    ensures MovedBy(Next(s, l), c, r, op)
  {
    AnswerStep(s, l, op);
    IssueStaysStep(s, l, op);
    hide Next, Enabled, AnswerOf;
  }

  lemma NewRangeMoved(s: State, l: Label, c: CallId, r: Window)
    requires Enabled(s, l) && l.Answer? && l.op in Next(s, l).ops && Next(s, l).ops[l.op].call == c
    requires r == Window(Next(s, l).ops[l.op].window.lo, Next(s, l).ops[l.op].window.lo + Count(l.res))
    ensures MovedBy(Next(s, l), c, r, l.op)
  {
    AnswerStep(s, l, l.op);
    hide Next, Enabled, AnswerOf;
  }

  /** A call keeps its buffer from its start on. */
  lemma BufferStep(s: State, l: Label, c: CallId)
    requires Enabled(s, l)
    ensures c in s.calls ==>
              c in Next(s, l).calls && Next(s, l).calls[c].base == s.calls[c].base &&
              Next(s, l).calls[c].loop.size == s.calls[c].loop.size
    ensures l.Start? && l.c == c ==>
              c in Next(s, l).calls && Next(s, l).calls[c].base == l.base && Next(s, l).calls[c].loop.size == l.size
  {}

  lemma AnswerStep(s: State, l: Label, op: OpId)
    requires Enabled(s, l)
    ensures AnswerOf(s, op).Some? ==> AnswerOf(Next(s, l), op) == AnswerOf(s, op)
    ensures AnswerOf(s, op).None? && AnswerOf(Next(s, l), op).Some? ==>
              l.Answer? && l.op == op && AnswerOf(Next(s, l), op) == Some(l.res)
    ensures l.Answer? && l.op == op ==> AnswerOf(Next(s, l), op) == Some(l.res)
  {
    hide Advance, TcpUtil.Begin;
  }

  /** Issued operations stay as issued. */
  lemma IssueStaysStep(s: State, l: Label, op: OpId)
    requires Enabled(s, l)
    ensures op in s.ops ==> op in Next(s, l).ops && Next(s, l).ops[op] == s.ops[op]
    ensures l.Issue? && l.op == op ==>
              op in Next(s, l).ops && Next(s, l).ops[op].call == l.c && l.c in s.calls &&
              Next(s, l).ops[op].window == Window(s.calls[l.c].base + s.calls[l.c].loop.moved,
                                                  s.calls[l.c].base + s.calls[l.c].loop.size)
  {
    hide Advance, TcpUtil.Begin;
  }

  lemma {:induction false} RangesStayMoved(s: State, ls: seq<Label>)
    requires RangesMoved(s) && Runs(s, ls)
    ensures RangesMoved(End(s, ls))
    decreases |ls|
  {
    hide RangesMoved, Enabled, Next;
    if ls != [] {
      RangesMovedNext(s, ls[0]);
      RangesStayMoved(Next(s, ls[0]), ls[1..]);
    }
  }

  /** What is known stays known to the end of a run. */
  lemma {:induction false} Stays(s: State, ls: seq<Label>, c: CallId, op: OpId)
    requires Inv(s) && AllEndedRightly(s) && Runs(s, ls)
    ensures Inv(End(s, ls)) && AllEndedRightly(End(s, ls))
    ensures c in s.calls ==>
              c in End(s, ls).calls && End(s, ls).calls[c].base == s.calls[c].base &&
              End(s, ls).calls[c].loop.size == s.calls[c].loop.size
    ensures AnswerOf(s, op).Some? ==> AnswerOf(End(s, ls), op) == AnswerOf(s, op)
    ensures op in s.ops ==> op in End(s, ls).ops && End(s, ls).ops[op] == s.ops[op]
    decreases |ls|
  {
    hide Inv, AllEndedRightly, Enabled, Next, AnswerOf;
    if ls != [] {
      InvNext(s, ls[0]);
      EndedNext(s, ls[0]);
      BufferStep(s, ls[0], c);
      AnswerStep(s, ls[0], op);
      IssueStaysStep(s, ls[0], op);
      Stays(Next(s, ls[0]), ls[1..], c, op);
    }
  }

  lemma {:induction false} StartsAreKept(s: State, ls: seq<Label>, c: CallId, base: nat, size: nat)
    requires Inv(s) && AllEndedRightly(s) && Runs(s, ls) && Start(c, base, size) in ls
    ensures c in End(s, ls).calls && End(s, ls).calls[c].base == base && End(s, ls).calls[c].loop.size == size
    decreases |ls|
  {
    hide Inv, AllEndedRightly, Enabled, Next;
    InvNext(s, ls[0]);
    EndedNext(s, ls[0]);
    if ls[0] == Start(c, base, size) {
      BufferStep(s, ls[0], c);
      Stays(Next(s, ls[0]), ls[1..], c, 0);
    } else {
      assert ls == [ls[0]] + ls[1..];
      StartsAreKept(Next(s, ls[0]), ls[1..], c, base, size);
    }
  }

  lemma {:induction false} IssuesAreKept(s: State, ls: seq<Label>, c: CallId, op: OpId)
    requires Inv(s) && AllEndedRightly(s) && Runs(s, ls) && Issue(c, op) in ls
    ensures var e := End(s, ls);
            && op in e.ops && c in e.calls && e.ops[op].call == c
            && e.calls[c].base <= e.ops[op].window.lo <= e.ops[op].window.hi
            && e.ops[op].window.hi == e.calls[c].base + e.calls[c].loop.size
    decreases |ls|
  {
    hide Inv, AllEndedRightly, Enabled, Next;
    InvNext(s, ls[0]);
    EndedNext(s, ls[0]);
    if ls[0] == Issue(c, op) {
      IssueStaysStep(s, ls[0], op);
      IssueFits(s, c, op);
      BufferStep(s, ls[0], c);
      Stays(Next(s, ls[0]), ls[1..], c, op);
    } else {
      assert ls == [ls[0]] + ls[1..];
      IssuesAreKept(Next(s, ls[0]), ls[1..], c, op);
    }
  }

  lemma IssueFits(s: State, c: CallId, op: OpId)
    requires Enabled(s, Issue(c, op))
    ensures c in s.calls && s.calls[c].loop.moved <= s.calls[c].loop.size
  {}

  lemma {:induction false} AnswersAreKept(s: State, ls: seq<Label>, op: OpId, res: IOResult)
    requires Inv(s) && AllEndedRightly(s) && Runs(s, ls) && Answer(op, res) in ls
    ensures AnswerOf(End(s, ls), op) == Some(res)
    decreases |ls|
  {
    hide Inv, AllEndedRightly, Enabled, Next, AnswerOf;
    InvNext(s, ls[0]);
    EndedNext(s, ls[0]);
    if ls[0] == Answer(op, res) {
      AnswerStep(s, ls[0], op);
      Stays(Next(s, ls[0]), ls[1..], 0, op);
    } else {
      assert ls == [ls[0]] + ls[1..];
      AnswersAreKept(Next(s, ls[0]), ls[1..], op, res);
    }
  }

  lemma {:induction false} AnswersWereGiven(s: State, ls: seq<Label>, op: OpId)
    requires Runs(s, ls) && AnswerOf(s, op).None? && AnswerOf(End(s, ls), op).Some?
    ensures Answer(op, AnswerOf(End(s, ls), op).value) in ls
    decreases |ls|
  {
    hide Enabled, Next, AnswerOf;
    AnswerStep(s, ls[0], op);
    var s' := Next(s, ls[0]);
    if AnswerOf(s', op).None? {
      AnswersWereGiven(s', ls[1..], op);
      assert ls == [ls[0]] + ls[1..];
    } else {
      AnswerStays(s', ls[1..], op);
    }
  }

  lemma {:induction false} AnswerStays(s: State, ls: seq<Label>, op: OpId)
    requires Runs(s, ls) && AnswerOf(s, op).Some?
    ensures AnswerOf(End(s, ls), op) == AnswerOf(s, op)
    decreases |ls|
  {
    hide Enabled, Next, AnswerOf;
    if ls != [] {
      AnswerStep(s, ls[0], op);
      AnswerStays(Next(s, ls[0]), ls[1..], op);
    }
  }

  /** Every operation of a call gets the rest of the buffer the call was started with, and has as its answer just
      what it was answered with. */
  lemma OperationsGetTheRest(ls: seq<Label>, c: CallId, base: nat, size: nat, op: OpId)
    requires Runs(INIT, ls) && Start(c, base, size) in ls && Issue(c, op) in ls
    ensures var s := End(INIT, ls);
            && op in s.ops && s.ops[op].call == c
            && base <= s.ops[op].window.lo <= s.ops[op].window.hi == base + size
    ensures forall res :: Answer(op, res) in ls <==> AnswerOf(End(INIT, ls), op) == Some(res)
  {
    InitIsFine();
    hide Inv, AllEndedRightly, Runs, AnswerOf;
    StartsAreKept(INIT, ls, c, base, size);
    IssuesAreKept(INIT, ls, c, op);
    forall res ensures Answer(op, res) in ls <==> AnswerOf(End(INIT, ls), op) == Some(res) {
      if Answer(op, res) in ls {
        AnswersAreKept(INIT, ls, op, res);
      }
      if AnswerOf(End(INIT, ls), op) == Some(res) {
        AnswersWereGiven(INIT, ls, op);
      }
    }
  }

  lemma InitIsFine()
    ensures Inv(INIT) && AllEndedRightly(INIT) && RangesMoved(INIT) && forall op :: AnswerOf(INIT, op) == None
  {}

  lemma RangesOfCall(ls: seq<Label>, c: CallId)
    requires Runs(INIT, ls) && c in End(INIT, ls).calls
    ensures var s := End(INIT, ls); forall i :: 0 <= i < |s.calls[c].ranges| ==> MovedByAnswer(s, ls, c, s.calls[c].ranges[i])
  {
    InitIsFine();
    RangesStayMoved(INIT, ls);
    hide Runs, End, MovedByAnswer, MovedBy;
    var s := End(INIT, ls);
    assert AllMoved(s, c, s.calls[c].ranges);
    forall i | 0 <= i < |s.calls[c].ranges| ensures MovedByAnswer(s, ls, c, s.calls[c].ranges[i]) {
      var op :| MovedBy(s, c, s.calls[c].ranges[i], op);
      MovedIsAnswered(ls, c, s.calls[c].ranges[i], op);
    }
  }

  /** How a call over the engines ends, by its own buffer: its transferred ranges tile the buffer from its base up
      to where it stopped, each moved by an answered operation of the call that was issued at the range's start; it
      returns IO_OK with the buffer's narrowed size exactly if that is the whole buffer; it returns IO_EOF of its own
      only if an operation issued at the stopping position was answered with zero; and any other return is the answer
      of the operation issued there, unchanged. */
  lemma CallsEndRightly(ls: seq<Label>, c: CallId, base: nat, size: nat)
    requires Runs(INIT, ls) && Start(c, base, size) in ls
    ensures var s := End(INIT, ls);
            && c in s.calls && s.calls[c].base == base && s.calls[c].loop.size == size
            && Tiles(s.calls[c].ranges, base, base + Reached(s.calls[c], s.futures))
            && (forall i :: 0 <= i < |s.calls[c].ranges| ==> MovedByAnswer(s, ls, c, s.calls[c].ranges[i]))
            && (s.calls[c].loop.phase.Finished? ==>
                  var moved, r, why := s.calls[c].loop.moved, s.calls[c].loop.phase.r, s.calls[c].loop.phase.why;
                  && moved <= size && Tiles(s.calls[c].ranges, base, base + moved)
                  && (why.Full? <==> moved == size)
                  && (why.Full? ==> r == IOResult.Of(IO_OK, ToInt32(size)))
                  && (why.NoTransfer? ==>
                        r == IOResult.FromStatus(IO_EOF) && AnsweredAt(s, ls, c, base + moved, IOResult.Of(IO_OK, 0)))
                  && (why.SocketError? ==> !r.Success() && AnsweredAt(s, ls, c, base + moved, r)))
  {
    InitIsFine();
    hide Inv, AllEndedRightly, EndedRightly, RangesMoved, Runs, Tiles, Reached, ObservedAt, AnsweredAt, MovedByAnswer,
      ToInt32, IOResult.Of, IOResult.FromStatus;
    StartsAreKept(INIT, ls, c, base, size);
    Stays(INIT, ls, c, 0);
    WindowsTile(ls);
    var s := End(INIT, ls);
    EndOfCall(s, c);
    RangesOfCall(ls, c);
    if s.calls[c].loop.phase.Finished? {
      if s.calls[c].loop.phase.why.NoTransfer? {
        ObservedIsAnswered(ls, c, base + s.calls[c].loop.moved, IOResult.Of(IO_OK, 0));
      } else if s.calls[c].loop.phase.why.SocketError? {
        ObservedIsAnswered(ls, c, base + s.calls[c].loop.moved, s.calls[c].loop.phase.r);
      }
    }
  }

  lemma EndOfCall(s: State, c: CallId)
    requires AllEndedRightly(s) && c in s.calls
    ensures EndedRightly(c, s.calls[c], s.ops, s.futures)
  {}

  /** An operation of the call, issued at `lo`, was answered with v. */
  ghost predicate AnsweredAt(s: State, ls: seq<Label>, c: CallId, lo: nat, v: IOResult) {
    exists op :: op in s.ops && s.ops[op].call == c && s.ops[op].window.lo == lo && Answer(op, v) in ls
  }

  /** An operation of the call, issued at the range's start, was answered with the range's length. */
  ghost predicate MovedByAnswer(s: State, ls: seq<Label>, c: CallId, r: Window) {
    exists op, v :: op in s.ops && s.ops[op].call == c && s.ops[op].window.lo == r.lo && Answer(op, v) in ls &&
                    r.hi == r.lo + Count(v)
  }

  lemma MovedIsAnswered(ls: seq<Label>, c: CallId, r: Window, op: OpId)
    requires Runs(INIT, ls) && MovedBy(End(INIT, ls), c, r, op)
    ensures MovedByAnswer(End(INIT, ls), ls, c, r)
  {
    InitIsFine();
    hide Runs, End;
    AnswersWereGiven(INIT, ls, op);
    var v := AnswerOf(End(INIT, ls), op).value;
    assert Answer(op, v) in ls;
  }

  lemma ObservedIsAnswered(ls: seq<Label>, c: CallId, lo: nat, v: IOResult)
    requires Runs(INIT, ls) && ObservedAt(c, End(INIT, ls).ops, End(INIT, ls).futures, lo, v)
    ensures AnsweredAt(End(INIT, ls), ls, c, lo, v)
  {
    var s := End(INIT, ls);
    InitIsFine();
    hide Runs, End;
    var op :| op in s.ops && op in s.futures && s.ops[op].call == c && s.ops[op].window.lo == lo && s.futures[op] == Observed(v);
    AnswersWereGiven(INIT, ls, op);
    assert Answer(op, v) in ls;
  }
}
