/** What every run of the NTOS awaits satisfies: one writer per result, no missed path, and refinement of
    the same abstract future as the io_uring engine. The class IOAwait closes the file. */
module NtosTheorems {
  import opened IoStatus
  import opened OneShot
  import opened NtosAwait

  lemma InvNext(s: State, l: Label)
    requires Inv(s) && Enabled(s, l)
    ensures Inv(Next(s, l))
  {
    hide Inv;
    match l
    case Issue(op, addr, args, o) => InvIssue(s, op, addr, args, o);
    case Settle(op) => InvSettle(s, op);
    case CallbackWrite(op, v) => InvWrite(s, op, v);
    case CallbackPull(op) => InvPull(s, op);
    case AskReady(op) => InvAskReady(s, op);
    case Trap(op) => InvTrap(s, op);
    case Resume(op) => InvResume(s, op);
    case Destroy(op) => InvDestroy(s, op);
  }

  lemma {:induction false} InvRun(s: State, ls: seq<Label>)
    requires Inv(s) && Runs(s, ls)
    ensures Inv(End(s, ls))
    decreases |ls|
  {
    hide Inv, Enabled, Next;
    if ls != [] {
      InvNext(s, ls[0]);
      InvRun(Next(s, ls[0]), ls[1..]);
    }
  }

  ghost predicate Reachable(s: State) {
    exists ls :: Runs(INIT, ls) && End(INIT, ls) == s
  }

  lemma ReachableInv(s: State)
    requires Reachable(s)
    ensures Inv(s)
  {
    var ls :| Runs(INIT, ls) && End(INIT, ls) == s;
    InvRun(INIT, ls);
  }

  /** WSAO reports pending exactly when a callback is coming. */
  lemma WsaoTellsWhoWrites(o: Outcome)
    requires Proper(o)
    ensures Wsao(o) == ERROR_IO_PENDING <==> Queues(o)
    ensures !Queues(o) ==> Wsao(o) == o.code
  {}

  /** Exactly one writer. Of the constructor's immediate path and the callback, never both set a result,
      and neither is missed: a call that succeeded or is pending has its callback still to come until its
      result is delivered, a call that failed is delivered once its constructor has settled. await_ready is
      true exactly on the immediate path, which leaves no callback behind. */
  lemma ExactlyOneWriter(s: State, op: OpId)
    requires Reachable(s) && op in s.made
    ensures !s.fault && op in s.writes && op in s.coros && s.writes[op] <= 1
    ensures op in s.delivered ==> s.writes[op] == 1
    ensures s.coros[op].tickets > 0 || s.coros[op].seen != [] ==> op in s.delivered
    ensures !s.made[op].outcome.Fails? ==> (op in s.packets <==> op !in s.delivered)
    ensures s.made[op].outcome.Fails? ==> op !in s.packets && (op !in s.delivered <==> s.coros[op].stage.Issuing?)
    ensures op in s.packets ==> s.packets[op].tag == s.made[op].addr && s.packets[op].args == s.made[op].args
    ensures s.made[op].outcome.Fails? && op in s.delivered ==> s.delivered[op] == Result(s.made[op].outcome.code, 0)
    ensures !s.coros[op].stage.Issuing? && !s.coros[op].stage.Destroyed? ==>
              (At(s.heap, s.made[op].addr).immediate <==> s.made[op].outcome.Fails?)
  {
    ReachableInv(s);
    hide OpsInv;
    Get(s, op);
  }

  /** No lost and no double wakeup, on either path. */
  lemma WokenExactlyOnce(s: State, op: OpId)
    requires Reachable(s) && op in s.made
    ensures op in s.coros && |s.coros[op].seen| <= 1
    ensures var k := s.coros[op];
            var asked := k.stage.Awaiting? || k.stage.Resumed? || k.stage.Destroyed?;
            k.tickets + |k.seen| == if asked && op in s.delivered then 1 else 0
    ensures s.coros[op].seen != [] ==> op in s.delivered && s.coros[op].seen[0] == s.delivered[op]
  {
    ReachableInv(s);
    hide OpsInv;
    Get(s, op);
  }

  /* Refinement. */

  function FutureOf(s: State, op: OpId): Future<Result>
    requires op in s.made
  {
    if op in s.coros && s.coros[op].seen != [] then Observed(s.coros[op].seen[0])
    else if op in s.delivered then Complete(At(s.heap, s.made[op].addr).result)
    else Pending
  }

  function Futures(s: State): map<OpId, Future<Result>> {
    map op | op in s.made :: FutureOf(s, op)
  }

  function EventOf(s: State, l: Label): Event<Result>
    requires Enabled(s, l)
  {
    match l
    case Issue(op, _, _, _) => Submit(op)
    case Settle(op) =>
      if s.coros[op].stage.code != ERROR_IO_PENDING then Deliver(op, Result(s.coros[op].stage.code, 0)) else Stutter
    case CallbackPull(op) => Deliver(op, s.packets[op].value)
    case Resume(op) => Observe(op, At(s.heap, s.made[op].addr).result)
    case _ => Stutter
  }

  /** A step that moves op alone changes op's future alone. */
  lemma OtherFutures(s: State, s': State, op: OpId, x: OpId)
    requires Inv(s) && Moved(s, s', op) && x in s.made && x != op
    ensures FutureOf(s', x) == FutureOf(s, x)
  {
    hide OpsInv;
    Get(s, x);
    Get(s, op);
    SameElsewhere(s.coros, s'.coros, op, x);
    SameElsewhere(s.delivered, s'.delivered, op, x);
    if !s.coros[x].stage.Destroyed? && !s.coros[op].stage.Destroyed? {
      SameElsewhere(s.heap, s'.heap, s.made[op].addr, s.made[x].addr);
    }
  }

  lemma FuturesMove(s: State, s': State, op: OpId)
    requires Inv(s) && Moved(s, s', op)
    ensures op in Futures(s) && Futures(s)[op] == FutureOf(s, op)
    ensures Futures(s') == Futures(s)[op := FutureOf(s', op)]
  {
    hide Inv, FutureOf;
    forall x | x in s.made && x != op ensures FutureOf(s', x) == FutureOf(s, x) {
      OtherFutures(s, s', op, x);
    }
  }

  lemma IssueKeepsFuture(s: State, op: OpId, addr: Addr, args: nat, o: Outcome, x: OpId)
    requires OpsInv(s) && Enabled(s, Issue(op, addr, args, o)) && x in s.made
    ensures FutureOf(Next(s, Issue(op, addr, args, o)), x) == FutureOf(s, x)
  {
    hide OpsInv;
    Get(s, x);
  }

  lemma RefinesIssue(s: State, op: OpId, addr: Addr, args: nat, o: Outcome)
    requires Inv(s) && Enabled(s, Issue(op, addr, args, o))
    ensures op !in Futures(s) && Futures(Next(s, Issue(op, addr, args, o))) == Futures(s)[op := Pending]
  {
    hide OpsInv, Apart;
    var s' := Next(s, Issue(op, addr, args, o));
    assert FutureOf(s', op) == Pending;
    hide FutureOf;
    forall x | x in s.made ensures FutureOf(s', x) == FutureOf(s, x) {
      IssueKeepsFuture(s, op, addr, args, o, x);
    }
  }

  /** The step every label but Issue makes on its own operation, as the abstract event sees it. */
  lemma StepMoves(s: State, l: Label)
    requires Inv(s) && Enabled(s, l) && !l.Issue?
    ensures Moved(s, Next(s, l), l.op)
  {
    hide OpsInv, Moved;
    match l
    case Settle(op) => SettleOk(s, op);
    case CallbackWrite(op, v) => WriteOk(s, op, v);
    case CallbackPull(op) => PullOk(s, op);
    case AskReady(op) => AskReadyOk(s, op);
    case Trap(op) => TrapOk(s, op);
    case Resume(op) => ResumeOk(s, op);
    case Destroy(op) => DestroyOk(s, op);
  }

  /** The future of the operation a label is about, before and after. */
  lemma OwnFuture(s: State, l: Label)
    requires OpsInv(s) && Enabled(s, l) && !l.Issue? && l.op in s.made
    ensures match EventOf(s, l)
            case Stutter => FutureOf(Next(s, l), l.op) == FutureOf(s, l.op)
            case Submit(_) => false
            case Deliver(op, v) => op == l.op && FutureOf(s, op) == Pending && FutureOf(Next(s, l), op) == Complete(v)
            case Observe(op, v) => op == l.op && FutureOf(s, op) == Complete(v) && FutureOf(Next(s, l), op) == Observed(v)
  {
    hide OpsInv;
    Get(s, l.op);
  }

  lemma MovedIsMade(s: State, s': State, op: OpId)
    requires Moved(s, s', op)
    ensures op in s.made && op in s'.made
  {}

  lemma StepRefines(s: State, l: Label)
    requires Inv(s) && Enabled(s, l)
    ensures Can(Futures(s), EventOf(s, l)) && Futures(Next(s, l)) == Do(Futures(s), EventOf(s, l))
  {
    hide FutureOf, Futures, Moved, Next, OpsInv, Apart, KeysInv;
    if l.Issue? {
      RefinesIssue(s, l.op, l.addr, l.args, l.outcome);
    } else {
      StepMoves(s, l);
      MovedIsMade(s, Next(s, l), l.op);
      OwnFuture(s, l);
      FuturesMove(s, Next(s, l), l.op);
      assert Futures(s)[l.op := FutureOf(s, l.op)] == Futures(s);
    }
  }

  ghost function Events(s: State, ls: seq<Label>): seq<Event<Result>>
    requires Runs(s, ls)
    decreases |ls|
  {
    if ls == [] then [] else [EventOf(s, ls[0])] + Events(Next(s, ls[0]), ls[1..])
  }

  lemma {:induction false} RunExtendsTrace(es: seq<Event<Result>>, s: State, ls: seq<Label>)
    requires Inv(s) && Runs(s, ls) && Trace(es) && After(es) == Futures(s)
    ensures Trace(es + Events(s, ls)) && After(es + Events(s, ls)) == Futures(End(s, ls))
    decreases |ls|
  {
    hide Inv, Futures, Next, Enabled, EventOf, Can, Do, Trace, After;
    if ls == [] {
      assert es + Events(s, ls) == es;
    } else {
      var e, s' := EventOf(s, ls[0]), Next(s, ls[0]);
      StepRefines(s, ls[0]);
      InvNext(s, ls[0]);
      TraceGrows(es, e);
      RunExtendsTrace(es + [e], s', ls[1..]);
      assert es + Events(s, ls) == (es + [e]) + Events(s', ls[1..]);
    }
  }

  /** Every run of the NTOS awaits, immediate and callback completions interleaved at will, refines the
      abstract one-shot future. */
  lemma NtosRunRefinesFuture(ls: seq<Label>)
    requires Runs(INIT, ls)
    ensures Trace(Events(INIT, ls)) && Lawful(Events(INIT, ls))
    ensures After(Events(INIT, ls)) == Futures(End(INIT, ls))
  {
    RunExtendsTrace([], INIT, ls);
    assert [] + Events(INIT, ls) == Events(INIT, ls);
    TraceIsLawful(Events(INIT, ls));
  }

  /** The await object, its fields set in place. */
  class IOAwait {
    var result: nat
    var transferred: nat
    var immediate: bool
    var cell: Cell

    function View(): Obj
      reads this
    {
      Obj(Result(result, transferred), immediate, cell)
    }

    method SetResult(code: nat, n: nat)
      modifies this`result, this`transferred
      ensures View() == old(View()).(result := Result(code, n))
    {
      transferred := n;
      result := code;
    }

    /** `code` is what the overlapped call was reported to have done; its callback may be running. */
    constructor (o: Outcome)
      requires Proper(o)
      ensures View() == if Queues(o) then Obj(Result(0, 0), false, Empty) else Obj(Result(o.code, 0), true, Empty)
    {
      result, transferred, immediate, cell := 0, 0, false, Empty;
      new;
      var code := Wsao(o);
      if code != ERROR_IO_PENDING {
        immediate := true;
        SetResult(code, 0);
      }
    }

    method AwaitReady() returns (ready: bool)
      ensures ready <==> View().immediate
    {
      ready := immediate;
    }

    method AwaitSuspend(handle: nat) returns (suspended: bool)
      modifies this`cell
      ensures suspended <==> !old(cell).Pulled?
      ensures View() == old(View()).(cell := if suspended then Trapped(handle) else Pulled)
    {
      var (c, s) := TrapCell(cell, handle);
      cell, suspended := c, s;
    }

    /** The callback: both result fields, then the pull. */
    method Release(code: nat, n: nat) returns (wake: Option<nat>)
      modifies this
      ensures View() == old(View()).(result := Result(code, n), cell := Pulled)
      ensures wake == if old(cell).Trapped? then Some(old(cell).handle) else None
    {
      SetResult(code, n);
      var (c, w) := PullCell(cell);
      cell, wake := c, w;
    }

    /** A non-zero code is reported as its status; success needs a zero code and a count below 2^31, as a
        larger DWORD count reads as a failure. */
    method AwaitResume(table: ErrorTable) returns (r: IOResult)
      requires transferred < 0x1_0000_0000
      ensures r == NtosResult(table, result, transferred)
      ensures r.Success() <==> result == 0 && transferred <= INT32_MAX
      ensures r.Success() ==> r.Result() as int == transferred
      ensures result != 0 ==> r.Error() == table(result)
    {
      r := NtosResult(table, result, transferred);
    }
  }
}
