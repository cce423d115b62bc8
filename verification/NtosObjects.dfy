/** The class IOAwait on the machine of module NtosAwait: each method leaves the object looking as the machine's
    steps leave the storage at its address. */
module NtosObjects {
  import opened IoStatus
  import opened OneShot
  import opened NtosAwait
  import opened NtosTheorems

  /** The object at an address of the machine. */
  ghost predicate Shows(a: IOAwait, s: State, addr: Addr)
    reads a
  {
    addr in s.heap && a.View() == s.heap[addr]
  }

  /** The await behind a callback to come is live, at the address the callback carries. */
  lemma CallbackFindsAwait(s: State, op: OpId)
    requires Reachable(s) && op in s.packets
    ensures op in s.made && op in s.coros && op in s.writes && s.packets[op].tag == s.made[op].addr
    ensures s.packets[op].tag in s.heap && op !in s.delivered
  {
    ReachableInv(s);
    hide OpsInv, Apart;
    Get(s, op);
  }

  /** The constructor: the call is made and its outcome settled. */
  method ConstructOnMachine(ghost s: State, op: OpId, addr: Addr, args: nat, o: Outcome)
    returns (a: IOAwait, ghost s': State)
    requires Enabled(s, Issue(op, addr, args, o))
    ensures fresh(a) && Shows(a, s', addr)
    ensures Enabled(Next(s, Issue(op, addr, args, o)), Settle(op))
    ensures s' == Next(Next(s, Issue(op, addr, args, o)), Settle(op))
  {
    a := new IOAwait(o);
    s' := DoSettle(Next(s, Issue(op, addr, args, o)), op);
  }

  /** The completion callback, IOCP::await_release: code and count reach the await it is tagged with, and the
      handle it wakes is the one the machine wakes. */
  method ReleaseOnMachine(a: IOAwait, ghost s: State, op: OpId, code: nat, n: nat)
    returns (wake: Option<nat>, ghost s': State)
    requires Reachable(s) && op in s.packets && s.packets[op].Queued? && Shows(a, s, s.packets[op].tag)
    modifies a
    ensures op in s.made && Shows(a, s', s.made[op].addr)
    ensures Enabled(s, CallbackWrite(op, Result(code, n)))
    ensures Enabled(Next(s, CallbackWrite(op, Result(code, n))), CallbackPull(op))
    ensures s' == Next(Next(s, CallbackWrite(op, Result(code, n))), CallbackPull(op))
    ensures s'.coros == Woken(s.coros, wake) && op in s'.delivered && s'.delivered[op] == Result(code, n)
    ensures a.result == code && a.transferred == n
  {
    hide Reachable, Woken;
    CallbackFindsAwait(s, op);
    wake := a.Release(code, n);
    s' := DoPull(DoWrite(s, op, Result(code, n)), op);
  }

  /** await_ready, then await_suspend where it says no. */
  method AskOnMachine(a: IOAwait, ghost s: State, op: OpId) returns (ready: bool)
    requires Enabled(s, AskReady(op)) && Shows(a, s, s.made[op].addr)
    ensures Shows(a, Next(s, AskReady(op)), s.made[op].addr)
    ensures ready <==> Next(s, AskReady(op)).coros[op].stage.Awaiting?
    ensures !ready <==> Next(s, AskReady(op)).coros[op].stage.Suspending?
  {
    ready := a.AwaitReady();
  }

  method SuspendOnMachine(a: IOAwait, ghost s: State, op: OpId) returns (suspended: bool)
    requires Enabled(s, Trap(op)) && Shows(a, s, s.made[op].addr)
    modifies a
    ensures Shows(a, Next(s, Trap(op)), s.made[op].addr)
    ensures suspended <==> Next(s, Trap(op)).coros[op].tickets == s.coros[op].tickets
  {
    suspended := a.AwaitSuspend(op);
  }

  /** await_resume of a coroutine that may go on: what was delivered to its own operation. */
  method ResumeOnMachine(a: IOAwait, table: ErrorTable, ghost s: State, op: OpId) returns (r: IOResult)
    requires Reachable(s) && Enabled(s, Resume(op)) && Shows(a, s, s.made[op].addr) && a.transferred < 0x1_0000_0000
    ensures op in s.delivered && r == NtosResult(table, s.delivered[op].code, s.delivered[op].transferred)
    ensures Next(s, Resume(op)).coros[op].seen == [s.delivered[op]]
  {
    hide NtosResult, Reachable;
    TicketHolds(s, op);
    r := a.AwaitResume(table);
  }

  /** Who may go on finds the delivered value in its object, and has read nothing before. */
  lemma TicketHolds(s: State, op: OpId)
    requires Reachable(s) && Enabled(s, Resume(op))
    ensures op in s.delivered && s.made[op].addr in s.heap && s.heap[s.made[op].addr].result == s.delivered[op]
    ensures s.coros[op].seen == []
  {
    ReachableInv(s);
    hide OpsInv, Apart;
    Get(s, op);
  }
}
