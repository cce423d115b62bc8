/** What a run of the completion engine owes to its labels: the requests that callers passed, the results that
    the kernel gave and the resumptions that took place, as the final state shows them. */
module RingHistory {
  import opened IoStatus
  import opened OneShot
  import opened Ring
  import opened RingInvariant
  import opened RingTheorems
  import RingProgress

  /** The state after the first k steps. */
  ghost function At(s: State, ls: seq<Label>, k: nat): State
    requires Runs(s, ls) && k <= |ls|
    decreases k
  {
    if k == 0 then s else At(Next(s, ls[0]), ls[1..], k - 1)
  }

  lemma {:induction false} AtStep(s: State, ls: seq<Label>, k: nat)
    requires Runs(s, ls) && k < |ls|
    ensures Enabled(At(s, ls, k), ls[k]) && At(s, ls, k + 1) == Next(At(s, ls, k), ls[k])
    decreases k
  {
    hide Enabled, Next;
    if k > 0 {
      AtStep(Next(s, ls[0]), ls[1..], k - 1);
    }
  }

  lemma {:induction false} AtEnd(s: State, ls: seq<Label>)
    requires Runs(s, ls)
    ensures At(s, ls, |ls|) == End(s, ls)
    decreases |ls|
  {
    hide Enabled, Next;
    if ls != [] {
      AtEnd(Next(s, ls[0]), ls[1..]);
    }
  }

  lemma {:induction false} AtInv(ls: seq<Label>, k: nat)
    requires Runs(INIT, ls) && k <= |ls|
    ensures Inv(At(INIT, ls, k))
  {
    hide Inv, Enabled, Next;
    if k == 0 {
      InvInit();
    } else {
      AtInv(ls, k - 1);
      AtStep(INIT, ls, k - 1);
      InvNext(At(INIT, ls, k - 1), ls[k - 1]);
    }
  }

  /** What the theorems leave to the surroundings: in every state, any thread outside may call with any request, the
      kernel may complete any operation in flight with any result, in any order, and a submit may return with any
      part of the queue flushed. */
  lemma SurroundingsAreFree(s: State, t: Tid, req: Request, op: OpId, res: int32)
    ensures t !in s.threads ==> Enabled(s, Call(t, req))
    ensures op in s.inflight ==> Enabled(s, KernelComplete(op, res))
    ensures t in s.threads && s.threads[t].Submitting? ==>
              Enabled(s, SubmitReturn(t)) && (s.sq != [] ==> Enabled(s, KernelTake(t)))
    ensures t in s.threads && s.threads[t].Waiting? && s.lock == None ==> Enabled(s, Lock(t))
  {}

  /* Requests. */

  /** Step i is the last call of thread t before step j, and it passes req. */
  ghost predicate LastCall(ls: seq<Label>, t: Tid, i: int, j: int, req: Request) {
    0 <= i < j <= |ls| && ls[i] == Call(t, req) && forall k :: i < k < j && ls[k].Call? ==> ls[k].t != t
  }

  /** The thread has called and not constructed its await yet. */
  predicate Asking(s: State, t: Tid) { t in s.threads && (s.threads[t].Waiting? || s.threads[t].Locked?) }

  lemma AskingStep(s: State, l: Label, t: Tid)
    requires Enabled(s, l)
    ensures l.Call? && l.t == t ==> Asking(Next(s, l), t) && Next(s, l).threads[t].req == l.req
    ensures !(l.Call? && l.t == t) && Asking(Next(s, l), t) ==>
              Asking(s, t) && Next(s, l).threads[t].req == s.threads[t].req
  {
    if OfCoroutine(l) || OfReaper(l) || l.KernelComplete? {
      RingProgress.QueueStepKeepsThreads(s, l);
      hide Enabled, Next;
    } else {
      SubmitterAsks(s, l, t);
    }
  }

  lemma SubmitterAsks(s: State, l: Label, t: Tid)
    requires Enabled(s, l) && !OfCoroutine(l) && !OfReaper(l) && !l.KernelComplete?
    ensures l.Call? && l.t == t ==> Asking(Next(s, l), t) && Next(s, l).threads[t].req == l.req
    ensures !(l.Call? && l.t == t) && Asking(Next(s, l), t) ==>
              Asking(s, t) && Next(s, l).threads[t].req == s.threads[t].req
  {
    hide BodyFor;
  }

  /** Who is asking asks for what it called with last. */
  lemma {:induction false} AskingIsLastCall(ls: seq<Label>, t: Tid, k: nat)
    requires Runs(INIT, ls) && k <= |ls| && Asking(At(INIT, ls, k), t)
    ensures exists i :: LastCall(ls, t, i, k, At(INIT, ls, k).threads[t].req)
  {
    hide Enabled, Next;
    if k > 0 {
      AtStep(INIT, ls, k - 1);
      AskingStep(At(INIT, ls, k - 1), ls[k - 1], t);
      if ls[k - 1].Call? && ls[k - 1].t == t {
        assert LastCall(ls, t, k - 1, k, ls[k - 1].req);
      } else {
        AskingIsLastCall(ls, t, k - 1);
        var i :| LastCall(ls, t, i, k - 1, At(INIT, ls, k - 1).threads[t].req);
        assert LastCall(ls, t, i, k, At(INIT, ls, k).threads[t].req);
      }
    }
  }

  /** Operation op comes from the call at i, its await constructed at j. */
  ghost predicate ComesFrom(ls: seq<Label>, op: OpId, m: Made, t: Tid, i: int, j: int) {
    0 <= i < j < |ls| && LastCall(ls, t, i, j, m.req) && ls[j] == Construct(t, op, m.addr)
  }

  lemma MadeStep(s: State, l: Label, op: OpId)
    requires Enabled(s, l)
    ensures op in s.made ==> op in Next(s, l).made && Next(s, l).made[op] == s.made[op]
    ensures op !in s.made && op in Next(s, l).made ==>
              l.Construct? && l.op == op && Asking(s, l.t) && Next(s, l).made[op] == Made(l.addr, s.threads[l.t].req)
    ensures l.Construct? && l.op == op ==> op !in s.made && op in Next(s, l).made
  {
    hide Fetch, CellAt, Leads, Woken, BodyFor, TrapCell, PullCell;
  }

  lemma {:induction false} MadeComesFrom(ls: seq<Label>, op: OpId, k: nat)
    requires Runs(INIT, ls) && k <= |ls| && op in At(INIT, ls, k).made
    ensures exists t, i, j :: ComesFrom(ls, op, At(INIT, ls, k).made[op], t, i, j)
  {
    hide Enabled, Next;
    if k > 0 {
      var s := At(INIT, ls, k - 1);
      AtStep(INIT, ls, k - 1);
      MadeStep(s, ls[k - 1], op);
      if op in s.made {
        MadeComesFrom(ls, op, k - 1);
      } else {
        var t := ls[k - 1].t;
        AskingIsLastCall(ls, t, k - 1);
        var i :| LastCall(ls, t, i, k - 1, s.threads[t].req);
        assert ComesFrom(ls, op, At(INIT, ls, k).made[op], t, i, k - 1);
      }
    }
  }

  lemma {:induction false} MadeStays(ls: seq<Label>, op: OpId, j: nat, k: nat)
    requires Runs(INIT, ls) && j < k <= |ls| && ls[j].Construct? && ls[j].op == op
    ensures op in At(INIT, ls, k).made && op !in At(INIT, ls, j).made
  {
    hide Enabled, Next;
    AtStep(INIT, ls, k - 1);
    MadeStep(At(INIT, ls, k - 1), ls[k - 1], op);
    if k > j + 1 {
      MadeStays(ls, op, j, k - 1);
    }
  }

  /** No operation is constructed twice, so it comes from one call only. */
  lemma ComesFromOne(ls: seq<Label>, op: OpId, m: Made, t: Tid, i: int, j: int, m': Made, t': Tid, i': int, j': int)
    requires Runs(INIT, ls) && ComesFrom(ls, op, m, t, i, j) && ComesFrom(ls, op, m', t', i', j')
    ensures m == m' && t == t' && i == i' && j == j'
  {
    if j < j' {
      MadeStays(ls, op, j, j');
      AtStep(INIT, ls, j');
    } else if j' < j {
      MadeStays(ls, op, j', j);
      AtStep(INIT, ls, j);
    }
  }

  /** What the engine carries for an operation constructed at m: the request's own arguments, or the address of
      the header copy in the await, which holds the request's header. */
  ghost predicate Carries(s: State, op: OpId, m: Made) {
    && op in s.made && s.made[op] == m
    && (op in s.inflight ==>
          && s.inflight[op].tag == Some(m.addr)
          && match m.req
             case Plain(args) => s.inflight[op].body == Inline(args)
             case Message(header) =>
               s.inflight[op].body == Header(InAwait(m.addr)) && m.addr in s.heap && s.heap[m.addr].header == Some(header))
    && (op in s.completed <==> op in s.served)
    && (op in s.served ==> s.served[op] == match m.req case Plain(args) => args case Message(header) => header)
  }

  lemma InvCarries(s: State, op: OpId)
    requires Inv(s) && Reachable(s) && op in s.made
    ensures Carries(s, op, s.made[op])
  {
    if op in s.inflight && s.made[op].req.Message? {
      HeaderOutlivesFlight(s, op);
    }
    hide LockInv, SqInv, CqInv, HeapInv, ObjectsInv, PlacesInv, CorosInv, LiveOps, SqOps, CqOps, Reachable;
  }

  lemma LastCallIsBefore(ls: seq<Label>, t: Tid, i: int, j: int, req: Request)
    requires LastCall(ls, t, i, j, req)
    ensures 0 <= i < j
  {}

  /** The caller's request reaches the kernel, over every run: an operation constructed by a thread is that
      thread's last call, and the kernel is handed, and serves, what that call passed. */
  lemma RequestsAreForwarded(ls: seq<Label>, op: OpId, t: Tid, req: Request, addr: Addr, i: nat, j: nat)
    requires Runs(INIT, ls) && LastCall(ls, t, i, j, req) && j < |ls| && ls[j] == Construct(t, op, addr)
    ensures Carries(End(INIT, ls), op, Made(addr, req))
  {
    hide Carries, Enabled, Next, LastCall, Inv;
    MadeStays(ls, op, j, |ls|);
    MadeComesFrom(ls, op, |ls|);
    AtEnd(INIT, ls);
    var m := End(INIT, ls).made[op];
    var t', i', j' :| ComesFrom(ls, op, m, t', i', j');
    LastCallIsBefore(ls, t, i, j, req);
    ComesFromOne(ls, op, Made(addr, req), t, i, j, m, t', i', j');
    AtInv(ls, |ls|);
    assert Reachable(End(INIT, ls));
    InvCarries(End(INIT, ls), op);
  }

  /** Conversely, every operation the engine knows comes from a call, and from one only (ComesFromOne). */
  lemma EveryOperationWasCalled(ls: seq<Label>, op: OpId)
    requires Runs(INIT, ls) && op in End(INIT, ls).made
    ensures exists t, i, j :: ComesFrom(ls, op, End(INIT, ls).made[op], t, i, j)
  {
    AtEnd(INIT, ls);
    MadeComesFrom(ls, op, |ls|);
  }

  /* Results. */

  lemma FlyingIsNotCompleted(s: State, op: OpId)
    requires Inv(s) && op in s.inflight
    ensures op !in s.completed
  {
    hide LockInv, SqInv, FlightInv, CqInv, ReaperInv, HeapInv, ObjectsInv, CorosInv, ServedInv, LiveOps, SqOps, CqOps;
  }

  lemma CompletedStep(s: State, l: Label, op: OpId)
    requires Inv(s) && Enabled(s, l)
    ensures op in s.completed ==> op in Next(s, l).completed && Next(s, l).completed[op] == s.completed[op]
    ensures op !in s.completed && op in Next(s, l).completed ==> l == KernelComplete(op, Next(s, l).completed[op])
    ensures l.KernelComplete? && l.op == op ==> op !in s.completed && op in Next(s, l).completed
  {
    hide Inv;
    if l.KernelComplete? {
      InFlight(s, l);
      FlyingIsNotCompleted(s, l.op);
      hide Next, Enabled;
      CompleteRecords(s, l.op, l.res);
    } else {
      OthersCompleteNothing(s, l);
    }
  }

  lemma CompleteRecords(s: State, op: OpId, res: int32)
    requires Enabled(s, KernelComplete(op, res))
    ensures Next(s, KernelComplete(op, res)).completed == s.completed[op := res]
  {
    hide Fetch;
  }

  lemma OthersCompleteNothing(s: State, l: Label)
    requires Enabled(s, l) && !l.KernelComplete?
    ensures Next(s, l).completed == s.completed
  {
    hide CellAt, Leads, Woken, BodyFor, TrapCell, PullCell;
  }

  lemma InFlight(s: State, l: Label)
    requires l.KernelComplete? && Enabled(s, l)
    ensures l.op in s.inflight
  {}

  lemma {:induction false} CompletedWasTold(ls: seq<Label>, op: OpId, k: nat)
    requires Runs(INIT, ls) && k <= |ls| && op in At(INIT, ls, k).completed
    ensures exists i :: 0 <= i < k && ls[i] == KernelComplete(op, At(INIT, ls, k).completed[op])
  {
    hide Enabled, Next, Inv;
    if k > 0 {
      AtStep(INIT, ls, k - 1);
      AtInv(ls, k - 1);
      CompletedStep(At(INIT, ls, k - 1), ls[k - 1], op);
      if op in At(INIT, ls, k - 1).completed {
        CompletedWasTold(ls, op, k - 1);
      }
    }
  }

  lemma {:induction false} CompletedStays(ls: seq<Label>, op: OpId, res: int32, i: nat, k: nat)
    requires Runs(INIT, ls) && i < k <= |ls| && ls[i] == KernelComplete(op, res)
    ensures op in At(INIT, ls, k).completed && At(INIT, ls, k).completed[op] == res
  {
    hide Enabled, Next, Inv;
    AtStep(INIT, ls, k - 1);
    AtInv(ls, k - 1);
    CompletedStep(At(INIT, ls, k - 1), ls[k - 1], op);
    if k > i + 1 {
      CompletedStays(ls, op, res, i, k - 1);
    }
  }

  /** The kernel's word is kept: an operation is recorded as completed with res exactly if the kernel completed it
      with res, and the kernel does so once. */
  lemma CompletionsAreTold(ls: seq<Label>, op: OpId, res: int32)
    requires Runs(INIT, ls)
    ensures var s := End(INIT, ls);
            op in s.completed && s.completed[op] == res <==> exists i :: 0 <= i < |ls| && ls[i] == KernelComplete(op, res)
    ensures forall i, j :: 0 <= i < j < |ls| && ls[i].KernelComplete? && ls[j].KernelComplete? ==> ls[i].op != ls[j].op
  {
    hide Runs, Inv, Enabled, Next;
    AtEnd(INIT, ls);
    var s := End(INIT, ls);
    if op in s.completed && s.completed[op] == res {
      CompletedWasTold(ls, op, |ls|);
    }
    if i :| 0 <= i < |ls| && ls[i] == KernelComplete(op, res) {
      CompletedStays(ls, op, res, i, |ls|);
    }
    forall i, j | 0 <= i < j < |ls| && ls[i].KernelComplete? && ls[j].KernelComplete? ensures ls[i].op != ls[j].op {
      if ls[i].op == ls[j].op {
        CompletedStays(ls, ls[i].op, ls[i].res, i, j);
        AtStep(INIT, ls, j);
        AtInv(ls, j);
        CompletedStep(At(INIT, ls, j), ls[j], ls[j].op);
      }
    }
  }

  /* Resumptions. */

  function SeenBy(s: State, op: OpId): nat { if op in s.coros then |s.coros[op].seen| else 0 }

  lemma SeenStep(s: State, l: Label, op: OpId)
    requires Inv(s) && Enabled(s, l)
    ensures SeenBy(Next(s, l), op) == SeenBy(s, op) + One(l == Resume(op))
  {
    hide Inv;
    if l.Resume? {
      ResumedIsLive(s, l.op);
      hide Next, Enabled;
      ResumeReads(s, l.op, op);
    } else {
      OthersReadNothing(s, l, op);
    }
  }

  lemma ResumeReads(s: State, op: OpId, x: OpId)
    requires Enabled(s, Resume(op)) && op in s.made && s.made[op].addr in s.heap
    ensures SeenBy(Next(s, Resume(op)), x) == SeenBy(s, x) + One(op == x)
  {}

  lemma OthersReadNothing(s: State, l: Label, op: OpId)
    requires Enabled(s, l) && !l.Resume?
    ensures SeenBy(Next(s, l), op) == SeenBy(s, op)
  {
    hide Fetch, CellAt, Leads, BodyFor, TrapCell, PullCell;
  }

  lemma ResumedIsLive(s: State, op: OpId)
    requires Enabled(s, Resume(op)) && Inv(s)
    ensures op in s.made && s.made[op].addr in s.heap
  {
    hide LockInv, SqInv, FlightInv, CqInv, HeapInv, ObjectsInv, CorosInv, ServedInv, LiveOps, SqOps, CqOps;
    CorosGet(HolderOp(Holder(s.lock, s.threads)), s.coros, s.released, s.completed, op);
    ObjectOf(s.heap.Keys, s.made, s.coros, op);
  }

  function Resumptions(ls: seq<Label>, op: OpId): nat {
    if ls == [] then 0 else One(ls[0] == Resume(op)) + Resumptions(ls[1..], op)
  }

  lemma {:induction false} SeenIsResumptions(s: State, ls: seq<Label>, op: OpId)
    requires Inv(s) && Runs(s, ls)
    ensures SeenBy(End(s, ls), op) == SeenBy(s, op) + Resumptions(ls, op)
    decreases |ls|
  {
    hide Inv, Enabled, Next, SeenBy;
    if ls != [] {
      InvNext(s, ls[0]);
      SeenStep(s, ls[0], op);
      SeenIsResumptions(Next(s, ls[0]), ls[1..], op);
    }
  }

  lemma {:induction false} ResumptionsCount(ls: seq<Label>, op: OpId)
    ensures Resumptions(ls, op) > 0 <==> Resume(op) in ls
  {
    if ls != [] {
      ResumptionsCount(ls[1..], op);
      assert ls == [ls[0]] + ls[1..];
    }
  }

  /** From the kernel to the coroutine, in terms of the labels alone: a coroutine resumes at most once, only if the
      kernel has completed its operation, and what it has read then is exactly the kernel's result. */
  lemma CallersGetTheKernelsResult(ls: seq<Label>, op: OpId)
    requires Runs(INIT, ls)
    ensures Resumptions(ls, op) <= 1
    ensures Resume(op) in ls <==> op in End(INIT, ls).coros && End(INIT, ls).coros[op].seen != []
    ensures Resume(op) in ls ==>
              exists i :: 0 <= i < |ls| && ls[i].KernelComplete? && ls[i].op == op && End(INIT, ls).coros[op].seen == [ls[i].res]
    ensures forall i :: 0 <= i < |ls| && ls[i].KernelComplete? && ls[i].op == op && Resume(op) in ls ==>
              End(INIT, ls).coros[op].seen == [ls[i].res]
  {
    var s := End(INIT, ls);
    assert Reachable(s);
    hide Runs, Inv, Reachable;
    InvInit();
    SeenIsResumptions(INIT, ls, op);
    ResumptionsCount(ls, op);
    AtEnd(INIT, ls);
    AtInv(ls, |ls|);
    if op in s.coros {
      InvKeys(s);
      ResultsAreRouted(s, op);
      if s.coros[op].seen != [] {
        assert s.coros[op].seen == [s.completed[op]];
        CompletedWasTold(ls, op, |ls|);
        forall i | 0 <= i < |ls| && ls[i].KernelComplete? && ls[i].op == op ensures ls[i].res == s.completed[op] {
          CompletedStays(ls, op, ls[i].res, i, |ls|);
        }
      }
    }
  }

  lemma InvKeys(s: State)
    requires Inv(s)
    ensures s.coros.Keys == s.made.Keys
  {}
}
