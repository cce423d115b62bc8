/** The objects of the Linux implementation, their fields updated in place: the await object and the
    ring. An abstraction relation ties them to the states of module Ring, and each operation to the run of
    the engine it performs when nothing interrupts it. */
module RingObjects {
  import opened IoStatus
  import opened OneShot
  import opened Ring
  import RingTheorems

  /** AwaitCore, with the message copy of a VecAwait. The trigger's cell holds the registered handle. */
  class AwaitCore {
    var result: int32
    var cell: Cell
    const header: Option<nat>

    function View(): AwaitObj
      reads this
    {
      AwaitObj(result, cell, header)
    }

    constructor (req: Request)
      ensures View() == AwaitObj(0, Empty, if req.Message? then Some(req.header) else None)
    {
      result, cell := 0, Empty;
      header := if req.Message? then Some(req.header) else None;
    }

    /** True suspends the coroutine; false lets it go on at once. */
    method AwaitSuspend(handle: nat) returns (suspended: bool)
      modifies this
      ensures suspended <==> !old(cell).Pulled?
      ensures View() == old(View()).(cell := if suspended then Trapped(handle) else Pulled)
    {
      var (c, s) := TrapCell(cell, handle);
      cell, suspended := c, s;
    }

    /** First the result, then the pull; `wake` is the handle to schedule. */
    method Release(status: int32) returns (wake: Option<nat>)
      modifies this
      ensures View() == old(View()).(result := status, cell := Pulled)
      ensures wake == if old(cell).Trapped? then Some(old(cell).handle) else None
    {
      result := status;
      var (c, w) := PullCell(cell);
      cell, wake := c, w;
    }

    /** await_resume of a status await, which never reports success nor the errno of a failure. */
    method AwaitResumeStatus() returns (r: Status)
      ensures r == ResumeStatus(result) && r != IO_OK
      ensures result < 0 ==> r == if result == -1 then IO_EOF else IO_UNKNOWN
      ensures result == 0 ==> r == IO_UNKNOWN
    {
      StatusAwaitNeverOk(result);
      r := ResumeStatus(result);
    }

    method AwaitResume() returns (r: IOResult)
      ensures r == MapResult(result)
      ensures r.Success() <==> result >= 0
      ensures r.Success() ==> r.Result() == result
      ensures !r.Success() ==> r.Error() == if result == -1 then IO_EOF else IO_UNKNOWN
    {
      FailureNeverBecomesSuccess(result);
      r := MapResult(result);
    }
  }

  /** The kernel's view after it has taken the first n of the queued SQEs. */
  function Taken(inflight: map<OpId, Sqe>, sq: seq<Sqe>, n: nat): map<OpId, Sqe>
    requires n <= |sq|
  {
    if n == 0 then inflight else Taken(inflight, sq, n - 1)[sq[n - 1].op := sq[n - 1]]
  }

  const ENXIO: int := 6

  class IoRing {
    var locked: bool
    var sq: seq<Sqe>
    var inflight: map<OpId, Sqe>
    var cq: seq<Cqe>
    var awaits: map<Addr, AwaitCore>

    /** The ring and its awaits look as the engine's state says; different addresses hold different objects. */
    ghost predicate Shows(s: State)
      reads this, awaits.Values
    {
      sq == s.sq && inflight == s.inflight && cq == s.cq && (locked <==> s.lock.Some?) && ShowsAwaits(s.heap)
    }

    ghost predicate ShowsAwaits(heap: map<Addr, AwaitObj>)
      reads this, awaits.Values
    {
      && awaits.Keys == heap.Keys && (forall a :: a in awaits ==> awaits[a].View() == heap[a])
      && (forall a, b :: a in awaits && b in awaits && a != b ==> awaits[a] != awaits[b])
    }

    /** io_uring_get_sqe: a slot, or none. */
    method TryGetSqe(op: OpId) returns (ok: bool)
      modifies this`sq
      ensures ok <==> |old(sq)| < QUEUE_DEPTH
      ensures sq == if ok then old(sq) + [Sqe(op, Blank, None)] else old(sq)
    {
      ok := |sq| < QUEUE_DEPTH;
      if ok {
        sq := sq + [Sqe(op, Blank, None)];
      }
    }

    /** get_sqe, cut off after `tries` turns of its retry loop: however long it spins, it gets a slot
        exactly if its first try does (over whole runs: RingJam.GetSqeReturnsIffSlotFree). */
    method GetSqe(op: OpId, tries: nat) returns (ok: bool)
      requires tries > 0
      modifies this`sq
      ensures ok <==> |old(sq)| < QUEUE_DEPTH
      ensures sq == if ok then old(sq) + [Sqe(op, Blank, None)] else old(sq)
    {
      ok := false;
      var n := 0;
      while !ok && n < tries
        invariant n <= tries
        invariant ok ==> |old(sq)| < QUEUE_DEPTH && sq == old(sq) + [Sqe(op, Blank, None)]
        invariant !ok ==> sq == old(sq) && (n > 0 ==> |sq| >= QUEUE_DEPTH)
      {
        ok := TryGetSqe(op);
        n := n + 1;
      }
    }

    /** io_uring_submit: the kernel takes some prefix of what is queued, one SQE after another. */
    method Submit(flushed: nat)
      requires flushed <= |sq|
      modifies this`sq, this`inflight
      ensures sq == old(sq)[flushed..] && inflight == Taken(old(inflight), old(sq), flushed)
    {
      var n := 0;
      while n < flushed
        invariant n <= flushed && sq == old(sq)[n..] && inflight == Taken(old(inflight), old(sq), n)
      {
        inflight := inflight[sq[0].op := sq[0]];
        sq := sq[1..];
        n := n + 1;
      }
    }

    /** io_plain and io_message: the await is constructed, its SQE filled, tagged with the await's own
        address and submitted, all under the lock. On a full queue the call is still inside, holding the
        lock with nothing queued, after any number of tries. */
    method Start(req: Request, op: OpId, addr: Addr, flushed: nat, tries: nat) returns (a: AwaitCore, done: bool)
      requires !locked && addr !in awaits && flushed <= |sq| + 1 && tries > 0
      modifies this
      ensures fresh(a) && a.View() == AwaitObj(0, Empty, if req.Message? then Some(req.header) else None)
      ensures awaits == old(awaits)[addr := a] && cq == old(cq)
      ensures done <==> |old(sq)| < QUEUE_DEPTH
      ensures done ==>
                var q := old(sq) + [Sqe(op, BodyFor(req, addr), Some(addr))];
                !locked && sq == q[flushed..] && inflight == Taken(old(inflight), q, flushed)
      ensures !done ==> locked && sq == old(sq) && inflight == old(inflight)
    {
      locked := true;
      a := new AwaitCore(req);
      awaits := awaits[addr := a];
      done := GetSqe(op, tries);
      if done {
        sq := sq[|sq| - 1 := sq[|sq| - 1].(body := BodyFor(req, addr))];
        sq := sq[|sq| - 1 := sq[|sq| - 1].(tag := Some(addr))];
        assert sq == old(sq) + [Sqe(op, BodyFor(req, addr), Some(addr))];
        Submit(flushed);
        locked := false;
      }
    }

    /** One turn of the reaper, where io_uring_wait_cqe returned `ret`. Zero comes with a CQE: release the
        await it is tagged with, then mark it as seen. That the tag leads to an await is
        RingTheorems.ReaperWorksOnLiveAwait. The stop test is for the positive ENXIO, so the negative
        error numbers that liburing returns never stop the reaper. */
    method WaitOne(ret: int) returns (again: bool, wake: Option<nat>)
      requires ret == 0 ==> cq != [] && cq[0].tag.Some? && cq[0].tag.value in awaits
      modifies this`cq, if cq != [] && cq[0].tag.Some? && cq[0].tag.value in awaits then {awaits[cq[0].tag.value]} else {}
      ensures ret <= 0 ==> again
      ensures ret > 0 ==> (again <==> ret != ENXIO)
      ensures ret != 0 ==> wake == None && cq == old(cq) && forall a :: a in awaits ==> awaits[a].View() == old(awaits[a].View())
      ensures ret == 0 ==>
                var a := old(awaits[cq[0].tag.value]);
                && cq == old(cq)[1..]
                && a.View() == old(a.View()).(result := old(cq[0].res), cell := Pulled)
                && wake == if old(a.cell).Trapped? then Some(old(a.cell).handle) else None
    {
      again, wake := ret != ENXIO, None;
      if ret == 0 {
        var cqe := cq[0];
        wake := awaits[cqe.tag.value].Release(cqe.res);
        cq := cq[1..];
        again := true;
      }
    }
  }

  /** An uninterrupted wait_one is the run ReaperRead, StoreResult, Pull, Seen: it leaves the object at
      the CQE's address exactly as Release does and wakes exactly the trapped handle. */
  lemma WaitOneIsARun(s: State, a: Addr)
    requires s.reaper.Idle? && s.cq != [] && s.cq[0].tag == Some(a) && a in s.heap
    ensures Reaches(s, s.(cq := s.cq[1..],
                          heap := s.heap[a := s.heap[a].(result := s.cq[0].res, cell := Pulled)],
                          coros := Woken(s.coros, PullCell(s.heap[a].cell).1),
                          released := s.released + {s.cq[0].op}))
  {
    hide Reaches, Woken;
    ReachesSelf(s);
    var s1 := Next(s, ReaperRead);
    ReachesNext(s, s, ReaperRead);
    var s2 := s1.(heap := s.heap[a := s.heap[a].(result := s.cq[0].res)], reaper := Stored);
    ReachesNext(s, s1, StoreResult);
    PullIsARun(s, s2, a);
    assert s2.heap[a := s2.heap[a].(cell := Pulled)] == s.heap[a := s.heap[a].(result := s.cq[0].res, cell := Pulled)];
  }

  lemma PullIsARun(s: State, m: State, a: Addr)
    requires Reaches(s, m) && m.reaper.Stored? && m.cq != [] && m.cq[0].tag == Some(a) && a in m.heap
    ensures Reaches(s, m.(cq := m.cq[1..], reaper := Idle, heap := m.heap[a := m.heap[a].(cell := Pulled)],
                          coros := Woken(m.coros, PullCell(m.heap[a].cell).1),
                          released := m.released + {m.cq[0].op}))
  {
    hide Reaches, Woken;
    ReachesNext(s, m, Pull);
    ReachesNext(s, DoPull(m), Seen);
  }

  /** A waiting thread has taken the lock and constructed its await. */
  function Entered(s: State, t: Tid, op: OpId, addr: Addr): State
    requires t in s.threads && s.threads[t].Waiting?
  {
    var req := s.threads[t].req;
    s.(lock := Some(t), threads := s.threads[t := Constructed(op)],
       heap := s.heap[addr := AwaitObj(0, Empty, if req.Message? then Some(req.header) else None)],
       made := s.made[op := Made(addr, req)],
       coros := s.coros[op := Coro(Building, 0, [])])
  }

  /** ... and has queued its SQE and left, n SQEs having gone to the kernel. */
  function Started(s: State, t: Tid, op: OpId, addr: Addr, n: nat): State
    requires t in s.threads && s.threads[t].Waiting? && n <= |s.sq| + 1
  {
    var req := s.threads[t].req;
    var q := s.sq + [Sqe(op, BodyFor(req, addr), Some(addr))];
    Entered(s, t, op, addr).(lock := None, threads := s.threads - {t}, sq := q[n..], inflight := Taken(s.inflight, q, n),
                             coros := s.coros[op := Coro(Ready, 0, [])])
  }

  predicate CanEnter(s: State, t: Tid, op: OpId, addr: Addr) {
    t in s.threads && s.threads[t].Waiting? && s.lock == None && op !in s.made && op !in s.coros && addr !in s.heap
  }

  lemma EnterIsARun(s: State, t: Tid, op: OpId, addr: Addr)
    requires CanEnter(s, t, op, addr)
    ensures Reaches(s, Entered(s, t, op, addr))
  {
    hide Reaches;
    ReachesSelf(s);
    var s1 := Next(s, Lock(t));
    ReachesNext(s, s, Lock(t));
    ReachesNext(s, s1, Construct(t, op, addr));
    assert DoConstruct(s1, t, op, addr) == Entered(s, t, op, addr) by {
      assert s1.threads[t := Constructed(op)] == s.threads[t := Constructed(op)];
    }
  }

  /** An uninterrupted io_plain or io_message, from waiting for the lock to giving it back, with n SQEs flushed,
      is a run of the engine: it constructs, queues, tags and submits exactly as Start does. */
  lemma StartIsARun(s: State, t: Tid, op: OpId, addr: Addr, n: nat)
    requires CanEnter(s, t, op, addr) && |s.sq| < QUEUE_DEPTH && n <= |s.sq| + 1
    ensures Reaches(s, Started(s, t, op, addr, n))
  {
    hide Reaches, BodyFor, Taken;
    EnterIsARun(s, t, op, addr);
    var s1 := FillRun(s, Entered(s, t, op, addr), t);
    var s2 := TakeRun(s, s1, t, n);
    LeaveRun(s, s2, t);
    LeftIsStarted(s, t, op, addr, n);
  }

  lemma LeftIsStarted(s: State, t: Tid, op: OpId, addr: Addr, n: nat)
    requires CanEnter(s, t, op, addr) && n <= |s.sq| + 1
    ensures var e := Entered(s, t, op, addr);
            var q := s.sq + [Sqe(op, BodyFor(s.threads[t].req, addr), Some(addr))];
            var m := e.(threads := e.threads[t := Submitting(op)], sq := q[n..], inflight := Taken(s.inflight, q, n));
            Next(Next(m, SubmitReturn(t)), Unlock(t)) == Started(s, t, op, addr, n)
  {
    hide BodyFor, Taken;
    assert s.threads[t := Constructed(op)][t := Submitting(op)][t := Submitted(op)] - {t} == s.threads - {t};
    assert s.coros[op := Coro(Building, 0, [])][op := Coro(Ready, 0, [])] == s.coros[op := Coro(Ready, 0, [])];
  }

  lemma LeaveRun(s: State, m: State, t: Tid)
    requires Reaches(s, m) && t in m.threads && m.threads[t].Submitting? && m.threads[t].op in m.coros
    ensures Reaches(s, Next(Next(m, SubmitReturn(t)), Unlock(t)))
  {
    hide Reaches;
    ReachesNext(s, m, SubmitReturn(t));
    ReachesNext(s, Next(m, SubmitReturn(t)), Unlock(t));
  }

  lemma FillRun(s: State, m: State, t: Tid) returns (s': State)
    requires Reaches(s, m)
    requires t in m.threads && m.threads[t].Constructed? && m.threads[t].op in m.made && |m.sq| < QUEUE_DEPTH
    ensures Reaches(s, s')
    ensures var op := m.threads[t].op;
            var e := Sqe(op, BodyFor(m.made[op].req, m.made[op].addr), Some(m.made[op].addr));
            s' == m.(threads := m.threads[t := Submitting(op)], sq := m.sq + [e])
  {
    hide Reaches, BodyFor;
    var s1 := Next(m, GetSqe(t));
    ReachesNext(s, m, GetSqe(t));
    var s2 := DoPrep(s1, t);
    ReachesNext(s, s1, Prep(t));
    s' := DoSetData(s2, t);
    ReachesNext(s, s2, SetData(t));
    var op := m.threads[t].op;
    assert s'.sq == m.sq + [Sqe(op, BodyFor(m.made[op].req, m.made[op].addr), Some(m.made[op].addr))];
    assert s'.threads == m.threads[t := Submitting(op)];
  }

  lemma {:induction false} TakeRun(s: State, m: State, t: Tid, n: nat) returns (s': State)
    requires Reaches(s, m) && t in m.threads && m.threads[t].Submitting? && n <= |m.sq|
    ensures Reaches(s, s') && s' == m.(sq := m.sq[n..], inflight := Taken(m.inflight, m.sq, n))
  {
    hide Reaches;
    if n == 0 {
      s' := m;
      assert m.sq[0..] == m.sq;
    } else {
      var p := TakeRun(s, m, t, n - 1);
      s' := Next(p, KernelTake(t));
      ReachesNext(s, p, KernelTake(t));
      assert m.sq[n - 1..][1..] == m.sq[n..];
    }
  }

  /* The objects on the engine. */

  /** Start, with the await it constructs on view. */
  method StartShown(r: IoRing, ghost heap: map<Addr, AwaitObj>, req: Request, op: OpId, addr: Addr, flushed: nat, tries: nat)
    returns (a: AwaitCore, done: bool)
    requires !r.locked && addr !in r.awaits && flushed <= |r.sq| + 1 && tries > 0 && r.ShowsAwaits(heap)
    modifies r
    ensures r.ShowsAwaits(heap[addr := AwaitObj(0, Empty, if req.Message? then Some(req.header) else None)])
    ensures addr in r.awaits && r.awaits[addr] == a && r.cq == old(r.cq)
    ensures done <==> |old(r.sq)| < QUEUE_DEPTH
    ensures done ==>
              var q := old(r.sq) + [Sqe(op, BodyFor(req, addr), Some(addr))];
              !r.locked && r.sq == q[flushed..] && r.inflight == Taken(old(r.inflight), q, flushed)
    ensures !done ==> r.locked && r.sq == old(r.sq) && r.inflight == old(r.inflight)
  {
    hide BodyFor, Taken;
    a, done := r.Start(req, op, addr, flushed, tries);
  }

  /** io_plain and io_message: if a slot is free the engine has run through the whole call, and otherwise the
      call holds the lock inside get_sqe, from where it cannot go on (RingJam.GetSqeReturnsIffSlotFree). */
  method StartOnEngine(r: IoRing, ghost s: State, t: Tid, req: Request, op: OpId, addr: Addr, flushed: nat, tries: nat)
    returns (a: AwaitCore, done: bool, ghost s': State)
    requires r.Shows(s) && CanEnter(s, t, op, addr) && s.threads[t] == Waiting(req)
    requires flushed <= |s.sq| + 1 && tries > 0
    modifies r
    ensures Reaches(s, s') && r.Shows(s') && addr in r.awaits && r.awaits[addr] == a
    ensures done <==> |s.sq| < QUEUE_DEPTH
    ensures s' == if done then Started(s, t, op, addr, flushed) else Entered(s, t, op, addr)
  {
    assert addr !in r.awaits;
    hide Reaches, BodyFor, Taken, IoRing.ShowsAwaits;
    a, done := StartShown(r, s.heap, req, op, addr, flushed, tries);
    if done {
      StartIsARun(s, t, op, addr, flushed);
      s' := Started(s, t, op, addr, flushed);
    } else {
      EnterIsARun(s, t, op, addr);
      s' := Entered(s, t, op, addr);
    }
  }

  /** wait_one, in any state the engine can be in when the reaper is about to turn. */
  method WaitOneOnEngine(r: IoRing, ghost s: State) returns (wake: Option<nat>, ghost s': State)
    requires r.Shows(s) && Reachable(s) && s.reaper.Idle? && s.cq != []
    modifies r, r.awaits.Values
    ensures Reaches(s, s') && r.Shows(s')
    ensures s'.cq == s.cq[1..] && s'.released == s.released + {s.cq[0].op} && s'.coros == Woken(s.coros, wake)
  {
    hide Reaches, Woken, Reachable;
    RingTheorems.ReaperWorksOnLiveAwait(s);
    ghost var a := s.cq[0].tag.value;
    WaitOneIsARun(s, a);
    s' := s.(cq := s.cq[1..], heap := s.heap[a := s.heap[a].(result := s.cq[0].res, cell := Pulled)],
             coros := Woken(s.coros, PullCell(s.heap[a].cell).1), released := s.released + {s.cq[0].op});
    var again;
    again, wake := r.WaitOne(0);
  }

  /** await_suspend of the coroutine that owns operation op. */
  method SuspendOnEngine(r: IoRing, ghost s: State, op: OpId, addr: Addr) returns (suspended: bool)
    requires r.Shows(s) && Enabled(s, Trap(op)) && s.made[op].addr == addr && addr in r.awaits
    modifies r.awaits[addr]
    ensures r.Shows(Next(s, Trap(op)))
    ensures suspended <==> Next(s, Trap(op)).coros[op].tickets == s.coros[op].tickets
  {
    suspended := r.awaits[addr].AwaitSuspend(op);
  }

  /** await_resume of a coroutine that may go on: it returns what map_result makes of the very result its
      operation was completed with. */
  method ResumeOnEngine(r: IoRing, ghost s: State, op: OpId, addr: Addr) returns (res: IOResult)
    requires r.Shows(s) && Reachable(s) && Enabled(s, Resume(op)) && s.made[op].addr == addr && addr in r.awaits
    ensures r.Shows(Next(s, Resume(op))) && op in s.completed && res == MapResult(s.completed[op])
  {
    hide MapResult, Reachable;
    RingTheorems.WokenExactlyOnce(s, op);
    res := r.awaits[addr].AwaitResume();
  }
}
