/** Progress of the completion engine: the exact number of steps left, draining under full flushes, and
    the queue that can jam when a submit flushes only a prefix. */
module RingProgress {
  import opened IoStatus
  import opened OneShot
  import opened Finite
  import opened Ring
  import opened RingInvariant
  import opened RingTheorems

  /** Steps left for a thread, counting those of the SQE and the coroutine it still has to create. */
  function PcWork(pc: Pc): nat {
    match pc
    case Waiting(_) => 16
    case Locked(_) => 15
    case Constructed(_) => 11
    case GotSqe(_) => 4
    case Prepared(_) => 3
    case Submitting(_) => 2
    case Submitted(_) => 1
  }

  function StageWork(g: Stage): nat {
    match g
    case Building => 3
    case Ready => 3
    case Awaiting => 2
    case Resumed => 1
    case Destroyed => 0
  }

  function ReaperDone(r: Reaper): nat {
    match r case Idle => 0 case Holding => 1 case Stored => 2 case Released => 3
  }

  function ThreadWork(threads: map<Tid, Pc>): map<Tid, nat> {
    map t | t in threads :: PcWork(threads[t])
  }

  function CoroWork(coros: map<OpId, Coro>): map<OpId, nat> {
    map op | op in coros :: StageWork(coros[op].stage)
  }

  /** The number of steps that remain, however they interleave. */
  ghost function Work(s: State): int {
    Sum(ThreadWork(s.threads)) + 6 * |s.sq| + 5 * |s.inflight| + 4 * |s.cq| - ReaperDone(s.reaper)
    + Sum(CoroWork(s.coros))
  }

  lemma ThreadMoves(threads: map<Tid, Pc>, t: Tid, pc: Pc)
    ensures Sum(ThreadWork(threads[t := pc])) ==
            Sum(ThreadWork(threads)) - (if t in threads then PcWork(threads[t]) else 0) + PcWork(pc)
  {
    assert ThreadWork(threads[t := pc]) == ThreadWork(threads)[t := PcWork(pc)];
    SumUpdate(ThreadWork(threads), t, PcWork(pc));
  }

  lemma ThreadLeaves(threads: map<Tid, Pc>, t: Tid)
    requires t in threads
    ensures Sum(ThreadWork(threads - {t})) == Sum(ThreadWork(threads)) - PcWork(threads[t])
  {
    assert ThreadWork(threads - {t}) == ThreadWork(threads) - {t};
    SumRemove(ThreadWork(threads), t);
  }

  lemma CoroMoves(coros: map<OpId, Coro>, op: OpId, k: Coro)
    ensures Sum(CoroWork(coros[op := k])) ==
            Sum(CoroWork(coros)) - (if op in coros then StageWork(coros[op].stage) else 0) + StageWork(k.stage)
  {
    assert CoroWork(coros[op := k]) == CoroWork(coros)[op := StageWork(k.stage)];
    SumUpdate(CoroWork(coros), op, StageWork(k.stage));
  }

  /** A step that neither brings in a new call nor merely spins. */
  predicate Works(l: Label) {
    !l.Call? && !l.Spin?
  }

  /** The head CQE is never lost to a bad address: pulling leaves the stages alone. */
  lemma PullKeepsStages(s: State)
    requires Enabled(s, Pull)
    ensures CoroWork(DoPull(s).coros) == CoroWork(s.coros)
  {}

  lemma WorkOfThread(s: State, l: Label)
    requires Inv(s) && Enabled(s, l) && Works(l) && !OfReaper(l) && !OfCoroutine(l) && !l.KernelComplete?
    ensures Work(Next(s, l)) == Work(s) - 1
  {
    hide Inv, Work, Next, Enabled;
    match l
    case Construct(t, op, addr) => WorkOfConstruct(s, t, op, addr);
    case KernelTake(t) => HeadNotInFlight(s, t); WorkOfTake(s, t);
    case Unlock(t) => UnlockerIsBuilding(s, t); WorkOfUnlock(s, t);
    case _ => WorkOfSlot(s, l);
  }

  lemma WorkOfSlot(s: State, l: Label)
    requires Enabled(s, l) && (l.Lock? || l.GetSqe? || l.Prep? || l.SetData? || l.SubmitReturn?)
    ensures Work(Next(s, l)) == Work(s) - 1
  {
    hide Sum, ThreadWork, CoroWork, BodyFor;
    ThreadMoves(s.threads, l.t, Next(s, l).threads[l.t]);
  }

  lemma WorkOfConstruct(s: State, t: Tid, op: OpId, addr: Addr)
    requires Enabled(s, Construct(t, op, addr))
    ensures Work(Next(s, Construct(t, op, addr))) == Work(s) - 1
  {
    hide Sum, ThreadWork, CoroWork;
    ThreadMoves(s.threads, t, Constructed(op));
    CoroMoves(s.coros, op, Coro(Building, 0, []));
  }

  lemma WorkOfTake(s: State, t: Tid)
    requires Enabled(s, KernelTake(t)) && s.sq[0].op !in s.inflight
    ensures Work(Next(s, KernelTake(t))) == Work(s) - 1
  {
    hide Sum, ThreadWork, CoroWork;
  }

  lemma WorkOfUnlock(s: State, t: Tid)
    requires Enabled(s, Unlock(t)) && s.coros[s.threads[t].op].stage.Building?
    ensures Work(Next(s, Unlock(t))) == Work(s) - 1
  {
    hide Sum, ThreadWork, CoroWork;
    var op := s.threads[t].op;
    ThreadLeaves(s.threads, t);
    CoroMoves(s.coros, op, s.coros[op].(stage := Ready));
  }

  lemma UnlockerIsBuilding(s: State, t: Tid)
    requires Inv(s) && Enabled(s, Unlock(t))
    ensures s.coros[s.threads[t].op].stage.Building?
  {
    HolderIsBuilding(s, t);
  }

  lemma HeadNotInFlight(s: State, t: Tid)
    requires Inv(s) && Enabled(s, KernelTake(t))
    ensures s.sq[0].op !in s.inflight
  {
    hide LockInv, SqInv, FlightInv, CqInv, HeapInv, ObjectsInv, CorosInv, ServedInv, LiveOps, CqOps;
    assert s.sq[0] in s.sq && s.sq[0].op in SqOps(s.sq);
  }

  lemma HolderIsBuilding(s: State, t: Tid)
    requires Inv(s) && t in s.threads && !s.threads[t].Waiting? && !s.threads[t].Locked?
    ensures s.lock == Some(t) && s.threads[t].op in s.coros && s.coros[s.threads[t].op].stage == Building
    ensures s.threads[t].op in s.made
  {
    hide SqInv, FlightInv, CqInv, HeapInv, ObjectsInv, CorosInv, ServedInv, LiveOps, SqOps, CqOps;
    LockMove(s.lock, s.threads, t, s.threads[t]);
    CorosGet(Some(s.threads[t].op), s.coros, s.released, s.completed, s.threads[t].op);
  }

  lemma WorkOfTrap(s: State, op: OpId)
    requires Enabled(s, Trap(op))
    ensures Work(DoTrap(s, op)) == Work(s) - 1
  {
    hide Sum, ThreadWork, CoroWork, TrapCell, CellAt, Leads;
    CoroMoves(s.coros, op, DoTrap(s, op).coros[op]);
  }

  lemma WorkOfResume(s: State, op: OpId)
    requires Enabled(s, Resume(op)) && s.coros[op].stage.Awaiting?
    ensures Work(DoResume(s, op)) == Work(s) - 1
  {
    hide Sum, ThreadWork, CoroWork;
    CoroMoves(s.coros, op, DoResume(s, op).coros[op]);
  }

  lemma TicketHolderAwaits(s: State, op: OpId)
    requires Inv(s) && op in s.coros && s.coros[op].tickets > 0
    ensures s.coros[op].stage.Awaiting?
  {
    hide LockInv, SqInv, FlightInv, CqInv, HeapInv, ObjectsInv, CorosInv, PlacesInv, ReaperInv, ServedInv, LiveOps,
      SqOps, CqOps;
    CorosGet(HolderOp(Holder(s.lock, s.threads)), s.coros, s.released, s.completed, op);
  }

  lemma WorkOfDestroy(s: State, op: OpId)
    requires Enabled(s, Destroy(op))
    ensures Work(Next(s, Destroy(op))) == Work(s) - 1
  {
    hide Sum, ThreadWork, CoroWork;
    var s' := Next(s, Destroy(op));
    CoroMoves(s.coros, op, s'.coros[op]);
    assert s'.coros == s.coros[op := s'.coros[op]];
  }

  lemma OneLess<K, V>(m: map<K, V>, k: K)
    requires k in m
    ensures |m - {k}| == |m| - 1
  {
    assert m == (m - {k})[k := m[k]];
  }

  lemma WorkOfComplete(s: State, op: OpId, res: int32)
    requires Enabled(s, KernelComplete(op, res))
    ensures Work(DoComplete(s, op, res)) == Work(s) - 1
  {
    hide Work, DoComplete;
    OneLess(s.inflight, op);
    WorkOfShorterFlight(s, op, res);
  }

  lemma WorkOfShorterFlight(s: State, op: OpId, res: int32)
    requires Enabled(s, KernelComplete(op, res)) && |s.inflight - {op}| == |s.inflight| - 1
    ensures Work(DoComplete(s, op, res)) == Work(s) - 1
  {
    hide Sum, ThreadWork, CoroWork, Fetch;
  }

  lemma WorkOfStore(s: State)
    requires Enabled(s, StoreResult)
    ensures Work(DoStore(s)) == Work(s) - 1
  {
    hide Sum, ThreadWork, CoroWork;
  }

  lemma WorkOfPull(s: State)
    requires Enabled(s, Pull)
    ensures Work(DoPull(s)) == Work(s) - 1
  {
    PullKeepsStages(s);
    hide Sum, ThreadWork, CoroWork, PullCell, Woken, CellAt, Leads;
  }

  lemma WorkOfReadAndSeen(s: State)
    ensures Enabled(s, ReaperRead) ==> Work(Next(s, ReaperRead)) == Work(s) - 1
    ensures Enabled(s, Seen) ==> Work(Next(s, Seen)) == Work(s) - 1
  {
    hide Sum, ThreadWork, CoroWork;
  }

  /** Every step but a spin or a new call brings the engine exactly one step closer to quiescence. */
  lemma EachStepIsOneStepCloser(s: State, l: Label)
    requires Inv(s) && Enabled(s, l) && Works(l)
    ensures Work(Next(s, l)) == Work(s) - 1
  {
    hide Inv, Work;
    match l
    case KernelComplete(op, res) => WorkOfComplete(s, op, res);
    case ReaperRead => WorkOfReadAndSeen(s);
    case StoreResult => WorkOfStore(s);
    case Pull => WorkOfPull(s);
    case Seen => WorkOfReadAndSeen(s);
    case Trap(op) => WorkOfTrap(s, op);
    case Resume(op) => TicketHolderAwaits(s, op); WorkOfResume(s, op);
    case Destroy(op) => WorkOfDestroy(s, op);
    case _ => WorkOfThread(s, l);
  }

  /** Nothing is left to do: no thread is submitting, every queue is empty, and every await has been
      resumed and destroyed. */
  ghost predicate Quiescent(s: State) {
    && s.threads == map[] && s.sq == [] && s.inflight == map[] && s.cq == [] && s.heap == map[]
    && (forall op :: op in s.made ==>
          op in s.coros && s.coros[op].stage.Destroyed? && op in s.completed && s.coros[op].seen == [s.completed[op]])
  }

  /* Full flushes. */

  /** io_uring_submit has handed everything queued to the kernel when it returns. */
  predicate FlushesFully(s: State, l: Label) {
    l.SubmitReturn? ==> s.sq == []
  }

  ghost predicate FullRuns(s: State, ls: seq<Label>)
    decreases |ls|
  {
    ls == [] || (Enabled(s, ls[0]) && FlushesFully(s, ls[0]) && FullRuns(Next(s, ls[0]), ls[1..]))
  }

  lemma {:induction false} FullRunsAreRuns(s: State, ls: seq<Label>)
    requires FullRuns(s, ls)
    ensures Runs(s, ls)
    decreases |ls|
  {
    hide Enabled, Next, FlushesFully;
    if ls != [] {
      FullRunsAreRuns(Next(s, ls[0]), ls[1..]);
    }
  }

  /** Only the lock holder's own SQE is ever queued. */
  predicate OwnSqeOnly(h: Option<Pc>, queued: nat) {
    match h
    case None => queued == 0
    case Some(GotSqe(_)) => queued == 1
    case Some(Prepared(_)) => queued == 1
    case Some(Submitting(_)) => queued <= 1
    case _ => queued == 0
  }

  ghost predicate FullInv(s: State) {
    OwnSqeOnly(Holder(s.lock, s.threads), |s.sq|)
  }

  lemma FullInvNext(s: State, l: Label)
    requires Inv(s) && FullInv(s) && Enabled(s, l) && FlushesFully(s, l)
    ensures FullInv(Next(s, l)) && !l.Spin?
  {
    hide SqInv, FlightInv, CqInv, HeapInv, ObjectsInv, CorosInv, PlacesInv, ReaperInv, ServedInv, LiveOps, SqOps,
      CqOps, DoStore, DoPull, DoTrap, DoResume, Fetch;
    if OfCoroutine(l) || OfReaper(l) || l.KernelComplete? {
      QueueStepKeepsThreads(s, l);
    } else if l.Call? {
      LockArrive(s.lock, s.threads, l.t, Waiting(l.req));
    } else if !l.Lock? {
      LockMove(s.lock, s.threads, l.t, s.threads[l.t]);
    }
  }

  predicate SameSubmitters(s: State, s': State) {
    s'.threads == s.threads && s'.lock == s.lock && s'.sq == s.sq
  }

  lemma QueueStepKeepsThreads(s: State, l: Label)
    requires Enabled(s, l) && (OfCoroutine(l) || OfReaper(l) || l.KernelComplete?)
    ensures SameSubmitters(s, Next(s, l))
  {
    hide SameSubmitters, Enabled, Next;
    if OfCoroutine(l) {
      CoroutineKeepsSubmitters(s, l);
    } else {
      ReaperKeepsSubmitters(s, l);
    }
  }

  lemma CoroutineKeepsSubmitters(s: State, l: Label)
    requires Enabled(s, l) && OfCoroutine(l)
    ensures SameSubmitters(s, Next(s, l))
  {
    hide TrapCell, CellAt, Leads;
  }

  lemma ReaperKeepsSubmitters(s: State, l: Label)
    requires Enabled(s, l) && (OfReaper(l) || l.KernelComplete?)
    ensures SameSubmitters(s, Next(s, l))
  {
    hide PullCell, Woken, Fetch, CellAt, Leads;
  }

  /** With full flushes the submission queue is empty whenever the lock is free, so get_sqe, which only
      the lock holder calls, always finds a slot at once. */
  lemma {:induction false} FullRunsNeverSpin(s: State, ls: seq<Label>)
    requires Inv(s) && FullInv(s) && FullRuns(s, ls)
    ensures Runs(s, ls) && Inv(End(s, ls)) && FullInv(End(s, ls))
    ensures End(s, ls).lock == None ==> End(s, ls).sq == []
    ensures forall l :: l in ls ==> !l.Spin?
    decreases |ls|
  {
    hide Inv, Enabled, Next, FlushesFully;
    if ls != [] {
      FullInvNext(s, ls[0]);
      InvNext(s, ls[0]);
      FullRunsNeverSpin(Next(s, ls[0]), ls[1..]);
    }
  }

  /** What the lock holder does next. */
  lemma HolderMoves(s: State, t: Tid) returns (l: Label)
    requires Inv(s) && FullInv(s) && t in s.threads && s.lock == Some(t)
    ensures Enabled(s, l) && Works(l) && FlushesFully(s, l)
  {
    hide LockInv, FlightInv, CqInv, HeapInv, ObjectsInv, CorosInv, PlacesInv, ReaperInv, ServedInv, LiveOps, SqOps, CqOps;
    HolderIsActive(s, t);
    match s.threads[t]
    case Locked(_) =>
      var op := Fresh(s.made.Keys);
      var a := Fresh(s.heap.Keys);
      l := Construct(t, op, a);
    case Constructed(_) => HolderIsBuilding(s, t); l := GetSqe(t);
    case GotSqe(_) => HolderIsBuilding(s, t); l := Prep(t);
    case Prepared(_) => HolderIsBuilding(s, t); l := SetData(t);
    case Submitting(_) => l := if s.sq == [] then SubmitReturn(t) else KernelTake(t);
    case Submitted(_) => HolderIsBuilding(s, t); l := Unlock(t);
  }

  lemma HolderIsActive(s: State, t: Tid)
    requires Inv(s) && t in s.threads
    ensures s.lock == Some(t) <==> !s.threads[t].Waiting?
  {}

  lemma ReaperMoves(s: State) returns (l: Label)
    requires s.cq != []
    ensures Enabled(s, l) && Works(l) && FlushesFully(s, l)
  {
    l := match s.reaper case Idle => ReaperRead case Holding => StoreResult case Stored => Pull case Released => Seen;
  }

  /** With no submitter and empty queues, every operation has been released, so its coroutine can go on. */
  lemma CoroutineMoves(s: State, op: OpId) returns (l: Label)
    requires Inv(s) && s.threads == map[] && s.sq == [] && s.inflight == map[] && s.cq == []
    requires op in s.coros && !s.coros[op].stage.Destroyed?
    ensures Enabled(s, l) && Works(l) && FlushesFully(s, l)
  {
    hide LockInv, SqInv, FlightInv, CqInv, HeapInv, ObjectsInv, ReaperInv, ServedInv, LiveOps;
    CorosGet(HolderOp(Holder(s.lock, s.threads)), s.coros, s.released, s.completed, op);
    assert op in s.released;
    l := if s.coros[op].stage.Ready? then Trap(op) else if s.coros[op].stage.Awaiting? then Resume(op) else Destroy(op);
  }

  lemma AllDestroyedIsQuiescent(s: State)
    requires Inv(s) && s.threads == map[] && s.sq == [] && s.inflight == map[] && s.cq == []
    requires forall op :: op in s.coros ==> s.coros[op].stage.Destroyed?
    ensures Quiescent(s)
  {
    hide LockInv, SqInv, FlightInv, CqInv, PlacesInv, ObjectsInv, ReaperInv, ServedInv;
    assert LiveOps(s.coros) == {};
    assert s.heap.Keys == {};
    forall op | op in s.made ensures CoroOk(op, s.coros[op], HolderOp(Holder(s.lock, s.threads)), s.released, s.completed) {}
  }

  /** While anything is left to do, some step other than a spin can be taken. */
  lemma SomethingMoves(s: State) returns (l: Label)
    requires Inv(s) && FullInv(s) && !Quiescent(s)
    ensures Enabled(s, l) && Works(l) && FlushesFully(s, l)
  {
    hide Quiescent, Enabled, SqInv, FlightInv, CqInv, HeapInv, ObjectsInv, CorosInv, PlacesInv, ReaperInv, ServedInv,
      LiveOps, SqOps, CqOps;
    if s.lock.Some? {
      l := HolderMoves(s, s.lock.value);
    } else if t :| t in s.threads {
      l := Lock(t);
      WaitingCanLock(s, t);
    } else if op :| op in s.inflight {
      l := KernelComplete(op, 0);
      InFlightCanComplete(s, op);
    } else if s.cq != [] {
      l := ReaperMoves(s);
    } else if op :| op in s.coros && !s.coros[op].stage.Destroyed? {
      l := CoroutineMoves(s, op);
    } else {
      AllDestroyedIsQuiescent(s);
    }
  }

  lemma WaitingCanLock(s: State, t: Tid)
    requires Inv(s) && s.lock == None && t in s.threads
    ensures Enabled(s, Lock(t))
  {
    HolderIsActive(s, t);
  }

  lemma InFlightCanComplete(s: State, op: OpId)
    requires op in s.inflight
    ensures Enabled(s, KernelComplete(op, 0))
  {}

  lemma {:induction false} WorkRunsDown(s: State, ls: seq<Label>)
    requires Inv(s) && FullInv(s) && FullRuns(s, ls) && forall l :: l in ls ==> Works(l)
    ensures Runs(s, ls) && Inv(End(s, ls)) && FullInv(End(s, ls)) && Work(End(s, ls)) == Work(s) - |ls|
    decreases |ls|
  {
    hide Inv, FullInv, Enabled, Next, FlushesFully, Work, Works;
    if ls != [] {
      assert ls[0] in ls;
      FullInvNext(s, ls[0]);
      InvNext(s, ls[0]);
      EachStepIsOneStepCloser(s, ls[0]);
      WorkRunsDown(Next(s, ls[0]), ls[1..]);
    }
  }

  lemma WorkIsNatural(s: State)
    requires Inv(s)
    ensures Work(s) >= 0
    ensures Quiescent(s) ==> Work(s) == 0
  {
    hide LockInv, SqInv, FlightInv, CqInv, HeapInv, ObjectsInv, CorosInv, PlacesInv, ServedInv;
    if Quiescent(s) {
      assert ThreadWork(s.threads) == map[];
      SumOfZeros(CoroWork(s.coros));
    }
  }

  /** Progress. From any state reached under full flushes, a run without new calls has at most Work(s)
      steps; a run that cannot be extended has exactly that many, and ends with every queue empty and
      every coroutine resumed once, with its own result. */
  lemma EveryBatchDrains(before: seq<Label>, ls: seq<Label>)
    requires FullRuns(INIT, before)
    requires Runs(INIT, before) && FullRuns(End(INIT, before), ls) && forall l :: l in ls ==> Works(l)
    ensures var s := End(INIT, before);
            && Runs(s, ls) && |ls| <= Work(s)
            && ((forall l :: Works(l) && Enabled(End(s, ls), l) ==> !FlushesFully(End(s, ls), l)) ==>
                  Quiescent(End(s, ls)) && |ls| == Work(s))
  {
    InvInit();
    var s := End(INIT, before);
    FullRunsNeverSpin(INIT, before);
    hide Inv, FullInv, Enabled, Next, FlushesFully, Work, Works, Quiescent, FullRuns;
    WorkRunsDown(s, ls);
    var e := End(s, ls);
    WorkIsNatural(e);
    if forall l :: Works(l) && Enabled(e, l) ==> !FlushesFully(e, l) {
      if !Quiescent(e) {
        var l := SomethingMoves(e);
        assert false;
      }
    }
  }
}
