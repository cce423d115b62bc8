/** What every reachable state of the completion engine satisfies, and its refinement of the abstract
    one-shot future. */
module RingTheorems {
  import opened IoStatus
  import opened OneShot
  import opened Ring
  import opened RingInvariant

  function One(b: bool): nat { if b then 1 else 0 }

  /** Exactly once: an operation is in exactly one of the five places, and no queue holds it twice. */
  lemma ExactlyOnePlace(s: State, op: OpId)
    requires Reachable(s) && op in s.made
    ensures One(op in Unqueued(Holder(s.lock, s.threads))) + One(op in SqOps(s.sq)) + One(op in s.inflight)
            + One(op in CqOps(PendingCq(s.cq, s.reaper))) + One(op in s.released) == 1
    ensures forall i, j :: 0 <= i < j < |s.sq| ==> s.sq[i].op != s.sq[j].op
    ensures forall i, j :: 0 <= i < j < |s.cq| ==> s.cq[i].op != s.cq[j].op
  {
    ReachableInv(s);
  }

  /** Routing: whatever the completion order, everything a coroutine has read is the one result its own
      operation completed with, and the kernel served what the caller passed. */
  lemma ResultsAreRouted(s: State, op: OpId)
    requires Reachable(s) && op in s.made
    ensures op in s.coros && |s.coros[op].seen| <= 1
    ensures s.coros[op].seen != [] ==>
              op in s.released && op in s.completed && s.coros[op].seen[0] == s.completed[op]
    ensures op in s.completed ==> op in s.served && s.served[op] == Passed(s.made[op].req)
    ensures !s.fault
  {
    ReachableInv(s);
    assert CoroOk(op, s.coros[op], HolderOp(Holder(s.lock, s.threads)), s.released, s.completed);
  }

  /** No lost and no double wakeup: the continuations granted plus those taken are one exactly when both
      the trap and the pull have happened, and none is granted before the result is in place. */
  lemma WokenExactlyOnce(s: State, op: OpId)
    requires Reachable(s) && op in s.made
    ensures op in s.coros
    ensures var k := s.coros[op];
            var trapDone := k.stage.Awaiting? || k.stage.Resumed? || k.stage.Destroyed?;
            k.tickets + |k.seen| == One(trapDone && op in s.released)
    ensures s.coros[op].tickets > 0 ==>
              s.made[op].addr in s.heap && op in s.completed && s.heap[s.made[op].addr].result == s.completed[op]
  {
    ReachableInv(s);
    assert CoroOk(op, s.coros[op], HolderOp(Holder(s.lock, s.threads)), s.released, s.completed);
    if s.coros[op].tickets > 0 {
      ObjectOf(s.heap.Keys, s.made, s.coros, op);
      ObjectsGet(s.heap, s.made, s.coros, s.released, s.completed, StoredOp(s.cq, s.reaper), op);
    }
  }

  /** While the reaper works on a CQE before pulling, that CQE names, by address, the live await of its
      own operation, which has not been pulled before. */
  lemma ReaperWorksOnLiveAwait(s: State)
    requires Reachable(s) && s.cq != [] && !s.reaper.Released?
    ensures var op := s.cq[0].op;
            && op in s.made && op in s.coros && op !in s.released && !s.coros[op].stage.Destroyed?
            && s.made[op].addr in s.heap && s.cq[0].tag == Some(s.made[op].addr)
  {
    hide Reaches, Enabled, Next, PlacesInv, ReaperInv, LockInv, SqInv, FlightInv, CqInv, HeapInv, ObjectsInv,
      CorosInv, ServedInv, LiveOps, SqOps, CqOps;
    ReachableInv(s);
    PendingIsLive(s, s.cq[0].op);
  }

  /** The reaper changes no await but the one its CQE is for. In particular it never again touches an
      await it has pulled, nor a new one built in that storage. */
  lemma ReaperTouchesNoOther(s: State, l: Label, op: OpId)
    requires Reachable(s) && Enabled(s, l) && (l.StoreResult? || l.Pull?)
    requires op in s.coros && !s.coros[op].stage.Destroyed? && (op != s.cq[0].op || op in s.released)
    ensures op in s.made && s.made[op].addr in s.heap && s.made[op].addr in Next(s, l).heap
    ensures Next(s, l).heap[s.made[op].addr] == s.heap[s.made[op].addr]
  {
    assert s.cq != [] && !s.reaper.Released?;
    hide Reaches, Enabled, Next, PlacesInv, ReaperInv, LockInv, SqInv, FlightInv, CqInv, HeapInv, ObjectsInv,
      CorosInv, ServedInv, LiveOps, SqOps, CqOps;
    ReachableInv(s);
    ReaperWorksOnLiveAwait(s);
    ObjectOf(s.heap.Keys, s.made, s.coros, op);
    ReaperWrites(s, l, s.made[s.cq[0].op].addr);
  }

  /** Storing and pulling write at the head CQE's address only. */
  lemma ReaperWrites(s: State, l: Label, a: Addr)
    requires Enabled(s, l) && (l.StoreResult? || l.Pull?) && s.cq[0].tag == Some(a) && a in s.heap
    ensures Next(s, l).heap.Keys == s.heap.Keys
    ensures forall x :: x in s.heap && x != a ==> Next(s, l).heap[x] == s.heap[x]
  {}

  /** Once an await is pulled, marking its CQE as seen commutes with every other step: with the
      coroutine resuming, with the await being destroyed, and with a new await being constructed in the
      same storage. */
  lemma SeenCommutes(s: State, l: Label)
    requires s.reaper.Released? && Enabled(s, Seen) && Enabled(s, l) && l != Seen
    ensures Enabled(Next(s, l), Seen) && Enabled(Next(s, Seen), l)
    ensures Next(Next(s, l), Seen) == Next(Next(s, Seen), l)
  {
    if l.KernelComplete? {
      SeenCommutesWithComplete(s, l.op, l.res);
    } else if OfReaper(l) {
      assert false;
    } else {
      KeepsCq(s, l, s.cq, s.reaper);
      KeepsCq(s, l, s.cq[1..], Idle);
      hide Next, Enabled;
      SeenIs(s);
      SeenIs(Next(s, l));
    }
  }

  lemma SeenIs(s: State)
    ensures Enabled(s, Seen) <==> s.reaper.Released? && s.cq != []
    ensures Enabled(s, Seen) ==> Next(s, Seen) == s.(cq := s.cq[1..], reaper := Idle)
  {}

  lemma SeenCommutesWithComplete(s: State, op: OpId, res: int32)
    requires Enabled(s, Seen) && Enabled(s, KernelComplete(op, res))
    ensures var l := KernelComplete(op, res);
            Enabled(Next(s, l), Seen) && Enabled(Next(s, Seen), l) && Next(Next(s, l), Seen) == Next(Next(s, Seen), l)
  {
    CompleteIs(s, op, res);
    CompleteIs(s.(cq := s.cq[1..], reaper := Idle), op, res);
    hide Next, Enabled, DoComplete, Fetch;
    var done, seen := DoComplete(s, op, res), s.(cq := s.cq[1..], reaper := Idle);
    SeenIs(s);
    SeenIs(done);
    FetchReadsHeap(s, seen, s.inflight[op].body);
    CompleteSets(s, op, res);
    CompleteSets(seen, op, res);
    var c := Cqe(op, s.inflight[op].tag, res);
    assert (s.cq + [c])[1..] == s.cq[1..] + [c];
  }

  lemma CompleteIs(s: State, op: OpId, res: int32)
    ensures Enabled(s, KernelComplete(op, res)) <==> op in s.inflight
    ensures op in s.inflight ==> Next(s, KernelComplete(op, res)) == DoComplete(s, op, res)
  {
    hide DoComplete;
  }

  lemma CompleteSets(s: State, op: OpId, res: int32)
    requires Enabled(s, KernelComplete(op, res)) && op in s.inflight
    ensures var e, d := s.inflight[op], DoComplete(s, op, res);
            d == s.(inflight := s.inflight - {op}, cq := s.cq + [Cqe(op, e.tag, res)],
                    completed := s.completed[op := res],
                    served := if Fetch(s, e.body).Some? then s.served[op := Fetch(s, e.body).value] else s.served,
                    fault := s.fault || Fetch(s, e.body).None?)
  {
    hide Fetch;
  }

  lemma FetchReadsHeap(s: State, s': State, b: Body)
    requires s'.heap == s.heap
    ensures Fetch(s', b) == Fetch(s, b)
  {}

  predicate OfCoroutine(l: Label) { l.Trap? || l.Resume? || l.Destroy? }

  predicate OfReaper(l: Label) { l.ReaperRead? || l.StoreResult? || l.Pull? || l.Seen? }

  /** The steps of threads and coroutines neither look at the completion queue nor change it. */
  lemma KeepsCq(s: State, l: Label, cq: seq<Cqe>, r: Reaper)
    requires Enabled(s, l) && !l.KernelComplete? && !OfReaper(l)
    ensures Enabled(s.(cq := cq, reaper := r), l)
    ensures Next(s.(cq := cq, reaper := r), l) == Next(s, l).(cq := cq, reaper := r)
  {
    hide Enabled, Next;
    if OfCoroutine(l) {
      CoroutineKeepsCq(s, l, cq, r);
    } else {
      ThreadKeepsCq(s, l, cq, r);
    }
  }

  lemma CoroutineKeepsCq(s: State, l: Label, cq: seq<Cqe>, r: Reaper)
    requires Enabled(s, l) && OfCoroutine(l)
    ensures Enabled(s.(cq := cq, reaper := r), l)
    ensures Next(s.(cq := cq, reaper := r), l) == Next(s, l).(cq := cq, reaper := r)
  {
    hide TrapCell;
    match l
    case Trap(op) => assert DoTrap(s.(cq := cq, reaper := r), op) == DoTrap(s, op).(cq := cq, reaper := r);
    case Resume(op) => assert DoResume(s.(cq := cq, reaper := r), op) == DoResume(s, op).(cq := cq, reaper := r);
    case Destroy(op) =>
  }

  lemma ThreadKeepsCq(s: State, l: Label, cq: seq<Cqe>, r: Reaper)
    requires Enabled(s, l) && !l.KernelComplete? && !OfReaper(l) && !OfCoroutine(l)
    ensures Enabled(s.(cq := cq, reaper := r), l)
    ensures Next(s.(cq := cq, reaper := r), l) == Next(s, l).(cq := cq, reaper := r)
  {}

  /** Mutual exclusion, and no SQE reaches the kernel with another operation's address or arguments. */
  lemma SubmissionIsDisciplined(s: State, t: Tid, t': Tid)
    requires Reachable(s) && t in s.threads && t' in s.threads
    ensures !s.threads[t].Waiting? && !s.threads[t'].Waiting? ==> t == t'
    ensures s.threads[t].Submitting? && s.sq != [] ==> Filled(s.made, s.sq[0])
    ensures |s.sq| <= QUEUE_DEPTH
  {
    hide Inv, Reaches;
    ReachableInv(s);
    DisciplineOf(s, t, t');
  }

  lemma DisciplineOf(s: State, t: Tid, t': Tid)
    requires Inv(s) && t in s.threads && t' in s.threads
    ensures !s.threads[t].Waiting? && !s.threads[t'].Waiting? ==> t == t'
    ensures s.threads[t].Submitting? && s.sq != [] ==> Filled(s.made, s.sq[0])
    ensures |s.sq| <= QUEUE_DEPTH
  {
    hide Filled, SqInv, FlightInv, CqInv, HeapInv, ObjectsInv, CorosInv, PlacesInv, ReaperInv, ServedInv,
      LiveOps, SqOps, CqOps;
    SqHead(Holder(s.lock, s.threads), s.sq, s.made);
  }

  lemma SqHead(h: Option<Pc>, sq: seq<Sqe>, made: map<OpId, Made>)
    requires SqInv(h, sq, made)
    ensures |sq| <= QUEUE_DEPTH
    ensures sq != [] && !Filling(h) ==> Filled(made, sq[0])
  {}

  /** A message in flight points at the header copy inside its own await, which is live, not released,
      and still holds the header the caller passed. */
  lemma HeaderOutlivesFlight(s: State, op: OpId)
    requires Reachable(s) && op in s.inflight && op in s.made && s.made[op].req.Message?
    ensures s.inflight[op].body == Header(InAwait(s.made[op].addr)) && op !in s.released
    ensures op in s.coros && !s.coros[op].stage.Destroyed?
    ensures s.made[op].addr in s.heap && s.heap[s.made[op].addr].header == Some(s.made[op].req.header)
  {
    ReachableInv(s);
    hide LockInv, SqInv, CqInv, HeapInv, ObjectsInv, CorosInv, ServedInv, LiveOps, SqOps, CqOps;
    UnreleasedIsLive(s, op);
    ObjectsGet(s.heap, s.made, s.coros, s.released, s.completed, StoredOp(s.cq, s.reaper), op);
  }

  /* Refinement. */

  /** The future an await stands for. A completed one is read from the await object itself. */
  function FutureOf(s: State, op: OpId): Future<int32>
    requires op in s.made
  {
    if op in s.coros && s.coros[op].seen != [] then Observed(s.coros[op].seen[0])
    else if op in s.released && s.made[op].addr in s.heap then Complete(s.heap[s.made[op].addr].result)
    else Pending
  }

  function Futures(s: State): map<OpId, Future<int32>> {
    map op | op in s.made :: FutureOf(s, op)
  }

  /** Two states whose futures agree except for one operation. */
  lemma FuturesUpdate(s: State, s': State, op: OpId, f: Future<int32>)
    requires op in s.made && s'.made == s.made && FutureOf(s', op) == f
    requires forall x :: x in s.made && x != op ==> FutureOf(s', x) == FutureOf(s, x)
    ensures op in Futures(s) && Futures(s)[op] == FutureOf(s, op) && Futures(s') == Futures(s)[op := f]
  {
    hide FutureOf;
  }

  lemma FuturesSame(s: State, s': State)
    requires s'.made == s.made
    requires forall x :: x in s.made ==> FutureOf(s', x) == FutureOf(s, x)
    ensures Futures(s') == Futures(s)
  {
    hide FutureOf;
  }

  /** The event of the abstract future each step stands for. */
  function EventOf(s: State, l: Label): Event<int32>
    requires Enabled(s, l)
  {
    match l
    case Construct(t, op, addr) => Submit(op)
    case Pull => Deliver(s.cq[0].op, s.cq[0].res)
    case Resume(op) =>
      if s.made[op].addr in s.heap then Observe(op, s.heap[s.made[op].addr].result) else Stutter
    case _ => Stutter
  }

  /** Trapping changes a trigger cell and a coroutine, neither of which a future shows. */
  lemma RefinesTrap(s: State, op: OpId)
    requires Enabled(s, Trap(op))
    ensures Futures(DoTrap(s, op)) == Futures(s)
  {
    hide Futures;
    var s' := DoTrap(s, op);
    FuturesSame(s, s');
  }

  lemma RefinesUnlock(s: State, t: Tid)
    requires Enabled(s, Unlock(t))
    ensures Futures(Next(s, Unlock(t))) == Futures(s)
  {
    hide Futures;
    var s' := Next(s, Unlock(t));
    FuturesSame(s, s');
  }

  predicate Silent(l: Label) {
    !l.Construct? && !l.Unlock? && !l.StoreResult? && !l.Pull? && !l.Trap? && !l.Resume? && !l.Destroy?
  }

  /** The remaining steps change queues and threads only. */
  lemma RefinesSilent(s: State, l: Label)
    requires Enabled(s, l) && Silent(l)
    ensures Futures(Next(s, l)) == Futures(s) && EventOf(s, l) == Stutter
  {
    hide Futures;
    var s' := Next(s, l);
    assert s'.made == s.made && s'.coros == s.coros && s'.released == s.released && s'.heap == s.heap;
    FuturesSame(s, s');
  }

  lemma ConstructKeepsFuture(s: State, t: Tid, op: OpId, addr: Addr, x: OpId)
    requires Inv(s) && Enabled(s, Construct(t, op, addr)) && x in s.made
    ensures FutureOf(DoConstruct(s, t, op, addr), x) == FutureOf(s, x)
  {
    hide LockInv, SqInv, FlightInv, CqInv, HeapInv, ObjectsInv, CorosInv, PlacesInv, ServedInv, LiveOps, SqOps, CqOps;
    CorosGet(HolderOp(Holder(s.lock, s.threads)), s.coros, s.released, s.completed, x);
    if !s.coros[x].stage.Destroyed? {
      ObjectOf(s.heap.Keys, s.made, s.coros, x);
    }
  }

  lemma RefinesConstruct(s: State, t: Tid, op: OpId, addr: Addr)
    requires Inv(s) && Enabled(s, Construct(t, op, addr))
    ensures op !in Futures(s) && Futures(DoConstruct(s, t, op, addr)) == Futures(s)[op := Pending]
  {
    hide LockInv, SqInv, FlightInv, CqInv, HeapInv, ObjectsInv, CorosInv, ServedInv, LiveOps, SqOps, CqOps;
    var s' := DoConstruct(s, t, op, addr);
    assert FutureOf(s', op) == Pending;
    hide FutureOf, PlacesInv;
    forall x | x in s.made ensures FutureOf(s', x) == FutureOf(s, x) {
      ConstructKeepsFuture(s, t, op, addr, x);
    }
  }

  /** What a pull leaves alone, when the reaper's address is good. */
  lemma PullKeeps(s: State, a: Addr)
    requires Enabled(s, Pull) && s.cq[0].tag == Some(a) && a in s.heap
    ensures var s' := DoPull(s);
            && s'.made == s.made && s'.released == s.released + {s.cq[0].op}
            && s'.heap.Keys == s.heap.Keys && s'.coros.Keys == s.coros.Keys
            && (forall x :: x in s.heap ==> s'.heap[x].result == s.heap[x].result)
            && (forall x :: x in s.coros ==> s'.coros[x].seen == s.coros[x].seen)
  {}

  /** The reaper's CQE leads to a pending future whose object holds the CQE's result. */
  predicate ReadyToPull(s: State) {
    s.cq != [] &&
    var op := s.cq[0].op;
    && op in s.made && op in s.coros && op !in s.released && s.coros[op].seen == []
    && s.made[op].addr in s.heap && s.cq[0].tag == Some(s.made[op].addr)
    && s.heap[s.made[op].addr].result == s.cq[0].res && s.coros.Keys == s.made.Keys
  }

  lemma PullReady(s: State)
    requires Inv(s) && s.cq != [] && s.reaper.Stored?
    ensures ReadyToPull(s)
  {
    hide PlacesInv, ReaperInv, LockInv, SqInv, FlightInv, CqInv, HeapInv, ObjectsInv, CorosInv, ServedInv,
      LiveOps, SqOps, CqOps;
    var op := s.cq[0].op;
    PendingIsLive(s, op);
    CorosGet(HolderOp(Holder(s.lock, s.threads)), s.coros, s.released, s.completed, op);
    ObjectsGet(s.heap, s.made, s.coros, s.released, s.completed, Some(op), op);
  }

  lemma RefinesPull(s: State)
    requires ReadyToPull(s) && Enabled(s, Pull)
    ensures s.cq[0].op in Futures(s) && Futures(s)[s.cq[0].op] == Pending
    ensures Futures(DoPull(s)) == Futures(s)[s.cq[0].op := Complete(s.cq[0].res)]
  {
    hide DoPull, Futures;
    var op := s.cq[0].op;
    PullKeeps(s, s.made[op].addr);
    FuturesUpdate(s, DoPull(s), op, Complete(s.cq[0].res));
  }

  lemma RefinesResume(s: State, op: OpId)
    requires Inv(s) && Enabled(s, Resume(op))
    ensures op in Futures(s) && s.made[op].addr in s.heap && Futures(s)[op] == Complete(s.heap[s.made[op].addr].result)
    ensures Futures(DoResume(s, op)) == Futures(s)[op := Observed(s.heap[s.made[op].addr].result)]
  {
    hide Futures, LockInv, SqInv, FlightInv, CqInv, HeapInv, ObjectsInv, CorosInv, ServedInv, LiveOps, SqOps, CqOps;
    CorosGet(HolderOp(Holder(s.lock, s.threads)), s.coros, s.released, s.completed, op);
    ObjectOf(s.heap.Keys, s.made, s.coros, op);
    var s' := DoResume(s, op);
    FuturesUpdate(s, s', op, Observed(s.heap[s.made[op].addr].result));
  }

  /** Storing a result changes only an await that is not released yet, so nobody can observe it. */
  lemma RefinesStore(s: State)
    requires Inv(s) && Enabled(s, StoreResult)
    ensures Futures(DoStore(s)) == Futures(s)
  {
    hide Futures, LockInv, SqInv, FlightInv, CqInv, HeapInv, ObjectsInv, CorosInv, ServedInv, LiveOps, SqOps, CqOps;
    var op := s.cq[0].op;
    PendingIsLive(s, op);
    ObjectOf(s.heap.Keys, s.made, s.coros, op);
    var s' := DoStore(s);
    forall x | x in s.made ensures FutureOf(s', x) == FutureOf(s, x) {
      CorosGet(HolderOp(Holder(s.lock, s.threads)), s.coros, s.released, s.completed, x);
    }
    FuturesSame(s, s');
  }

  lemma RefinesDestroy(s: State, op: OpId)
    requires Inv(s) && Enabled(s, Destroy(op))
    ensures Futures(Next(s, Destroy(op))) == Futures(s)
  {
    hide Futures, LockInv, SqInv, FlightInv, CqInv, HeapInv, ObjectsInv, CorosInv, ServedInv, LiveOps, SqOps, CqOps;
    ObjectOf(s.heap.Keys, s.made, s.coros, op);
    var s' := Next(s, Destroy(op));
    forall x | x in s.made ensures FutureOf(s', x) == FutureOf(s, x) {
      CorosGet(HolderOp(Holder(s.lock, s.threads)), s.coros, s.released, s.completed, x);
    }
    FuturesSame(s, s');
  }

  /** Every step of the engine is one event of the abstract future, or none. */
  lemma StepRefines(s: State, l: Label)
    requires Inv(s) && Enabled(s, l)
    ensures Can(Futures(s), EventOf(s, l))
    ensures Futures(Next(s, l)) == Do(Futures(s), EventOf(s, l))
  {
    hide Inv, Futures, ReadyToPull;
    match l
    case Construct(t, op, addr) => RefinesConstruct(s, t, op, addr);
    case Unlock(t) => RefinesUnlock(s, t);
    case StoreResult => RefinesStore(s);
    case Pull => PullReady(s); RefinesPull(s);
    case Trap(op) => RefinesTrap(s, op);
    case Resume(op) => RefinesResume(s, op);
    case Destroy(op) => RefinesDestroy(s, op);
    case _ => RefinesSilent(s, l);
  }

  ghost function Events(s: State, ls: seq<Label>): seq<Event<int32>>
    requires Runs(s, ls)
    decreases |ls|
  {
    if ls == [] then [] else [EventOf(s, ls[0])] + Events(Next(s, ls[0]), ls[1..])
  }

  /** Extending a trace of the future by the events of a run gives a trace that ends where the run ends. */
  lemma {:induction false} RunExtendsTrace(es: seq<Event<int32>>, s: State, ls: seq<Label>)
    requires Inv(s) && Runs(s, ls) && Trace(es) && After(es) == Futures(s)
    ensures Trace(es + Events(s, ls)) && After(es + Events(s, ls)) == Futures(End(s, ls))
    decreases |ls|
  {
    hide Inv, Futures, Next, Enabled, EventOf, Can, Do, Trace, After;
    if ls == [] {
      assert es + Events(s, ls) == es;
    } else {
      var e, s' := EventOf(s, ls[0]), Next(s, ls[0]);
      StepRefines(s, ls[0]);
      InvNext(s, ls[0]);
      TraceGrows(es, e);
      RunExtendsTrace(es + [e], s', ls[1..]);
      assert es + Events(s, ls) == (es + [e]) + Events(s', ls[1..]);
    }
  }

  /** Every run of the io_uring engine refines the abstract one-shot future: each operation is submitted,
      delivered and observed at most once, in that order, and observes what was delivered to it. */
  lemma LinuxRunRefinesFuture(ls: seq<Label>)
    requires Runs(INIT, ls)
    ensures Trace(Events(INIT, ls)) && Lawful(Events(INIT, ls))
    ensures After(Events(INIT, ls)) == Futures(End(INIT, ls))
  {
    InvInit();
    RunExtendsTrace([], INIT, ls);
    assert [] + Events(INIT, ls) == Events(INIT, ls);
    TraceIsLawful(Events(INIT, ls));
  }
}
