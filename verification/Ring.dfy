/** The io_uring completion engine as a transition system: submitter threads under one spin lock, a
    kernel that completes in any order, one reaper, and the coroutines that await the operations.

    Addresses are storage and are reused; an operation number names one await for good. Sqe.op, Cqe.op
    and the fields made, coros, released, completed and served of State are history: they never decide where the
    engine or the kernel writes; those only follow addresses. */
module Ring {
  import opened IoStatus
  import opened OneShot

  type Addr = nat
  type OpId = nat
  type Tid = nat

  const QUEUE_DEPTH: nat := 8192

  /** What the caller passed: plain arguments, or a message header for sendmsg/recvmsg. */
  datatype Request = Plain(args: nat) | Message(header: nat)

  /** The header pointer handed to the kernel: into the await object, or into a submitter's stack. */
  datatype Pointer = InAwait(addr: Addr) | OnStack(tid: Tid)

  /** A submission slot. A fresh slot still has no arguments and no user data. */
  datatype Body = Blank | Inline(args: nat) | Header(at: Pointer)
  datatype Sqe = Sqe(op: OpId, body: Body, tag: Option<Addr>)
  datatype Cqe = Cqe(op: OpId, tag: Option<Addr>, res: int32)

  /** The await object in storage: m_result, the trigger, and m_message for a VecAwait. */
  datatype AwaitObj = AwaitObj(result: int32, cell: Cell, header: Option<nat>)

  /** Where a thread is inside io_plain / io_message. */
  datatype Pc =
    | Waiting(req: Request)
    | Locked(req: Request)
    | Constructed(op: OpId)
    | GotSqe(op: OpId)
    | Prepared(op: OpId)
    | Submitting(op: OpId)
    | Submitted(op: OpId)

  /** Where the coroutine that owns an await is. `tickets` counts the continuations granted to it by
      a refused trap or a pull; `seen` lists the results its resumptions read. */
  datatype Stage = Building | Ready | Awaiting | Resumed | Destroyed
  datatype Coro = Coro(stage: Stage, tickets: nat, seen: seq<int32>)

  /** Where an operation's await was constructed, and for which request. */
  datatype Made = Made(addr: Addr, req: Request)

  /** The reaper works on the CQE at the head of the queue. */
  datatype Reaper = Idle | Holding | Stored | Released

  datatype State = State(
    lock: Option<Tid>, threads: map<Tid, Pc>,
    sq: seq<Sqe>, inflight: map<OpId, Sqe>, cq: seq<Cqe>, reaper: Reaper,
    heap: map<Addr, AwaitObj>,
    made: map<OpId, Made>, coros: map<OpId, Coro>, released: set<OpId>, completed: map<OpId, int32>, served: map<OpId, nat>,
    fault: bool)

  datatype Label =
    | Call(t: Tid, req: Request)
    | Lock(t: Tid)
    | Construct(t: Tid, op: OpId, addr: Addr)
    | GetSqe(t: Tid)
    | Spin(t: Tid)
    | Prep(t: Tid)
    | SetData(t: Tid)
    | KernelTake(t: Tid)
    | SubmitReturn(t: Tid)
    | Unlock(t: Tid)
    | KernelComplete(op: OpId, res: int32)
    | ReaperRead
    | StoreResult
    | Pull
    | Seen
    | Trap(op: OpId)
    | Resume(op: OpId)
    | Destroy(op: OpId)

  const INIT: State :=
    State(None, map[], [], map[], [], Idle, map[], map[], map[], {}, map[], map[], false)

  predicate Enabled(s: State, l: Label) {
    match l
    case Call(t, req) => t !in s.threads
    case Lock(t) => t in s.threads && s.threads[t].Waiting? && s.lock == None
    case Construct(t, op, addr) =>
      t in s.threads && s.threads[t].Locked? && op !in s.made && op !in s.coros && addr !in s.heap
    case GetSqe(t) =>
      t in s.threads && s.threads[t].Constructed? && s.threads[t].op in s.made && |s.sq| < QUEUE_DEPTH
    case Spin(t) =>
      t in s.threads && s.threads[t].Constructed? && |s.sq| >= QUEUE_DEPTH
    case Prep(t) => t in s.threads && s.threads[t].GotSqe? && s.threads[t].op in s.made && s.sq != []
    case SetData(t) => t in s.threads && s.threads[t].Prepared? && s.threads[t].op in s.made && s.sq != []
    case KernelTake(t) => t in s.threads && s.threads[t].Submitting? && s.sq != []
    case SubmitReturn(t) => t in s.threads && s.threads[t].Submitting?
    case Unlock(t) => t in s.threads && s.threads[t].Submitted? && s.threads[t].op in s.coros
    case KernelComplete(op, res) => op in s.inflight
    case ReaperRead => s.reaper.Idle? && s.cq != []
    case StoreResult => s.reaper.Holding? && s.cq != []
    case Pull => s.reaper.Stored? && s.cq != []
    case Seen => s.reaper.Released? && s.cq != []
    case Trap(op) => op in s.made && op in s.coros && s.coros[op].stage.Ready?
    case Resume(op) => op in s.made && op in s.coros && s.coros[op].tickets > 0
    case Destroy(op) => op in s.made && op in s.coros && s.coros[op].stage.Resumed?
  }

  /** The arguments the code packs for a request: by value, or the address of the header copy inside
      the await object. */
  function BodyFor(req: Request, addr: Addr): Body {
    match req
    case Plain(args) => Inline(args)
    case Message(_) => Header(InAwait(addr))
  }

  /** What the kernel reads when it serves an SQE, if the memory it is pointed at is still there. */
  function Fetch(s: State, b: Body): Option<nat> {
    match b
    case Blank => None
    case Inline(args) => Some(args)
    case Header(InAwait(a)) => if a in s.heap then s.heap[a].header else None
    case Header(OnStack(t)) => None
  }

  function Last(s: State): Sqe
    requires s.sq != []
  {
    s.sq[|s.sq| - 1]
  }

  function DoConstruct(s: State, t: Tid, op: OpId, addr: Addr): State
    requires Enabled(s, Construct(t, op, addr))
  {
    var req := s.threads[t].req;
    var header := if req.Message? then Some(req.header) else None;
    s.(threads := s.threads[t := Constructed(op)],
       heap := s.heap[addr := AwaitObj(0, Empty, header)],
       made := s.made[op := Made(addr, req)],
       coros := s.coros[op := Coro(Building, 0, [])])
  }

  function DoPrep(s: State, t: Tid): State
    requires Enabled(s, Prep(t))
  {
    var op := s.threads[t].op;
    var c := s.made[op];
    s.(threads := s.threads[t := Prepared(op)],
       sq := s.sq[|s.sq| - 1 := Last(s).(body := BodyFor(c.req, c.addr))])
  }

  function DoSetData(s: State, t: Tid): State
    requires Enabled(s, SetData(t))
  {
    var op := s.threads[t].op;
    s.(threads := s.threads[t := Submitting(op)],
       sq := s.sq[|s.sq| - 1 := Last(s).(tag := Some(s.made[op].addr))])
  }

  function DoComplete(s: State, op: OpId, res: int32): State
    requires Enabled(s, KernelComplete(op, res))
  {
    var e := s.inflight[op];
    var arg := Fetch(s, e.body);
    s.(inflight := s.inflight - {op},
       cq := s.cq + [Cqe(op, e.tag, res)],
       completed := s.completed[op := res],
       served := if arg.Some? then s.served[op := arg.value] else s.served,
       fault := s.fault || arg.None?)
  }

  /** The reaper's user data leads to an await object. */
  predicate Leads(s: State, tag: Option<Addr>) {
    tag.Some? && tag.value in s.heap
  }

  function DoStore(s: State): State
    requires Enabled(s, StoreResult)
  {
    var c := s.cq[0];
    s.(heap := if Leads(s, c.tag) then s.heap[c.tag.value := s.heap[c.tag.value].(result := c.res)] else s.heap,
       reaper := Stored,
       fault := s.fault || !Leads(s, c.tag))
  }

  /** Grant the coroutine behind a scheduled handle one continuation. */
  function Woken(coros: map<OpId, Coro>, wake: Option<nat>): map<OpId, Coro> {
    if wake.Some? && wake.value in coros
    then coros[wake.value := coros[wake.value].(tickets := coros[wake.value].tickets + 1)]
    else coros
  }

  /** The cell the reaper pulls. */
  function CellAt(s: State, tag: Option<Addr>): Cell {
    if Leads(s, tag) then s.heap[tag.value].cell else Pulled
  }

  function DoPull(s: State): State
    requires Enabled(s, Pull)
  {
    var c := s.cq[0];
    var (cell, wake) := PullCell(CellAt(s, c.tag));
    s.(heap := if Leads(s, c.tag) then s.heap[c.tag.value := s.heap[c.tag.value].(cell := cell)] else s.heap,
       coros := Woken(s.coros, wake),
       released := s.released + {c.op},
       reaper := Released,
       fault := s.fault || !Leads(s, c.tag))
  }

  function DoTrap(s: State, op: OpId): State
    requires Enabled(s, Trap(op))
  {
    var k := s.coros[op];
    var a := s.made[op].addr;
    var (cell, suspended) := TrapCell(CellAt(s, Some(a)), op);
    s.(heap := if a in s.heap then s.heap[a := s.heap[a].(cell := cell)] else s.heap,
       coros := s.coros[op := k.(stage := Awaiting, tickets := if suspended then k.tickets else k.tickets + 1)],
       fault := s.fault || a !in s.heap)
  }

  function DoResume(s: State, op: OpId): State
    requires Enabled(s, Resume(op))
  {
    var k := s.coros[op];
    var a := s.made[op].addr;
    var seen := if a in s.heap then k.seen + [s.heap[a].result] else k.seen;
    s.(coros := s.coros[op := k.(stage := Resumed, tickets := k.tickets - 1, seen := seen)],
       fault := s.fault || a !in s.heap)
  }

  function Next(s: State, l: Label): State
    requires Enabled(s, l)
  {
    match l
    case Call(t, req) => s.(threads := s.threads[t := Waiting(req)])
    case Lock(t) => s.(lock := Some(t), threads := s.threads[t := Locked(s.threads[t].req)])
    case Construct(t, op, addr) => DoConstruct(s, t, op, addr)
    case GetSqe(t) =>
      s.(threads := s.threads[t := GotSqe(s.threads[t].op)], sq := s.sq + [Sqe(s.threads[t].op, Blank, None)])
    case Spin(t) => s
    case Prep(t) => DoPrep(s, t)
    case SetData(t) => DoSetData(s, t)
    case KernelTake(t) => s.(sq := s.sq[1..], inflight := s.inflight[s.sq[0].op := s.sq[0]])
    case SubmitReturn(t) => s.(threads := s.threads[t := Submitted(s.threads[t].op)])
    case Unlock(t) =>
      var op := s.threads[t].op;
      s.(lock := None, threads := s.threads - {t}, coros := s.coros[op := s.coros[op].(stage := Ready)])
    case KernelComplete(op, res) => DoComplete(s, op, res)
    case ReaperRead => s.(reaper := Holding)
    case StoreResult => DoStore(s)
    case Pull => DoPull(s)
    case Seen => s.(cq := s.cq[1..], reaper := Idle)
    case Trap(op) => DoTrap(s, op)
    case Resume(op) => DoResume(s, op)
    case Destroy(op) =>
      s.(heap := s.heap - {s.made[op].addr}, coros := s.coros[op := s.coros[op].(stage := Destroyed)])
  }

  /** A run is a list of labels, each enabled where it is taken. */
  ghost predicate Runs(s: State, ls: seq<Label>)
    decreases |ls|
  {
    ls == [] || (Enabled(s, ls[0]) && Runs(Next(s, ls[0]), ls[1..]))
  }

  ghost function End(s: State, ls: seq<Label>): State
    requires Runs(s, ls)
    decreases |ls|
  {
    if ls == [] then s else End(Next(s, ls[0]), ls[1..])
  }

  ghost predicate Reaches(s: State, s': State) {
    exists ls :: Runs(s, ls) && End(s, ls) == s'
  }

  ghost predicate Reachable(s: State) {
    Reaches(INIT, s)
  }

  lemma {:induction false} RunsAppend(s: State, ls: seq<Label>, ms: seq<Label>)
    requires Runs(s, ls) && Runs(End(s, ls), ms)
    ensures Runs(s, ls + ms) && End(s, ls + ms) == End(End(s, ls), ms)
    decreases |ls|
  {
    if ls == [] {
      assert ls + ms == ms;
    } else {
      assert (ls + ms)[1..] == ls[1..] + ms;
      RunsAppend(Next(s, ls[0]), ls[1..], ms);
    }
  }

  lemma ReachesSelf(s: State)
    ensures Reaches(s, s)
  {
    var ls: seq<Label> := [];
    assert Runs(s, ls) && End(s, ls) == s;
  }

  lemma ReachesNext(s: State, m: State, l: Label)
    requires Reaches(s, m) && Enabled(m, l)
    ensures Reaches(s, Next(m, l))
  {
    hide Enabled, Next;
    var ls :| Runs(s, ls) && End(s, ls) == m;
    var one := [l];
    assert one[0] == l && one[1..] == [];
    assert Runs(Next(m, l), one[1..]);
    assert Runs(m, one) && End(m, one) == Next(m, l);
    RunsAppend(s, ls, one);
  }
}
