/** The NTOS await: completed at once by its constructor, or later by the completion callback. A
    transition system over any number of awaits, with storage reuse, and the class itself. */
module NtosAwait {
  import opened IoStatus
  import opened OneShot

  type Addr = nat
  type OpId = nat

  const ERROR_IO_PENDING: nat := 997

  /** What an overlapped call does. The assumed OS contract: a completion callback is queued exactly when
      the call succeeds or reports that it is pending. */
  datatype Outcome = Succeeds | IsPending | Fails(code: nat)

  predicate Proper(o: Outcome) { o.Fails? ==> o.code != ERROR_IO_PENDING }

  predicate Queues(o: Outcome) { !o.Fails? }

  /** The last-error value after the call. */
  function LastError(o: Outcome): nat {
    match o case Succeeds => 0 case IsPending => ERROR_IO_PENDING case Fails(code) => code
  }

  /** WSAO, and the same test in Block::read and Block::write: success is reported as pending. */
  function Wsao(o: Outcome): nat {
    if o.Succeeds? then ERROR_IO_PENDING else LastError(o)
  }

  datatype Result = Result(code: nat, transferred: nat)

  datatype Obj = Obj(result: Result, immediate: bool, cell: Cell)

  /** Issuing: the constructor has made the call and holds its code. */
  datatype Stage = Issuing(code: nat) | Built | Suspending | Awaiting | Resumed | Destroyed

  /** `writes` counts how often a result was set on behalf of the operation. */
  datatype Coro = Coro(stage: Stage, tickets: nat, seen: seq<Result>)

  /** A callback to come: the address and the arguments the call was made with. */
  datatype Packet = Queued(tag: Addr, args: nat) | Written(tag: Addr, args: nat, value: Result)

  datatype Made = Made(addr: Addr, args: nat, outcome: Outcome)

  datatype State = State(
    heap: map<Addr, Obj>, packets: map<OpId, Packet>,
    made: map<OpId, Made>, coros: map<OpId, Coro>, delivered: map<OpId, Result>, writes: map<OpId, nat>,
    fault: bool)

  const INIT: State := State(map[], map[], map[], map[], map[], map[], false)

  datatype Label =
    | Issue(op: OpId, addr: Addr, args: nat, outcome: Outcome)
    | Settle(op: OpId)
    | CallbackWrite(op: OpId, value: Result)
    | CallbackPull(op: OpId)
    | AskReady(op: OpId)
    | Trap(op: OpId)
    | Resume(op: OpId)
    | Destroy(op: OpId)

  predicate Enabled(s: State, l: Label) {
    match l
    case Issue(op, addr, args, o) =>
      op !in s.made && op !in s.coros && op !in s.packets && op !in s.writes && addr !in s.heap && Proper(o)
    case CallbackWrite(op, v) => op in s.packets && s.packets[op].Queued? && op in s.writes
    case CallbackPull(op) => op in s.packets && s.packets[op].Written?
    case Settle(op) => op in s.made && op in s.coros && op in s.writes && s.coros[op].stage.Issuing?
    case AskReady(op) => op in s.made && op in s.coros && s.coros[op].stage.Built?
    case Trap(op) => op in s.made && op in s.coros && s.coros[op].stage.Suspending?
    case Resume(op) => op in s.made && op in s.coros && s.coros[op].tickets > 0
    case Destroy(op) => op in s.made && op in s.coros && s.coros[op].stage.Resumed?
  }

  function Put(heap: map<Addr, Obj>, a: Addr, o: Obj): map<Addr, Obj> {
    if a in heap then heap[a := o] else heap
  }

  function At(heap: map<Addr, Obj>, a: Addr): Obj {
    if a in heap then heap[a] else Obj(Result(0, 0), false, Pulled)
  }

  function Woken(coros: map<OpId, Coro>, wake: Option<nat>): map<OpId, Coro> {
    if wake.Some? && wake.value in coros
    then coros[wake.value := coros[wake.value].(tickets := coros[wake.value].tickets + 1)]
    else coros
  }

  function DoSettle(s: State, op: OpId): State
    requires Enabled(s, Settle(op))
  {
    var a, k := s.made[op].addr, s.coros[op];
    var code := k.stage.code;
    var s1 := s.(coros := s.coros[op := k.(stage := Built)]);
    if code != ERROR_IO_PENDING then
      s1.(heap := Put(s.heap, a, At(s.heap, a).(result := Result(code, 0), immediate := true)),
          delivered := s.delivered[op := Result(code, 0)],
          writes := s.writes[op := s.writes[op] + 1],
          fault := s.fault || a !in s.heap)
    else s1
  }

  function DoWrite(s: State, op: OpId, v: Result): State
    requires Enabled(s, CallbackWrite(op, v))
  {
    var a := s.packets[op].tag;
    s.(heap := Put(s.heap, a, At(s.heap, a).(result := v)),
       packets := s.packets[op := Written(a, s.packets[op].args, v)],
       writes := s.writes[op := s.writes[op] + 1],
       fault := s.fault || a !in s.heap)
  }

  function DoPull(s: State, op: OpId): State
    requires Enabled(s, CallbackPull(op))
  {
    var a := s.packets[op].tag;
    var (cell, wake) := PullCell(At(s.heap, a).cell);
    s.(heap := Put(s.heap, a, At(s.heap, a).(cell := cell)),
       packets := s.packets - {op},
       coros := Woken(s.coros, wake),
       delivered := s.delivered[op := s.packets[op].value],
       fault := s.fault || a !in s.heap)
  }

  /** await_ready, then await_suspend only if it said no. */
  function DoAskReady(s: State, op: OpId): State
    requires Enabled(s, AskReady(op))
  {
    var a, k := s.made[op].addr, s.coros[op];
    s.(coros := s.coros[op := if At(s.heap, a).immediate then k.(stage := Awaiting, tickets := k.tickets + 1)
                              else k.(stage := Suspending)],
       fault := s.fault || a !in s.heap)
  }

  function DoTrap(s: State, op: OpId): State
    requires Enabled(s, Trap(op))
  {
    var a, k := s.made[op].addr, s.coros[op];
    var (cell, suspended) := TrapCell(At(s.heap, a).cell, op);
    s.(heap := Put(s.heap, a, At(s.heap, a).(cell := cell)),
       coros := s.coros[op := k.(stage := Awaiting, tickets := if suspended then k.tickets else k.tickets + 1)],
       fault := s.fault || a !in s.heap)
  }

  function Next(s: State, l: Label): State
    requires Enabled(s, l)
  {
    match l
    case Issue(op, addr, args, o) =>
      s.(heap := s.heap[addr := Obj(Result(0, 0), false, Empty)],
         packets := if Queues(o) then s.packets[op := Queued(addr, args)] else s.packets,
         made := s.made[op := Made(addr, args, o)],
         coros := s.coros[op := Coro(Issuing(Wsao(o)), 0, [])],
         writes := s.writes[op := 0])
    case Settle(op) => DoSettle(s, op)
    case CallbackWrite(op, v) => DoWrite(s, op, v)
    case CallbackPull(op) => DoPull(s, op)
    case AskReady(op) => DoAskReady(s, op)
    case Trap(op) => DoTrap(s, op)
    case Resume(op) =>
      var a, k := s.made[op].addr, s.coros[op];
      s.(coros := s.coros[op := Coro(Resumed, k.tickets - 1, k.seen + [At(s.heap, a).result])],
         fault := s.fault || a !in s.heap)
    case Destroy(op) =>
      s.(heap := s.heap - {s.made[op].addr}, coros := s.coros[op := s.coros[op].(stage := Destroyed)])
  }

  ghost predicate Runs(s: State, ls: seq<Label>)
    decreases |ls|
  {
    ls == [] || (Enabled(s, ls[0]) && Runs(Next(s, ls[0]), ls[1..]))
  }

  ghost function End(s: State, ls: seq<Label>): State
    requires Runs(s, ls)
    decreases |ls|
  {
    if ls == [] then s else End(Next(s, ls[0]), ls[1..])
  }

  /* Invariant. */

  /** Everything about one operation: its packet, its object, its coroutine and its result. */
  predicate OpOk(op: OpId, m: Made, k: Coro, heap: map<Addr, Obj>, packet: Option<Packet>,
                 delivered: Option<Result>, writes: nat) {
    var async := Queues(m.outcome);
    var o := At(heap, m.addr);
    && Proper(m.outcome)
    && (packet.Some? ==> async && packet.value.tag == m.addr && packet.value.args == m.args && delivered == None)
    && (writes == if delivered.Some? || (packet.Some? && packet.value.Written?) then 1 else 0)
    && (k.stage.Issuing? ==> k.stage.code == Wsao(m.outcome) && (async || delivered == None))
    && (!k.stage.Issuing? && !async ==> delivered == Some(Result(m.outcome.code, 0)))
    && (async && packet == None ==> delivered.Some?)
    && (k.stage.Suspending? ==> async)
    && (k.stage.Issuing? || k.stage.Built? || k.stage.Suspending? ==> k.tickets == 0 && k.seen == [])
    && (k.stage.Awaiting? ==> k.tickets == (if delivered.Some? then 1 else 0) && k.seen == [])
    && (k.stage.Resumed? || k.stage.Destroyed? ==> k.tickets == 0 && delivered.Some? && k.seen == [delivered.value])
    && (!k.stage.Destroyed? ==>
          && m.addr in heap
          && (o.immediate <==> !async && !k.stage.Issuing?)
          && (delivered.Some? ==> o.result == delivered.value)
          && (packet.Some? && packet.value.Written? ==> o.result == packet.value.value)
          && (o.cell.Pulled? <==> async && delivered.Some?)
          && (o.cell.Trapped? <==> async && k.stage.Awaiting? && delivered == None)
          && (o.cell.Trapped? ==> o.cell.handle == op))
  }

  function Find<V>(m: map<OpId, V>, op: OpId): Option<V> {
    if op in m then Some(m[op]) else None
  }

  ghost predicate OpsInv(s: State) {
    forall op :: op in s.made ==>
      op in s.coros && op in s.writes &&
      OpOk(op, s.made[op], s.coros[op], s.heap, Find(s.packets, op), Find(s.delivered, op), s.writes[op])
  }

  ghost predicate Apart(made: map<OpId, Made>, coros: map<OpId, Coro>) {
    forall op, op' :: op in made && op' in made && op in coros && op' in coros && op != op' &&
                      !coros[op].stage.Destroyed? && !coros[op'].stage.Destroyed? ==>
                        made[op].addr != made[op'].addr
  }

  ghost predicate KeysInv(s: State) {
    s.coros.Keys == s.made.Keys && s.writes.Keys == s.made.Keys && s.packets.Keys <= s.made.Keys &&
    s.delivered.Keys <= s.made.Keys
  }

  ghost predicate Inv(s: State) {
    OpsInv(s) && Apart(s.made, s.coros) && KeysInv(s) && !s.fault
  }

  lemma Get(s: State, op: OpId)
    requires OpsInv(s) && op in s.made
    ensures op in s.coros && op in s.writes
    ensures OpOk(op, s.made[op], s.coros[op], s.heap, Find(s.packets, op), Find(s.delivered, op), s.writes[op])
  {}

  /** OpOk looks at the heap only at the operation's own address, and only while the await is live. */
  lemma SameObject(op: OpId, m: Made, k: Coro, heap: map<Addr, Obj>, heap': map<Addr, Obj>, packet: Option<Packet>,
                   delivered: Option<Result>, writes: nat)
    requires OpOk(op, m, k, heap, packet, delivered, writes)
    requires !k.stage.Destroyed? ==> Find(heap', m.addr) == Find(heap, m.addr)
    ensures OpOk(op, m, k, heap', packet, delivered, writes)
  {}

  /** The step s to s' concerns op alone: op is in order again, and packets, coroutines, results and
      objects change only under op and at its address. */
  ghost predicate Moved(s: State, s': State, op: OpId) {
    && op in s.made && op in s'.coros && op in s'.writes && s'.made == s.made && s'.fault == s.fault
    && OpOk(op, s.made[op], s'.coros[op], s'.heap, Find(s'.packets, op), Find(s'.delivered, op), s'.writes[op])
    && s'.coros - {op} == s.coros - {op} && s'.packets - {op} == s.packets - {op}
    && s'.delivered - {op} == s.delivered - {op} && s'.writes - {op} == s.writes - {op}
    && s'.heap - {s.made[op].addr} == s.heap - {s.made[op].addr}
    && (op in s.coros && s.coros[op].stage.Destroyed? ==> s'.coros[op].stage.Destroyed?)
    && (op in s.coros && s.coros[op].stage.Destroyed? ==> s'.heap == s.heap)
  }

  lemma SameElsewhere<V>(m: map<nat, V>, m': map<nat, V>, k: nat, x: nat)
    requires m' - {k} == m - {k} && x != k
    ensures Find(m', x) == Find(m, x)
  {
    assert x in m <==> x in m - {k};
    assert x in m' <==> x in m' - {k};
    if x in m {
      assert (m - {k})[x] == m[x] && (m' - {k})[x] == m'[x];
    }
  }

  lemma OthersKeep(s: State, s': State, op: OpId)
    requires OpsInv(s) && Apart(s.made, s.coros) && Moved(s, s', op)
    ensures OpsInv(s')
  {
    hide OpOk;
    forall x | x in s.made
      ensures x in s'.coros && x in s'.writes &&
              OpOk(x, s.made[x], s'.coros[x], s'.heap, Find(s'.packets, x), Find(s'.delivered, x), s'.writes[x])
    {
      if x != op {
        SameElsewhere(s.coros, s'.coros, op, x);
        SameElsewhere(s.packets, s'.packets, op, x);
        SameElsewhere(s.delivered, s'.delivered, op, x);
        SameElsewhere(s.writes, s'.writes, op, x);
        if !s.coros[x].stage.Destroyed? && !s.coros[op].stage.Destroyed? {
          SameElsewhere(s.heap, s'.heap, s.made[op].addr, s.made[x].addr);
        }
        SameObject(x, s.made[x], s.coros[x], s.heap, s'.heap, Find(s.packets, x), Find(s.delivered, x), s.writes[x]);
      }
    }
  }

  lemma KeysKeep<V>(m: map<nat, V>, m': map<nat, V>, k: nat)
    requires m' - {k} == m - {k}
    ensures forall x :: x != k ==> (x in m' <==> x in m)
  {
    forall x | x != k ensures x in m' <==> x in m {
      SameElsewhere(m, m', k, x);
    }
  }

  lemma ApartKeeps(made: map<OpId, Made>, coros: map<OpId, Coro>, coros': map<OpId, Coro>, op: OpId)
    requires Apart(made, coros) && coros' - {op} == coros - {op} && op in coros && op in coros'
    requires coros[op].stage.Destroyed? ==> coros'[op].stage.Destroyed?
    ensures Apart(made, coros')
  {
    forall x | x != op ensures Find(coros', x) == Find(coros, x) {
      SameElsewhere(coros, coros', op, x);
    }
    forall x, y | x in made && y in made && x in coros' && y in coros' && x != y && !coros'[x].stage.Destroyed? &&
                  !coros'[y].stage.Destroyed?
      ensures made[x].addr != made[y].addr
    {
      assert Find(coros', x) == Find(coros, x) || x == op;
      assert Find(coros', y) == Find(coros, y) || y == op;
    }
  }

  lemma KeysInvKeeps(s: State, s': State, op: OpId)
    requires KeysInv(s) && Moved(s, s', op)
    ensures KeysInv(s')
  {
    hide OpOk;
    KeysKeep(s.coros, s'.coros, op);
    KeysKeep(s.packets, s'.packets, op);
    KeysKeep(s.delivered, s'.delivered, op);
    KeysKeep(s.writes, s'.writes, op);
  }

  lemma StepKeepsInv(s: State, s': State, op: OpId)
    requires Inv(s) && Moved(s, s', op)
    ensures Inv(s')
  {
    hide OpsInv, OpOk, Apart;
    Get(s, op);
    OthersKeep(s, s', op);
    KeysInvKeeps(s, s', op);
    ApartKeeps(s.made, s.coros, s'.coros, op);
  }

  lemma IssuedIsOk(op: OpId, addr: Addr, args: nat, o: Outcome, heap: map<Addr, Obj>)
    requires Proper(o) && addr in heap && heap[addr] == Obj(Result(0, 0), false, Empty)
    ensures OpOk(op, Made(addr, args, o), Coro(Issuing(Wsao(o)), 0, []), heap,
                 if Queues(o) then Some(Queued(addr, args)) else None, None, 0)
  {}

  lemma AddressesInHeap(s: State)
    requires OpsInv(s)
    ensures forall x :: x in s.made ==> x in s.coros && (!s.coros[x].stage.Destroyed? ==> s.made[x].addr in s.heap.Keys)
  {
    forall x | x in s.made ensures x in s.coros && (!s.coros[x].stage.Destroyed? ==> s.made[x].addr in s.heap.Keys) {
      Get(s, x);
    }
  }

  lemma ApartGrows(heap: set<Addr>, made: map<OpId, Made>, coros: map<OpId, Coro>, op: OpId, m: Made, k: Coro)
    requires Apart(made, coros) && op !in made && m.addr !in heap
    requires forall x :: x in made ==> x in coros && (!coros[x].stage.Destroyed? ==> made[x].addr in heap)
    ensures Apart(made[op := m], coros[op := k])
  {}

  lemma IssueKeepsOps(s: State, op: OpId, addr: Addr, args: nat, o: Outcome)
    requires OpsInv(s) && KeysInv(s) && Enabled(s, Issue(op, addr, args, o))
    ensures OpsInv(Next(s, Issue(op, addr, args, o)))
  {
    hide OpsInv, OpOk;
    var s' := Next(s, Issue(op, addr, args, o));
    IssuedIsOk(op, addr, args, o, s'.heap);
    IssueKeepsOthers(s, s', op, addr);
  }

  lemma IssueKeepsApart(s: State, op: OpId, addr: Addr, args: nat, o: Outcome)
    requires OpsInv(s) && Apart(s.made, s.coros) && Enabled(s, Issue(op, addr, args, o))
    ensures var s' := Next(s, Issue(op, addr, args, o)); Apart(s'.made, s'.coros)
  {
    AddressesInHeap(s);
    hide OpsInv, Apart;
    ApartGrows(s.heap.Keys, s.made, s.coros, op, Made(addr, args, o), Coro(Issuing(Wsao(o)), 0, []));
  }

  lemma InvIssue(s: State, op: OpId, addr: Addr, args: nat, o: Outcome)
    requires Inv(s) && Enabled(s, Issue(op, addr, args, o))
    ensures Inv(Next(s, Issue(op, addr, args, o)))
  {
    hide OpsInv, Apart, KeysInv;
    IssueKeepsOps(s, op, addr, args, o);
    IssueKeepsApart(s, op, addr, args, o);
    KeysGrow(s, op, addr, args, o);
  }

  lemma KeysGrow(s: State, op: OpId, addr: Addr, args: nat, o: Outcome)
    requires KeysInv(s) && Enabled(s, Issue(op, addr, args, o))
    ensures KeysInv(Next(s, Issue(op, addr, args, o)))
  {}

  lemma IssueKeepsOthers(s: State, s': State, op: OpId, addr: Addr)
    requires OpsInv(s) && op !in s.made && op !in s.delivered && op in s'.made && s'.made == s.made[op := s'.made[op]]
    requires forall x :: x in s.made ==>
               && Find(s'.coros, x) == Find(s.coros, x) && Find(s'.packets, x) == Find(s.packets, x)
               && Find(s'.delivered, x) == Find(s.delivered, x) && Find(s'.writes, x) == Find(s.writes, x)
    requires addr !in s.heap && addr in s'.heap && s'.heap == s.heap[addr := s'.heap[addr]]
    requires op in s'.coros && op in s'.writes
    requires OpOk(op, s'.made[op], s'.coros[op], s'.heap, Find(s'.packets, op), Find(s'.delivered, op), s'.writes[op])
    ensures OpsInv(s')
  {
    forall x | x in s'.made
      ensures x in s'.coros && x in s'.writes &&
              OpOk(x, s'.made[x], s'.coros[x], s'.heap, Find(s'.packets, x), Find(s'.delivered, x), s'.writes[x])
    {
      if x != op {
        Get(s, x);
        assert Find(s'.coros, x) == Find(s.coros, x) && Find(s'.writes, x) == Find(s.writes, x);
        SameObject(x, s.made[x], s.coros[x], s.heap, s'.heap, Find(s.packets, x), Find(s.delivered, x), s.writes[x]);
      }
    }
  }

  lemma SettleOk(s: State, op: OpId)
    requires OpsInv(s) && Enabled(s, Settle(op))
    ensures !s.fault ==> Moved(s, DoSettle(s, op), op)
  {
    hide OpsInv;
    Get(s, op);
  }

  lemma InvSettle(s: State, op: OpId)
    requires Inv(s) && Enabled(s, Settle(op))
    ensures Inv(DoSettle(s, op))
  {
    hide OpsInv, Moved;
    SettleOk(s, op);
    StepKeepsInv(s, DoSettle(s, op), op);
  }

  lemma WriteOk(s: State, op: OpId, v: Result)
    requires OpsInv(s) && s.packets.Keys <= s.made.Keys && Enabled(s, CallbackWrite(op, v))
    ensures !s.fault ==> Moved(s, DoWrite(s, op, v), op)
  {
    hide OpsInv;
    Get(s, op);
  }

  lemma InvWrite(s: State, op: OpId, v: Result)
    requires Inv(s) && Enabled(s, CallbackWrite(op, v))
    ensures Inv(DoWrite(s, op, v))
  {
    hide OpsInv, Moved;
    WriteOk(s, op, v);
    StepKeepsInv(s, DoWrite(s, op, v), op);
  }

  lemma PullOk(s: State, op: OpId)
    requires OpsInv(s) && s.packets.Keys <= s.made.Keys && Enabled(s, CallbackPull(op))
    ensures !s.fault ==> Moved(s, DoPull(s, op), op)
  {
    hide OpsInv;
    Get(s, op);
  }

  lemma InvPull(s: State, op: OpId)
    requires Inv(s) && Enabled(s, CallbackPull(op))
    ensures Inv(DoPull(s, op))
  {
    hide OpsInv, Moved;
    PullOk(s, op);
    StepKeepsInv(s, DoPull(s, op), op);
  }

  lemma AskReadyOk(s: State, op: OpId)
    requires OpsInv(s) && Enabled(s, AskReady(op))
    ensures !s.fault ==> Moved(s, DoAskReady(s, op), op)
  {
    hide OpsInv;
    Get(s, op);
  }

  lemma InvAskReady(s: State, op: OpId)
    requires Inv(s) && Enabled(s, AskReady(op))
    ensures Inv(DoAskReady(s, op))
  {
    hide OpsInv, Moved;
    AskReadyOk(s, op);
    StepKeepsInv(s, DoAskReady(s, op), op);
  }

  lemma TrapOk(s: State, op: OpId)
    requires OpsInv(s) && Enabled(s, Trap(op))
    ensures !s.fault ==> Moved(s, DoTrap(s, op), op)
  {
    hide OpsInv;
    Get(s, op);
  }

  lemma InvTrap(s: State, op: OpId)
    requires Inv(s) && Enabled(s, Trap(op))
    ensures Inv(DoTrap(s, op))
  {
    hide OpsInv, Moved;
    TrapOk(s, op);
    StepKeepsInv(s, DoTrap(s, op), op);
  }

  lemma ResumeOk(s: State, op: OpId)
    requires OpsInv(s) && Enabled(s, Resume(op))
    ensures !s.fault ==> Moved(s, Next(s, Resume(op)), op)
  {
    hide OpsInv;
    Get(s, op);
  }

  lemma InvResume(s: State, op: OpId)
    requires Inv(s) && Enabled(s, Resume(op))
    ensures Inv(Next(s, Resume(op)))
  {
    hide OpsInv, Moved;
    ResumeOk(s, op);
    StepKeepsInv(s, Next(s, Resume(op)), op);
  }

  lemma DestroyOk(s: State, op: OpId)
    requires OpsInv(s) && Enabled(s, Destroy(op))
    ensures !s.fault ==> Moved(s, Next(s, Destroy(op)), op)
  {
    hide OpsInv;
    Get(s, op);
  }

  lemma InvDestroy(s: State, op: OpId)
    requires Inv(s) && Enabled(s, Destroy(op))
    ensures Inv(Next(s, Destroy(op)))
  {
    hide OpsInv, Moved;
    DestroyOk(s, op);
    StepKeepsInv(s, Next(s, Destroy(op)), op);
  }
}
