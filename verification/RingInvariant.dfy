/** The inductive invariant of the completion engine and its preservation, step by step.
    Each part speaks only of the state components it constrains. */
module RingInvariant {
  import opened IoStatus
  import opened OneShot
  import opened Ring

  function SqOps(q: seq<Sqe>): set<OpId> { set e | e in q :: e.op }

  function CqOps(q: seq<Cqe>): set<OpId> { set e | e in q :: e.op }

  /** The CQEs whose await has not been pulled yet. */
  function PendingCq(cq: seq<Cqe>, r: Reaper): seq<Cqe> {
    if r.Released? && cq != [] then cq[1..] else cq
  }

  /** What the lock holder is doing. */
  function Holder(lock: Option<Tid>, threads: map<Tid, Pc>): Option<Pc> {
    if lock.Some? && lock.value in threads then Some(threads[lock.value]) else None
  }

  /** The operation whose await the lock holder has constructed. */
  function HolderOp(h: Option<Pc>): Option<OpId> {
    if h.Some? && !h.value.Waiting? && !h.value.Locked? then Some(h.value.op) else None
  }

  /** The operation that has an await and no SQE yet: only the lock holder can have one. */
  function Unqueued(h: Option<Pc>): set<OpId> {
    if h.Some? && h.value.Constructed? then {h.value.op} else {}
  }

  ghost predicate LockInv(lock: Option<Tid>, threads: map<Tid, Pc>) {
    && (forall t :: t in threads ==> (!threads[t].Waiting? <==> lock == Some(t)))
    && (lock.Some? ==> lock.value in threads)
  }

  predicate Filled(made: map<OpId, Made>, e: Sqe) {
    e.op in made && e.tag == Some(made[e.op].addr) && e.body == BodyFor(made[e.op].req, made[e.op].addr)
  }

  /** The lock holder is still filling the newest slot. */
  predicate Filling(h: Option<Pc>) {
    h.Some? && (h.value.GotSqe? || h.value.Prepared?)
  }

  ghost predicate SqInv(h: Option<Pc>, sq: seq<Sqe>, made: map<OpId, Made>) {
    && |sq| <= QUEUE_DEPTH
    && (forall i, j :: 0 <= i < j < |sq| ==> sq[i].op != sq[j].op)
    && (forall i :: 0 <= i < |sq| && !(Filling(h) && i == |sq| - 1) ==> Filled(made, sq[i]))
    && (Filling(h) ==> sq != [] && sq[|sq| - 1].op == h.value.op && h.value.op in made)
    && (h.Some? && h.value.Prepared? ==>
          sq[|sq| - 1].body == BodyFor(made[h.value.op].req, made[h.value.op].addr))
  }

  ghost predicate FlightInv(inflight: map<OpId, Sqe>, made: map<OpId, Made>) {
    forall op :: op in inflight ==> inflight[op].op == op && Filled(made, inflight[op])
  }

  predicate CqeOk(c: Cqe, made: map<OpId, Made>, completed: map<OpId, int32>) {
    c.op in made && c.tag == Some(made[c.op].addr) && c.op in completed && c.res == completed[c.op]
  }

  ghost predicate CqInv(cq: seq<Cqe>, made: map<OpId, Made>, completed: map<OpId, int32>) {
    && (forall i, j :: 0 <= i < j < |cq| ==> cq[i].op != cq[j].op)
    && (forall i :: 0 <= i < |cq| ==> CqeOk(cq[i], made, completed))
  }

  ghost predicate ReaperInv(cq: seq<Cqe>, r: Reaper, released: set<OpId>) {
    && (!r.Idle? ==> cq != [])
    && (r.Released? ==> cq[0].op in released)
  }

  /** Every operation is in exactly one place: no SQE yet, queued, in flight, CQE pending, released. */
  ghost predicate PlacesInv(none: set<OpId>, queued: set<OpId>, flight: set<OpId>, pending: set<OpId>,
                            released: set<OpId>, all: set<OpId>) {
    && none !! queued !! flight !! pending !! released
    && none + queued + flight + pending + released == all
  }

  function LiveOps(coros: map<OpId, Coro>): set<OpId> {
    set op | op in coros && !coros[op].stage.Destroyed?
  }

  ghost predicate HeapInv(addrs: set<Addr>, made: map<OpId, Made>, live: set<OpId>) {
    && live <= made.Keys
    && (forall op :: op in live ==> made[op].addr in addrs)
    && (forall op, op' :: op in live && op' in live && op != op' ==> made[op].addr != made[op'].addr)
    && (forall a :: a in addrs ==> exists op :: op in live && made[op].addr == a)
  }

  /** The operation whose result the reaper has stored and not pulled yet. */
  function StoredOp(cq: seq<Cqe>, r: Reaper): Option<OpId> {
    if r.Stored? && cq != [] then Some(cq[0].op) else None
  }

  /** What the await object of a live operation holds. */
  predicate ObjectOk(op: OpId, o: AwaitObj, req: Request, k: Coro, released: set<OpId>,
                     completed: map<OpId, int32>, stored: Option<OpId>) {
    && (o.cell.Pulled? <==> op in released)
    && (req.Message? ==> o.header == Some(req.header))
    && (op in released || stored == Some(op) ==> op in completed && o.result == completed[op])
    && (k.stage.Building? || k.stage.Ready? ==> !o.cell.Trapped?)
    && (k.stage.Awaiting? && op !in released ==> o.cell == Trapped(op))
  }

  ghost predicate ObjectsInv(heap: map<Addr, AwaitObj>, made: map<OpId, Made>, coros: map<OpId, Coro>,
                             released: set<OpId>, completed: map<OpId, int32>, stored: Option<OpId>) {
    forall op :: op in coros && !coros[op].stage.Destroyed? && op in made && made[op].addr in heap ==>
      ObjectOk(op, heap[made[op].addr], made[op].req, coros[op], released, completed, stored)
  }

  /** What a coroutine may have been granted and may have read. */
  predicate CoroOk(op: OpId, k: Coro, holder: Option<OpId>, released: set<OpId>, completed: map<OpId, int32>) {
    && (k.stage.Building? <==> holder == Some(op))
    && (k.stage.Building? || k.stage.Ready? ==> k.tickets == 0 && k.seen == [])
    && (k.stage.Awaiting? ==> k.tickets == (if op in released then 1 else 0) && k.seen == [])
    && (k.stage.Resumed? || k.stage.Destroyed? ==>
          op in released && k.tickets == 0 && op in completed && k.seen == [completed[op]])
  }

  ghost predicate CorosInv(holder: Option<OpId>, coros: map<OpId, Coro>, released: set<OpId>,
                           completed: map<OpId, int32>) {
    && (forall op :: op in coros ==> CoroOk(op, coros[op], holder, released, completed))
    && (holder.Some? ==> holder.value in coros)
  }

  /** The argument the caller passed. */
  function Passed(req: Request): nat {
    match req case Plain(a) => a case Message(h) => h
  }

  ghost predicate ServedInv(served: map<OpId, nat>, completed: set<OpId>, made: map<OpId, Made>) {
    && served.Keys == completed
    && (forall op :: op in served ==> op in made && served[op] == Passed(made[op].req))
  }

  ghost predicate Inv(s: State) {
    var h := Holder(s.lock, s.threads);
    var pending := PendingCq(s.cq, s.reaper);
    && LockInv(s.lock, s.threads)
    && SqInv(h, s.sq, s.made)
    && FlightInv(s.inflight, s.made)
    && CqInv(s.cq, s.made, s.completed)
    && ReaperInv(s.cq, s.reaper, s.released)
    && PlacesInv(Unqueued(h), SqOps(s.sq), s.inflight.Keys, CqOps(pending), s.released, s.made.Keys)
    && s.completed.Keys == CqOps(pending) + s.released
    && s.coros.Keys == s.made.Keys
    && HeapInv(s.heap.Keys, s.made, LiveOps(s.coros))
    && ObjectsInv(s.heap, s.made, s.coros, s.released, s.completed, StoredOp(s.cq, s.reaper))
    && CorosInv(HolderOp(h), s.coros, s.released, s.completed)
    && ServedInv(s.served, s.completed.Keys, s.made)
    && !s.fault
  }

  lemma SqOpsAppend(q: seq<Sqe>, e: Sqe)
    ensures SqOps(q + [e]) == SqOps(q) + {e.op}
  {
    forall x | x in SqOps(q) + {e.op} ensures x in SqOps(q + [e]) {
      if x in SqOps(q) {
        var y :| y in q && y.op == x;
        assert y in q + [e];
      } else {
        assert e in q + [e];
      }
    }
  }

  lemma CqOpsAppend(q: seq<Cqe>, e: Cqe)
    ensures CqOps(q + [e]) == CqOps(q) + {e.op}
  {
    forall x | x in CqOps(q) + {e.op} ensures x in CqOps(q + [e]) {
      if x in CqOps(q) {
        var y :| y in q && y.op == x;
        assert y in q + [e];
      } else {
        assert e in q + [e];
      }
    }
  }

  lemma SqOpsTail(q: seq<Sqe>)
    requires q != [] && forall i, j :: 0 <= i < j < |q| ==> q[i].op != q[j].op
    ensures SqOps(q[1..]) == SqOps(q) - {q[0].op}
  {
    forall x | x in SqOps(q) - {q[0].op} ensures x in SqOps(q[1..]) {
      var y :| y in q && y.op == x;
      assert y in q[1..];
    }
  }

  lemma CqOpsTail(q: seq<Cqe>)
    requires q != [] && forall i, j :: 0 <= i < j < |q| ==> q[i].op != q[j].op
    ensures CqOps(q[1..]) == CqOps(q) - {q[0].op} && q[0].op in CqOps(q)
  {
    forall x | x in CqOps(q) - {q[0].op} ensures x in CqOps(q[1..]) {
      var y :| y in q && y.op == x;
      assert y in q[1..];
    }
    assert q[0] in q;
  }

  lemma SqOpsSetLast(q: seq<Sqe>, e: Sqe)
    requires q != [] && e.op == q[|q| - 1].op
    ensures SqOps(q[|q| - 1 := e]) == SqOps(q)
  {
    var n := |q| - 1;
    assert q == q[..n] + [q[n]] && q[n := e] == q[..n] + [e];
    SqOpsAppend(q[..n], q[n]);
    SqOpsAppend(q[..n], e);
  }

  /* The lock. */

  lemma LockMove(lock: Option<Tid>, threads: map<Tid, Pc>, t: Tid, pc: Pc)
    requires LockInv(lock, threads) && t in threads && !threads[t].Waiting? && !pc.Waiting?
    ensures LockInv(lock, threads[t := pc])
    ensures Holder(lock, threads) == Some(threads[t]) && Holder(lock, threads[t := pc]) == Some(pc)
  {}

  lemma LockTake(threads: map<Tid, Pc>, t: Tid, pc: Pc)
    requires LockInv(None, threads) && t in threads && !pc.Waiting?
    ensures LockInv(Some(t), threads[t := pc]) && Holder(Some(t), threads[t := pc]) == Some(pc)
  {}

  lemma LockDrop(lock: Option<Tid>, threads: map<Tid, Pc>, t: Tid)
    requires LockInv(lock, threads) && t in threads && !threads[t].Waiting?
    ensures LockInv(None, threads - {t}) && Holder(lock, threads) == Some(threads[t])
  {}

  lemma LockArrive(lock: Option<Tid>, threads: map<Tid, Pc>, t: Tid, pc: Pc)
    requires LockInv(lock, threads) && t !in threads && pc.Waiting?
    ensures LockInv(lock, threads[t := pc]) && Holder(lock, threads[t := pc]) == Holder(lock, threads)
  {}

  /* The submission queue. */

  lemma SqIdle(h: Option<Pc>, h': Option<Pc>, sq: seq<Sqe>, made: map<OpId, Made>)
    requires SqInv(h, sq, made) && !Filling(h) && !Filling(h')
    ensures SqInv(h', sq, made)
  {}

  lemma SqGet(h: Option<Pc>, sq: seq<Sqe>, made: map<OpId, Made>, op: OpId)
    requires SqInv(h, sq, made) && !Filling(h) && op in made && op !in SqOps(sq) && |sq| < QUEUE_DEPTH
    ensures SqInv(Some(GotSqe(op)), sq + [Sqe(op, Blank, None)], made)
    ensures SqOps(sq + [Sqe(op, Blank, None)]) == SqOps(sq) + {op}
  {
    SqOpsAppend(sq, Sqe(op, Blank, None));
    forall i | 0 <= i < |sq| ensures sq[i].op != op {
      assert sq[i] in sq;
    }
  }

  lemma SqPrep(op: OpId, sq: seq<Sqe>, made: map<OpId, Made>)
    requires SqInv(Some(GotSqe(op)), sq, made) && sq != [] && op in made
    ensures var e := sq[|sq| - 1].(body := BodyFor(made[op].req, made[op].addr));
            SqInv(Some(Prepared(op)), sq[|sq| - 1 := e], made) && SqOps(sq[|sq| - 1 := e]) == SqOps(sq)
  {
    SqOpsSetLast(sq, sq[|sq| - 1].(body := BodyFor(made[op].req, made[op].addr)));
  }

  lemma SqTag(op: OpId, sq: seq<Sqe>, made: map<OpId, Made>)
    requires SqInv(Some(Prepared(op)), sq, made) && sq != [] && op in made
    ensures var e := sq[|sq| - 1].(tag := Some(made[op].addr));
            SqInv(Some(Submitting(op)), sq[|sq| - 1 := e], made) && SqOps(sq[|sq| - 1 := e]) == SqOps(sq)
  {
    SqOpsSetLast(sq, sq[|sq| - 1].(tag := Some(made[op].addr)));
  }

  lemma SqTake(h: Option<Pc>, sq: seq<Sqe>, inflight: map<OpId, Sqe>, made: map<OpId, Made>)
    requires SqInv(h, sq, made) && !Filling(h) && sq != [] && FlightInv(inflight, made)
    ensures SqInv(h, sq[1..], made) && FlightInv(inflight[sq[0].op := sq[0]], made)
    ensures SqOps(sq[1..]) == SqOps(sq) - {sq[0].op} && sq[0].op in SqOps(sq)
  {
    SqOpsTail(sq);
    assert sq[0] in sq && Filled(made, sq[0]);
  }

  /** Constructing one more await keeps what is known about the others' SQEs and CQEs. */
  lemma MadeGrows(h: Option<Pc>, h': Option<Pc>, sq: seq<Sqe>, inflight: map<OpId, Sqe>, cq: seq<Cqe>,
                  served: map<OpId, nat>, completed: map<OpId, int32>, made: map<OpId, Made>, op: OpId, m: Made)
    requires SqInv(h, sq, made) && FlightInv(inflight, made) && CqInv(cq, made, completed)
    requires ServedInv(served, completed.Keys, made) && op !in made && !Filling(h) && !Filling(h')
    ensures SqInv(h', sq, made[op := m]) && FlightInv(inflight, made[op := m])
    ensures CqInv(cq, made[op := m], completed) && ServedInv(served, completed.Keys, made[op := m])
  {
    forall i | 0 <= i < |sq| ensures Filled(made[op := m], sq[i]) {
      assert Filled(made, sq[i]);
    }
    forall i | 0 <= i < |cq| ensures CqeOk(cq[i], made[op := m], completed) {
      assert CqeOk(cq[i], made, completed);
    }
  }

  /* The completion queue. */

  lemma CqPost(cq: seq<Cqe>, r: Reaper, made: map<OpId, Made>, completed: map<OpId, int32>, released: set<OpId>,
               c: Cqe)
    requires CqInv(cq, made, completed) && ReaperInv(cq, r, released) && c.op !in completed
    requires c.op in made && c.tag == Some(made[c.op].addr)
    ensures CqInv(cq + [c], made, completed[c.op := c.res]) && ReaperInv(cq + [c], r, released)
    ensures CqOps(PendingCq(cq + [c], r)) == CqOps(PendingCq(cq, r)) + {c.op}
    ensures StoredOp(cq + [c], r) == StoredOp(cq, r)
  {
    forall i | 0 <= i < |cq| ensures CqeOk(cq[i], made, completed[c.op := c.res]) && cq[i].op != c.op {
      assert CqeOk(cq[i], made, completed);
    }
    CqOpsAppend(PendingCq(cq, r), c);
    if r.Released? {
      assert (cq + [c])[1..] == cq[1..] + [c];
    }
  }

  lemma CqHead(cq: seq<Cqe>, made: map<OpId, Made>, completed: map<OpId, int32>)
    requires CqInv(cq, made, completed) && cq != []
    ensures CqeOk(cq[0], made, completed) && CqInv(cq[1..], made, completed)
    ensures CqOps(cq[1..]) == CqOps(cq) - {cq[0].op} && cq[0].op in CqOps(cq)
  {
    CqOpsTail(cq);
  }

  /* Storage and coroutines. */

  lemma HeapConstruct(addrs: set<Addr>, made: map<OpId, Made>, live: set<OpId>, op: OpId, m: Made)
    requires HeapInv(addrs, made, live) && op !in made && m.addr !in addrs
    ensures HeapInv(addrs + {m.addr}, made[op := m], live + {op})
  {
    forall a | a in addrs + {m.addr} ensures exists x :: x in live + {op} && made[op := m][x].addr == a {
      if a == m.addr {
        assert made[op := m][op].addr == a;
      } else {
        var x :| x in live && made[x].addr == a;
        assert made[op := m][x].addr == a;
      }
    }
  }

  lemma HeapDestroy(addrs: set<Addr>, made: map<OpId, Made>, live: set<OpId>, op: OpId)
    requires HeapInv(addrs, made, live) && op in live
    ensures HeapInv(addrs - {made[op].addr}, made, live - {op})
  {
    forall a | a in addrs - {made[op].addr} ensures exists x :: x in live - {op} && made[x].addr == a {
      var x :| x in live && made[x].addr == a;
      assert x in live - {op};
    }
  }

  lemma LiveUpdate(coros: map<OpId, Coro>, op: OpId, k: Coro)
    ensures LiveOps(coros[op := k]) ==
            if k.stage.Destroyed? then LiveOps(coros) - {op} else LiveOps(coros) + {op}
    ensures op in coros && !coros[op].stage.Destroyed? && !k.stage.Destroyed? ==>
              LiveOps(coros[op := k]) == LiveOps(coros)
  {}

  /** The object of a live operation, and no other live operation at its address. */
  lemma ObjectOf(addrs: set<Addr>, made: map<OpId, Made>, coros: map<OpId, Coro>, op: OpId)
    requires HeapInv(addrs, made, LiveOps(coros)) && op in coros && !coros[op].stage.Destroyed?
    ensures op in LiveOps(coros) && op in made && made[op].addr in addrs
    ensures forall x :: x in coros && !coros[x].stage.Destroyed? && x != op ==>
              x in made && made[x].addr in addrs && made[x].addr != made[op].addr
  {
    forall x | x in coros && !coros[x].stage.Destroyed? ensures x in LiveOps(coros) {}
  }

  /** Changing one live operation's object and coroutine, to states that are again in order, keeps
      everybody else's: no other operation shares the address. */
  lemma ObjectsUpdate(heap: map<Addr, AwaitObj>, made: map<OpId, Made>, coros: map<OpId, Coro>,
                      released: set<OpId>, completed: map<OpId, int32>, stored: Option<OpId>,
                      op: OpId, o: AwaitObj, k: Coro, released': set<OpId>, stored': Option<OpId>)
    requires ObjectsInv(heap, made, coros, released, completed, stored)
    requires HeapInv(heap.Keys, made, LiveOps(coros)) && op in coros && !coros[op].stage.Destroyed?
    requires released' == released || released' == released + {op}
    requires stored' == stored || (stored' == Some(op) && stored == None) || (stored' == None && stored == Some(op))
    requires op in made && ObjectOk(op, o, made[op].req, k, released', completed, stored')
    ensures ObjectsInv(heap[made[op].addr := o], made, coros[op := k], released', completed, stored')
  {
    ObjectOf(heap.Keys, made, coros, op);
  }

  lemma ObjectsGet(heap: map<Addr, AwaitObj>, made: map<OpId, Made>, coros: map<OpId, Coro>,
                   released: set<OpId>, completed: map<OpId, int32>, stored: Option<OpId>, op: OpId)
    requires ObjectsInv(heap, made, coros, released, completed, stored)
    requires op in coros && !coros[op].stage.Destroyed? && op in made && made[op].addr in heap
    ensures ObjectOk(op, heap[made[op].addr], made[op].req, coros[op], released, completed, stored)
  {}

  lemma ObjectsConstruct(heap: map<Addr, AwaitObj>, made: map<OpId, Made>, coros: map<OpId, Coro>,
                         released: set<OpId>, completed: map<OpId, int32>, stored: Option<OpId>,
                         op: OpId, m: Made, o: AwaitObj, k: Coro)
    requires ObjectsInv(heap, made, coros, released, completed, stored)
    requires HeapInv(heap.Keys, made, LiveOps(coros)) && coros.Keys == made.Keys
    requires op !in made && m.addr !in heap
    requires ObjectOk(op, o, m.req, k, released, completed, stored)
    ensures ObjectsInv(heap[m.addr := o], made[op := m], coros[op := k], released, completed, stored)
  {
    forall x | x in coros && !coros[x].stage.Destroyed? ensures made[x].addr in heap {
      assert x in LiveOps(coros);
    }
  }

  /** Moving one coroutine on, its object staying in order, keeps all objects in order. */
  lemma ObjectsAdvance(heap: map<Addr, AwaitObj>, made: map<OpId, Made>, coros: map<OpId, Coro>,
                       released: set<OpId>, completed: map<OpId, int32>, stored: Option<OpId>, op: OpId, k: Coro)
    requires ObjectsInv(heap, made, coros, released, completed, stored)
    requires op in coros && !coros[op].stage.Destroyed?
    requires op in made && made[op].addr in heap ==>
               ObjectOk(op, heap[made[op].addr], made[op].req, coros[op], released, completed, stored) ==>
               ObjectOk(op, heap[made[op].addr], made[op].req, k, released, completed, stored)
    ensures ObjectsInv(heap, made, coros[op := k], released, completed, stored)
  {}

  lemma ObjectsDestroy(heap: map<Addr, AwaitObj>, made: map<OpId, Made>, coros: map<OpId, Coro>,
                       released: set<OpId>, completed: map<OpId, int32>, stored: Option<OpId>, op: OpId, k: Coro)
    requires ObjectsInv(heap, made, coros, released, completed, stored)
    requires op in made && k.stage.Destroyed?
    ensures ObjectsInv(heap - {made[op].addr}, made, coros[op := k], released, completed, stored)
  {}

  lemma ObjectsComplete(heap: map<Addr, AwaitObj>, made: map<OpId, Made>, coros: map<OpId, Coro>,
                        released: set<OpId>, completed: map<OpId, int32>, stored: Option<OpId>, op: OpId, res: int32)
    requires ObjectsInv(heap, made, coros, released, completed, stored) && op !in released && stored != Some(op)
    ensures ObjectsInv(heap, made, coros, released, completed[op := res], stored)
  {}

  lemma CorosGet(holder: Option<OpId>, coros: map<OpId, Coro>, released: set<OpId>, completed: map<OpId, int32>,
                 op: OpId)
    requires CorosInv(holder, coros, released, completed)
    ensures op in coros ==> CoroOk(op, coros[op], holder, released, completed)
    ensures holder.Some? ==> holder.value in coros
  {}

  /** Moving one coroutine on to a state that is in order leaves the others in order. */
  lemma CorosUpdate(holder: Option<OpId>, coros: map<OpId, Coro>, released: set<OpId>, completed: map<OpId, int32>,
                    op: OpId, k: Coro, holder': Option<OpId>, released': set<OpId>)
    requires CorosInv(holder, coros, released, completed)
    requires holder' == holder || (holder == None && holder' == Some(op)) || (holder == Some(op) && holder' == None)
    requires released' == released || released' == released + {op}
    requires CoroOk(op, k, holder', released', completed)
    ensures CorosInv(holder', coros[op := k], released', completed)
  {}

  lemma CorosComplete(holder: Option<OpId>, coros: map<OpId, Coro>, released: set<OpId>,
                      completed: map<OpId, int32>, op: OpId, res: int32)
    requires CorosInv(holder, coros, released, completed) && op !in released
    ensures CorosInv(holder, coros, released, completed[op := res])
  {}

  lemma PlacesComplete(none: set<OpId>, queued: set<OpId>, flight: set<OpId>, pending: set<OpId>,
                       released: set<OpId>, all: set<OpId>, op: OpId)
    requires PlacesInv(none, queued, flight, pending, released, all) && op in flight
    ensures PlacesInv(none, queued, flight - {op}, pending + {op}, released, all)
    ensures op !in pending && op !in released && op in all
  {}

  lemma PlacesRelease(none: set<OpId>, queued: set<OpId>, flight: set<OpId>, pending: set<OpId>,
                      released: set<OpId>, all: set<OpId>, op: OpId)
    requires PlacesInv(none, queued, flight, pending, released, all) && op in pending
    ensures PlacesInv(none, queued, flight, pending - {op}, released + {op}, all)
    ensures op !in released && op in all
  {}

  lemma FlightTake(inflight: map<OpId, Sqe>, made: map<OpId, Made>, op: OpId)
    requires FlightInv(inflight, made) && op in inflight
    ensures FlightInv(inflight - {op}, made) && Filled(made, inflight[op]) && inflight[op].op == op
  {}

  lemma ServedAdd(served: map<OpId, nat>, completed: map<OpId, int32>, made: map<OpId, Made>, op: OpId, res: int32)
    requires ServedInv(served, completed.Keys, made) && op in made
    ensures ServedInv(served[op := Passed(made[op].req)], completed[op := res].Keys, made)
  {}

  /** An operation the kernel has not released is live, with its await object in place. */
  lemma UnreleasedIsLive(s: State, op: OpId)
    requires Inv(s) && op in s.made && op !in s.released
    ensures op in s.coros && !s.coros[op].stage.Destroyed? && s.made[op].addr in s.heap
  {
    hide LockInv, SqInv, FlightInv, CqInv, HeapInv, ObjectsInv, CorosInv, ServedInv, LiveOps, SqOps, CqOps;
    CorosGet(HolderOp(Holder(s.lock, s.threads)), s.coros, s.released, s.completed, op);
    ObjectOf(s.heap.Keys, s.made, s.coros, op);
  }

  /** What the kernel reads for an operation in flight is what the caller passed. */
  lemma FetchServes(s: State, op: OpId)
    requires Inv(s) && op in s.inflight
    ensures op in s.made && Fetch(s, s.inflight[op].body) == Some(Passed(s.made[op].req))
  {
    hide LockInv, SqInv, FlightInv, CqInv, HeapInv, ObjectsInv, CorosInv, ServedInv, LiveOps, SqOps, CqOps;
    FlightTake(s.inflight, s.made, op);
    UnreleasedIsLive(s, op);
    ObjectsGet(s.heap, s.made, s.coros, s.released, s.completed, StoredOp(s.cq, s.reaper), op);
  }

  /** While the reaper works on a CQE it has not pulled, that operation is not released, its await is
      live, and the CQE's user data is that await's address. */
  lemma PendingIsLive(s: State, op: OpId)
    requires Inv(s) && s.cq != [] && op == s.cq[0].op && !s.reaper.Released?
    ensures op in s.made && op !in s.released && op in s.coros && !s.coros[op].stage.Destroyed?
    ensures s.made[op].addr in s.heap && s.cq[0].tag == Some(s.made[op].addr)
    ensures op in s.completed && s.cq[0].res == s.completed[op]
  {
    hide LockInv, SqInv, FlightInv, CqInv, HeapInv, ObjectsInv, CorosInv, ServedInv, LiveOps, SqOps, CqOps;
    CqHead(s.cq, s.made, s.completed);
    UnreleasedIsLive(s, op);
  }

  /* The steps. The parts are used only through the lemmas above. */

  lemma InvInit()
    ensures Inv(INIT)
  {}

  lemma InvCall(s: State, t: Tid, req: Request)
    requires Inv(s) && Enabled(s, Call(t, req))
    ensures Inv(Next(s, Call(t, req)))
  {
    hide LockInv, SqInv, FlightInv, CqInv, HeapInv, ObjectsInv, CorosInv, ServedInv, LiveOps, SqOps, CqOps;
    LockArrive(s.lock, s.threads, t, Waiting(req));
  }

  lemma InvLock(s: State, t: Tid)
    requires Inv(s) && Enabled(s, Lock(t))
    ensures Inv(Next(s, Lock(t)))
  {
    hide LockInv, SqInv, FlightInv, CqInv, HeapInv, ObjectsInv, CorosInv, ServedInv, LiveOps, SqOps, CqOps;
    var pc := Locked(s.threads[t].req);
    LockTake(s.threads, t, pc);
    SqIdle(None, Some(pc), s.sq, s.made);
  }

  lemma StoredIsMade(s: State)
    requires Inv(s)
    ensures StoredOp(s.cq, s.reaper).Some? ==> StoredOp(s.cq, s.reaper).value in s.made
  {
    hide LockInv, SqInv, FlightInv, CqInv, HeapInv, ObjectsInv, CorosInv, PlacesInv, ServedInv, LiveOps, SqOps, CqOps;
    if s.cq != [] {
      CqHead(s.cq, s.made, s.completed);
    }
  }

  lemma PlacesNew(queued: set<OpId>, flight: set<OpId>, pending: set<OpId>, released: set<OpId>, all: set<OpId>, op: OpId)
    requires PlacesInv({}, queued, flight, pending, released, all) && op !in all
    ensures PlacesInv({op}, queued, flight, pending, released, all + {op})
  {}

  lemma InvConstruct(s: State, t: Tid, op: OpId, addr: Addr)
    requires Inv(s) && Enabled(s, Construct(t, op, addr))
    ensures Inv(DoConstruct(s, t, op, addr))
  {
    hide LockInv, SqInv, FlightInv, CqInv, HeapInv, ObjectsInv, CorosInv, PlacesInv, ServedInv, LiveOps, SqOps, CqOps;
    var s' := DoConstruct(s, t, op, addr);
    assert s'.made.Keys == s.made.Keys + {op};
    var h, m, k := Holder(s.lock, s.threads), s'.made[op], s'.coros[op];
    var stored := StoredOp(s.cq, s.reaper);
    LockMove(s.lock, s.threads, t, Constructed(op));
    PlacesNew(SqOps(s.sq), s.inflight.Keys, CqOps(PendingCq(s.cq, s.reaper)), s.released, s.made.Keys, op);
    MadeGrows(h, Some(Constructed(op)), s.sq, s.inflight, s.cq, s.served, s.completed, s.made, op, m);
    HeapConstruct(s.heap.Keys, s.made, LiveOps(s.coros), op, m);
    LiveUpdate(s.coros, op, k);
    assert s'.heap.Keys == s.heap.Keys + {addr};
    StoredIsMade(s);
    ObjectsConstruct(s.heap, s.made, s.coros, s.released, s.completed, stored, op, m, s'.heap[addr], k);
    CorosUpdate(HolderOp(h), s.coros, s.released, s.completed, op, k, Some(op), s.released);
  }

  lemma InvGetSqe(s: State, t: Tid)
    requires Inv(s) && Enabled(s, GetSqe(t))
    ensures Inv(Next(s, GetSqe(t)))
  {
    hide LockInv, SqInv, FlightInv, CqInv, HeapInv, ObjectsInv, CorosInv, ServedInv, LiveOps, SqOps, CqOps;
    var op := s.threads[t].op;
    LockMove(s.lock, s.threads, t, GotSqe(op));
    SqGet(Holder(s.lock, s.threads), s.sq, s.made, op);
  }

  lemma InvPrep(s: State, t: Tid)
    requires Inv(s) && Enabled(s, Prep(t))
    ensures Inv(DoPrep(s, t))
  {
    hide LockInv, SqInv, FlightInv, CqInv, HeapInv, ObjectsInv, CorosInv, ServedInv, LiveOps, SqOps, CqOps;
    var op := s.threads[t].op;
    LockMove(s.lock, s.threads, t, Prepared(op));
    SqPrep(op, s.sq, s.made);
  }

  lemma InvSetData(s: State, t: Tid)
    requires Inv(s) && Enabled(s, SetData(t))
    ensures Inv(DoSetData(s, t))
  {
    hide LockInv, SqInv, FlightInv, CqInv, HeapInv, ObjectsInv, CorosInv, ServedInv, LiveOps, SqOps, CqOps;
    var op := s.threads[t].op;
    LockMove(s.lock, s.threads, t, Submitting(op));
    SqTag(op, s.sq, s.made);
  }

  lemma InvKernelTake(s: State, t: Tid)
    requires Inv(s) && Enabled(s, KernelTake(t))
    ensures Inv(Next(s, KernelTake(t)))
  {
    hide LockInv, SqInv, FlightInv, CqInv, HeapInv, ObjectsInv, CorosInv, ServedInv, LiveOps, SqOps, CqOps;
    LockMove(s.lock, s.threads, t, s.threads[t]);
    SqTake(Holder(s.lock, s.threads), s.sq, s.inflight, s.made);
  }

  lemma InvSubmitReturn(s: State, t: Tid)
    requires Inv(s) && Enabled(s, SubmitReturn(t))
    ensures Inv(Next(s, SubmitReturn(t)))
  {
    hide LockInv, SqInv, FlightInv, CqInv, HeapInv, ObjectsInv, CorosInv, ServedInv, LiveOps, SqOps, CqOps;
    var pc := Submitted(s.threads[t].op);
    LockMove(s.lock, s.threads, t, pc);
    SqIdle(Holder(s.lock, s.threads), Some(pc), s.sq, s.made);
  }

  lemma InvUnlock(s: State, t: Tid)
    requires Inv(s) && Enabled(s, Unlock(t))
    ensures Inv(Next(s, Unlock(t)))
  {
    hide LockInv, SqInv, FlightInv, CqInv, HeapInv, ObjectsInv, CorosInv, ServedInv, LiveOps, SqOps, CqOps;
    var op := s.threads[t].op;
    var k := s.coros[op];
    LockDrop(s.lock, s.threads, t);
    SqIdle(Holder(s.lock, s.threads), None, s.sq, s.made);
    CorosGet(HolderOp(Holder(s.lock, s.threads)), s.coros, s.released, s.completed, op);
    LiveUpdate(s.coros, op, k.(stage := Ready));
    ObjectsAdvance(s.heap, s.made, s.coros, s.released, s.completed, StoredOp(s.cq, s.reaper), op, k.(stage := Ready));
    CorosUpdate(Some(op), s.coros, s.released, s.completed, op, k.(stage := Ready), None, s.released);
  }

  lemma InvKernelComplete(s: State, op: OpId, res: int32)
    requires Inv(s) && Enabled(s, KernelComplete(op, res))
    ensures Inv(DoComplete(s, op, res))
  {
    hide LockInv, SqInv, FlightInv, CqInv, HeapInv, ObjectsInv, CorosInv, ServedInv, LiveOps, SqOps, CqOps;
    hide PlacesInv, Filled, CqeOk, CoroOk, ObjectOk;
    var e := s.inflight[op];
    var h, pending := Holder(s.lock, s.threads), PendingCq(s.cq, s.reaper);
    PlacesComplete(Unqueued(h), SqOps(s.sq), s.inflight.Keys, CqOps(pending), s.released, s.made.Keys, op);
    FlightTake(s.inflight, s.made, op);
    FetchServes(s, op);
    CqPost(s.cq, s.reaper, s.made, s.completed, s.released, Cqe(op, e.tag, res));
    if s.cq != [] {
      CqHead(s.cq, s.made, s.completed);
    }
    ObjectsComplete(s.heap, s.made, s.coros, s.released, s.completed, StoredOp(s.cq, s.reaper), op, res);
    CorosComplete(HolderOp(h), s.coros, s.released, s.completed, op, res);
    assert (s.inflight - {op}).Keys == s.inflight.Keys - {op};
    ServedAdd(s.served, s.completed, s.made, op, res);
  }

  lemma InvReaperRead(s: State)
    requires Inv(s) && Enabled(s, ReaperRead)
    ensures Inv(Next(s, ReaperRead))
  {
    hide LockInv, SqInv, FlightInv, CqInv, HeapInv, ObjectsInv, CorosInv, ServedInv, LiveOps, SqOps, CqOps;
  }

  lemma InvStoreResult(s: State)
    requires Inv(s) && Enabled(s, StoreResult)
    ensures Inv(DoStore(s))
  {
    hide LockInv, SqInv, FlightInv, CqInv, HeapInv, ObjectsInv, CorosInv, ServedInv, LiveOps, SqOps, CqOps;
    var op := s.cq[0].op;
    CqHead(s.cq, s.made, s.completed);
    PendingIsLive(s, op);
    var a := s.made[op].addr;
    var o := s.heap[a].(result := s.cq[0].res);
    ObjectsGet(s.heap, s.made, s.coros, s.released, s.completed, None, op);
    ObjectsUpdate(s.heap, s.made, s.coros, s.released, s.completed, None, op, o, s.coros[op], s.released, Some(op));
    assert s.coros[op := s.coros[op]] == s.coros;
    assert s.heap[a := o].Keys == s.heap.Keys;
  }

  lemma InvPull(s: State)
    requires Inv(s) && Enabled(s, Pull)
    ensures Inv(DoPull(s))
  {
    hide LockInv, SqInv, FlightInv, CqInv, HeapInv, ObjectsInv, CorosInv, ServedInv, LiveOps, SqOps, CqOps;
    hide PlacesInv;
    var op := s.cq[0].op;
    var h := Holder(s.lock, s.threads);
    CqHead(s.cq, s.made, s.completed);
    PendingIsLive(s, op);
    PlacesRelease(Unqueued(h), SqOps(s.sq), s.inflight.Keys, CqOps(s.cq), s.released, s.made.Keys, op);
    var a := s.made[op].addr;
    ObjectsGet(s.heap, s.made, s.coros, s.released, s.completed, Some(op), op);
    CorosGet(HolderOp(h), s.coros, s.released, s.completed, op);
    var o := s.heap[a].(cell := Pulled);
    var k := DoPull(s).coros[op];
    ObjectsUpdate(s.heap, s.made, s.coros, s.released, s.completed, Some(op), op, o, k, s.released + {op}, None);
    LiveUpdate(s.coros, op, k);
    CorosUpdate(HolderOp(h), s.coros, s.released, s.completed, op, k,
                HolderOp(h), s.released + {op});
    assert DoPull(s).coros == s.coros[op := k];
    assert s.heap[a := o].Keys == s.heap.Keys;
  }

  lemma InvSeen(s: State)
    requires Inv(s) && Enabled(s, Seen)
    ensures Inv(Next(s, Seen))
  {
    hide LockInv, SqInv, FlightInv, CqInv, HeapInv, ObjectsInv, CorosInv, ServedInv, LiveOps, SqOps, CqOps;
    CqHead(s.cq, s.made, s.completed);
  }

  lemma InvTrap(s: State, op: OpId)
    requires Inv(s) && Enabled(s, Trap(op))
    ensures Inv(DoTrap(s, op))
  {
    hide LockInv, SqInv, FlightInv, CqInv, HeapInv, ObjectsInv, CorosInv, ServedInv, LiveOps, SqOps, CqOps;
    var stored := StoredOp(s.cq, s.reaper);
    ObjectOf(s.heap.Keys, s.made, s.coros, op);
    ObjectsGet(s.heap, s.made, s.coros, s.released, s.completed, stored, op);
    CorosGet(HolderOp(Holder(s.lock, s.threads)), s.coros, s.released, s.completed, op);
    var a := s.made[op].addr;
    var s' := DoTrap(s, op);
    ObjectsUpdate(s.heap, s.made, s.coros, s.released, s.completed, stored, op, s'.heap[a], s'.coros[op],
                  s.released, stored);
    LiveUpdate(s.coros, op, s'.coros[op]);
    CorosUpdate(HolderOp(Holder(s.lock, s.threads)), s.coros, s.released, s.completed, op, s'.coros[op],
                HolderOp(Holder(s.lock, s.threads)), s.released);
    assert s'.heap.Keys == s.heap.Keys;
  }

  lemma InvResume(s: State, op: OpId)
    requires Inv(s) && Enabled(s, Resume(op))
    ensures Inv(DoResume(s, op))
  {
    hide LockInv, SqInv, FlightInv, CqInv, HeapInv, ObjectsInv, CorosInv, ServedInv, LiveOps, SqOps, CqOps;
    var stored := StoredOp(s.cq, s.reaper);
    CorosGet(HolderOp(Holder(s.lock, s.threads)), s.coros, s.released, s.completed, op);
    ObjectOf(s.heap.Keys, s.made, s.coros, op);
    ObjectsGet(s.heap, s.made, s.coros, s.released, s.completed, stored, op);
    var k := DoResume(s, op).coros[op];
    ObjectsAdvance(s.heap, s.made, s.coros, s.released, s.completed, stored, op, k);
    LiveUpdate(s.coros, op, k);
    CorosUpdate(HolderOp(Holder(s.lock, s.threads)), s.coros, s.released, s.completed, op, k,
                HolderOp(Holder(s.lock, s.threads)), s.released);
  }

  lemma InvDestroy(s: State, op: OpId)
    requires Inv(s) && Enabled(s, Destroy(op))
    ensures Inv(Next(s, Destroy(op)))
  {
    hide LockInv, SqInv, FlightInv, CqInv, HeapInv, ObjectsInv, CorosInv, ServedInv, LiveOps, SqOps, CqOps;
    var s' := Next(s, Destroy(op));
    CorosGet(HolderOp(Holder(s.lock, s.threads)), s.coros, s.released, s.completed, op);
    ObjectOf(s.heap.Keys, s.made, s.coros, op);
    HeapDestroy(s.heap.Keys, s.made, LiveOps(s.coros), op);
    LiveUpdate(s.coros, op, s'.coros[op]);
    ObjectsDestroy(s.heap, s.made, s.coros, s.released, s.completed, StoredOp(s.cq, s.reaper), op, s'.coros[op]);
    CorosUpdate(HolderOp(Holder(s.lock, s.threads)), s.coros, s.released, s.completed, op, s'.coros[op],
                HolderOp(Holder(s.lock, s.threads)), s.released);
    assert s'.heap.Keys == s.heap.Keys - {s.made[op].addr};
  }

  /** Every step of every thread, of the kernel, of the reaper and of every coroutine keeps the
      invariant. */
  lemma InvNext(s: State, l: Label)
    requires Inv(s) && Enabled(s, l)
    ensures Inv(Next(s, l))
  {
    hide Inv;
    match l
    case Call(t, req) => InvCall(s, t, req);
    case Lock(t) => InvLock(s, t);
    case Construct(t, op, addr) => InvConstruct(s, t, op, addr);
    case GetSqe(t) => InvGetSqe(s, t);
    case Spin(t) =>
    case Prep(t) => InvPrep(s, t);
    case SetData(t) => InvSetData(s, t);
    case KernelTake(t) => InvKernelTake(s, t);
    case SubmitReturn(t) => InvSubmitReturn(s, t);
    case Unlock(t) => InvUnlock(s, t);
    case KernelComplete(op, res) => InvKernelComplete(s, op, res);
    case ReaperRead => InvReaperRead(s);
    case StoreResult => InvStoreResult(s);
    case Pull => InvPull(s);
    case Seen => InvSeen(s);
    case Trap(op) => InvTrap(s, op);
    case Resume(op) => InvResume(s, op);
    case Destroy(op) => InvDestroy(s, op);
  }

  lemma {:induction false} InvRun(s: State, ls: seq<Label>)
    requires Inv(s) && Runs(s, ls)
    ensures Inv(End(s, ls))
    decreases |ls|
  {
    hide Inv;
    if ls != [] {
      InvNext(s, ls[0]);
      InvRun(Next(s, ls[0]), ls[1..]);
    }
  }

  /** In every reachable state the invariant holds: nothing was written through a dangling or missing
      address, and every part of the engine agrees on where each operation is. */
  lemma ReachableInv(s: State)
    requires Reachable(s)
    ensures Inv(s)
  {
    var ls :| Runs(INIT, ls) && End(INIT, ls) == s;
    InvInit();
    InvRun(INIT, ls);
  }
}
