/** The spin in get_sqe. Only io_uring_submit frees submission slots and only the lock holder calls it,
    so a holder that finds the queue full spins for good; prefix flushes can bring that about. */
module RingJam {
  import opened IoStatus
  import opened OneShot
  import opened Ring
  import opened RingInvariant
  import opened RingTheorems
  import opened RingProgress

  /** The lock holder is in get_sqe. */
  predicate WantsSqe(s: State, t: Tid) {
    s.lock == Some(t) && t in s.threads && s.threads[t].Constructed?
  }

  lemma JamIsKept(s: State, t: Tid, l: Label)
    requires Inv(s) && WantsSqe(s, t) && |s.sq| >= QUEUE_DEPTH && Enabled(s, l)
    ensures WantsSqe(Next(s, l), t) && |Next(s, l).sq| >= QUEUE_DEPTH
  {
    hide SqInv, FlightInv, CqInv, HeapInv, ObjectsInv, CorosInv, PlacesInv, ReaperInv, ServedInv, LiveOps, SqOps,
      CqOps, DoStore, DoPull, DoTrap, DoResume, DoComplete, Fetch;
    if OfCoroutine(l) || OfReaper(l) || l.KernelComplete? {
      QueueStepKeepsThreads(s, l);
    } else if !l.Call? {
      HolderIsActive(s, l.t);
    }
  }

  lemma {:induction false} JamIsForever(s: State, t: Tid, ls: seq<Label>)
    requires Inv(s) && WantsSqe(s, t) && |s.sq| >= QUEUE_DEPTH && Runs(s, ls)
    ensures WantsSqe(End(s, ls), t) && |End(s, ls).sq| >= QUEUE_DEPTH
    decreases |ls|
  {
    hide Inv, Enabled, Next;
    if ls != [] {
      JamIsKept(s, t, ls[0]);
      InvNext(s, ls[0]);
      JamIsForever(Next(s, ls[0]), t, ls[1..]);
    }
  }

  ghost predicate CanGetSqe(s: State, t: Tid) {
    exists ls :: Runs(s, ls) && t in End(s, ls).threads && End(s, ls).threads[t].GotSqe?
  }

  /** The retry loop never helps: a lock holder gets its SQE, in some continuation at all, exactly when a
      slot is free at its first try. */
  lemma GetSqeReturnsIffSlotFree(s: State, t: Tid)
    requires Reachable(s) && WantsSqe(s, t)
    ensures CanGetSqe(s, t) <==> |s.sq| < QUEUE_DEPTH
  {
    ReachableInv(s);
    hide Inv, Reaches;
    if |s.sq| < QUEUE_DEPTH {
      ConstructedHasAwait(s, t);
      TakesSqe(s, t);
    } else {
      hide Enabled, Next;
      forall ls | Runs(s, ls) ensures t in End(s, ls).threads && End(s, ls).threads[t].Constructed? {
        JamIsForever(s, t, ls);
      }
    }
  }

  lemma TakesSqe(s: State, t: Tid)
    requires Enabled(s, GetSqe(t))
    ensures CanGetSqe(s, t)
  {
    var ls := [GetSqe(t)];
    assert ls[0] == GetSqe(t) && ls[1..] == [];
    assert Runs(Next(s, ls[0]), ls[1..]);
    assert Runs(s, ls) && End(s, ls) == Next(s, GetSqe(t));
  }

  lemma ConstructedHasAwait(s: State, t: Tid)
    requires Inv(s) && WantsSqe(s, t)
    ensures s.threads[t].op in s.made
  {
    HolderIsBuilding(s, t);
  }

  /** The lock is free and n operations are queued, numbered and addressed below n. */
  predicate Queued(s: State, n: nat) {
    && s.lock == None && s.threads == map[] && |s.sq| == n
    && (forall x :: x in s.made ==> x < n) && (forall x :: x in s.coros ==> x < n)
    && (forall x :: x in s.heap ==> x < n)
  }

  /** Thread 0 calls io_plain and takes the lock. */
  lemma EnterCall(s: State, n: nat) returns (s': State)
    requires Reachable(s) && Queued(s, n)
    ensures Reachable(s') && s'.lock == Some(0) && s'.threads == map[0 := Locked(Plain(0))] && s'.sq == s.sq
    ensures s'.made == s.made && s'.coros == s.coros && s'.heap == s.heap
  {
    hide Reaches;
    var s1 := Next(s, Call(0, Plain(0)));
    ReachesNext(INIT, s, Call(0, Plain(0)));
    s' := Next(s1, Lock(0));
    ReachesNext(INIT, s1, Lock(0));
  }

  /** ... and constructs its await. */
  lemma StartCall(s: State, n: nat) returns (s': State)
    requires Reachable(s) && Queued(s, n)
    ensures Reachable(s') && s'.lock == Some(0) && s'.threads == map[0 := Constructed(n)] && s'.sq == s.sq
    ensures s'.made.Keys == s.made.Keys + {n} && s'.coros.Keys == s.coros.Keys + {n}
    ensures s'.heap.Keys == s.heap.Keys + {n}
  {
    hide Reaches;
    var s1 := EnterCall(s, n);
    s' := DoConstruct(s1, 0, n, n);
    ReachesNext(INIT, s1, Construct(0, n, n));
  }

  /** One whole io_plain call of thread 0 whose submit flushes nothing. */
  lemma QueueOneMore(s: State, n: nat) returns (s': State)
    requires Reachable(s) && Queued(s, n) && n < QUEUE_DEPTH
    ensures Reachable(s') && Queued(s', n + 1)
  {
    hide Reaches;
    var s1 := StartCall(s, n);
    assert n in s1.made.Keys && n in s1.coros.Keys;
    var s2 := FillSlot(s1, n);
    s' := FlushNothing(s2, n);
    forall x | x in s'.made ensures x < n + 1 { assert x in s1.made.Keys; }
    forall x | x in s'.coros ensures x < n + 1 { assert x in s1.coros.Keys; }
    forall x | x in s'.heap ensures x < n + 1 { assert x in s1.heap.Keys; }
  }

  lemma FillSlot(s: State, n: nat) returns (s': State)
    requires Reachable(s) && s.threads == map[0 := Constructed(n)] && n in s.made && |s.sq| < QUEUE_DEPTH
    ensures Reachable(s') && s'.threads == map[0 := Submitting(n)] && |s'.sq| == |s.sq| + 1
    ensures s'.made == s.made && s'.coros == s.coros && s'.heap == s.heap
  {
    hide Reaches, BodyFor;
    var s1 := Next(s, GetSqe(0));
    ReachesNext(INIT, s, GetSqe(0));
    var s2 := DoPrep(s1, 0);
    ReachesNext(INIT, s1, Prep(0));
    s' := DoSetData(s2, 0);
    ReachesNext(INIT, s2, SetData(0));
  }

  lemma FlushNothing(s: State, n: nat) returns (s': State)
    requires Reachable(s) && s.threads == map[0 := Submitting(n)] && n in s.made && n in s.coros
    ensures Reachable(s') && s'.lock == None && s'.threads == map[] && s'.sq == s.sq
    ensures s'.made == s.made && s'.coros.Keys == s.coros.Keys && s'.heap == s.heap
  {
    hide Reaches;
    var s1 := Next(s, SubmitReturn(0));
    ReachesNext(INIT, s, SubmitReturn(0));
    s' := Next(s1, Unlock(0));
    ReachesNext(INIT, s1, Unlock(0));
  }

  lemma {:induction false} QueueUpTo(n: nat) returns (s: State)
    requires n <= QUEUE_DEPTH
    ensures Reachable(s) && Queued(s, n)
  {
    if n == 0 {
      s := INIT;
      ReachesSelf(INIT);
    } else {
      var p := QueueUpTo(n - 1);
      s := QueueOneMore(p, n - 1);
    }
  }

  /** When submits may flush only a prefix, the engine can reach a state in which the lock holder never
      leaves get_sqe and so no operation is ever submitted again. */
  lemma JamIsReachable() returns (s: State, t: Tid)
    ensures Reachable(s) && WantsSqe(s, t) && !CanGetSqe(s, t)
  {
    var q := QueueUpTo(QUEUE_DEPTH);
    t := 0;
    s := StartCall(q, QUEUE_DEPTH);
    GetSqeReturnsIffSlotFree(s, t);
  }
}
