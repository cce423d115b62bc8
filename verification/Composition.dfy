/** The socket loops on top of the completion engines. An engine run and a run of concurrent read_fully and
    write_fully calls belong together when the calls see exactly the engine's events for their operations, in
    the engine's order. What the refinement theorems and the loops' own invariant then say together. */
module Composition {
  import opened IoStatus
  import opened OneShot
  import Ring
  import RingInvariant
  import RingTheorems
  import RingHistory
  import NtosAwait
  import NtosTheorems
  import NtosHistory
  import Windows

  /** An event as the calls see it: of an operation of theirs, with the value await_resume makes of it. */
  function Shown<V>(e: Event<V>, mine: nat -> bool, resume: V -> IOResult): seq<Event<IOResult>> {
    match e
    case Stutter => []
    case Submit(op) => if mine(op) then [Submit(op)] else []
    case Deliver(op, v) => if mine(op) then [Deliver(op, resume(v))] else []
    case Observe(op, v) => if mine(op) then [Observe(op, resume(v))] else []
  }

  function View<V>(es: seq<Event<V>>, mine: nat -> bool, resume: V -> IOResult): seq<Event<IOResult>> {
    if es == [] then [] else
      View(es[..|es| - 1], mine, resume) + Shown(es[|es| - 1], mine, resume)
  }

  function SeenAs<V>(x: Future<V>, resume: V -> IOResult): Future<IOResult> {
    match x
    case Pending => Pending
    case Complete(v) => Complete(resume(v))
    case Observed(v) => Observed(resume(v))
  }

  lemma AfterNext<V>(es: seq<Event<V>>, tail: seq<Event<V>>)
    requires |tail| <= 1
    ensures After(es + tail) == if tail == [] then After(es) else Do(After(es), tail[0])
  {
    if tail == [] {
      assert es + tail == es;
    } else {
      assert (es + tail)[..|es|] == es;
    }
  }

  /** The calls' view b of the engine's futures a is right about op. */
  predicate Agree<V>(a: map<nat, Future<V>>, b: map<nat, Future<IOResult>>, resume: V -> IOResult, op: nat) {
    (op in b <==> op in a) && (op in a && op in b ==> b[op] == SeenAs(a[op], resume))
  }

  lemma ShownKeepsFutures<V>(a: map<nat, Future<V>>, b: map<nat, Future<IOResult>>, e: Event<V>, mine: nat -> bool,
                             resume: V -> IOResult, op: nat)
    requires mine(op) && Agree(a, b, resume, op)
    ensures var shown := Shown(e, mine, resume);
            |shown| <= 1 && Agree(Do(a, e), if shown == [] then b else Do(b, shown[0]), resume, op)
  {}

  /** Leaving out events of other operations leaves the futures of one's own as they were. */
  lemma {:induction false} ViewKeepsFutures<V>(es: seq<Event<V>>, mine: nat -> bool, resume: V -> IOResult, op: nat)
    requires mine(op)
    ensures Agree(After(es), After(View(es, mine, resume)), resume, op)
  {
    hide Do, Shown, SeenAs;
    if es != [] {
      var p, e := es[..|es| - 1], es[|es| - 1];
      ViewKeepsFutures(p, mine, resume, op);
      ShownKeepsFutures(After(p), After(View(p, mine, resume)), e, mine, resume, op);
      AfterNext(View(p, mine, resume), Shown(e, mine, resume));
    }
  }

  ghost function Events(s: Windows.State, ls: seq<Windows.Label>): seq<Event<IOResult>>
    requires Windows.Runs(s, ls)
    decreases |ls|
  {
    if ls == [] then [] else [Windows.EventOf(s, ls[0])] + Events(Windows.Next(s, ls[0]), ls[1..])
  }

  lemma {:induction false} FuturesAreTheEvents(es: seq<Event<IOResult>>, s: Windows.State, ls: seq<Windows.Label>)
    requires Windows.Runs(s, ls) && After(es) == s.futures
    ensures After(es + Events(s, ls)) == Windows.End(s, ls).futures
    decreases |ls|
  {
    hide Windows.EventOf, Do;
    if ls == [] {
      assert es + Events(s, ls) == es;
    } else {
      var e, s' := Windows.EventOf(s, ls[0]), Windows.Next(s, ls[0]);
      AfterNext(es, [e]);
      NextDoes(s, ls[0]);
      FuturesAreTheEvents(es + [e], s', ls[1..]);
      assert es + Events(s, ls) == (es + [e]) + Events(s', ls[1..]);
    }
  }

  lemma NextDoes(s: Windows.State, l: Windows.Label)
    requires Windows.Enabled(s, l)
    ensures Windows.Next(s, l).futures == Do(s.futures, Windows.EventOf(s, l))
  {}

  predicate Every(op: nat) { true }

  function Same(r: IOResult): IOResult { r }

  /** The calls' events are the engine's, as far as they concern the calls' operations. */
  ghost predicate Drives<V>(es: seq<Event<V>>, mine: nat -> bool, resume: V -> IOResult, ls: seq<Windows.Label>)
    requires Windows.Runs(Windows.INIT, ls)
  {
    View(es, mine, resume) == View(Events(Windows.INIT, ls), Every, Same)
  }

  lemma DrivenFuture<V>(es: seq<Event<V>>, mine: nat -> bool, resume: V -> IOResult, ls: seq<Windows.Label>, op: nat)
    requires Windows.Runs(Windows.INIT, ls) && Drives(es, mine, resume, ls) && mine(op) && op in After(es)
    ensures var w := Windows.End(Windows.INIT, ls);
            op in w.futures && w.futures[op] == SeenAs(After(es)[op], resume)
  {
    var calls := Events(Windows.INIT, ls);
    ViewKeepsFutures(es, mine, resume, op);
    ViewKeepsFutures(calls, Every, Same, op);
    FuturesAreTheEvents([], Windows.INIT, ls);
    assert [] + calls == calls;
  }

  /** Two operations pending in the calls' view belong to different calls and touch disjoint memory. */
  lemma PendingAreApart<V>(es: seq<Event<V>>, mine: nat -> bool, resume: V -> IOResult, ls: seq<Windows.Label>,
                           o: nat, p: nat)
    requires Windows.Runs(Windows.INIT, ls) && Drives(es, mine, resume, ls) && mine(o) && mine(p) && o != p
    requires o in After(es) && p in After(es) && After(es)[o].Pending? && After(es)[p].Pending?
    ensures OperationsApart(Windows.End(Windows.INIT, ls), o, p)
  {
    DrivenFuture(es, mine, resume, ls, o);
    DrivenFuture(es, mine, resume, ls, p);
    hide Windows.Runs, Windows.End, Windows.Tiles, Windows.Reached;
    Windows.WindowsTile(ls);
  }

  predicate OperationsApart(w: Windows.State, o: nat, p: nat) {
    o in w.ops && p in w.ops && w.ops[o].call != w.ops[p].call && Windows.Apart(w.ops[o].window, w.ops[p].window)
  }

  /* Linux. */

  lemma UnreleasedIsPending(s: Ring.State, op: nat)
    requires RingInvariant.Inv(s) && op in s.made && op !in s.released
    ensures RingTheorems.Futures(s)[op] == Pending
  {
    hide RingInvariant.LockInv, RingInvariant.SqInv, RingInvariant.FlightInv, RingInvariant.CqInv,
      RingInvariant.HeapInv, RingInvariant.ObjectsInv, RingInvariant.PlacesInv, RingInvariant.ServedInv,
      RingInvariant.CorosInv, RingInvariant.LiveOps, RingInvariant.SqOps, RingInvariant.CqOps;
    RingInvariant.CorosGet(RingInvariant.HolderOp(RingInvariant.Holder(s.lock, s.threads)), s.coros, s.released,
                           s.completed, op);
  }

  lemma RunIsReachable(rl: seq<Ring.Label>)
    requires Ring.Runs(Ring.INIT, rl)
    ensures Ring.Reachable(Ring.End(Ring.INIT, rl))
  {}

  /** What an unreleased operation carries through the engine: the arguments its call passed. */
  lemma ArgumentsAreKept(s: Ring.State, op: nat)
    requires RingInvariant.Inv(s) && op in s.made && s.made[op].req.Plain?
    ensures op in s.inflight ==> s.inflight[op].body == Ring.Inline(s.made[op].req.args)
    ensures op in s.served ==> s.served[op] == s.made[op].req.args
  {
    hide RingInvariant.LockInv, RingInvariant.SqInv, RingInvariant.CqInv, RingInvariant.HeapInv,
      RingInvariant.ObjectsInv, RingInvariant.PlacesInv, RingInvariant.CorosInv, RingInvariant.LiveOps,
      RingInvariant.SqOps, RingInvariant.CqOps;
  }

  /** Each call passes the window of its operation to io_plain: `memory` is the range that arguments name. */
  ghost predicate PassesWindows(rl: seq<Ring.Label>, w: Windows.State, mine: nat -> bool, memory: nat -> Windows.Window) {
    forall op, m, t, i, j :: mine(op) && op in w.ops && RingHistory.ComesFrom(rl, op, m, t, i, j) ==>
      m.req.Plain? && memory(m.req.args) == w.ops[op].window
  }

  lemma PassedWindow(rl: seq<Ring.Label>, w: Windows.State, mine: nat -> bool, memory: nat -> Windows.Window, op: nat)
    requires Ring.Runs(Ring.INIT, rl) && PassesWindows(rl, w, mine, memory)
    requires mine(op) && op in w.ops && op in Ring.End(Ring.INIT, rl).made
    ensures var req := Ring.End(Ring.INIT, rl).made[op].req; req.Plain? && memory(req.args) == w.ops[op].window
  {
    RingHistory.EveryOperationWasCalled(rl, op);
  }

  /** However many calls run over the io_uring engine, and whatever else runs on it: no two operations of
      theirs between construction and release are of one call or overlap in memory, whether still queued,
      in flight or completed; and what the kernel has in its hands, or has served, are just these ranges. */
  lemma LinuxOperationsNeverOverlap(rl: seq<Ring.Label>, mine: nat -> bool, wl: seq<Windows.Label>,
                                    memory: nat -> Windows.Window, o: nat, p: nat)
    requires Ring.Runs(Ring.INIT, rl) && Windows.Runs(Windows.INIT, wl)
    requires Drives(RingTheorems.Events(Ring.INIT, rl), mine, MapResult, wl)
    requires PassesWindows(rl, Windows.End(Windows.INIT, wl), mine, memory)
    requires mine(o) && mine(p) && o != p
    requires var s := Ring.End(Ring.INIT, rl);
             o in s.made && p in s.made && o !in s.released && p !in s.released
    ensures var s, w := Ring.End(Ring.INIT, rl), Windows.End(Windows.INIT, wl);
            && OperationsApart(w, o, p)
            && (o in s.inflight ==> s.inflight[o].body.Inline? && memory(s.inflight[o].body.args) == w.ops[o].window)
            && (o in s.served ==> memory(s.served[o]) == w.ops[o].window)
            && (o in s.inflight && p in s.inflight && s.inflight[o].body.Inline? && s.inflight[p].body.Inline? ==>
                  Windows.Apart(memory(s.inflight[o].body.args), memory(s.inflight[p].body.args)))
  {
    var s, w := Ring.End(Ring.INIT, rl), Windows.End(Windows.INIT, wl);
    hide Ring.Runs, Ring.End, Windows.Runs, Windows.End, RingTheorems.Events, RingInvariant.Inv, Drives,
      RingTheorems.FutureOf, Ring.Reachable, Windows.Apart;
    RingTheorems.LinuxRunRefinesFuture(rl);
    RunIsReachable(rl);
    RingInvariant.ReachableInv(s);
    UnreleasedIsPending(s, o);
    UnreleasedIsPending(s, p);
    PendingAreApart(RingTheorems.Events(Ring.INIT, rl), mine, MapResult, wl, o, p);
    hide PassesWindows;
    PassedWindow(rl, w, mine, memory, o);
    PassedWindow(rl, w, mine, memory, p);
    ArgumentsAreKept(s, o);
    ArgumentsAreKept(s, p);
  }

  /** What a call's loop acts on is what the kernel completed that very operation with. */
  lemma LinuxLoopsSeeTheirResults(rl: seq<Ring.Label>, mine: nat -> bool, wl: seq<Windows.Label>, op: nat)
    requires Ring.Runs(Ring.INIT, rl) && Windows.Runs(Windows.INIT, wl)
    requires Drives(RingTheorems.Events(Ring.INIT, rl), mine, MapResult, wl)
    requires mine(op) && Ring.Resume(op) in rl
    ensures exists i :: 0 <= i < |rl| && rl[i].KernelComplete? && rl[i].op == op
    ensures var w := Windows.End(Windows.INIT, wl);
            forall i :: 0 <= i < |rl| && rl[i].KernelComplete? && rl[i].op == op ==>
              op in w.futures && w.futures[op] == Observed(MapResult(rl[i].res))
  {
    var s := Ring.End(Ring.INIT, rl);
    RunIsReachable(rl);
    hide Ring.Runs, Ring.End, Windows.Runs, Windows.End, RingTheorems.Events, Drives, MapResult, Ring.Reachable;
    RingHistory.CallersGetTheKernelsResult(rl, op);
    RingInvariant.ReachableInv(s);
    hide RingInvariant.Inv;
    RingHistory.InvKeys(s);
    RingTheorems.LinuxRunRefinesFuture(rl);
    DrivenFuture(RingTheorems.Events(Ring.INIT, rl), mine, MapResult, wl, op);
  }

  /* NTOS. */

  function ResumeWith(table: ErrorTable): NtosAwait.Result -> IOResult {
    (r: NtosAwait.Result) => NtosResult(table, r.code, r.transferred)
  }

  ghost predicate PassesBuffers(nl: seq<NtosAwait.Label>, w: Windows.State, mine: nat -> bool, memory: nat -> Windows.Window) {
    forall i :: 0 <= i < |nl| && nl[i].Issue? && mine(nl[i].op) && nl[i].op in w.ops ==>
      memory(nl[i].args) == w.ops[nl[i].op].window
  }

  lemma PassedBuffer(nl: seq<NtosAwait.Label>, w: Windows.State, mine: nat -> bool, memory: nat -> Windows.Window, op: nat)
    requires NtosAwait.Runs(NtosAwait.INIT, nl) && PassesBuffers(nl, w, mine, memory)
    requires mine(op) && op in w.ops && op in NtosAwait.End(NtosAwait.INIT, nl).made
    ensures memory(NtosAwait.End(NtosAwait.INIT, nl).made[op].args) == w.ops[op].window
  {
    var i := NtosHistory.EveryOperationWasIssued(nl, op);
  }

  /** The same over the NTOS awaits, for operations whose result has not been delivered. */
  lemma NtosOperationsNeverOverlap(nl: seq<NtosAwait.Label>, table: ErrorTable, mine: nat -> bool,
                                   wl: seq<Windows.Label>, memory: nat -> Windows.Window, o: nat, p: nat)
    requires NtosAwait.Runs(NtosAwait.INIT, nl) && Windows.Runs(Windows.INIT, wl)
    requires Drives(NtosTheorems.Events(NtosAwait.INIT, nl), mine, ResumeWith(table), wl)
    requires PassesBuffers(nl, Windows.End(Windows.INIT, wl), mine, memory)
    requires mine(o) && mine(p) && o != p
    requires var s := NtosAwait.End(NtosAwait.INIT, nl);
             o in s.made && p in s.made && o !in s.delivered && p !in s.delivered
    ensures var s, w := NtosAwait.End(NtosAwait.INIT, nl), Windows.End(Windows.INIT, wl);
            && OperationsApart(w, o, p)
            && (o in s.packets ==> memory(s.packets[o].args) == w.ops[o].window)
            && (o in s.packets && p in s.packets ==>
                  Windows.Apart(memory(s.packets[o].args), memory(s.packets[p].args)))
  {
    var s := NtosAwait.End(NtosAwait.INIT, nl);
    assert NtosTheorems.Reachable(s);
    hide NtosAwait.Runs, NtosAwait.End, Windows.Runs, Windows.End, NtosTheorems.Events, Drives,
      NtosTheorems.Reachable, ResumeWith, Windows.Apart;
    NtosTheorems.NtosRunRefinesFuture(nl);
    NtosTheorems.WokenExactlyOnce(s, o);
    NtosTheorems.WokenExactlyOnce(s, p);
    NtosTheorems.ExactlyOneWriter(s, o);
    NtosTheorems.ExactlyOneWriter(s, p);
    PendingAreApart(NtosTheorems.Events(NtosAwait.INIT, nl), mine, ResumeWith(table), wl, o, p);
    hide PassesBuffers;
    PassedBuffer(nl, Windows.End(Windows.INIT, wl), mine, memory, o);
    PassedBuffer(nl, Windows.End(Windows.INIT, wl), mine, memory, p);
  }

  lemma SeenIsObserved(s: NtosAwait.State, op: nat)
    requires NtosTheorems.Reachable(s) && op in s.made && op in s.coros && s.coros[op].seen != []
    ensures op in NtosTheorems.Futures(s) && op in s.delivered && s.coros[op].seen == [s.delivered[op]]
    ensures NtosTheorems.Futures(s)[op] == Observed(s.delivered[op])
  {
    hide NtosTheorems.Reachable;
    NtosTheorems.WokenExactlyOnce(s, op);
  }

  lemma NtosDriven(nl: seq<NtosAwait.Label>, table: ErrorTable, mine: nat -> bool, wl: seq<Windows.Label>, op: nat)
    requires NtosAwait.Runs(NtosAwait.INIT, nl) && Windows.Runs(Windows.INIT, wl)
    requires Drives(NtosTheorems.Events(NtosAwait.INIT, nl), mine, ResumeWith(table), wl)
    requires var s := NtosAwait.End(NtosAwait.INIT, nl);
             mine(op) && op in s.made && op in s.coros && s.coros[op].seen != []
    ensures var s, w := NtosAwait.End(NtosAwait.INIT, nl), Windows.End(Windows.INIT, wl);
            op in s.delivered && op in w.futures &&
            w.futures[op] == Observed(NtosResult(table, s.delivered[op].code, s.delivered[op].transferred))
  {
    var s := NtosAwait.End(NtosAwait.INIT, nl);
    assert NtosTheorems.Reachable(s);
    hide NtosAwait.Runs, NtosAwait.End, Windows.Runs, Windows.End, NtosTheorems.Events, Drives, NtosResult,
      NtosTheorems.Reachable, NtosTheorems.FutureOf, NtosTheorems.Futures, Lawful, Trace, After;
    NtosTheorems.NtosRunRefinesFuture(nl);
    SeenIsObserved(s, op);
    DrivenFuture(NtosTheorems.Events(NtosAwait.INIT, nl), mine, ResumeWith(table), wl, op);
  }

  /** What a call's loop acts on is what the callback of that very operation brought, its code and its count, or
      the code of the call that failed. */
  lemma NtosLoopsSeeTheirResults(nl: seq<NtosAwait.Label>, table: ErrorTable, mine: nat -> bool,
                                 wl: seq<Windows.Label>, op: nat, addr: nat, args: nat, o: NtosAwait.Outcome)
    requires NtosAwait.Runs(NtosAwait.INIT, nl) && Windows.Runs(Windows.INIT, wl)
    requires Drives(NtosTheorems.Events(NtosAwait.INIT, nl), mine, ResumeWith(table), wl)
    requires mine(op) && NtosAwait.Issue(op, addr, args, o) in nl && NtosAwait.Resume(op) in nl
    ensures !o.Fails? ==> exists i :: 0 <= i < |nl| && nl[i].CallbackWrite? && nl[i].op == op
    ensures var w := Windows.End(Windows.INIT, wl);
            && op in w.futures
            && (o.Fails? ==> w.futures[op] == Observed(NtosResult(table, o.code, 0)))
            && (forall i :: 0 <= i < |nl| && nl[i].CallbackWrite? && nl[i].op == op ==>
                  w.futures[op] == Observed(NtosResult(table, nl[i].value.code, nl[i].value.transferred)))
  {
    hide NtosAwait.Runs, NtosAwait.End, Windows.Runs, Windows.End, NtosTheorems.Events, Drives, NtosResult;
    NtosHistory.CallersGetTheCallbacksValue(nl, op, addr, args, o);
    NtosDriven(nl, table, mine, wl, op);
  }
}
