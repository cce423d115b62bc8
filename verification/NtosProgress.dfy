/** Progress of the NTOS awaits: the exact number of steps left, and completion of every call. */
module NtosProgress {
  import opened IoStatus
  import opened OneShot
  import opened Finite
  import opened NtosAwait
  import opened NtosTheorems

  /** Steps left for a coroutine. One whose call failed never suspends. */
  function StageWork(g: Stage, async: bool): nat {
    match g
    case Issuing(_) => if async then 5 else 4
    case Built => if async then 4 else 3
    case Suspending => 3
    case Awaiting => 2
    case Resumed => 1
    case Destroyed => 0
  }

  function CoroWork(made: map<OpId, Made>, coros: map<OpId, Coro>): map<OpId, nat> {
    map op | op in coros :: StageWork(coros[op].stage, op in made && Queues(made[op].outcome))
  }

  function PacketWork(packets: map<OpId, Packet>): map<OpId, nat> {
    map op | op in packets :: if packets[op].Queued? then 2 else 1
  }

  /** The number of steps that remain, however they interleave. */
  ghost function Work(s: State): nat {
    Sum(CoroWork(s.made, s.coros)) + Sum(PacketWork(s.packets))
  }

  lemma CoroMoves(made: map<OpId, Made>, coros: map<OpId, Coro>, op: OpId, k: Coro)
    requires op in coros
    ensures var async := op in made && Queues(made[op].outcome);
            Sum(CoroWork(made, coros[op := k])) ==
            Sum(CoroWork(made, coros)) - StageWork(coros[op].stage, async) + StageWork(k.stage, async)
  {
    var async := op in made && Queues(made[op].outcome);
    assert CoroWork(made, coros[op := k]) == CoroWork(made, coros)[op := StageWork(k.stage, async)];
    SumUpdate(CoroWork(made, coros), op, StageWork(k.stage, async));
  }

  lemma PacketWritten(packets: map<OpId, Packet>, op: OpId, p: Packet)
    requires op in packets && packets[op].Queued? && p.Written?
    ensures Sum(PacketWork(packets[op := p])) == Sum(PacketWork(packets)) - 1
  {
    assert PacketWork(packets[op := p]) == PacketWork(packets)[op := 1];
    SumUpdate(PacketWork(packets), op, 1);
  }

  lemma PacketGone(packets: map<OpId, Packet>, op: OpId)
    requires op in packets && packets[op].Written?
    ensures Sum(PacketWork(packets - {op})) == Sum(PacketWork(packets)) - 1
  {
    assert PacketWork(packets - {op}) == PacketWork(packets) - {op};
    SumRemove(PacketWork(packets), op);
  }

  /** A wake-up changes tickets, not stages. */
  lemma WokenKeepsStages(made: map<OpId, Made>, coros: map<OpId, Coro>, wake: Option<nat>)
    ensures CoroWork(made, Woken(coros, wake)) == CoroWork(made, coros)
  {}

  lemma WorkOfCallback(s: State, l: Label)
    requires Enabled(s, l) && (l.CallbackWrite? || l.CallbackPull?)
    ensures Work(Next(s, l)) == Work(s) - 1
  {
    hide Sum, CoroWork, PacketWork, Put, At, Woken;
    match l
    case CallbackWrite(op, v) => PacketWritten(s.packets, op, Written(s.packets[op].tag, s.packets[op].args, v));
    case CallbackPull(op) =>
      PacketGone(s.packets, op);
      WokenKeepsStages(s.made, s.coros, PullCell(At(s.heap, s.packets[op].tag).cell).1);
  }

  predicate OfCoroutine(l: Label) { !l.Issue? && !l.CallbackWrite? && !l.CallbackPull? }

  /** The coroutine's step: nobody else moves, and its stage is one step further. */
  lemma CoroutineSteps(s: State, l: Label)
    requires Inv(s) && Enabled(s, l) && OfCoroutine(l)
    ensures l.op in s.made && l.op in s.coros && l.op in Next(s, l).coros
    ensures var s' := Next(s, l);
            var async := Queues(s.made[l.op].outcome);
            && s'.made == s.made && s'.packets == s.packets && s'.coros == s.coros[l.op := s'.coros[l.op]]
            && StageWork(s'.coros[l.op].stage, async) == StageWork(s.coros[l.op].stage, async) - 1
  {
    hide OpsInv, Put, Apart, KeysInv;
    Get(s, l.op);
  }

  /** Every step but a new call brings the awaits exactly one step closer to completion. */
  lemma EachStepIsOneStepCloser(s: State, l: Label)
    requires Inv(s) && Enabled(s, l) && !l.Issue?
    ensures Work(Next(s, l)) == Work(s) - 1
  {
    hide Inv, Next, Enabled, Sum, CoroWork, PacketWork, StageWork;
    if OfCoroutine(l) {
      CoroutineSteps(s, l);
      CoroMoves(s.made, s.coros, l.op, Next(s, l).coros[l.op]);
    } else {
      WorkOfCallback(s, l);
    }
  }

  /** No callback is to come, and every await was resumed once, with its own result, and destroyed. */
  ghost predicate Completed(s: State) {
    && s.packets == map[]
    && (forall op :: op in s.made ==>
          op in s.coros && s.coros[op].stage.Destroyed? && op in s.delivered && s.coros[op].seen == [s.delivered[op]])
  }

  /** What the coroutine of an await does next once its callback, if it had one, is done. */
  lemma CoroutineMoves(s: State, op: OpId) returns (l: Label)
    requires Inv(s) && op in s.made && op !in s.packets && op in s.coros && !s.coros[op].stage.Destroyed?
    ensures Enabled(s, l) && !l.Issue?
  {
    hide OpsInv, Apart, KeysInv;
    Get(s, op);
    l := match s.coros[op].stage
         case Issuing(_) => Settle(op)
         case Built => AskReady(op)
         case Suspending => Trap(op)
         case Awaiting => Resume(op)
         case _ => Destroy(op);
  }

  lemma AllDestroyedIsCompleted(s: State)
    requires Inv(s) && s.packets == map[]
    requires forall op :: op in s.made && op in s.coros ==> s.coros[op].stage.Destroyed?
    ensures Completed(s)
  {
    hide OpsInv, Apart, KeysInv;
    forall op | op in s.made
      ensures op in s.coros && s.coros[op].stage.Destroyed? && op in s.delivered && s.coros[op].seen == [s.delivered[op]]
    {
      Get(s, op);
    }
  }

  lemma CallbackMoves(s: State, op: OpId) returns (l: Label)
    requires Inv(s) && op in s.packets
    ensures Enabled(s, l) && !l.Issue?
  {
    hide OpsInv, Apart;
    Get(s, op);
    l := if s.packets[op].Queued? then CallbackWrite(op, Result(0, 0)) else CallbackPull(op);
  }

  /** Until every await is completed, some step other than a new call can be taken. */
  lemma SomethingMoves(s: State) returns (l: Label)
    requires Inv(s) && !Completed(s)
    ensures Enabled(s, l) && !l.Issue?
  {
    hide Inv, Enabled, Completed;
    if op :| op in s.packets {
      l := CallbackMoves(s, op);
    } else if op :| op in s.made && op in s.coros && !s.coros[op].stage.Destroyed? {
      l := CoroutineMoves(s, op);
    } else {
      AllDestroyedIsCompleted(s);
    }
  }

  lemma {:induction false} WorkRunsDown(s: State, ls: seq<Label>)
    requires Inv(s) && Runs(s, ls) && forall l :: l in ls ==> !l.Issue?
    ensures Inv(End(s, ls)) && Work(End(s, ls)) == Work(s) - |ls| && End(s, ls).made == s.made
    decreases |ls|
  {
    hide Inv, Enabled, Next, Work;
    if ls != [] {
      assert ls[0] in ls;
      InvNext(s, ls[0]);
      EachStepIsOneStepCloser(s, ls[0]);
      OnlyIssueMakes(s, ls[0]);
      WorkRunsDown(Next(s, ls[0]), ls[1..]);
    }
  }

  lemma OnlyIssueMakes(s: State, l: Label)
    requires Enabled(s, l) && !l.Issue?
    ensures Next(s, l).made == s.made
  {
    hide Put, At, Woken;
  }

  lemma CompletedHasNoWork(s: State)
    requires Inv(s) && Completed(s)
    ensures Work(s) == 0
  {
    hide OpsInv, Apart;
    assert PacketWork(s.packets) == map[];
    SumOfZeros(CoroWork(s.made, s.coros));
  }

  /** Progress, with no fairness assumed but that the run goes on while it can: from any reachable state, a run
      without new calls has at most Work(s) steps; one that cannot be extended has exactly that many, and ends
      with every await resumed once, with its own result. */
  lemma EveryCallCompletes(s: State, ls: seq<Label>)
    requires Reachable(s) && Runs(s, ls) && forall l :: l in ls ==> !l.Issue?
    ensures |ls| <= Work(s) && End(s, ls).made == s.made
    ensures (forall l :: Enabled(End(s, ls), l) ==> l.Issue?) <==> Completed(End(s, ls))
    ensures Completed(End(s, ls)) <==> |ls| == Work(s)
  {
    ReachableInv(s);
    var e := End(s, ls);
    hide Inv, Enabled, Next, Work, Completed, Reachable, Runs;
    WorkRunsDown(s, ls);
    if Completed(e) {
      CompletedHasNoWork(e);
      forall l | Enabled(e, l) ensures l.Issue? {
        if !l.Issue? {
          WorkRunsDownOne(e, l);
        }
      }
    } else {
      var l := SomethingMoves(e);
      WorkRunsDownOne(e, l);
    }
  }

  lemma WorkRunsDownOne(s: State, l: Label)
    requires Inv(s) && Enabled(s, l) && !l.Issue?
    ensures Work(s) > 0
  {
    hide Inv, Enabled, Next, Work;
    EachStepIsOneStepCloser(s, l);
  }
}
