/** What a run of the NTOS awaits owes to its labels: the calls that were made, the values that callbacks brought
    and the resumptions, as the final state shows them. */
module NtosHistory {
  import opened IoStatus
  import opened OneShot
  import opened NtosAwait
  import opened NtosTheorems

  /** A callback to come may come at any time, with any value; a new call may be made at any free address, with any
      proper outcome. */
  lemma SurroundingsAreFree(s: State, op: OpId, v: Result, addr: Addr, args: nat, o: Outcome)
    requires Inv(s)
    ensures op in s.packets && s.packets[op].Queued? ==> Enabled(s, CallbackWrite(op, v))
    ensures op !in s.made && addr !in s.heap && Proper(o) ==> Enabled(s, Issue(op, addr, args, o))
  {
    hide OpsInv, Apart;
  }

  lemma MadeStep(s: State, l: Label, op: OpId)
    requires Enabled(s, l)
    ensures op in s.made ==> op in Next(s, l).made && Next(s, l).made[op] == s.made[op]
    ensures op !in s.made && op in Next(s, l).made ==>
              l.Issue? && l.op == op && Next(s, l).made[op] == Made(l.addr, l.args, l.outcome)
    ensures l.Issue? && l.op == op ==> op !in s.made && op in Next(s, l).made
  {
    hide Put, At, Woken;
  }

  /** The value that the callback of an operation has written, whether or not it has pulled yet. */
  function Brought(s: State, op: OpId): Option<Result> {
    if op in s.delivered then Some(s.delivered[op])
    else if op in s.packets && s.packets[op].Written? then Some(s.packets[op].value)
    else None
  }

  /** Who may bring a value: the callback, or the constructor of a call that failed. */
  lemma BroughtStep(s: State, l: Label, op: OpId)
    requires Inv(s) && Enabled(s, l)
    ensures Brought(s, op).Some? ==> Brought(Next(s, l), op) == Brought(s, op)
    ensures Brought(s, op).None? && Brought(Next(s, l), op).Some? ==>
              || (l.CallbackWrite? && l.op == op && Brought(Next(s, l), op) == Some(l.value))
              || (l == Settle(op) && op in s.made && s.made[op].outcome.Fails? &&
                  Brought(Next(s, l), op) == Some(Result(s.made[op].outcome.code, 0)))
    ensures l.CallbackWrite? && l.op == op ==>
              Brought(s, op).None? && Brought(Next(s, l), op).Some? && op in s.made && !s.made[op].outcome.Fails?
  {
    hide OpsInv, Apart, Put, Woken;
    if !l.Issue? {
      LabelIsMade(s, l);
      Get(s, l.op);
    }
  }

  lemma LabelIsMade(s: State, l: Label)
    requires Inv(s) && Enabled(s, l) && !l.Issue?
    ensures l.op in s.made
  {
    hide OpsInv, Apart, Put, At, Woken;
  }

  function SeenBy(s: State, op: OpId): nat { if op in s.coros then |s.coros[op].seen| else 0 }

  function One(b: bool): nat { if b then 1 else 0 }

  lemma SeenStep(s: State, l: Label, op: OpId)
    requires Inv(s) && Enabled(s, l)
    ensures SeenBy(Next(s, l), op) == SeenBy(s, op) + One(l == Resume(op))
  {
    hide OpsInv, Apart, Put, At;
  }

  function Resumptions(ls: seq<Label>, op: OpId): nat {
    if ls == [] then 0 else One(ls[0] == Resume(op)) + Resumptions(ls[1..], op)
  }

  lemma {:induction false} ResumptionsCount(ls: seq<Label>, op: OpId)
    ensures Resumptions(ls, op) > 0 <==> Resume(op) in ls
  {
    if ls != [] {
      ResumptionsCount(ls[1..], op);
      assert ls == [ls[0]] + ls[1..];
    }
  }

  lemma {:induction false} SeenIsResumptions(s: State, ls: seq<Label>, op: OpId)
    requires Inv(s) && Runs(s, ls)
    ensures SeenBy(End(s, ls), op) == SeenBy(s, op) + Resumptions(ls, op)
    decreases |ls|
  {
    hide Inv, Enabled, Next, SeenBy;
    if ls != [] {
      InvNext(s, ls[0]);
      SeenStep(s, ls[0], op);
      SeenIsResumptions(Next(s, ls[0]), ls[1..], op);
    }
  }

  /** What was made, and what was brought, stays. */
  lemma {:induction false} Stays(s: State, ls: seq<Label>, op: OpId)
    requires Inv(s) && Runs(s, ls)
    ensures op in s.made ==> op in End(s, ls).made && End(s, ls).made[op] == s.made[op]
    ensures Brought(s, op).Some? ==> Brought(End(s, ls), op) == Brought(s, op)
    decreases |ls|
  {
    hide Inv, Enabled, Next, Brought;
    if ls != [] {
      InvNext(s, ls[0]);
      MadeStep(s, ls[0], op);
      BroughtStep(s, ls[0], op);
      Stays(Next(s, ls[0]), ls[1..], op);
    }
  }

  lemma {:induction false} IssuesAreMade(s: State, ls: seq<Label>, i: nat)
    requires Inv(s) && Runs(s, ls) && i < |ls| && ls[i].Issue?
    ensures var op := ls[i].op;
            op in End(s, ls).made && End(s, ls).made[op] == Made(ls[i].addr, ls[i].args, ls[i].outcome)
    decreases |ls|
  {
    hide Inv, Enabled, Next;
    InvNext(s, ls[0]);
    if i == 0 {
      MadeStep(s, ls[0], ls[0].op);
      Stays(Next(s, ls[0]), ls[1..], ls[0].op);
    } else {
      IssuesAreMade(Next(s, ls[0]), ls[1..], i - 1);
    }
  }

  lemma {:induction false} MadeWasIssued(s: State, ls: seq<Label>, op: OpId) returns (i: nat)
    requires Inv(s) && Runs(s, ls) && op !in s.made && op in End(s, ls).made
    ensures i < |ls| && ls[i].Issue? && ls[i].op == op && End(s, ls).made[op] == Made(ls[i].addr, ls[i].args, ls[i].outcome)
    decreases |ls|
  {
    hide Inv, Enabled, Next;
    InvNext(s, ls[0]);
    MadeStep(s, ls[0], op);
    if op in Next(s, ls[0]).made {
      Stays(Next(s, ls[0]), ls[1..], op);
      i := 0;
    } else {
      var k := MadeWasIssued(Next(s, ls[0]), ls[1..], op);
      i := k + 1;
    }
  }

  /** Every operation the machine knows was issued, with just these arguments. */
  lemma EveryOperationWasIssued(ls: seq<Label>, op: OpId) returns (i: nat)
    requires Runs(INIT, ls) && op in End(INIT, ls).made
    ensures i < |ls| && ls[i].Issue? && ls[i].op == op
    ensures End(INIT, ls).made[op] == Made(ls[i].addr, ls[i].args, ls[i].outcome)
  {
    i := MadeWasIssued(INIT, ls, op);
  }

  lemma {:induction false} CallbacksAreBrought(s: State, ls: seq<Label>, i: nat)
    requires Inv(s) && Runs(s, ls) && i < |ls| && ls[i].CallbackWrite?
    ensures Brought(End(s, ls), ls[i].op) == Some(ls[i].value)
    decreases |ls|
  {
    hide Inv, Enabled, Next, Brought;
    InvNext(s, ls[0]);
    if i == 0 {
      BroughtStep(s, ls[0], ls[0].op);
      Stays(Next(s, ls[0]), ls[1..], ls[0].op);
    } else {
      CallbacksAreBrought(Next(s, ls[0]), ls[1..], i - 1);
    }
  }

  /** Nothing is brought but by a callback of the run, or by the constructor of a failed call. */
  lemma {:induction false} BroughtByCallback(s: State, ls: seq<Label>, op: OpId)
    requires Inv(s) && Runs(s, ls) && Brought(s, op).None? && Brought(End(s, ls), op).Some?
    requires op in End(s, ls).made && !End(s, ls).made[op].outcome.Fails?
    ensures exists i :: 0 <= i < |ls| && ls[i].CallbackWrite? && ls[i].op == op && Brought(End(s, ls), op) == Some(ls[i].value)
    decreases |ls|
  {
    hide Inv, Enabled, Next, Brought;
    InvNext(s, ls[0]);
    BroughtStep(s, ls[0], op);
    var s' := Next(s, ls[0]);
    Stays(s', ls[1..], op);
    if Brought(s', op).Some? {
      Stays(s, ls, op);
    } else {
      BroughtByCallback(s', ls[1..], op);
      var i :| 0 <= i < |ls[1..]| && ls[1..][i].CallbackWrite? && ls[1..][i].op == op &&
               Brought(End(s, ls), op) == Some(ls[1..][i].value);
      assert ls[i + 1] == ls[1..][i];
    }
  }

  lemma SeenIsBrought(s: State, op: OpId)
    requires Inv(s) && op in s.made
    ensures op in s.coros
    ensures s.coros[op].seen != [] ==> op in s.delivered && s.coros[op].seen == [s.delivered[op]]
    ensures op in s.delivered ==> Brought(s, op) == Some(s.delivered[op])
    ensures op in s.delivered && s.made[op].outcome.Fails? ==> s.delivered[op] == Result(s.made[op].outcome.code, 0)
  {
    hide OpsInv;
    Get(s, op);
  }

  /** From the callback to the coroutine, over every run, in terms of the labels: what a callback brings is what
      is delivered and read, with its code and its count; nothing else is ever delivered for a call that did not
      fail; and a failed call delivers its own code. */
  lemma CallersGetTheCallbacksValue(ls: seq<Label>, op: OpId, addr: Addr, args: nat, o: Outcome)
    requires Runs(INIT, ls) && Issue(op, addr, args, o) in ls
    ensures var s := End(INIT, ls);
            && op in s.made && s.made[op] == Made(addr, args, o) && op in s.coros
            && (forall i :: 0 <= i < |ls| && ls[i].CallbackWrite? && ls[i].op == op ==>
                  && !o.Fails? && (op in s.delivered ==> s.delivered[op] == ls[i].value)
                  && (s.coros[op].seen != [] ==> s.coros[op].seen == [ls[i].value]))
            && (op in s.delivered && o.Fails? ==> s.delivered[op] == Result(o.code, 0))
            && (op in s.delivered && !o.Fails? ==>
                  exists i :: 0 <= i < |ls| && ls[i].CallbackWrite? && ls[i].op == op && ls[i].value == s.delivered[op])
            && (Resume(op) in ls <==> s.coros[op].seen != []) && Resumptions(ls, op) <= 1
  {
    var s := End(INIT, ls);
    assert Inv(INIT);
    hide Inv, Enabled, Next, Runs, End;
    InvRun(INIT, ls);
    var n :| 0 <= n < |ls| && ls[n] == Issue(op, addr, args, o);
    IssuesAreMade(INIT, ls, n);
    SeenIsBrought(s, op);
    SeenIsResumptions(INIT, ls, op);
    ResumptionsCount(ls, op);
    forall i | 0 <= i < |ls| && ls[i].CallbackWrite? && ls[i].op == op
      ensures !o.Fails? && Brought(s, op) == Some(ls[i].value)
    {
      CallbacksAreBrought(INIT, ls, i);
      CallbackMeansPending(INIT, ls, i);
    }
    if op in s.delivered && !o.Fails? {
      BroughtByCallback(INIT, ls, op);
    }
  }

  lemma {:induction false} CallbackMeansPending(s: State, ls: seq<Label>, i: nat)
    requires Inv(s) && Runs(s, ls) && i < |ls| && ls[i].CallbackWrite?
    ensures ls[i].op in End(s, ls).made && !End(s, ls).made[ls[i].op].outcome.Fails?
    decreases |ls|
  {
    hide Inv, Enabled, Next, Brought;
    InvNext(s, ls[0]);
    if i == 0 {
      BroughtStep(s, ls[0], ls[0].op);
      Stays(s, ls, ls[0].op);
    } else {
      CallbackMeansPending(Next(s, ls[0]), ls[1..], i - 1);
    }
  }
}
