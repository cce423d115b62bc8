/** The one-shot trigger both platforms build on (an assumed contract: its class is external), and
    the abstract future that both completion machines refine. */
module OneShot {

  datatype Option<+T> = None | Some(value: T)

  /** The trigger cell. `Trapped` holds the handle that `trap` registered. */
  datatype Cell = Empty | Trapped(handle: nat) | Pulled

  /** trap: refused (the coroutine continues) exactly when the cell is already pulled. */
  function TrapCell(c: Cell, handle: nat): (Cell, bool) {
    if c.Pulled? then (Pulled, false) else (Trapped(handle), true)
  }

  /** pull: the handle to schedule, if one was trapped. */
  function PullCell(c: Cell): (Cell, Option<nat>) {
    (Pulled, if c.Trapped? then Some(c.handle) else None)
  }

  /** A future: submitted, completed with a value, observed by its coroutine. */
  datatype Future<V> = Pending | Complete(value: V) | Observed(value: V)

  datatype Event<V> = Stutter | Submit(op: nat) | Deliver(op: nat, value: V) | Observe(op: nat, value: V)

  predicate Can<V(==)>(m: map<nat, Future<V>>, e: Event<V>) {
    match e
    case Stutter => true
    case Submit(op) => op !in m
    case Deliver(op, v) => op in m && m[op].Pending?
    case Observe(op, v) => op in m && m[op] == Complete(v)
  }

  function Do<V>(m: map<nat, Future<V>>, e: Event<V>): map<nat, Future<V>> {
    match e
    case Stutter => m
    case Submit(op) => m[op := Pending]
    case Deliver(op, v) => m[op := Complete(v)]
    case Observe(op, v) => m[op := Observed(v)]
  }

  function After<V>(es: seq<Event<V>>): map<nat, Future<V>> {
    if es == [] then map[] else Do(After(es[..|es| - 1]), es[|es| - 1])
  }

  /** Every event of the trace is allowed where it happens. */
  ghost predicate Trace<V(!new)>(es: seq<Event<V>>) {
    forall i :: 0 <= i < |es| ==> Can(After(es[..i]), es[i])
  }

  /** What a trace of the abstract future says about each event, in terms of the events alone. */
  ghost predicate Lawful<V(!new)>(es: seq<Event<V>>) {
    && (forall i, j :: 0 <= i < j < |es| && es[i].Submit? && es[j].Submit? ==> es[i].op != es[j].op)
    && (forall i, j :: 0 <= i < j < |es| && es[i].Deliver? && es[j].Deliver? ==> es[i].op != es[j].op)
    && (forall i, j :: 0 <= i < j < |es| && es[i].Observe? && es[j].Observe? ==> es[i].op != es[j].op)
    && (forall j :: 0 <= j < |es| && es[j].Deliver? ==> exists i :: 0 <= i < j && es[i] == Submit(es[j].op))
    && (forall j :: 0 <= j < |es| && es[j].Observe? ==>
          exists i :: 0 <= i < j && es[i] == Deliver(es[j].op, es[j].value))
  }

  lemma PrefixOfTrace<V(!new)>(es: seq<Event<V>>, n: nat)
    requires Trace(es) && n <= |es|
    ensures Trace(es[..n])
  {
    forall i | 0 <= i < n ensures Can(After(es[..n][..i]), es[..n][i]) {
      assert es[..n][..i] == es[..i];
    }
  }

  lemma TraceGrows<V(!new)>(es: seq<Event<V>>, e: Event<V>)
    requires Trace(es) && Can(After(es), e)
    ensures Trace(es + [e]) && After(es + [e]) == Do(After(es), e)
  {
    assert (es + [e])[..|es|] == es;
    forall i | 0 <= i < |es + [e]| ensures Can(After((es + [e])[..i]), (es + [e])[i]) {
      if i < |es| {
        assert (es + [e])[..i] == es[..i];
      }
    }
  }

  /** How far along a future is. */
  function Progress<V>(m: map<nat, Future<V>>, op: nat): nat {
    if op !in m then 0 else if m[op].Pending? then 1 else if m[op].Complete? then 2 else 3
  }

  /** The progress the event leaves its operation at. */
  function Rank<V>(e: Event<V>): nat {
    match e case Stutter => 0 case Submit(_) => 1 case Deliver(_, _) => 2 case Observe(_, _) => 3
  }

  /** Futures never go back: whatever an event did is still reflected at the end. */
  lemma {:induction false} ProgressIsKept<V(!new)>(es: seq<Event<V>>, i: nat)
    requires Trace(es) && i < |es| && !es[i].Stutter?
    ensures Rank(es[i]) <= Progress(After(es), es[i].op)
  {
    var n := |es| - 1;
    if i < n {
      PrefixOfTrace(es, n);
      ProgressIsKept(es[..n], i);
      assert Can(After(es[..n]), es[n]);
    }
  }

  /** A future that exists was submitted, and a value it holds was delivered to it. */
  lemma {:induction false} StateComesFromEvents<V(!new)>(es: seq<Event<V>>, op: nat)
    requires Trace(es) && op in After(es)
    ensures exists i :: 0 <= i < |es| && es[i] == Submit(op)
    ensures !After(es)[op].Pending? ==>
              exists i :: 0 <= i < |es| && es[i] == Deliver(op, After(es)[op].value)
  {
    var n := |es| - 1;
    var p := es[..n];
    PrefixOfTrace(es, n);
    if op in After(p) {
      StateComesFromEvents(p, op);
      var i :| 0 <= i < n && p[i] == Submit(op);
      assert es[i] == Submit(op);
      if !After(p)[op].Pending? {
        var k :| 0 <= k < n && p[k] == Deliver(op, After(p)[op].value);
        assert es[k] == p[k];
      }
    }
    assert Can(After(p), es[n]);
  }

  /** Every run of the abstract future submits, delivers and observes each operation at most once, in
      that order, and what is observed is what was delivered. */
  lemma TraceIsLawful<V(!new)>(es: seq<Event<V>>)
    requires Trace(es)
    ensures Lawful(es)
  {
    forall j | 0 <= j < |es| && !es[j].Stutter?
      ensures forall i :: 0 <= i < j && !es[i].Stutter? && Rank(es[i]) == Rank(es[j]) ==> es[i].op != es[j].op
      ensures es[j].Deliver? ==> exists i :: 0 <= i < j && es[i] == Submit(es[j].op)
      ensures es[j].Observe? ==> exists i :: 0 <= i < j && es[i] == Deliver(es[j].op, es[j].value)
    {
      var p := es[..j];
      PrefixOfTrace(es, j);
      assert Can(After(p), es[j]);
      forall i | 0 <= i < j && !es[i].Stutter? && Rank(es[i]) == Rank(es[j]) ensures es[i].op != es[j].op {
        ProgressIsKept(p, i);
      }
      if !es[j].Submit? {
        StateComesFromEvents(p, es[j].op);
        var k :| 0 <= k < j && p[k] == Submit(es[j].op);
        assert es[k] == p[k];
        if es[j].Observe? {
          var d :| 0 <= d < j && p[d] == Deliver(es[j].op, es[j].value);
          assert es[d] == p[d];
        }
      }
    }
  }
}
