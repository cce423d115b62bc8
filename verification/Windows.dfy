/** Any number of concurrent read_fully / write_fully calls in one address space, their operations run on
    the abstract one-shot future that both completion engines refine. */
module Windows {
  import opened IoStatus
  import opened OneShot
  import opened TcpUtil

  type CallId = nat
  type OpId = nat

  /** The part of memory an operation may touch: [lo, hi). */
  datatype Window = Window(lo: nat, hi: nat)

  /** A call on the buffer at `base`, the operation it has not observed yet, and the ranges its operations
      transferred, oldest first. */
  datatype Call = Call(base: nat, loop: Loop, op: Option<OpId>, ranges: seq<Window>)

  datatype Issued = Issued(call: CallId, window: Window)

  datatype State = State(calls: map<CallId, Call>, ops: map<OpId, Issued>, futures: map<OpId, Future<IOResult>>)

  datatype Label =
    | Start(c: CallId, base: nat, size: nat)
    | Issue(c: CallId, op: OpId)
    | Answer(op: OpId, res: IOResult)
    | Continue(c: CallId)

  const INIT: State := State(map[], map[], map[])

  predicate Apart(a: Window, b: Window) { a.hi <= b.lo || b.hi <= a.lo }

  function BufferOf(k: Call): Window { Window(k.base, k.base + k.loop.size) }

  predicate Running(k: Call) { !k.loop.phase.Finished? }

  /** What is left of a call's buffer. */
  function Rest(k: Call): Window
    requires k.loop.moved <= k.loop.size
  {
    Window(k.base + k.loop.moved, k.base + k.loop.size)
  }

  /** The futures' event for a step; the engines decide when it happens. */
  function EventOf(s: State, l: Label): Event<IOResult> {
    match l
    case Start(_, _, _) => Stutter
    case Issue(_, op) => Submit(op)
    case Answer(op, res) => Deliver(op, res)
    case Continue(c) =>
      if c in s.calls && s.calls[c].op.Some? && s.calls[c].op.value in s.futures && s.futures[s.calls[c].op.value].Complete?
      then Observe(s.calls[c].op.value, s.futures[s.calls[c].op.value].value) else Stutter
  }

  predicate Enabled(s: State, l: Label) {
    && Can(s.futures, EventOf(s, l))
    && match l
       case Start(c, base, size) =>
         c !in s.calls &&
         forall d :: d in s.calls && Running(s.calls[d]) ==> Apart(Window(base, base + size), BufferOf(s.calls[d]))
       case Issue(c, op) =>
         c in s.calls && s.calls[c].loop.phase.Ready? && s.calls[c].loop.moved <= s.calls[c].loop.size && op !in s.ops
       case Answer(op, res) =>
         op in s.ops && s.ops[op].call in s.calls && s.ops[op].window.lo + Count(res) <= s.ops[op].window.hi
       case Continue(c) => EventOf(s, l).Observe?
  }

  function Next(s: State, l: Label): State
    requires Enabled(s, l)
  {
    var futures := Do(s.futures, EventOf(s, l));
    match l
    case Start(c, base, size) => s.(calls := s.calls[c := Call(base, TcpUtil.Begin(size), None, [])])
    case Issue(c, op) =>
      var k := s.calls[c];
      State(s.calls[c := k.(loop := k.loop.(phase := Waiting), op := Some(op))],
            s.ops[op := Issued(c, Rest(k))], futures)
    case Answer(op, res) =>
      var c, lo := s.ops[op].call, s.ops[op].window.lo;
      var k := s.calls[c];
      State(s.calls[c := k.(ranges := k.ranges + [Window(lo, lo + Count(res))])], s.ops, futures)
    case Continue(c) =>
      var k := s.calls[c];
      State(s.calls[c := k.(loop := Advance(k.loop, s.futures[k.op.value].value), op := None)], s.ops, futures)
  }

  /** The ranges cover [a, b) in order, each beginning where the one before ended. */
  predicate Tiles(rs: seq<Window>, a: nat, b: nat) {
    if rs == [] then a == b else
      var r := rs[|rs| - 1];
      r.lo <= r.hi && r.hi == b && Tiles(rs[..|rs| - 1], a, r.lo)
  }

  /** How far the call's operations have got, whether it knows or not. */
  function Reached(k: Call, futures: map<OpId, Future<IOResult>>): nat {
    k.loop.moved +
    (if k.op.Some? && k.op.value in futures && futures[k.op.value].Complete? then Count(futures[k.op.value].value) else 0)
  }

  predicate CallOk(c: CallId, k: Call, ops: map<OpId, Issued>, futures: map<OpId, Future<IOResult>>) {
    && k.loop.moved <= k.loop.size && (Running(k) ==> k.loop.moved < k.loop.size)
    && (k.loop.phase.Waiting? <==> k.op.Some?) && !k.loop.phase.Answered?
    && (k.op.Some? ==>
          && k.op.value in ops && k.op.value in futures && !futures[k.op.value].Observed?
          && ops[k.op.value] == Issued(c, Rest(k))
          && (futures[k.op.value].Complete? ==> k.loop.moved + Count(futures[k.op.value].value) <= k.loop.size))
    && Tiles(k.ranges, k.base, k.base + Reached(k, futures))
  }

  ghost predicate Inv(s: State) {
    && s.futures.Keys == s.ops.Keys
    && (forall c :: c in s.calls ==> CallOk(c, s.calls[c], s.ops, s.futures))
    && (forall op :: op in s.futures && !s.futures[op].Observed? ==>
          s.ops[op].call in s.calls && s.calls[s.ops[op].call].op == Some(op))
    && (forall c, d :: c in s.calls && d in s.calls && c != d && Running(s.calls[c]) && Running(s.calls[d]) ==>
          Apart(BufferOf(s.calls[c]), BufferOf(s.calls[d])))
  }

  lemma TilesNext(rs: seq<Window>, r: Window, a: nat)
    requires Tiles(rs, a, r.lo) && r.lo <= r.hi
    ensures Tiles(rs + [r], a, r.hi)
  {
    assert (rs + [r])[..|rs|] == rs;
  }

  lemma TilesEmpty(a: nat)
    ensures Tiles([], a, a)
  {}

  /** Steps that leave a call's own operation alone leave the call in order. */
  lemma CallKept(c: CallId, k: Call, ops: map<OpId, Issued>, futures: map<OpId, Future<IOResult>>,
                 ops': map<OpId, Issued>, futures': map<OpId, Future<IOResult>>)
    requires CallOk(c, k, ops, futures)
    requires k.op.Some? && k.op.value in ops && k.op.value in futures ==>
               k.op.value in ops' && k.op.value in futures' &&
               ops'[k.op.value] == ops[k.op.value] && futures'[k.op.value] == futures[k.op.value]
    ensures CallOk(c, k, ops', futures')
  {
    hide Tiles;
  }

  /** A step of call c, which is in order again, that changes at most the operation `op` of c. */
  ghost predicate StepOf(s: State, s': State, c: CallId, op: Option<OpId>) {
    && c in s.calls && c in s'.calls && s'.calls == s.calls[c := s'.calls[c]]
    && CallOk(c, s'.calls[c], s'.ops, s'.futures)
    && (Running(s'.calls[c]) ==> Running(s.calls[c])) && BufferOf(s'.calls[c]) == BufferOf(s.calls[c])
    && (forall d :: d in s.calls && d != c ==> op.None? || s.calls[d].op != op)
    && (forall o :: o in s.ops && Some(o) != op ==>
          o in s'.ops && s'.ops[o] == s.ops[o] && o in s.futures && o in s'.futures && s'.futures[o] == s.futures[o])
    && s'.futures.Keys == s'.ops.Keys
    && (forall o :: o in s'.futures && !s'.futures[o].Observed? ==>
          s'.ops[o].call in s'.calls && s'.calls[s'.ops[o].call].op == Some(o))
  }

  lemma StepKeepsInv(s: State, s': State, c: CallId, op: Option<OpId>)
    requires Inv(s) && StepOf(s, s', c, op)
    ensures Inv(s')
  {
    forall d | d in s'.calls ensures CallOk(d, s'.calls[d], s'.ops, s'.futures) {
      if d != c {
        OpOfCall(s, d);
        hide CallOk;
        CallKept(d, s.calls[d], s.ops, s.futures, s'.ops, s'.futures);
      }
    }
    hide CallOk;
  }

  lemma OpOfCall(s: State, c: CallId)
    requires Inv(s) && c in s.calls
    ensures CallOk(c, s.calls[c], s.ops, s.futures)
    ensures s.calls[c].op.Some? ==> s.calls[c].op.value in s.ops && s.calls[c].op.value in s.futures &&
                                    s.ops[s.calls[c].op.value].call == c
  {
    hide Tiles;
  }

  lemma InvStart(s: State, c: CallId, base: nat, size: nat)
    requires Inv(s) && Enabled(s, Start(c, base, size))
    ensures Inv(Next(s, Start(c, base, size)))
  {
    TilesEmpty(base);
    hide Tiles;
    var s' := Next(s, Start(c, base, size));
    assert CallOk(c, s'.calls[c], s.ops, s.futures);
    hide CallOk;
  }

  /** Nobody but its own call has an operation. */
  lemma OnlyOwner(s: State, c: CallId, op: OpId)
    requires Inv(s) && (op in s.ops ==> s.ops[op].call == c)
    ensures forall d :: d in s.calls && d != c ==> s.calls[d].op != Some(op)
  {
    hide Inv, CallOk;
    forall d | d in s.calls && d != c ensures s.calls[d].op != Some(op) {
      OpOfCall(s, d);
    }
  }

  lemma IssuedIsOk(s: State, c: CallId, op: OpId)
    requires Inv(s) && Enabled(s, Issue(c, op))
    ensures var s' := Next(s, Issue(c, op)); CallOk(c, s'.calls[c], s'.ops, s'.futures)
  {
    OpOfCall(s, c);
    hide Tiles, Inv;
  }

  lemma IssueStep(s: State, c: CallId, op: OpId)
    requires Inv(s) && Enabled(s, Issue(c, op))
    ensures StepOf(s, Next(s, Issue(c, op)), c, Some(op))
  {
    IssuedIsOk(s, c, op);
    OnlyOwner(s, c, op);
    IssueKeepsPending(s, c, op);
    hide Tiles, CallOk, Inv;
    OpsAreFutures(s);
  }

  lemma OpsAreFutures(s: State)
    requires Inv(s)
    ensures s.futures.Keys == s.ops.Keys
  {}

  /** Every pending operation is still its call's own after an issue. */
  lemma IssueKeepsPending(s: State, c: CallId, op: OpId)
    requires Inv(s) && Enabled(s, Issue(c, op))
    ensures var s' := Next(s, Issue(c, op));
            forall o :: o in s'.futures && !s'.futures[o].Observed? && o in s'.ops ==>
              s'.ops[o].call in s'.calls && s'.calls[s'.ops[o].call].op == Some(o)
  {
    OpOfCall(s, c);
    hide Tiles;
  }

  lemma AnsweredIsOk(s: State, op: OpId, res: IOResult)
    requires Inv(s) && Enabled(s, Answer(op, res))
    ensures var c, s' := s.ops[op].call, Next(s, Answer(op, res));
            && s.calls[c].op == Some(op) && CallOk(c, s'.calls[c], s'.ops, s'.futures)
  {
    var c, lo := s.ops[op].call, s.ops[op].window.lo;
    OpOfCall(s, c);
    TilesNext(s.calls[c].ranges, Window(lo, lo + Count(res)), s.calls[c].base);
    hide Tiles;
  }

  lemma AnswerStep(s: State, op: OpId, res: IOResult)
    requires Inv(s) && Enabled(s, Answer(op, res))
    ensures StepOf(s, Next(s, Answer(op, res)), s.ops[op].call, Some(op))
  {
    AnsweredIsOk(s, op, res);
    OnlyOwner(s, s.ops[op].call, op);
    hide Tiles, CallOk;
  }

  /** The call whose operation is observed, before and after. */
  lemma ContinuedIsOk(s: State, c: CallId)
    requires Inv(s) && Enabled(s, Continue(c))
    ensures var s' := Next(s, Continue(c));
            && CallOk(c, s'.calls[c], s'.ops, s'.futures) && (Running(s'.calls[c]) ==> Running(s.calls[c]))
            && BufferOf(s'.calls[c]) == BufferOf(s.calls[c]) && s.calls[c].op.value in s.ops
  {
    OpOfCall(s, c);
    hide Tiles, Inv, ToInt32, IOResult.Of, IOResult.FromStatus;
  }

  lemma ContinueStep(s: State, c: CallId)
    requires Inv(s) && Enabled(s, Continue(c))
    ensures StepOf(s, Next(s, Continue(c)), c, s.calls[c].op)
  {
    ContinuedIsOk(s, c);
    OpOfCall(s, c);
    OnlyOwner(s, c, s.calls[c].op.value);
    hide Tiles, CallOk, Advance;
  }

  lemma InvNext(s: State, l: Label)
    requires Inv(s) && Enabled(s, l)
    ensures Inv(Next(s, l))
  {
    hide Inv, StepOf;
    match l
    case Start(c, base, size) => InvStart(s, c, base, size);
    case Issue(c, op) => IssueStep(s, c, op); StepKeepsInv(s, Next(s, l), c, Some(op));
    case Answer(op, res) => AnswerStep(s, op, res); StepKeepsInv(s, Next(s, l), s.ops[op].call, Some(op));
    case Continue(c) => ContinueStep(s, c); StepKeepsInv(s, Next(s, l), c, s.calls[c].op);
  }

  ghost predicate Runs(s: State, ls: seq<Label>)
    decreases |ls|
  {
    ls == [] || (Enabled(s, ls[0]) && Runs(Next(s, ls[0]), ls[1..]))
  }

  ghost function End(s: State, ls: seq<Label>): State
    requires Runs(s, ls)
    decreases |ls|
  {
    if ls == [] then s else End(Next(s, ls[0]), ls[1..])
  }

  lemma {:induction false} RunKeepsInv(s: State, ls: seq<Label>)
    requires Inv(s) && Runs(s, ls)
    ensures Inv(End(s, ls))
    decreases |ls|
  {
    hide Inv, Next, Enabled;
    if ls != [] {
      InvNext(s, ls[0]);
      RunKeepsInv(Next(s, ls[0]), ls[1..]);
    }
  }

  /** In every run: a call has at most one operation in flight; the windows of different operations in
      flight never overlap; and the ranges a call has transferred tile the front of its buffer, in order
      and without gap or overlap. */
  lemma WindowsTile(ls: seq<Label>)
    requires Runs(INIT, ls)
    ensures var s := End(INIT, ls);
            && s.futures.Keys == s.ops.Keys
            && (forall o, p :: o in s.futures && p in s.futures && s.futures[o].Pending? && s.futures[p].Pending? && o != p ==>
                  s.ops[o].call != s.ops[p].call && Apart(s.ops[o].window, s.ops[p].window))
            && (forall c :: c in s.calls ==>
                  Tiles(s.calls[c].ranges, s.calls[c].base, s.calls[c].base + Reached(s.calls[c], s.futures)))
            && (forall c :: c in s.calls && s.calls[c].loop.phase.Finished? ==>
                  Reached(s.calls[c], s.futures) == s.calls[c].loop.moved)
  {
    RunKeepsInv(INIT, ls);
    var s := End(INIT, ls);
    hide Tiles, Reached;
    forall o, p | o in s.futures && p in s.futures && s.futures[o].Pending? && s.futures[p].Pending? && o != p
      ensures s.ops[o].call != s.ops[p].call && Apart(s.ops[o].window, s.ops[p].window)
    {
      var c, d := s.ops[o].call, s.ops[p].call;
      assert CallOk(c, s.calls[c], s.ops, s.futures) && CallOk(d, s.calls[d], s.ops, s.futures);
      assert Apart(BufferOf(s.calls[c]), BufferOf(s.calls[d]));
    }
  }
}
