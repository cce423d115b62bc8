/** Who owns each file descriptor of the Linux TCP code: connects suspended on their socket, acceptors being
    set up, accepts, handles and closes, interleaved at will, while the kernel reuses descriptor numbers. */
module FdLedger {
  import opened IoStatus
  import opened OneShot
  import opened Finite

  type Fd = nat

  /** Accepted is an accept whose descriptor the kernel has allocated but whose coroutine has not resumed. */
  datatype Owner =
    | Connecting(id: nat)
    | SettingUp(id: nat)
    | Acceptor(id: nat)
    | Accepted(id: nat)
    | Socket(id: nat)
    | Closing(id: nat)

  /** `open` is the kernel's table. A fault is a close of a descriptor that is not open, or that somebody
      else owns. */
  datatype State = State(open: set<Fd>, owns: map<Owner, Fd>, accepts: set<nat>, fault: bool)

  const INIT: State := State({}, map[], {}, false)

  datatype Label =
    | ConnectStart(c: nat, fd: Fd)
    | ConnectDone(c: nat, res: int32, h: nat)
    | AcceptorStart(b: nat, fd: Fd)
    | AcceptorFail(b: nat)
    | AcceptorReady(b: nat, a: nat)
    | AcceptIssue(k: nat, a: nat)
    | AcceptComplete(k: nat, fd: Fd)
    | AcceptFail(k: nat)
    | AcceptResume(k: nat, h: nat)
    | CloseSocket(h: nat, x: nat)
    | CloseAcceptor(a: nat, x: nat)
    | CloseDone(x: nat)

  /** The kernel hands out only descriptors that are not open; the caller's names are fresh. */
  predicate Enabled(s: State, l: Label) {
    match l
    case ConnectStart(c, fd) => fd !in s.open && Connecting(c) !in s.owns
    case ConnectDone(c, res, h) => Connecting(c) in s.owns && Socket(h) !in s.owns
    case AcceptorStart(b, fd) => fd !in s.open && SettingUp(b) !in s.owns
    case AcceptorFail(b) => SettingUp(b) in s.owns
    case AcceptorReady(b, a) => SettingUp(b) in s.owns && Acceptor(a) !in s.owns
    case AcceptIssue(k, a) => Acceptor(a) in s.owns && k !in s.accepts && Accepted(k) !in s.owns
    case AcceptComplete(k, fd) => k in s.accepts && fd !in s.open && Accepted(k) !in s.owns
    case AcceptFail(k) => k in s.accepts
    case AcceptResume(k, h) => Accepted(k) in s.owns && Socket(h) !in s.owns
    case CloseSocket(h, x) => Socket(h) in s.owns && Closing(x) !in s.owns
    case CloseAcceptor(a, x) => Acceptor(a) in s.owns && Closing(x) !in s.owns
    case CloseDone(x) => Closing(x) in s.owns
  }

  function Gain(s: State, o: Owner, fd: Fd): State {
    s.(open := s.open + {fd}, owns := s.owns[o := fd])
  }

  function Give(s: State, o: Owner, o': Owner): State
    requires o in s.owns
  {
    s.(owns := (s.owns - {o})[o' := s.owns[o]])
  }

  /** close(fd) by one owner: the kernel forgets the descriptor, whoever else may hold it. */
  function Drop(s: State, o: Owner): State
    requires o in s.owns
  {
    var fd := s.owns[o];
    s.(open := s.open - {fd}, owns := s.owns - {o},
       fault := s.fault || fd !in s.open || exists o' :: o' in s.owns && o' != o && s.owns[o'] == fd)
  }

  function Next(s: State, l: Label): State
    requires Enabled(s, l)
  {
    match l
    case ConnectStart(c, fd) => Gain(s, Connecting(c), fd)
    case ConnectDone(c, res, h) =>
      if MapResult(res).Success() then Give(s, Connecting(c), Socket(h)) else Drop(s, Connecting(c))
    case AcceptorStart(b, fd) => Gain(s, SettingUp(b), fd)
    case AcceptorFail(b) => Drop(s, SettingUp(b))
    case AcceptorReady(b, a) => Give(s, SettingUp(b), Acceptor(a))
    case AcceptIssue(k, a) => s.(accepts := s.accepts + {k})
    case AcceptComplete(k, fd) => Gain(s, Accepted(k), fd).(accepts := s.accepts - {k})
    case AcceptFail(k) => s.(accepts := s.accepts - {k})
    case AcceptResume(k, h) => Give(s, Accepted(k), Socket(h))
    case CloseSocket(h, x) => Give(s, Socket(h), Closing(x))
    case CloseAcceptor(a, x) => Give(s, Acceptor(a), Closing(x))
    case CloseDone(x) => Drop(s, Closing(x))
  }

  /** The kernel may hand out any descriptor that is not open, reused ones included, and complete a connect with any
      result. */
  lemma KernelIsFree(s: State, c: nat, b: nat, k: nat, fd: Fd, res: int32, h: nat)
    ensures fd !in s.open && Connecting(c) !in s.owns ==> Enabled(s, ConnectStart(c, fd))
    ensures fd !in s.open && SettingUp(b) !in s.owns ==> Enabled(s, AcceptorStart(b, fd))
    ensures fd !in s.open && k in s.accepts && Accepted(k) !in s.owns ==> Enabled(s, AcceptComplete(k, fd))
    ensures Connecting(c) in s.owns && Socket(h) !in s.owns ==> Enabled(s, ConnectDone(c, res, h))
  {}

  ghost predicate Runs(s: State, ls: seq<Label>)
    decreases |ls|
  {
    ls == [] || (Enabled(s, ls[0]) && Runs(Next(s, ls[0]), ls[1..]))
  }

  ghost function End(s: State, ls: seq<Label>): State
    requires Runs(s, ls)
    decreases |ls|
  {
    if ls == [] then s else End(Next(s, ls[0]), ls[1..])
  }

  /** Every open descriptor has exactly one owner, every owner's descriptor is open, no close went astray. */
  ghost predicate Inv(s: State) {
    && (forall o, o' :: o in s.owns && o' in s.owns && o != o' ==> s.owns[o] != s.owns[o'])
    && (forall o :: o in s.owns ==> s.owns[o] in s.open)
    && (forall fd :: fd in s.open ==> exists o :: o in s.owns && s.owns[o] == fd)
    && !s.fault
  }

  lemma InvGain(s: State, o: Owner, fd: Fd)
    requires Inv(s) && fd !in s.open && o !in s.owns
    ensures Inv(Gain(s, o, fd))
  {
    var owns := Gain(s, o, fd).owns;
    forall g | g in s.open + {fd} ensures exists p :: p in owns && owns[p] == g {
      if g == fd {
        assert owns[o] == g;
      } else {
        var p :| p in s.owns && s.owns[p] == g;
        assert owns[p] == g;
      }
    }
  }

  lemma InvGive(s: State, o: Owner, o': Owner)
    requires Inv(s) && o in s.owns && o' !in s.owns
    ensures Inv(Give(s, o, o'))
  {
    var owns := Give(s, o, o').owns;
    forall g | g in s.open ensures exists p :: p in owns && owns[p] == g {
      var p :| p in s.owns && s.owns[p] == g;
      if p == o {
        assert owns[o'] == g;
      } else {
        assert owns[p] == g;
      }
    }
  }

  lemma InvDrop(s: State, o: Owner)
    requires Inv(s) && o in s.owns
    ensures Inv(Drop(s, o))
  {
    var owns := Drop(s, o).owns;
    forall g | g in s.open - {s.owns[o]} ensures exists p :: p in owns && owns[p] == g {
      var p :| p in s.owns && s.owns[p] == g;
      assert owns[p] == g;
    }
  }

  lemma InvNext(s: State, l: Label)
    requires Inv(s) && Enabled(s, l)
    ensures Inv(Next(s, l))
  {
    match l
    case ConnectStart(c, fd) => InvGain(s, Connecting(c), fd);
    case ConnectDone(c, res, h) =>
      InvGive(s, Connecting(c), Socket(h));
      InvDrop(s, Connecting(c));
      hide Inv;
    case AcceptorStart(b, fd) => InvGain(s, SettingUp(b), fd);
    case AcceptorFail(b) => InvDrop(s, SettingUp(b));
    case AcceptorReady(b, a) => InvGive(s, SettingUp(b), Acceptor(a));
    case AcceptComplete(k, fd) => InvGain(s, Accepted(k), fd);
    case AcceptResume(k, h) => InvGive(s, Accepted(k), Socket(h));
    case CloseSocket(h, x) => InvGive(s, Socket(h), Closing(x));
    case CloseAcceptor(a, x) => InvGive(s, Acceptor(a), Closing(x));
    case CloseDone(x) => InvDrop(s, Closing(x));
    case _ =>
  }

  lemma {:induction false} InvRun(s: State, ls: seq<Label>)
    requires Inv(s) && Runs(s, ls)
    ensures Inv(End(s, ls))
    decreases |ls|
  {
    hide Inv, Next, Enabled;
    if ls != [] {
      InvNext(s, ls[0]);
      InvRun(Next(s, ls[0]), ls[1..]);
    }
  }

  /** In every run, every open descriptor has exactly one owner and no close hits another's descriptor. */
  lemma LedgerBalances(ls: seq<Label>)
    requires Runs(INIT, ls)
    ensures var s := End(INIT, ls);
            && !s.fault
            && (forall fd :: fd in s.open <==> exists o :: o in s.owns && s.owns[o] == fd)
            && (forall o, o' :: o in s.owns && o' in s.owns && s.owns[o] == s.owns[o'] ==> o == o')
  {
    InvRun(INIT, ls);
  }

  /* A failed connect, and a failed acceptor, leave no trace. */

  /** The label neither is a step of this owner nor makes it. */
  predicate Avoids(l: Label, o: Owner) {
    match l
    case ConnectStart(c, _) => o != Connecting(c)
    case ConnectDone(c, _, h) => o != Connecting(c) && o != Socket(h)
    case AcceptorStart(b, _) => o != SettingUp(b)
    case AcceptorFail(b) => o != SettingUp(b)
    case AcceptorReady(b, a) => o != SettingUp(b) && o != Acceptor(a)
    case AcceptIssue(k, a) => o != Acceptor(a) && o != Accepted(k)
    case AcceptComplete(k, _) => o != Accepted(k)
    case AcceptFail(_) => true
    case AcceptResume(k, h) => o != Accepted(k) && o != Socket(h)
    case CloseSocket(h, x) => o != Socket(h) && o != Closing(x)
    case CloseAcceptor(a, x) => o != Acceptor(a) && o != Closing(x)
    case CloseDone(x) => o != Closing(x)
  }

  lemma GainGain(s: State, o: Owner, fd: Fd, o': Owner, fd': Fd)
    requires o != o'
    ensures Gain(Gain(s, o, fd), o', fd') == Gain(Gain(s, o', fd'), o, fd)
  {
    assert s.owns[o := fd][o' := fd'] == s.owns[o' := fd'][o := fd];
  }

  lemma GiveGain(s: State, o: Owner, fd: Fd, p: Owner, p': Owner)
    requires p in s.owns && o != p && o != p'
    ensures Give(Gain(s, o, fd), p, p') == Gain(Give(s, p, p'), o, fd)
  {
    assert (s.owns[o := fd] - {p})[p' := s.owns[p]] == (s.owns - {p})[p' := s.owns[p]][o := fd];
  }

  lemma DropGain(s: State, o: Owner, fd: Fd, p: Owner)
    requires Inv(s) && p in s.owns && o != p && fd !in s.open && o !in s.owns
    ensures Drop(Gain(s, o, fd), p) == Gain(Drop(s, p), o, fd)
  {
    var g := s.owns[p];
    assert s.owns[o := fd] - {p} == (s.owns - {p})[o := fd];
    assert (s.open + {fd}) - {g} == (s.open - {g}) + {fd};
    var owns := s.owns[o := fd];
    forall q | q in owns && q != p ensures owns[q] != g {}
  }

  /** A step of somebody else does not see the extra descriptor. */
  lemma StepIgnores(s: State, o: Owner, fd: Fd, l: Label)
    requires Inv(s) && fd !in s.open && o !in s.owns && Avoids(l, o) && Enabled(Gain(s, o, fd), l)
    ensures Enabled(s, l) && Next(Gain(s, o, fd), l) == Gain(Next(s, l), o, fd)
    ensures fd !in Next(s, l).open && o !in Next(s, l).owns
  {
    match l
    case ConnectStart(c, fd') => GainGain(s, o, fd, Connecting(c), fd');
    case ConnectDone(c, res, h) =>
      GiveGain(s, o, fd, Connecting(c), Socket(h));
      DropGain(s, o, fd, Connecting(c));
      hide Inv;
    case AcceptorStart(b, fd') => GainGain(s, o, fd, SettingUp(b), fd');
    case AcceptorFail(b) => DropGain(s, o, fd, SettingUp(b));
    case AcceptorReady(b, a) => GiveGain(s, o, fd, SettingUp(b), Acceptor(a));
    case AcceptComplete(k, fd') => GainGain(s, o, fd, Accepted(k), fd');
    case AcceptResume(k, h) => GiveGain(s, o, fd, Accepted(k), Socket(h));
    case CloseSocket(h, x) => GiveGain(s, o, fd, Socket(h), Closing(x));
    case CloseAcceptor(a, x) => GiveGain(s, o, fd, Acceptor(a), Closing(x));
    case CloseDone(x) => DropGain(s, o, fd, Closing(x));
    case _ =>
  }

  lemma {:induction false} RunIgnores(s: State, o: Owner, fd: Fd, ls: seq<Label>)
    requires Inv(s) && fd !in s.open && o !in s.owns && Runs(Gain(s, o, fd), ls)
    requires forall l :: l in ls ==> Avoids(l, o)
    ensures Runs(s, ls) && End(Gain(s, o, fd), ls) == Gain(End(s, ls), o, fd)
    ensures fd !in End(s, ls).open && o !in End(s, ls).owns
    decreases |ls|
  {
    hide Inv, Next, Enabled, Gain, Avoids;
    if ls != [] {
      assert ls[0] in ls;
      StepIgnores(s, o, fd, ls[0]);
      InvNext(s, ls[0]);
      RunIgnores(Next(s, ls[0]), o, fd, ls[1..]);
    }
  }

  /** A connect that gets descriptor fd, is suspended while any others connect, accept and close, and then
      fails, leaves the whole ledger as if it had never been: its close takes exactly its own descriptor. */
  lemma FailedConnectLeavesNoTrace(s: State, c: nat, fd: Fd, ls: seq<Label>, res: int32, h: nat)
    requires Inv(s) && Enabled(s, ConnectStart(c, fd)) && Runs(Next(s, ConnectStart(c, fd)), ls)
    requires forall l :: l in ls ==> Avoids(l, Connecting(c))
    requires res < 0 && Enabled(End(Next(s, ConnectStart(c, fd)), ls), ConnectDone(c, res, h))
    ensures Runs(s, ls)
    ensures Next(End(Next(s, ConnectStart(c, fd)), ls), ConnectDone(c, res, h)) == End(s, ls)
  {
    RunIgnores(s, Connecting(c), fd, ls);
    InvRun(s, ls);
    FailureNeverBecomesSuccess(res);
    DropUndoesGain(End(s, ls), Connecting(c), fd);
  }

  /** The same for an acceptor whose set-up fails after its socket was created. */
  lemma FailedAcceptorLeavesNoTrace(s: State, b: nat, fd: Fd, ls: seq<Label>)
    requires Inv(s) && Enabled(s, AcceptorStart(b, fd)) && Runs(Next(s, AcceptorStart(b, fd)), ls)
    requires forall l :: l in ls ==> Avoids(l, SettingUp(b))
    requires Enabled(End(Next(s, AcceptorStart(b, fd)), ls), AcceptorFail(b))
    ensures Runs(s, ls)
    ensures Next(End(Next(s, AcceptorStart(b, fd)), ls), AcceptorFail(b)) == End(s, ls)
  {
    RunIgnores(s, SettingUp(b), fd, ls);
    InvRun(s, ls);
    DropUndoesGain(End(s, ls), SettingUp(b), fd);
  }

  lemma DropUndoesGain(s: State, o: Owner, fd: Fd)
    requires Inv(s) && fd !in s.open && o !in s.owns
    ensures Drop(Gain(s, o, fd), o) == s
  {
    assert s.owns[o := fd] - {o} == s.owns;
    assert s.open + {fd} - {fd} == s.open;
    var owns := s.owns[o := fd];
    forall q | q in owns && q != o ensures owns[q] != fd {}
  }

  /* A successful connect, acceptor and accept hand over just their descriptor, and a close closes just that. */

  /** f is e, except that o owns the newly open descriptor fd. */
  ghost predicate Holds(f: State, e: State, o: Owner, fd: Fd) {
    && fd !in e.open && o !in e.owns
    && f.open == e.open + {fd} && f.owns == e.owns[o := fd] && f.accepts == e.accepts && f.fault == e.fault
  }

  lemma GiveOfGain(s: State, o: Owner, fd: Fd, o': Owner)
    requires o !in s.owns
    ensures Give(Gain(s, o, fd), o, o') == Gain(s, o', fd)
  {
    assert s.owns[o := fd] - {o} == s.owns;
  }

  lemma ConnectHandsOver(s: State, c: nat, fd: Fd, ls: seq<Label>, res: int32, h: nat)
    requires Inv(s) && Enabled(s, ConnectStart(c, fd)) && Runs(Next(s, ConnectStart(c, fd)), ls)
    requires forall l :: l in ls ==> Avoids(l, Connecting(c))
    requires res >= 0 && Enabled(End(Next(s, ConnectStart(c, fd)), ls), ConnectDone(c, res, h))
    ensures Runs(s, ls)
    ensures Holds(Next(End(Next(s, ConnectStart(c, fd)), ls), ConnectDone(c, res, h)), End(s, ls), Socket(h), fd)
  {
    RunIgnores(s, Connecting(c), fd, ls);
    FailureNeverBecomesSuccess(res);
    GiveOfGain(End(s, ls), Connecting(c), fd, Socket(h));
  }

  lemma AcceptorHandsOver(s: State, b: nat, fd: Fd, ls: seq<Label>, a: nat)
    requires Inv(s) && Enabled(s, AcceptorStart(b, fd)) && Runs(Next(s, AcceptorStart(b, fd)), ls)
    requires forall l :: l in ls ==> Avoids(l, SettingUp(b))
    requires Enabled(End(Next(s, AcceptorStart(b, fd)), ls), AcceptorReady(b, a))
    ensures Runs(s, ls)
    ensures Holds(Next(End(Next(s, AcceptorStart(b, fd)), ls), AcceptorReady(b, a)), End(s, ls), Acceptor(a), fd)
  {
    RunIgnores(s, SettingUp(b), fd, ls);
    GiveOfGain(End(s, ls), SettingUp(b), fd, Acceptor(a));
  }

  /** An accept that the kernel completes with descriptor fd, whose coroutine resumes any time later. */
  lemma AcceptHandsOver(s: State, k: nat, fd: Fd, ls: seq<Label>, h: nat)
    requires Inv(s) && Enabled(s, AcceptComplete(k, fd)) && Runs(Next(s, AcceptComplete(k, fd)), ls)
    requires forall l :: l in ls ==> Avoids(l, Accepted(k))
    requires Enabled(End(Next(s, AcceptComplete(k, fd)), ls), AcceptResume(k, h))
    ensures var s0 := s.(accepts := s.accepts - {k});
            Runs(s0, ls) &&
            Holds(Next(End(Next(s, AcceptComplete(k, fd)), ls), AcceptResume(k, h)), End(s0, ls), Socket(h), fd)
  {
    var s0 := s.(accepts := s.accepts - {k});
    assert Next(s, AcceptComplete(k, fd)) == Gain(s0, Accepted(k), fd);
    RunIgnores(s0, Accepted(k), fd, ls);
    GiveOfGain(End(s0, ls), Accepted(k), fd, Socket(h));
  }

  /** An accept that is issued, or that fails, has and takes no descriptor. */
  lemma AcceptOwnsNothing(s: State, k: nat, l: Label)
    requires Enabled(s, l) && (l == AcceptFail(k) || (l.AcceptIssue? && l.k == k))
    ensures var s' := Next(s, l);
            && s'.open == s.open && s'.owns == s.owns && s'.fault == s.fault
            && (k in s'.accepts <==> l.AcceptIssue?) && s'.accepts - {k} == s.accepts - {k}
  {}

  /** A socket or an acceptor is closed, whatever goes on between issue and completion: exactly its own descriptor
      is gone, as if nobody had ever had it. */
  lemma CloseTakesItsOwn(s: State, o: Owner, close: Label, x: nat, ls: seq<Label>)
    requires Inv(s) && Enabled(s, close)
    requires (exists h :: o == Socket(h) && close == CloseSocket(h, x)) ||
             (exists a :: o == Acceptor(a) && close == CloseAcceptor(a, x))
    requires Runs(Next(s, close), ls) && (forall l :: l in ls ==> Avoids(l, Closing(x)))
    requires Enabled(End(Next(s, close), ls), CloseDone(x))
    ensures o in s.owns && s.owns[o] in s.open
    ensures var s0 := s.(open := s.open - {s.owns[o]}, owns := s.owns - {o});
            Runs(s0, ls) && Next(End(Next(s, close), ls), CloseDone(x)) == End(s0, ls)
  {
    var fd := s.owns[o];
    var s0 := s.(open := s.open - {fd}, owns := s.owns - {o});
    assert Next(s, close) == Give(s, o, Closing(x));
    GiveIsGain(s, o, Closing(x));
    WithoutOwner(s, o);
    RunIgnores(s0, Closing(x), fd, ls);
    InvRun(s0, ls);
    DropUndoesGain(End(s0, ls), Closing(x), fd);
  }

  lemma GiveIsGain(s: State, o: Owner, o': Owner)
    requires Inv(s) && o in s.owns && o' !in s.owns
    ensures Give(s, o, o') == Gain(s.(open := s.open - {s.owns[o]}, owns := s.owns - {o}), o', s.owns[o])
  {
    assert s.open - {s.owns[o]} + {s.owns[o]} == s.open;
  }

  lemma WithoutOwner(s: State, o: Owner)
    requires Inv(s) && o in s.owns
    ensures Inv(s.(open := s.open - {s.owns[o]}, owns := s.owns - {o}))
  {
    InvDrop(s, o);
    assert forall p :: p in s.owns && p != o ==> s.owns[p] != s.owns[o];
    assert Drop(s, o) == s.(open := s.open - {s.owns[o]}, owns := s.owns - {o});
  }

  lemma HoldsIsGain(f: State, e: State, o: Owner, fd: Fd)
    requires Holds(f, e, o, fd)
    ensures f == Gain(e, o, fd) && fd !in e.open && o !in e.owns
  {}

  lemma WithoutGain(e: State, o: Owner, fd: Fd)
    requires Inv(e) && fd !in e.open && o !in e.owns
    ensures var s := Gain(e, o, fd);
            && Inv(s) && o in s.owns && s.owns[o] == fd
            && s.(open := s.open - {s.owns[o]}, owns := s.owns - {o}) == e
  {
    InvGain(e, o, fd);
    assert e.open + {fd} - {fd} == e.open && e.owns[o := fd] - {o} == e.owns;
  }

  /** The whole life of a connection, interleaved with anything before it is established, while it is held and
      while it is being closed: in the end the ledger is as if it had never been. */
  lemma ConnectionLeavesNoTrace(s: State, c: nat, fd: Fd, res: int32, h: nat, x: nat,
                                before: seq<Label>, held: seq<Label>, closing: seq<Label>)
    requires Inv(s) && res >= 0 && Enabled(s, ConnectStart(c, fd)) && Runs(Next(s, ConnectStart(c, fd)), before)
    requires forall l :: l in before ==> Avoids(l, Connecting(c))
    requires Enabled(End(Next(s, ConnectStart(c, fd)), before), ConnectDone(c, res, h))
    requires var s1 := Next(End(Next(s, ConnectStart(c, fd)), before), ConnectDone(c, res, h));
             && Runs(s1, held) && (forall l :: l in held ==> Avoids(l, Socket(h)))
             && Enabled(End(s1, held), CloseSocket(h, x))
             && var s2 := Next(End(s1, held), CloseSocket(h, x));
                && Runs(s2, closing) && (forall l :: l in closing ==> Avoids(l, Closing(x)))
                && Enabled(End(s2, closing), CloseDone(x))
    ensures Runs(s, before) && Runs(End(s, before), held) && Runs(End(End(s, before), held), closing)
    ensures var s1 := Next(End(Next(s, ConnectStart(c, fd)), before), ConnectDone(c, res, h));
            var s2 := Next(End(s1, held), CloseSocket(h, x));
            Next(End(s2, closing), CloseDone(x)) == End(End(End(s, before), held), closing)
  {
    hide Inv, Next, Enabled, Runs, End, Gain, Avoids, Holds;
    ConnectHandsOver(s, c, fd, before, res, h);
    var s1 := Next(End(Next(s, ConnectStart(c, fd)), before), ConnectDone(c, res, h));
    var e1 := End(s, before);
    InvRun(s, before);
    HoldsIsGain(s1, e1, Socket(h), fd);
    RunIgnores(e1, Socket(h), fd, held);
    var e2 := End(e1, held);
    InvRun(e1, held);
    WithoutGain(e2, Socket(h), fd);
    CloseTakesItsOwn(Gain(e2, Socket(h), fd), Socket(h), CloseSocket(h, x), x, closing);
  }

  /* The straight-line code, on a kernel whose calls succeed or fail at will. */

  class Kernel {
    const succeeds: nat -> bool
    var calls: nat
    var open: set<Fd>
    var errno: int

    constructor (succeeds: nat -> bool)
      ensures this.succeeds == succeeds && calls == 0 && open == {}
    {
      this.succeeds := succeeds;
      calls, open, errno := 0, {}, 0;
    }

    /** socket(): -1, or a descriptor that is not open. */
    method OpenSocket(error: int) returns (fd: int)
      modifies this
      ensures calls == old(calls) + 1
      ensures succeeds(old(calls)) ==> fd >= 0 && fd !in old(open) && open == old(open) + {fd} && errno == old(errno)
      ensures !succeeds(old(calls)) ==> fd == -1 && open == old(open) && errno == error
    {
      if succeeds(calls) {
        ghost var n := Fresh(open);
        assert n !in open;
        var f: nat := 0;
        while f in open
          invariant f <= n
          decreases n - f
        {
          f := f + 1;
        }
        fd, open := f, open + {f};
      } else {
        fd, errno := -1, error;
      }
      calls := calls + 1;
    }

    /** setsockopt, bind and listen touch no descriptor. */
    method Configure(error: int) returns (ok: bool)
      modifies this`calls, this`errno
      ensures calls == old(calls) + 1 && ok == succeeds(old(calls))
      ensures errno == if ok then old(errno) else error
    {
      ok := succeeds(calls);
      if !ok {
        errno := error;
      }
      calls := calls + 1;
    }

    /** close() releases the descriptor even if it reports an error. */
    method Close(fd: Fd, error: int)
      requires fd in open
      modifies this`open, this`calls, this`errno
      ensures open == old(open) - {fd} && calls == old(calls) + 1
      ensures errno == if succeeds(old(calls)) then old(errno) else error
    {
      open := open - {fd};
      if !succeeds(calls) {
        errno := error;
      }
      calls := calls + 1;
    }
  }

  datatype Outcome = Handle(fd: Fd) | Throws(status: Status)

  /** The errno after a call failed and the socket was closed: the failed call's, unless the close, which is
      the next call, fails as well. */
  function AfterClose(succeeds: nat -> bool, close: nat, failed: int, closeError: int): int {
    if succeeds(close) then failed else closeError
  }

  /** acceptor4 and acceptor6. `e` are the errno values a failing socket, setsockopt, bind or listen sets, and
      `closeError` that of a failing close. */
  method MakeAcceptor(k: Kernel, e: (int, int, int, int), closeError: int) returns (r: Outcome)
    modifies k
    ensures r.Handle? <==> forall i :: old(k.calls) <= i < old(k.calls) + 4 ==> k.succeeds(i)
    ensures r.Handle? ==> r.fd !in old(k.open) && k.open == old(k.open) + {r.fd}
    ensures r.Throws? ==>
              var c := old(k.calls);
              && k.open == old(k.open)
              && r.status == MapError(if !k.succeeds(c) then e.0
                                      else if !k.succeeds(c + 1) then AfterClose(k.succeeds, c + 2, e.1, closeError)
                                      else if !k.succeeds(c + 2) then AfterClose(k.succeeds, c + 3, e.2, closeError)
                                      else AfterClose(k.succeeds, c + 4, e.3, closeError))
  {
    var sock := k.OpenSocket(e.0);
    if sock != -1 {
      var ok := k.Configure(e.1);
      if ok {
        ok := k.Configure(e.2);
        if ok {
          ok := k.Configure(e.3);
          if ok {
            return Handle(sock);
          }
        }
      }
      k.Close(sock, closeError);
      assert k.open == old(k.open);
    }
    return Throws(MapError(k.errno));
  }

  /** connect4 and connect6, whose connect operation completes with `res`; the coroutine then goes on on a
      thread whose errno is `resumed`. The status thrown after a failed completion is that of this unrelated
      errno, or of a failing close. It is the completion's own status exactly when that errno is the one the
      completion carries, or neither number is in the table. */
  method Connect(k: Kernel, error: int, res: int32, resumed: int, closeError: int) returns (r: Outcome)
    modifies k
    ensures r.Handle? <==> k.succeeds(old(k.calls)) && res >= 0
    ensures r.Handle? ==> r.fd !in old(k.open) && k.open == old(k.open) + {r.fd}
    ensures r.Throws? ==> k.open == old(k.open)
    ensures r.Throws? && !k.succeeds(old(k.calls)) ==> r.status == MapError(error)
    ensures r.Throws? && k.succeeds(old(k.calls)) ==>
              var thrown, own := AfterClose(k.succeeds, old(k.calls) + 1, resumed, closeError), -(res as int);
              && r.status == MapError(thrown)
              && (r.status == MapError(own) <==> thrown == own || (!Listed(thrown) && !Listed(own)))
  {
    FailureNeverBecomesSuccess(res);
    var sock := k.OpenSocket(error);
    if sock != -1 {
      k.errno := resumed;
      if MapResult(res).Success() {
        return Handle(sock);
      }
      k.Close(sock, closeError);
      assert k.open == old(k.open);
      ReportedAlikeIff(k.errno, -(res as int));
    }
    return Throws(MapError(k.errno));
  }

  /** An uninterrupted connect on the ledger: it is the steps ConnectStart and ConnectDone, with the kernel's
      descriptor, and a failed one is as if nothing had happened (FailedConnectLeavesNoTrace). */
  method ConnectOnLedger(k: Kernel, error: int, res: int32, resumed: int, closeError: int, ghost s: State, c: nat, h: nat)
    returns (r: Outcome, ghost s': State)
    requires k.open == s.open && Connecting(c) !in s.owns && Socket(h) !in s.owns
    modifies k
    ensures s'.open == k.open
    ensures r.Handle? ==>
              && Holds(s', s, Socket(h), r.fd) && Enabled(s, ConnectStart(c, r.fd))
              && Enabled(Next(s, ConnectStart(c, r.fd)), ConnectDone(c, res, h))
              && s' == Next(Next(s, ConnectStart(c, r.fd)), ConnectDone(c, res, h))
    ensures r.Throws? ==> s' == s
  {
    FailureNeverBecomesSuccess(res);
    r := Connect(k, error, res, resumed, closeError);
    if r.Handle? {
      GiveOfGain(s, Connecting(c), r.fd, Socket(h));
      s' := Gain(s, Socket(h), r.fd);
    } else {
      s' := s;
    }
  }

  method MakeAcceptorOnLedger(k: Kernel, e: (int, int, int, int), closeError: int, ghost s: State, b: nat, a: nat)
    returns (r: Outcome, ghost s': State)
    requires k.open == s.open && SettingUp(b) !in s.owns && Acceptor(a) !in s.owns
    modifies k
    ensures s'.open == k.open
    ensures r.Handle? ==>
              && Holds(s', s, Acceptor(a), r.fd) && Enabled(s, AcceptorStart(b, r.fd))
              && Enabled(Next(s, AcceptorStart(b, r.fd)), AcceptorReady(b, a))
              && s' == Next(Next(s, AcceptorStart(b, r.fd)), AcceptorReady(b, a))
    ensures r.Throws? ==> s' == s
  {
    r := MakeAcceptor(k, e, closeError);
    if r.Handle? {
      GiveOfGain(s, SettingUp(b), r.fd, Acceptor(a));
      s' := Gain(s, Acceptor(a), r.fd);
    } else {
      s' := s;
    }
  }

  const ECONNREFUSED: int32 := 111

  /** An input on which the status thrown is not the completion's: a refused connect that resumes on a thread
      without an error. */
  method RefusedConnect(k: Kernel) returns (r: Outcome)
    requires k.succeeds(k.calls) && k.succeeds(k.calls + 1)
    modifies k
    ensures r == Throws(IO_UNKNOWN) && MapError(ECONNREFUSED as int) == IO_ECONNREFUSED
  {
    r := Connect(k, 0, -ECONNREFUSED, 0, 0);
  }
}
