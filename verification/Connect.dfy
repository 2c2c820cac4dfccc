/** The two-phase connect: a closure that calls connect(2) the first time it is tried and asks for
    the socket's error every time after, driven by polls that the short-circuit holds back. */
module Connect {
  import opened Masks
  import opened Wrappers
  import opened Epoll
  import opened Protocol
  import opened Invariant
  import opened Readiness
  import opened Hearing
  import opened ReadWriteStall

  type Errno = nat

  /** The error that reads as WouldBlock. */
  const EAGAIN: Errno := 11

  /** What connect(2) answers. */
  datatype Reply = Connected | InProgress | Failed(errno: Errno)

  /** The socket as the kernel has it. */
  datatype Socket = Unconnected | Handshaking | Established | Broken(errno: Errno)

  /** What the awaited step comes to. */
  datatype Result = Success | Failure(errno: Errno)

  /** The closure's captured flag, the socket, and a record of what happened: how often connect(2)
      and take_error were called, what connect(2) answered, whether take_error was ever called during
      the handshake, and the result.  `alive` until the socket is dropped or taken. */
  datatype Connecting = Connecting(
    calledConnect: bool,
    socket: Socket,
    connects: nat,
    checks: nat,
    reply: Option<Reply>,
    early: bool,
    alive: bool,
    result: Option<Result>)

  const STARTING := Connecting(false, Unconnected, 0, 0, None, false, true, None)

  function AfterReply(reply: Reply): Socket {
    match reply
    case Connected => Established
    case InProgress => Handshaking
    case Failed(_) => Unconnected
  }

  /** One call of the closure; None stands for WouldBlock.  `reply` is what connect(2) answers if
      it is called. */
  function CallClosure(c: Connecting, reply: Reply): (Connecting, Option<Result>) {
    if !c.calledConnect then
      (c.(calledConnect := true, socket := AfterReply(reply), connects := c.connects + 1, reply := Some(reply)),
       match reply
       case Connected => Some(Success)
       case InProgress => None
       case Failed(e) => if e == EAGAIN then None else Some(Failure(e)))
    else
      (c.(checks := c.checks + 1, early := c.early || c.socket == Handshaking),
       match c.socket
       case Broken(e) => if e == EAGAIN then None else Some(Failure(e))
       case _ => Some(Success))
  }

  /** The connect future: the closure with the flag it captured, its socket, and the result.  The
      rest is a record of the calls that were made. */
  class ConnectFuture {
    var calledConnect: bool
    var socket: Socket
    var result: Option<Result>
    ghost var connects: nat
    ghost var checks: nat
    ghost var reply: Option<Reply>
    ghost var early: bool
    ghost var alive: bool

    ghost function Seen(): Connecting
      reads this
    {
      Connecting(calledConnect, socket, connects, checks, reply, early, alive, result)
    }

    constructor ()
      ensures Seen() == STARTING
    {
      calledConnect, socket, result := false, Unconnected, None;
      connects, checks, reply, early, alive := 0, 0, None, false, true;
    }

    /** connect(2), answering `answer`. */
    method Connect(answer: Reply)
      modifies this`socket, this`connects, this`reply
      ensures socket == AfterReply(answer) && connects == old(connects) + 1 && reply == Some(answer)
    {
      socket := AfterReply(answer);
      connects, reply := connects + 1, Some(answer);
    }

    /** SO_ERROR of the socket. */
    method TakeError() returns (error: Option<Errno>)
      modifies this`checks, this`early
      ensures checks == old(checks) + 1 && early == (old(early) || socket == Handshaking)
      ensures error == if socket.Broken? then Some(socket.errno) else None
    {
      checks, early := checks + 1, early || socket == Handshaking;
      match socket
      case Broken(e) => error := Some(e);
      case _ => error := None;
    }

    /** The closure. */
    method Call(answer: Reply) returns (r: Option<Result>)
      modifies this`calledConnect, this`socket, this`connects, this`checks, this`reply, this`early
      ensures (Seen(), r) == CallClosure(old(Seen()), answer)
    {
      if !calledConnect {
        calledConnect := true;
        Connect(answer);
        match answer
        case Connected => r := Some(Success);
        case InProgress => r := None;
        case Failed(e) => r := if e == EAGAIN then None else Some(Failure(e));
      } else {
        var error := TakeError();
        match error
        case Some(e) => r := if e == EAGAIN then None else Some(Failure(e));
        case None => r := Some(Success);
      }
    }
  }

  // ----- the whole system -----

  datatype System = System(s: State, c: Connecting)

  /** A poll of the connect future, the end of the handshake, or anything else in the program. */
  datatype Move =
    | Attempt(reply: Reply)
    | Resolve(error: Option<Errno>, bits: Mask)
    | Elsewhere(act: Action)

  /** What a poll of the future does to the readiness protocol.  When the closure answers WouldBlock
      the socket is not writable at that moment; the kernel may say otherwise right after. */
  function AttemptSteps(sys: System, a: Addr, fd: Fd, reply: Reply): seq<Action>
    requires a in sys.s.asyncs
  {
    if Skips(sys.s.asyncs[a], Write) || CallClosure(sys.c, reply).1.Some? then [Poll(a, Write, GoesAhead({}))]
    else [Clear(fd, EPOLLOUT), Poll(a, Write, Blocks)]
  }

  /** Nothing but the future polls its socket; while the handshake is under way the kernel does not
      report it writable, and never ends it with EAGAIN. */
  predicate Allowed(sys: System, a: Addr, fd: Fd, m: Move) {
    match m
    case Attempt(_) =>
      && sys.c.alive && sys.c.result == None
      && sys.s.phase.Running? && Pollable(sys.s, a) && sys.s.asyncs[a].owner == sys.s.phase.task
    case Resolve(error, bits) =>
      sys.c.alive && sys.c.socket == Handshaking && EPOLLOUT <= bits && error != Some(EAGAIN)
    case Elsewhere(act) =>
      && Enabled(sys.s, act)
      && !(act.Poll? && act.addr == a && sys.c.alive)
      && (act.Edge? && act.fd == fd && sys.c.alive && sys.c.socket == Handshaking ==> OUT_BIT !in act.bits)
  }

  function MoveSteps(sys: System, a: Addr, fd: Fd, m: Move): seq<Action>
    requires Allowed(sys, a, fd, m)
  {
    match m
    case Attempt(reply) => AttemptSteps(sys, a, fd, reply)
    case Resolve(_, bits) => [Edge(fd, bits)]
    case Elsewhere(act) => [act]
  }

  function MoveConnect(sys: System, a: Addr, fd: Fd, m: Move): Connecting
    requires Allowed(sys, a, fd, m)
  {
    match m
    case Attempt(reply) =>
      if Skips(sys.s.asyncs[a], Write) then sys.c
      else
        var (c', r) := CallClosure(sys.c, reply);
        c'.(result := r)
    case Resolve(error, _) =>
      sys.c.(socket := match error case None => Established case Some(e) => Broken(e))
    case Elsewhere(act) =>
      if (act.Drop? || act.Take?) && act.addr == a then sys.c.(alive := false) else sys.c
  }

  /** None if the readiness protocol does not allow the move or goes wrong in it. */
  function Step(sys: System, a: Addr, fd: Fd, m: Move): Option<System>
    requires Allowed(sys, a, fd, m)
  {
    var steps := MoveSteps(sys, a, fd, m);
    if Schedule(sys.s, steps) && Exec(sys.s, steps).Next?
    then Some(System(Exec(sys.s, steps).state, MoveConnect(sys, a, fd, m)))
    else None
  }

  predicate Lawful(sys: System, a: Addr, fd: Fd, moves: seq<Move>)
    decreases moves
  {
    moves == [] ||
    (Allowed(sys, a, fd, moves[0]) &&
     match Step(sys, a, fd, moves[0])
     case None => true
     case Some(sys') => Lawful(sys', a, fd, moves[1..]))
  }

  function Play(sys: System, a: Addr, fd: Fd, moves: seq<Move>): Option<System>
    requires Lawful(sys, a, fd, moves)
    decreases moves
  {
    if moves == [] then Some(sys)
    else
      match Step(sys, a, fd, moves[0])
      case None => None
      case Some(sys') => Play(sys', a, fd, moves[1..])
  }

  // ----- the invariant -----

  /** What the record of the calls shows, whatever the schedule. */
  ghost predicate Records(c: Connecting) {
    && c.connects == (if c.calledConnect then 1 else 0)
    && (c.calledConnect <==> c.reply.Some?)
    && !c.early
    && c.checks <= (if c.result.Some? then 1 else 0)
    && (!c.calledConnect ==> c.socket == Unconnected && c.result == None)
    && (c.reply == Some(Connected) ==> c.result == Some(Success) && c.socket == Established)
    && (c.reply == Some(InProgress) ==> c.socket != Unconnected)
    && (c.socket == Handshaking ==> c.result == None)
    && (c.socket.Handshaking? || c.socket.Broken? ==> c.reply == Some(InProgress))
    && c.socket != Broken(EAGAIN)
    && (c.reply.Some? && c.reply.value.Failed? ==>
          && c.socket == Unconnected
          && (c.reply.value.errno == EAGAIN ==> c.result in {None, Some(Success)})
          && (c.reply.value.errno != EAGAIN ==> c.result == Some(Failure(c.reply.value.errno))))
    && (c.reply == Some(InProgress) && c.result.Some? ==>
          c.result.value == match c.socket case Broken(e) => Failure(e) case _ => Success)
  }

  /** While the handshake is under way, the future is held back. */
  ghost predicate ConnectInv(sys: System, a: Addr, fd: Fd) {
    && Reachable(sys.s)
    && Records(sys.c)
    && (sys.c.alive ==> a in sys.s.asyncs && sys.s.asyncs[a].inner == Some(fd))
    && (sys.c.alive && sys.c.socket == Handshaking ==> HeldBack(sys.s, a, fd, OUT_BIT))
  }

  lemma ElsewhereKeeps(sys: System, a: Addr, fd: Fd, act: Action)
    requires ConnectInv(sys, a, fd) && Allowed(sys, a, fd, Elsewhere(act))
    ensures Step(sys, a, fd, Elsewhere(act)).Some?
    ensures ConnectInv(Step(sys, a, fd, Elsewhere(act)).value, a, fd)
  {
    ReachStep(sys.s, act);
    var sys' := Step(sys, a, fd, Elsewhere(act)).value;
    assert sys'.s == Apply(sys.s, act).state;
    if sys'.c.alive && sys.c.socket == Handshaking {
      StepHoldsBack(sys.s, a, fd, OUT_BIT, act);
    }
  }

  lemma ResolveKeeps(sys: System, a: Addr, fd: Fd, error: Option<Errno>, bits: Mask)
    requires ConnectInv(sys, a, fd) && Allowed(sys, a, fd, Resolve(error, bits))
    ensures Step(sys, a, fd, Resolve(error, bits)).Some?
    ensures ConnectInv(Step(sys, a, fd, Resolve(error, bits)).value, a, fd)
  {
    ReachStep(sys.s, Edge(fd, bits));
  }

  /** Before a poll that blocks, the socket stops being writable. */
  lemma BlockingAttempt(s: State, a: Addr, fd: Fd)
    requires s.phase.Running? && Pollable(s, a) && s.asyncs[a].owner == s.phase.task && s.asyncs[a].inner == Some(fd)
    requires !Skips(s.asyncs[a], Write)
    ensures
      var s' := s.(kernel := Lower(s.kernel, fd, EPOLLOUT));
      && Schedule(s, [Clear(fd, EPOLLOUT), Poll(a, Write, Blocks)])
      && Exec(s, [Clear(fd, EPOLLOUT), Poll(a, Write, Blocks)]) == Next(ApplyPoll(s', a, Write, Blocks))
      && HeldBack(ApplyPoll(s', a, Write, Blocks), a, fd, OUT_BIT)
  {
    var s1 := s.(kernel := Lower(s.kernel, fd, EPOLLOUT));
    var s2 := ApplyPoll(s1, a, Write, Blocks);
    assert Apply(s, Clear(fd, EPOLLOUT)) == Next(s1) && Apply(s1, Poll(a, Write, Blocks)) == Next(s2);
    assert [Clear(fd, EPOLLOUT), Poll(a, Write, Blocks)][1..] == [Poll(a, Write, Blocks)];
    assert [Poll(a, Write, Blocks)][1..] == [];
    assert Schedule(s2, []) && Exec(s2, []) == Next(s2);
    assert Schedule(s1, [Poll(a, Write, Blocks)]) && Exec(s1, [Poll(a, Write, Blocks)]) == Next(s2);
  }

  lemma AttemptKeeps(sys: System, a: Addr, fd: Fd, reply: Reply)
    requires ConnectInv(sys, a, fd) && Allowed(sys, a, fd, Attempt(reply))
    ensures Step(sys, a, fd, Attempt(reply)).Some?
    ensures ConnectInv(Step(sys, a, fd, Attempt(reply)).value, a, fd)
  {
    var steps := AttemptSteps(sys, a, fd, reply);
    if steps == [Poll(a, Write, GoesAhead({}))] {
      ReachStep(sys.s, Poll(a, Write, GoesAhead({})));
    } else {
      BlockingAttempt(sys.s, a, fd);
      ReachRun(sys.s, steps);
    }
  }

  lemma MoveKeeps(sys: System, a: Addr, fd: Fd, m: Move)
    requires ConnectInv(sys, a, fd) && Allowed(sys, a, fd, m)
    ensures Step(sys, a, fd, m).Some?
    ensures ConnectInv(Step(sys, a, fd, m).value, a, fd)
  {
    match m
    case Attempt(reply) => AttemptKeeps(sys, a, fd, reply);
    case Resolve(error, bits) => ResolveKeeps(sys, a, fd, error, bits);
    case Elsewhere(act) => ElsewhereKeeps(sys, a, fd, act);
  }

  lemma {:induction false} PlayKeeps(sys: System, a: Addr, fd: Fd, moves: seq<Move>)
    requires ConnectInv(sys, a, fd) && Lawful(sys, a, fd, moves)
    ensures Play(sys, a, fd, moves).Some?
    ensures ConnectInv(Play(sys, a, fd, moves).value, a, fd)
    decreases moves
  {
    if moves != [] {
      MoveKeeps(sys, a, fd, moves[0]);
      PlayKeeps(Step(sys, a, fd, moves[0]).value, a, fd, moves[1..]);
    }
  }

  // ----- the main results -----

  /** What the future may conclude from the calls it made. */
  ghost predicate Correct(c: Connecting) {
    && c.connects <= 1 && c.checks <= 1 && !c.early
    && (c.result.Some? ==> c.connects == 1 && c.socket != Handshaking)
    && (forall e | c.result == Some(Failure(e)) :: c.socket == Broken(e) || c.reply == Some(Failed(e)))
    && (c.result == Some(Success) ==> (c.socket == Established <==> c.reply != Some(Failed(EAGAIN))))
  }

  lemma RecordsAreCorrect(c: Connecting)
    requires Records(c)
    ensures Correct(c)
  {
    match c.reply
    case None =>
    case Some(Connected) =>
    case Some(InProgress) =>
    case Some(Failed(e)) => assert c.result.Some? && c.result.value.Failure? ==> e != EAGAIN;
  }

  /** However the future is polled and whatever else the program does: connect(2) is called once
      and the socket's error is asked for at most once, never during the handshake; an error is the
      kernel's own; and success means an established connection if and only if connect(2) did not
      itself answer EAGAIN. */
  lemma ConnectIsCorrect(s: State, a: Addr, fd: Fd, moves: seq<Move>)
    requires Reachable(s) && a in s.asyncs && s.asyncs[a].inner == Some(fd)
    requires Lawful(System(s, STARTING), a, fd, moves)
    ensures Play(System(s, STARTING), a, fd, moves).Some?
    ensures Correct(Play(System(s, STARTING), a, fd, moves).value.c)
  {
    PlayKeeps(System(s, STARTING), a, fd, moves);
    RecordsAreCorrect(Play(System(s, STARTING), a, fd, moves).value.c);
  }

  lemma TakenIsUnheld(s: State, a: Addr, fd: Fd)
    requires Reachable(s) && s.phase.Running? && a in s.asyncs && s.asyncs[a].inner == Some(fd)
    ensures Apply(s, Take(a)).Next?
    ensures
      var s' := Apply(s, Take(a)).state;
      && s'.phase == s.phase && s'.asyncs.Keys == s.asyncs.Keys && s'.asyncs[a].inner == None
      && !Held(s', fd)
  {
    hide AsyncsInv, KernelInv, PhaseInv;
    ReachableInv(s);
    ReachStep(s, Take(a));
  }

  /** Once the step is over the socket moves into a new value: taking it out always deregisters it,
      and the new value starts afresh, with its file unknown to the kernel. */
  lemma HandsOver(sys: System, a: Addr, fd: Fd, b: Addr)
    requires ConnectInv(sys, a, fd) && sys.c.alive && sys.s.phase.Running? && b !in sys.s.asyncs
    ensures Schedule(sys.s, [Take(a), New(b, fd)]) && Exec(sys.s, [Take(a), New(b, fd)]).Next?
    ensures
      var s' := Exec(sys.s, [Take(a), New(b, fd)]).state;
      && Reachable(s') && fd !in s'.kernel.interest
      && s'.asyncs.Keys == sys.s.asyncs.Keys + {b}
      && s'.asyncs[b] == FreshAsync(fd, sys.s.phase.task) && s'.asyncs[a].inner == None
  {
    hide Deregister, Records, HeldBack;
    TakenIsUnheld(sys.s, a, fd);
    ReachStep(sys.s, Take(a));
    var mid := Apply(sys.s, Take(a)).state;
    ReachStep(mid, New(b, fd));
    ExecAppend(sys.s, [Take(a)], [New(b, fd)]);
    assert [Take(a)] + [New(b, fd)] == [Take(a), New(b, fd)];
    RegistrationAgreement(Apply(mid, New(b, fd)).state, b);
  }

  // ----- where connect(2) itself answers EAGAIN -----

  lemma {:induction false} PlayAppend(sys: System, a: Addr, fd: Fd, moves: seq<Move>, m: Move)
    requires Lawful(sys, a, fd, moves) && Play(sys, a, fd, moves).Some?
    requires Allowed(Play(sys, a, fd, moves).value, a, fd, m)
    ensures Lawful(sys, a, fd, moves + [m])
    ensures Play(sys, a, fd, moves + [m]) == Step(Play(sys, a, fd, moves).value, a, fd, m)
    decreases moves
  {
    if moves == [] {
      assert (moves + [m])[1..] == [];
    } else {
      PlayAppend(Step(sys, a, fd, moves[0]).value, a, fd, moves[1..], m);
      assert (moves + [m])[1..] == moves[1..] + [m];
    }
  }

  /** Some run of the future leads from `start` to `sys`. */
  ghost predicate Leads(start: System, a: Addr, fd: Fd, sys: System) {
    ConnectInv(start, a, fd) && exists moves :: Lawful(start, a, fd, moves) && Play(start, a, fd, moves) == Some(sys)
  }

  lemma Go(start: System, a: Addr, fd: Fd, sys: System, m: Move)
    requires Leads(start, a, fd, sys) && Allowed(sys, a, fd, m)
    ensures Step(sys, a, fd, m).Some? && Leads(start, a, fd, Step(sys, a, fd, m).value)
  {
    var moves :| Lawful(start, a, fd, moves) && Play(start, a, fd, moves) == Some(sys);
    PlayKeeps(start, a, fd, moves);
    PlayAppend(start, a, fd, moves, m);
    MoveKeeps(sys, a, fd, m);
  }

  /** Steps that have nothing to do with the future. */
  predicate Neutral(act: Action) {
    act.Register? || act.Suspend? || act.Wait? || act.Deliver? || act.Finish? || act.Start? || act.Edge?
  }

  lemma GoElsewhere(start: System, a: Addr, fd: Fd, s: State, c: Connecting, act: Action, s': State)
    requires Leads(start, a, fd, System(s, c)) && Neutral(act) && c.socket != Handshaking
    requires Enabled(s, act) && Apply(s, act) == Next(s')
    ensures Leads(start, a, fd, System(s', c))
  {
    Go(start, a, fd, System(s, c), Elsewhere(act));
    assert [act][1..] == [];
    assert Exec(s, [act]) == Next(s');
  }

  const FRESH := State(map[0 := FreshAsync(0, 7)], EMPTY, Running(7), {})

  const START := System(FRESH, STARTING)

  lemma FreshLeads()
    ensures Leads(START, 0, 0, START)
  {
    InitialReachable();
    var s := Extend(INITIAL, Spawn(7));
    s := Extend(s, Start(7));
    s := Extend(s, New(0, 0));
    assert s == FRESH;
    assert Lawful(START, 0, 0, []) && Play(START, 0, 0, []) == Some(START);
  }

  const REFUSED := STARTING.(calledConnect := true, connects := 1, reply := Some(Failed(EAGAIN)))

  const WAITER := AsyncState(Some(0), Some(7), EPOLLOUT + EPOLLET, EPOLLOUT, 7, EPOLLOUT, {}, 0, 0, 0)

  const READY := Kernel(map[], map[0 := EPOLLOUT], [])

  const REGISTERING := State(map[0 := WAITER], READY, Registering(7, 0, {}), {})

  const REGISTERED := READY.(interest := map[0 := Registration(EPOLLOUT + EPOLLET, 0)])

  const QUEUED := State(map[0 := WAITER.(adds := 1)], REGISTERED.(queue := [0]), Running(7), {})

  const REPORTED := State(map[0 := WAITER.(adds := 1)], REGISTERED, Dispatching([Event(EPOLLOUT, 0)]), {})

  const DELIVERED := State(map[0 := WAITER.(adds := 1, waitingFor := {})], REGISTERED, Dispatching([]), {7})

  const AGAIN := State(map[0 := WAITER.(adds := 1, waitingFor := {}, awaited := {})], REGISTERED, Running(7), {})

  const BLOCKED := REGISTERING.(kernel := READY.(ready := map[0 := {}]))

  lemma FirstAttempt()
    ensures Leads(START, 0, 0, System(BLOCKED, REFUSED))
  {
    FreshLeads();
    BlockingAttempt(FRESH, 0, 0);
    assert Exec(FRESH, AttemptSteps(START, 0, 0, Failed(EAGAIN))) == Next(BLOCKED) by {
      assert {} + AsEvents(Write) + EPOLLET == EPOLLOUT + EPOLLET;
      assert {} + AsEvents(Write) == EPOLLOUT;
      assert {} - EPOLLOUT == {};
      assert {} - AsEvents(Write) == {};
    }
    Go(START, 0, 0, START, Attempt(Failed(EAGAIN)));
  }

  /** An unconnected socket is writable. */
  lemma WritableAtOnce()
    ensures Enabled(BLOCKED, Edge(0, EPOLLOUT)) && Apply(BLOCKED, Edge(0, EPOLLOUT)) == Next(REGISTERING)
  {
    assert {} + EPOLLOUT == EPOLLOUT;
  }

  lemma RegisterQueues()
    ensures Enabled(REGISTERING, Register) && Apply(REGISTERING, Register) == Next(QUEUED)
  {
    assert OUT_BIT in Reported(REGISTERED, 0);
    assert map[][0 := Registration(EPOLLOUT + EPOLLET, 0)] == REGISTERED.interest;
  }

  lemma WaitReports()
    ensures Enabled(QUEUED.(phase := Idle), Wait) && Apply(QUEUED.(phase := Idle), Wait) == Next(REPORTED)
  {
    assert Reported(QUEUED.kernel, 0) == EPOLLOUT;
    WaitOne(QUEUED.(phase := Idle), 0);
  }

  lemma DeliverLifts()
    ensures Enabled(REPORTED, Deliver) && Apply(REPORTED, Deliver) == Next(DELIVERED)
  {
    assert [Event(EPOLLOUT, 0)][1..] == [];
    assert EPOLLOUT - EPOLLOUT == {};
    assert {} + Waking(Some(7)) == {7};
  }

  lemma EventReported()
    ensures Leads(START, 0, 0, System(REPORTED, REFUSED))
  {
    hide Leads;
    FirstAttempt();
    WritableAtOnce();
    GoElsewhere(START, 0, 0, BLOCKED, REFUSED, Edge(0, EPOLLOUT), REGISTERING);
    RegisterQueues();
    GoElsewhere(START, 0, 0, REGISTERING, REFUSED, Register, QUEUED);
    GoElsewhere(START, 0, 0, QUEUED, REFUSED, Suspend, QUEUED.(phase := Idle));
    WaitReports();
    GoElsewhere(START, 0, 0, QUEUED.(phase := Idle), REFUSED, Wait, REPORTED);
  }

  lemma EventArrives()
    ensures Leads(START, 0, 0, System(AGAIN, REFUSED))
  {
    hide Leads;
    EventReported();
    DeliverLifts();
    GoElsewhere(START, 0, 0, REPORTED, REFUSED, Deliver, DELIVERED);
    GoElsewhere(START, 0, 0, DELIVERED, REFUSED, Finish, DELIVERED.(phase := Idle));
    GoElsewhere(START, 0, 0, DELIVERED.(phase := Idle), REFUSED, Start(7), AGAIN);
  }

  /** connect(2) answers EAGAIN, which reads as a handshake under way; the socket is writable, so the
      event comes at once, the second call finds no error, and the future reports success on a
      socket that was never connected. */
  lemma EagainReadsAsSuccess() returns (sys: System)
    ensures Leads(START, 0, 0, sys)
    ensures sys.c.result == Some(Success) && sys.c.socket == Unconnected && sys.c.connects == 1
  {
    EventArrives();
    Go(START, 0, 0, System(AGAIN, REFUSED), Attempt(Connected));
    sys := Step(System(AGAIN, REFUSED), 0, 0, Attempt(Connected)).value;
  }
}
