/** The connect future as an object, polled from a thread: whatever else the thread does, in any order,
    what happens is a run of the system in `Connect`, and the future's conclusions are correct. */
module ConnectRuns {
  import opened Masks
  import opened Wrappers
  import opened Epoll
  import opened Protocol
  import opened Readiness
  import opened Reactors
  import opened Runtime
  import opened Connect
  import Executor

  /** What can happen: the future is polled, with connect(2) answering `reply` if it is called and the
      kernel doing `race` while the poll registers; the handshake ends; the thread does anything
      else; the reactor dispatches. */
  datatype Happening =
    | FuturePolled(reply: Reply, race: seq<Action>)
    | HandshakeEnded(error: Option<Errno>, bits: Mask)
    | Besides(cmd: Executor.Command)
    | ReactorDispatched(interrupted: bool)

  /** The action leaves the future and its socket's handshake alone. */
  predicate Aside(c: Connecting, a: Addr, fd: Fd, act: Action) {
    c.alive ==>
      && !((act.Poll? || act.Take? || act.Drop?) && act.addr == a)
      && (act.Edge? && act.fd == fd && c.socket == Handshaking ==> OUT_BIT !in act.bits)
  }

  predicate AllAside(c: Connecting, a: Addr, fd: Fd, acts: seq<Action>) {
    forall act | act in acts :: Aside(c, a, fd, act)
  }

  predicate Fits(sys: System, a: Addr, fd: Fd, h: Happening) {
    match h
    case FuturePolled(reply, race) =>
      && Allowed(sys, a, fd, Attempt(reply))
      && KernelOnly(race) && AllAside(MoveConnect(sys, a, fd, Attempt(reply)), a, fd, race)
    case HandshakeEnded(error, bits) => Allowed(sys, a, fd, Resolve(error, bits))
    case Besides(cmd) =>
      && Executor.Permitted(sys.s, cmd)
      && (|| cmd == Executor.Extract(a) || cmd == Executor.Destroy(a)
          || AllAside(sys.c, a, fd, Executor.Steps(sys.s, cmd)))
    case ReactorDispatched(_) => sys.s.phase.Idle?
  }

  function Elsewheres(acts: seq<Action>): seq<Move> {
    if acts == [] then [] else [Elsewhere(acts[0])] + Elsewheres(acts[1..])
  }

  /** The moves that the happening stands for. */
  function MovesOf(sys: System, a: Addr, fd: Fd, h: Happening): seq<Move>
    requires Fits(sys, a, fd, h)
  {
    match h
    case FuturePolled(reply, race) =>
      var next := Step(sys, a, fd, Attempt(reply));
      if next.Some? && next.value.s.phase.Registering?
      then [Attempt(reply)] + Elsewheres(race + [Register])
      else [Attempt(reply)]
    case HandshakeEnded(error, bits) => [Resolve(error, bits)]
    case Besides(cmd) => Elsewheres(Executor.Steps(sys.s, cmd))
    case ReactorDispatched(interrupted) =>
      if interrupted || !Enabled(sys.s, Wait) then [] else Elsewheres(DispatchSteps(sys.s))
  }

  /** The moves are lawful, and lead from one state of the system to the other. */
  ghost predicate Moves(sys: System, a: Addr, fd: Fd, moves: seq<Move>, sys': System) {
    Lawful(sys, a, fd, moves) && Play(sys, a, fd, moves) == Some(sys')
  }

  lemma {:induction false} MovesAppend(sys: System, a: Addr, fd: Fd, x: seq<Move>, mid: System, y: seq<Move>,
                                       sys': System)
    requires Moves(sys, a, fd, x, mid) && Moves(mid, a, fd, y, sys')
    ensures Moves(sys, a, fd, x + y, sys')
    decreases |x|
  {
    if x == [] {
      assert x + y == y;
    } else {
      assert (x + y)[0] == x[0] && (x + y)[1..] == x[1..] + y;
      MovesAppend(Step(sys, a, fd, x[0]).value, a, fd, x[1..], mid, y, sys');
    }
  }

  lemma OneMove(sys: System, a: Addr, fd: Fd, m: Move)
    requires ConnectInv(sys, a, fd) && Allowed(sys, a, fd, m)
    ensures Step(sys, a, fd, m).Some?
    ensures Moves(sys, a, fd, [m], Step(sys, a, fd, m).value)
    ensures ConnectInv(Step(sys, a, fd, m).value, a, fd)
  {
    MoveKeeps(sys, a, fd, m);
    var sys' := Step(sys, a, fd, m).value;
    assert [m][1..] == [];
    assert Lawful(sys', a, fd, []) && Play(sys', a, fd, []) == Some(sys');
  }

  lemma OneElsewhere(sys: System, a: Addr, fd: Fd, act: Action)
    requires ConnectInv(sys, a, fd) && Enabled(sys.s, act) && Aside(sys.c, a, fd, act)
    ensures Apply(sys.s, act).Next?
    ensures Moves(sys, a, fd, [Elsewhere(act)], System(Apply(sys.s, act).state, sys.c))
    ensures ConnectInv(System(Apply(sys.s, act).state, sys.c), a, fd)
  {
    OneMove(sys, a, fd, Elsewhere(act));
    ReachStep(sys.s, act);
  }

  /** Any run of the rest of the program is a run of the system that leaves the future alone. */
  lemma {:induction false} ElsewheresPlay(sys: System, a: Addr, fd: Fd, acts: seq<Action>)
    requires ConnectInv(sys, a, fd) && Schedule(sys.s, acts) && AllAside(sys.c, a, fd, acts)
    ensures Exec(sys.s, acts).Next?
    ensures Moves(sys, a, fd, Elsewheres(acts), System(Exec(sys.s, acts).state, sys.c))
    ensures ConnectInv(System(Exec(sys.s, acts).state, sys.c), a, fd)
    decreases |acts|
  {
    if acts != [] {
      assert acts[0] in acts;
      OneElsewhere(sys, a, fd, acts[0]);
      var mid := System(Apply(sys.s, acts[0]).state, sys.c);
      ElsewheresPlay(mid, a, fd, acts[1..]);
      MovesAppend(sys, a, fd, [Elsewhere(acts[0])], mid, Elsewheres(acts[1..]), System(Exec(sys.s, acts).state, sys.c));
    }
  }

  /** The state after a happening. */
  function Happen(sys: System, a: Addr, fd: Fd, h: Happening): Option<System>
    requires Fits(sys, a, fd, h)
  {
    var moves := MovesOf(sys, a, fd, h);
    if Lawful(sys, a, fd, moves) then Play(sys, a, fd, moves) else None
  }

  predicate AllFit(sys: System, a: Addr, fd: Fd, hs: seq<Happening>)
    decreases |hs|
  {
    hs == [] ||
    (Fits(sys, a, fd, hs[0]) &&
     match Happen(sys, a, fd, hs[0])
     case None => true
     case Some(sys') => AllFit(sys', a, fd, hs[1..]))
  }

  lemma HappensBy(sys: System, a: Addr, fd: Fd, h: Happening, sys': System)
    requires Fits(sys, a, fd, h) && Moves(sys, a, fd, MovesOf(sys, a, fd, h), sys')
    ensures Happen(sys, a, fd, h) == Some(sys')
  {
  }

  /** A poll that is skipped or gets an answer. */
  lemma PollGoesThrough(sys: System, a: Addr, fd: Fd, reply: Reply, race: seq<Action>)
    requires ConnectInv(sys, a, fd) && Fits(sys, a, fd, FuturePolled(reply, race))
    requires Skips(sys.s.asyncs[a], Write) || CallClosure(sys.c, reply).1.Some?
    ensures Enabled(sys.s, Poll(a, Write, GoesAhead({})))
    ensures
      var sys' := System(ApplyPoll(sys.s, a, Write, GoesAhead({})), MoveConnect(sys, a, fd, Attempt(reply)));
      Happen(sys, a, fd, FuturePolled(reply, race)) == Some(sys') && ConnectInv(sys', a, fd)
  {
    OneMove(sys, a, fd, Attempt(reply));
    ReachStep(sys.s, Poll(a, Write, GoesAhead({})));
    var sys' := Step(sys, a, fd, Attempt(reply)).value;
    HappensBy(sys, a, fd, FuturePolled(reply, race), sys');
  }

  /** A poll whose closure answers WouldBlock, with the registration that may follow. */
  lemma PollBlocks(sys: System, a: Addr, fd: Fd, reply: Reply, race: seq<Action>)
    requires ConnectInv(sys, a, fd) && Fits(sys, a, fd, FuturePolled(reply, race))
    requires !Skips(sys.s.asyncs[a], Write) && CallClosure(sys.c, reply).1.None?
    ensures
      var s := sys.s.(kernel := Lower(sys.s.kernel, fd, EPOLLOUT));
      && Enabled(s, Poll(a, Write, Blocks))
      && var acts := PollSteps(s, a, Write, Blocks, race);
      Schedule(s, acts) && Exec(s, acts).Next? ==>
        var sys' := System(Exec(s, acts).state, MoveConnect(sys, a, fd, Attempt(reply)));
        Happen(sys, a, fd, FuturePolled(reply, race)) == Some(sys') && ConnectInv(sys', a, fd)
  {
    BlockingAttempt(sys.s, a, fd);
    OneMove(sys, a, fd, Attempt(reply));
    var s := sys.s.(kernel := Lower(sys.s.kernel, fd, EPOLLOUT));
    var mid := System(ApplyPoll(s, a, Write, Blocks), MoveConnect(sys, a, fd, Attempt(reply)));
    assert Step(sys, a, fd, Attempt(reply)) == Some(mid);
    var acts := PollSteps(s, a, Write, Blocks, race);
    if Schedule(s, acts) && Exec(s, acts).Next? {
      AfterFirst(s, Poll(a, Write, Blocks), race, acts);
      if mid.s.phase.Registering? {
        var late := race + [Register];
        ElsewheresPlay(mid, a, fd, late);
        MovesAppend(sys, a, fd, [Attempt(reply)], mid, Elsewheres(late), System(Exec(mid.s, late).state, mid.c));
        HappensBy(sys, a, fd, FuturePolled(reply, race), System(Exec(mid.s, late).state, mid.c));
      } else {
        HappensBy(sys, a, fd, FuturePolled(reply, race), mid);
      }
    }
  }

  lemma AfterFirst(s: State, act: Action, race: seq<Action>, acts: seq<Action>)
    requires Enabled(s, act) && Apply(s, act).Next? && acts in {[act], [act] + race + [Register]}
    requires Schedule(s, acts)
    ensures acts == [act] ==> Exec(s, acts) == Apply(s, act)
    ensures acts == [act] + race + [Register] ==>
      Schedule(Apply(s, act).state, race + [Register]) && Exec(s, acts) == Exec(Apply(s, act).state, race + [Register])
  {
    assert ([act] + race + [Register])[1..] == race + [Register];
    assert [act][1..] == [];
  }

  /** Anything the rest of the thread does. */
  lemma BesidesHappens(sys: System, a: Addr, fd: Fd, cmd: Executor.Command)
    requires ConnectInv(sys, a, fd) && Fits(sys, a, fd, Besides(cmd))
    ensures Executor.Do(sys.s, cmd).Some?
    ensures
      var c := if cmd == Executor.Extract(a) || cmd == Executor.Destroy(a) then sys.c.(alive := false) else sys.c;
      var sys' := System(Executor.Do(sys.s, cmd).value, c);
      Happen(sys, a, fd, Besides(cmd)) == Some(sys') && ConnectInv(sys', a, fd)
  {
    Executor.DoRun(sys.s, cmd);
    if cmd == Executor.Extract(a) || cmd == Executor.Destroy(a) {
      var act := if cmd == Executor.Extract(a) then Take(a) else Drop(a);
      Executor.DoStep(sys.s, cmd, act);
      OneMove(sys, a, fd, Elsewhere(act));
      ReachStep(sys.s, act);
      assert Elsewheres([act]) == [Elsewhere(act)] + Elsewheres([act][1..]);
      HappensBy(sys, a, fd, Besides(cmd), Step(sys, a, fd, Elsewhere(act)).value);
    } else {
      ElsewheresPlay(sys, a, fd, Executor.Steps(sys.s, cmd));
      HappensBy(sys, a, fd, Besides(cmd), System(Executor.Do(sys.s, cmd).value, sys.c));
    }
  }

  lemma DispatchAside(s: State, c: Connecting, a: Addr, fd: Fd)
    requires Queueable(s.kernel)
    ensures AllAside(c, a, fd, DispatchSteps(s))
  {
  }

  lemma DispatchHappens(sys: System, a: Addr, fd: Fd, interrupted: bool)
    requires ConnectInv(sys, a, fd) && Fits(sys, a, fd, ReactorDispatched(interrupted))
    ensures
      var sys' := if interrupted || !Enabled(sys.s, Wait) then sys else System(AfterDispatch(sys.s), sys.c);
      Happen(sys, a, fd, ReactorDispatched(interrupted)) == Some(sys') && ConnectInv(sys', a, fd)
  {
    if !interrupted && Enabled(sys.s, Wait) {
      DispatchRun(sys.s);
      DispatchAside(sys.s, sys.c, a, fd);
      ElsewheresPlay(sys, a, fd, DispatchSteps(sys.s));
      HappensBy(sys, a, fd, ReactorDispatched(interrupted), System(AfterDispatch(sys.s), sys.c));
    } else {
      HappensBy(sys, a, fd, ReactorDispatched(interrupted), sys);
    }
  }

  // ----- the objects -----

  ghost function Whole(thread: Thread, future: ConnectFuture): System
    reads thread, thread.reactor, thread.asyncs.Values, thread.Waiters(), future
  {
    System(thread.Abs(), future.Seen())
  }

  /** The poll of the socket around the closure. */
  method PollTried(thread: Thread, a: Addr, op: Attempt, race: seq<Action>)
    requires thread.Valid() && Enabled(thread.Abs(), Poll(a, Write, op)) && KernelOnly(race)
    modifies thread.reactor`kernel, thread.asyncs[a], thread.asyncs[a].waiter
    ensures thread.Valid()
    ensures
      var s := old(thread.Abs());
      var acts := PollSteps(s, a, Write, op, race);
      && Schedule(s, acts) && Exec(s, acts) == Next(thread.Abs())
      && (op.GoesAhead? ==> thread.Abs() == ApplyPoll(s, a, Write, op))
  {
    ghost var s := thread.Abs();
    var _ := thread.Poll(a, Write, op, race);
    if op.GoesAhead? {
      AfterFirst(s, Poll(a, Write, op), race, [Poll(a, Write, op)]);
    }
  }

  /** The same when the closure has answered WouldBlock. */
  method PollInVain(thread: Thread, a: Addr, race: seq<Action>)
    requires thread.Valid() && thread.running.Some? && a in thread.asyncs && thread.asyncs[a].inner.Some?
    requires thread.asyncs[a].owner == thread.running.value && KernelOnly(race)
    modifies thread.reactor`kernel, thread.asyncs[a], thread.asyncs[a].waiter
    ensures thread.Valid()
    ensures
      var fd := old(thread.asyncs[a].inner.value);
      var s := old(thread.Abs()).(kernel := Lower(old(thread.reactor.kernel), fd, EPOLLOUT));
      && Enabled(s, Poll(a, Write, Blocks))
      && var acts := PollSteps(s, a, Write, Blocks, race);
      Schedule(s, acts) && Exec(s, acts) == Next(thread.Abs())
  {
    ghost var s := thread.Abs();
    var clear := [Clear(thread.asyncs[a].inner.value, EPOLLOUT)];
    assert clear[1..] == [];
    thread.Elapse(clear);
    StirRuns(s, clear);
    PollTried(thread, a, Blocks, race);
  }

  /** Calls the closure, and polls the socket according to the answer. */
  method CallAndPoll(thread: Thread, future: ConnectFuture, a: Addr, ghost fd: Fd, reply: Reply, race: seq<Action>)
    requires thread.Valid() && ConnectInv(Whole(thread, future), a, fd)
    requires Fits(Whole(thread, future), a, fd, FuturePolled(reply, race)) && !Skips(thread.Abs().asyncs[a], Write)
    modifies future, thread.reactor`kernel, thread.asyncs[a], thread.asyncs[a].waiter
    ensures thread.Valid() && ConnectInv(Whole(thread, future), a, fd)
    ensures Happen(old(Whole(thread, future)), a, fd, FuturePolled(reply, race)) == Some(Whole(thread, future))
  {
    ghost var sys := Whole(thread, future);
    assert sys.s.asyncs[a].inner == Some(fd);
    hide Happen, ConnectInv, ApplyPoll, PollSteps, Schedule, Exec, AllAside;
    CallFuture(thread, future, reply);
    if future.result.Some? {
      PollGoesThrough(sys, a, fd, reply, race);
      PollTried(thread, a, GoesAhead({}), []);
    } else {
      PollBlocks(sys, a, fd, reply, race);
      PollInVain(thread, a, race);
    }
  }

  method CallFuture(ghost thread: Thread, future: ConnectFuture, reply: Reply)
    requires thread.Valid()
    modifies future
    ensures thread.Valid() && thread.Abs() == old(thread.Abs())
    ensures
      var (c, r) := CallClosure(old(future.Seen()), reply);
      future.Seen() == c.(result := r)
  {
    ghost var s := thread.Abs();
    future.result := future.Call(reply);
    assert thread.Abs().asyncs == s.asyncs;
    assert thread.Abs() == s && Reachable(s);
  }

  /** Polls the future: its closure is called unless the poll of its socket is skipped. */
  method PollFuture(thread: Thread, future: ConnectFuture, a: Addr, ghost fd: Fd, reply: Reply, race: seq<Action>)
    requires thread.Valid() && ConnectInv(Whole(thread, future), a, fd)
    requires Fits(Whole(thread, future), a, fd, FuturePolled(reply, race))
    modifies future, thread.reactor`kernel, thread.asyncs[a], thread.asyncs[a].waiter
    ensures thread.Valid() && ConnectInv(Whole(thread, future), a, fd)
    ensures Happen(old(Whole(thread, future)), a, fd, FuturePolled(reply, race)) == Some(Whole(thread, future))
  {
    ghost var sys := Whole(thread, future);
    if EPOLLOUT * thread.asyncs[a].waiter.waitingFor != {} {
      hide Happen, ConnectInv, AllAside;
      PollGoesThrough(sys, a, fd, reply, race);
      PollTried(thread, a, GoesAhead({}), []);
    } else {
      CallAndPoll(thread, future, a, fd, reply, race);
    }
  }

  /** The handshake ends, and the kernel says so. */
  method EndHandshake(thread: Thread, future: ConnectFuture, ghost a: Addr, fd: Fd, error: Option<Errno>, bits: Mask)
    requires thread.Valid() && ConnectInv(Whole(thread, future), a, fd)
    requires Fits(Whole(thread, future), a, fd, HandshakeEnded(error, bits))
    modifies future`socket, thread.reactor`kernel
    ensures thread.Valid() && ConnectInv(Whole(thread, future), a, fd)
    ensures Happen(old(Whole(thread, future)), a, fd, HandshakeEnded(error, bits)) == Some(Whole(thread, future))
  {
    ghost var sys := Whole(thread, future);
    OneMove(sys, a, fd, Resolve(error, bits));
    HappensBy(sys, a, fd, HandshakeEnded(error, bits), Step(sys, a, fd, Resolve(error, bits)).value);
    hide Happen, ConnectInv, Schedule;
    thread.Elapse([Edge(fd, bits)]);
    SettleFuture(thread, future, error);
  }

  method SettleFuture(ghost thread: Thread, future: ConnectFuture, error: Option<Errno>)
    requires thread.Valid()
    modifies future`socket
    ensures thread.Valid() && thread.Abs() == old(thread.Abs())
    ensures future.Seen() ==
      old(future.Seen()).(socket := match error case None => Established case Some(e) => Broken(e))
  {
    ghost var s := thread.Abs();
    future.socket := match error case None => Established case Some(e) => Broken(e);
    assert thread.Abs().asyncs == s.asyncs;
    assert thread.Abs() == s && Reachable(s);
  }

  ghost method EndFuture(thread: Thread, future: ConnectFuture)
    requires thread.Valid()
    modifies future`alive
    ensures thread.Valid() && thread.Abs() == old(thread.Abs())
    ensures future.Seen() == old(future.Seen()).(alive := false)
  {
    ghost var s := thread.Abs();
    future.alive := false;
    assert thread.Abs().asyncs == s.asyncs;
    assert thread.Abs() == s && Reachable(s);
  }

  /** The thread does something else; taking or dropping the future's socket is the end of it. */
  method DoBesides(thread: Thread, future: ConnectFuture, a: Addr, ghost fd: Fd, cmd: Executor.Command)
    requires thread.Valid() && ConnectInv(Whole(thread, future), a, fd)
    requires Fits(Whole(thread, future), a, fd, Besides(cmd))
    modifies future`alive, thread, thread.reactor, thread.asyncs.Values, thread.Waiters()
    ensures thread.Valid() && ConnectInv(Whole(thread, future), a, fd)
    ensures Happen(old(Whole(thread, future)), a, fd, Besides(cmd)) == Some(Whole(thread, future))
    ensures forall x | x in thread.asyncs.Values ::
      (x in old(thread.asyncs.Values) && x.waiter in old(thread.Waiters())) || (fresh(x) && fresh(x.waiter))
  {
    ghost var sys := Whole(thread, future);
    BesidesHappens(sys, a, fd, cmd);
    hide Happen, ConnectInv, Executor.Do, AllAside;
    Executor.Perform(thread, cmd);
    if cmd == Executor.Extract(a) || cmd == Executor.Destroy(a) {
      EndFuture(thread, future);
    }
  }

  method DispatchReactor(thread: Thread, future: ConnectFuture, ghost a: Addr, ghost fd: Fd, interrupted: bool)
    requires thread.Valid() && ConnectInv(Whole(thread, future), a, fd)
    requires Fits(Whole(thread, future), a, fd, ReactorDispatched(interrupted))
    modifies thread`woken, thread`running, thread.reactor, thread.Waiters()`waitingFor
    ensures thread.Valid() && ConnectInv(Whole(thread, future), a, fd)
    ensures Happen(old(Whole(thread, future)), a, fd, ReactorDispatched(interrupted)) == Some(Whole(thread, future))
  {
    ghost var sys := Whole(thread, future);
    DispatchHappens(sys, a, fd, interrupted);
    var result := thread.Dispatch(interrupted);
    if result == Done {
      DispatchRun(sys.s);
    }
  }

  method Undergo(thread: Thread, future: ConnectFuture, a: Addr, fd: Fd, h: Happening)
    requires thread.Valid() && ConnectInv(Whole(thread, future), a, fd) && Fits(Whole(thread, future), a, fd, h)
    modifies future, thread, thread.reactor, thread.asyncs.Values, thread.Waiters()
    ensures thread.Valid() && ConnectInv(Whole(thread, future), a, fd)
    ensures Happen(old(Whole(thread, future)), a, fd, h) == Some(Whole(thread, future))
    ensures forall x | x in thread.asyncs.Values ::
      (x in old(thread.asyncs.Values) && x.waiter in old(thread.Waiters())) || (fresh(x) && fresh(x.waiter))
  {
    match h
    case FuturePolled(reply, race) => PollFuture(thread, future, a, fd, reply, race);
    case HandshakeEnded(error, bits) => EndHandshake(thread, future, a, fd, error, bits);
    case Besides(cmd) => DoBesides(thread, future, a, fd, cmd);
    case ReactorDispatched(interrupted) => DispatchReactor(thread, future, a, fd, interrupted);
  }

  lemma HappenMoves(sys: System, a: Addr, fd: Fd, h: Happening)
    requires Fits(sys, a, fd, h) && Happen(sys, a, fd, h).Some?
    ensures Moves(sys, a, fd, MovesOf(sys, a, fd, h), Happen(sys, a, fd, h).value)
  {
  }

  lemma NoMoves(sys: System, a: Addr, fd: Fd)
    ensures Moves(sys, a, fd, [], sys)
  {
  }

  lemma StartsWell(sys: System, a: Addr, fd: Fd)
    requires Reachable(sys.s) && a in sys.s.asyncs && sys.s.asyncs[a].inner == Some(fd) && sys.c == STARTING
    ensures ConnectInv(sys, a, fd)
  {
  }

  lemma FirstFits(sys: System, a: Addr, fd: Fd, hs: seq<Happening>)
    requires AllFit(sys, a, fd, hs) && hs != []
    ensures Fits(sys, a, fd, hs[0])
    ensures Happen(sys, a, fd, hs[0]).Some? ==> AllFit(Happen(sys, a, fd, hs[0]).value, a, fd, hs[1..])
  {
  }

  lemma InvIsCorrect(sys: System, a: Addr, fd: Fd)
    requires ConnectInv(sys, a, fd)
    ensures Correct(sys.c)
  {
    RecordsAreCorrect(sys.c);
  }

  /** A connect future on a thread, for as long as one likes: polled, spuriously or not, while the
      handshake, the other tasks, the reactor and the kernel do whatever they may.  All of it is a
      run of the system in `Connect`, and what the future has done and concluded is correct. */
  method RunFuture(thread: Thread, future: ConnectFuture, a: Addr, fd: Fd, hs: seq<Happening>)
    returns (ghost moves: seq<Move>)
    requires thread.Valid() && a in thread.asyncs && thread.asyncs[a].inner == Some(fd) && future.Seen() == STARTING
    requires AllFit(Whole(thread, future), a, fd, hs)
    modifies future, thread, thread.reactor, thread.asyncs.Values, thread.Waiters()
    ensures thread.Valid()
    ensures Moves(old(Whole(thread, future)), a, fd, moves, Whole(thread, future))
    ensures Correct(future.Seen())
  {
    hide Happen, MovesOf, Moves, AllFit, ConnectInv;
    ghost var start, sys := Whole(thread, future), Whole(thread, future);
    StartsWell(start, a, fd);
    NoMoves(sys, a, fd);
    moves := [];
    var i := 0;
    assert hs[0..] == hs;
    while i < |hs|
      invariant 0 <= i <= |hs|
      invariant thread.Valid() && Whole(thread, future) == sys
      invariant ConnectInv(sys, a, fd) && AllFit(sys, a, fd, hs[i..]) && Moves(start, a, fd, moves, sys)
      invariant forall x | x in thread.asyncs.Values ::
        (x in old(thread.asyncs.Values) && x.waiter in old(thread.Waiters())) || (fresh(x) && fresh(x.waiter))
    {
      FirstFits(sys, a, fd, hs[i..]);
      assert hs[i..][0] == hs[i] && hs[i..][1..] == hs[i + 1..];
      Undergo(thread, future, a, fd, hs[i]);
      HappenMoves(sys, a, fd, hs[i]);
      MovesAppend(start, a, fd, moves, sys, MovesOf(sys, a, fd, hs[i]), Whole(thread, future));
      moves, sys := moves + MovesOf(sys, a, fd, hs[i]), Whole(thread, future);
      i := i + 1;
    }
    InvIsCorrect(sys, a, fd);
  }
}
