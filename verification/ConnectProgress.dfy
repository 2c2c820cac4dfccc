/** The connect future ends: once the handshake has, the task is woken within a bounded number of
    dispatches, and the next poll of the future reports how the handshake came out. */
module ConnectProgress {
  import opened Masks
  import opened Wrappers
  import opened Epoll
  import opened Protocol
  import opened Invariant
  import opened Readiness
  import opened WakeUp
  import opened Connect

  // ----- one poll of the future -----

  /** The handshake has ended, and the future has not seen it yet. */
  ghost predicate Pending(sys: System, a: Addr, fd: Fd) {
    && ConnectInv(sys, a, fd) && sys.c.alive && sys.c.result == None
    && (sys.c.socket.Established? || sys.c.socket.Broken?)
  }

  /** How the handshake came out. */
  function Verdict(error: Option<Errno>): Connect.Result {
    match error
    case None => Success
    case Some(e) => Failure(e)
  }

  /** The socket then. */
  function Settled(error: Option<Errno>): Socket {
    match error
    case None => Established
    case Some(e) => Broken(e)
  }

  /** The first poll that is tried calls connect(2), and ends at once unless the answer reads as
      WouldBlock. */
  lemma FirstAttempt(sys: System, a: Addr, fd: Fd, reply: Reply)
    requires ConnectInv(sys, a, fd) && Allowed(sys, a, fd, Attempt(reply))
    requires !sys.c.calledConnect && !Skips(sys.s.asyncs[a], Write)
    ensures Step(sys, a, fd, Attempt(reply)).Some?
    ensures
      var c := Step(sys, a, fd, Attempt(reply)).value.c;
      && c.connects == 1 && c.checks == sys.c.checks && c.reply == Some(reply)
      && match reply
         case Connected => c.result == Some(Success) && c.socket == Established
         case InProgress => c.result == None && c.socket == Handshaking
         case Failed(e) => c.result == (if e == 11 then None else Some(Failure(e))) && c.socket == Unconnected
  {
    MoveKeeps(sys, a, fd, Attempt(reply));
  }

  /** A skipped poll leaves the future as it was. */
  lemma SkippedAttempt(sys: System, a: Addr, fd: Fd, reply: Reply)
    requires ConnectInv(sys, a, fd) && Allowed(sys, a, fd, Attempt(reply)) && Skips(sys.s.asyncs[a], Write)
    ensures Step(sys, a, fd, Attempt(reply)).Some? && Step(sys, a, fd, Attempt(reply)).value.c == sys.c
  {
    MoveKeeps(sys, a, fd, Attempt(reply));
  }

  /** A poll that is tried after the end of the handshake asks for the socket's error, once, and ends. */
  lemma LastAttempt(sys: System, a: Addr, fd: Fd, reply: Reply)
    requires Pending(sys, a, fd) && Allowed(sys, a, fd, Attempt(reply)) && !Skips(sys.s.asyncs[a], Write)
    ensures Step(sys, a, fd, Attempt(reply)).Some?
    ensures
      var c := Step(sys, a, fd, Attempt(reply)).value.c;
      && c.socket == sys.c.socket && c.connects == 1 && c.checks == 1
      && (sys.c.socket == Established ==> c.result == Some(Success))
      && (forall e | sys.c.socket == Broken(e) :: c.result == Some(Failure(e)))
  {
    MoveKeeps(sys, a, fd, Attempt(reply));
  }

  // ----- the event of the handshake -----

  /** The event of the handshake is in the batch being delivered, or among the first `n` entries of the
      ready list. */
  ghost predicate Waiting(sys: System, a: Addr, fd: Fd, n: nat) {
    Pending(sys, a, fd) && Coming(sys.s, a, fd, OUT_BIT, n)
  }

  /** The move leaves the socket and its readiness for writing alone. */
  predicate SparesSocket(m: Move, a: Addr, fd: Fd) {
    m.Elsewhere? ==> Spares(m.act, a, fd, OUT_BIT)
  }

  function WaitMoves(moves: seq<Move>): nat
    decreases |moves|
  {
    if moves == [] then 0 else (if moves[0] == Elsewhere(Wait) then 1 else 0) + WaitMoves(moves[1..])
  }

  lemma WaitMoveBringsCloser(sys: System, a: Addr, fd: Fd, n: nat)
    requires Waiting(sys, a, fd, n) && Allowed(sys, a, fd, Elsewhere(Wait))
    ensures Step(sys, a, fd, Elsewhere(Wait)).Some?
    ensures Waiting(Step(sys, a, fd, Elsewhere(Wait)).value, a, fd, if n > BATCH then n - BATCH else 0)
    ensures Step(sys, a, fd, Elsewhere(Wait)).value.c == sys.c
  {
    MoveKeeps(sys, a, fd, Elsewhere(Wait));
    ReachStep(sys.s, Wait);
    ReachableInv(sys.s);
    WaitBringsCloser(sys.s, a, fd, OUT_BIT, n);
  }

  lemma MoveKeepsWaiting(sys: System, a: Addr, fd: Fd, m: Move, n: nat)
    requires Waiting(sys, a, fd, n) && Allowed(sys, a, fd, m) && m != Elsewhere(Wait) && SparesSocket(m, a, fd)
    ensures Step(sys, a, fd, m).Some?
    ensures
      var sys' := Step(sys, a, fd, m).value;
      && Pending(sys', a, fd) && sys'.c.socket == sys.c.socket
      && (Waiting(sys', a, fd, n) || Woken(sys'.s, a, OUT_BIT))
  {
    MoveKeeps(sys, a, fd, m);
    ReachableInv(sys.s);
    var act := if m.Elsewhere? then m.act else Poll(a, Write, GoesAhead({}));
    assert OUT_BIT in AsEvents(Write) * sys.s.asyncs[a].waitingFor;
    ReachStep(sys.s, act);
    StepKeepsComing(sys.s, act, a, fd, OUT_BIT, n);
  }

  // ----- over runs -----

  /** A run of the system passes through each of its prefixes. */
  lemma {:induction false} PlaySplit(sys: System, a: Addr, fd: Fd, moves: seq<Move>, i: nat)
    requires i <= |moves| && Lawful(sys, a, fd, moves) && Play(sys, a, fd, moves).Some?
    ensures Lawful(sys, a, fd, moves[..i]) && Play(sys, a, fd, moves[..i]).Some?
    ensures
      var mid := Play(sys, a, fd, moves[..i]).value;
      Lawful(mid, a, fd, moves[i..]) && Play(mid, a, fd, moves[i..]) == Play(sys, a, fd, moves)
    decreases i
  {
    if i == 0 {
      assert moves[..0] == [] && moves[0..] == moves;
    } else {
      PlaySplit(Step(sys, a, fd, moves[0]).value, a, fd, moves[1..], i - 1);
      assert moves[..i][1..] == moves[1..][..i - 1] && moves[i..] == moves[1..][i - 1..];
    }
  }

  lemma NothingWaits(sys: System, a: Addr, fd: Fd)
    requires !sys.s.phase.Dispatching?
    ensures !Waiting(sys, a, fd, 0)
  {
  }

  lemma {:induction false} WaitingArrives(sys: System, a: Addr, fd: Fd, moves: seq<Move>, n: nat) returns (i: nat)
    requires Waiting(sys, a, fd, n) && Lawful(sys, a, fd, moves)
    requires forall m | m in moves :: SparesSocket(m, a, fd)
    requires WaitMoves(moves) * BATCH >= n
    requires Play(sys, a, fd, moves).Some? && !Play(sys, a, fd, moves).value.s.phase.Dispatching?
    ensures i <= |moves| && Lawful(sys, a, fd, moves[..i]) && Play(sys, a, fd, moves[..i]).Some?
    ensures
      var mid := Play(sys, a, fd, moves[..i]).value;
      Pending(mid, a, fd) && mid.c.socket == sys.c.socket && Woken(mid.s, a, OUT_BIT)
    decreases |moves|
  {
    hide Waiting, Allowed, Step, Pending, Woken, SparesSocket;
    if moves == [] {
      NothingWaits(sys, a, fd);
      assert false;
    } else {
      assert moves[0] in moves;
      var rest := moves[1..];
      if moves[0] == Elsewhere(Wait) {
        WaitMoveBringsCloser(sys, a, fd, n);
        i := WaitingArrives(Step(sys, a, fd, moves[0]).value, a, fd, rest, if n > BATCH then n - BATCH else 0);
      } else {
        MoveKeepsWaiting(sys, a, fd, moves[0], n);
        var sys' := Step(sys, a, fd, moves[0]).value;
        if Woken(sys'.s, a, OUT_BIT) {
          i := 0;
        } else {
          i := WaitingArrives(sys', a, fd, rest, n);
        }
      }
      i := i + 1;
      PlaySplit(sys, a, fd, moves, i);
      assert moves[..i][1..] == rest[..i - 1];
    }
  }

  /** Once the event is delivered, until the future is polled, nothing holds its next poll back. */
  lemma {:induction false} LiftedStays(sys: System, a: Addr, fd: Fd, moves: seq<Move>)
    requires Pending(sys, a, fd) && OUT_BIT !in sys.s.asyncs[a].waitingFor && Lawful(sys, a, fd, moves)
    requires forall m | m in moves :: SparesSocket(m, a, fd) && !m.Attempt?
    ensures Play(sys, a, fd, moves).Some?
    ensures
      var end := Play(sys, a, fd, moves).value;
      Pending(end, a, fd) && end.c.socket == sys.c.socket && OUT_BIT !in end.s.asyncs[a].waitingFor
    decreases |moves|
  {
    if moves != [] {
      var m := moves[0];
      assert m in moves;
      MoveKeeps(sys, a, fd, m);
      ReachStep(sys.s, m.act);
      StaysDelivered(sys.s, m.act, a, OUT_BIT);
      LiftedStays(Step(sys, a, fd, m).value, a, fd, moves[1..]);
    }
  }

  /** Move `m` is the first poll of the future from `i` on. */
  ghost predicate NextAttempt(moves: seq<Move>, i: nat, m: nat) {
    i <= m < |moves| && moves[m].Attempt? && forall j | i <= j < m :: !moves[j].Attempt?
  }

  /** Move `m` ends the future with the verdict on the handshake. */
  ghost predicate ReportedAt(sys: System, a: Addr, fd: Fd, moves: seq<Move>, m: nat, error: Option<Errno>) {
    && m < |moves| && Lawful(sys, a, fd, moves[..m + 1]) && Play(sys, a, fd, moves[..m + 1]).Some?
    && var c := Play(sys, a, fd, moves[..m + 1]).value.c;
    c.result == Some(Verdict(error)) && c.connects == 1 && c.checks == 1
  }

  lemma NextAttemptReports(sys: System, a: Addr, fd: Fd, moves: seq<Move>, i: nat, m: nat, error: Option<Errno>)
    requires Lawful(sys, a, fd, moves) && Play(sys, a, fd, moves).Some? && i <= |moves|
    requires Lawful(sys, a, fd, moves[..i]) && Play(sys, a, fd, moves[..i]).Some?
    requires
      var mid := Play(sys, a, fd, moves[..i]).value;
      && Pending(mid, a, fd) && Woken(mid.s, a, OUT_BIT)
      && mid.c.socket == Settled(error)
    requires forall x | x in moves :: SparesSocket(x, a, fd)
    requires NextAttempt(moves, i, m)
    ensures ReportedAt(sys, a, fd, moves, m, error)
  {
    var mid := Play(sys, a, fd, moves[..i]).value;
    PlaySplit(sys, a, fd, moves, m);
    PlaySplit(sys, a, fd, moves[..m], i);
    assert moves[..m][..i] == moves[..i] && moves[..m][i..] == moves[i..m];
    LiftedStays(mid, a, fd, moves[i..m]);
    var before := Play(sys, a, fd, moves[..m]).value;
    assert moves[m..][0] == moves[m];
    assert AsEvents(Write) == {OUT_BIT};
    LastAttempt(before, a, fd, moves[m].reply);
    PlayAppend(sys, a, fd, moves[..m], moves[m]);
    assert moves[..m] + [moves[m]] == moves[..m + 1];
  }

  /** The handshake has ended this way, the future waits for the event, and the socket is entry number `k`
      of the ready list. */
  ghost predicate QueuedAt(sys: System, a: Addr, fd: Fd, error: Option<Errno>, k: nat) {
    && Pending(sys, a, fd) && sys.c.socket == Settled(error)
    && OUT_BIT in sys.s.asyncs[a].waitingFor && OUT_BIT in Ready(sys.s.kernel, fd)
    && !(sys.s.phase.Registering? && sys.s.phase.addr == a)
    && k < |sys.s.kernel.queue| && sys.s.kernel.queue[k] == fd
  }

  lemma QueuedWaits(sys: System, a: Addr, fd: Fd, error: Option<Errno>, k: nat)
    requires QueuedAt(sys, a, fd, error, k)
    ensures Waiting(sys, a, fd, k + 1)
  {
    RegistrationAgreement(sys.s, a);
    PositionAt(sys.s.kernel.queue, k);
  }

  lemma PlaceOf(queue: seq<Fd>, fd: Fd) returns (k: nat)
    requires fd in queue
    ensures k < |queue| && queue[k] == fd
  {
    k :| 0 <= k < |queue| && queue[k] == fd;
  }

  /** When the handshake ends, in error or not, the socket is on the ready list. */
  lemma ResolvedIsQueued(sys: System, a: Addr, fd: Fd, error: Option<Errno>, bits: Mask) returns (k: nat)
    requires ConnectInv(sys, a, fd) && Allowed(sys, a, fd, Resolve(error, bits))
    requires !(sys.s.phase.Registering? && sys.s.phase.addr == a)
    ensures Step(sys, a, fd, Resolve(error, bits)).Some?
    ensures QueuedAt(Step(sys, a, fd, Resolve(error, bits)).value, a, fd, error, k)
  {
    MoveKeeps(sys, a, fd, Resolve(error, bits));
    ReachStep(sys.s, Edge(fd, bits));
    RegistrationAgreement(sys.s, a);
    assert OUT_BIT in bits * (sys.s.kernel.interest[fd].mask + EPOLLERR + EPOLLHUP);
    k := PlaceOf(Apply(sys.s, Edge(fd, bits)).state.kernel.queue, fd);
  }

  lemma RegisterQueues(s: State, a: Addr, fd: Fd)
    requires s.phase.Registering? && s.phase.addr == a && Pollable(s, a) && s.asyncs[a].inner == Some(fd)
    requires OUT_BIT in s.asyncs[a].registerFor && OUT_BIT in Ready(s.kernel, fd) && ApplyRegister(s).Next?
    ensures fd in ApplyRegister(s).state.kernel.queue
  {
    var reg := Registration(s.asyncs[a].registerFor, a);
    assert OUT_BIT in Reported(s.kernel.(interest := s.kernel.interest[fd := reg]), fd);
  }

  /** It is so too if the handshake ends after the WouldBlock and before the epoll_ctl call, once that
      has been made. */
  lemma RaceIsQueued(sys: System, a: Addr, fd: Fd, error: Option<Errno>, bits: Mask) returns (k: nat)
    requires ConnectInv(sys, a, fd) && Allowed(sys, a, fd, Resolve(error, bits))
    requires sys.s.phase.Registering? && sys.s.phase.addr == a
    ensures Step(sys, a, fd, Resolve(error, bits)).Some?
    ensures
      var sys' := Step(sys, a, fd, Resolve(error, bits)).value;
      && Allowed(sys', a, fd, Elsewhere(Register)) && Step(sys', a, fd, Elsewhere(Register)).Some?
      && QueuedAt(Step(sys', a, fd, Elsewhere(Register)).value, a, fd, error, k)
  {
    MoveKeeps(sys, a, fd, Resolve(error, bits));
    ReachStep(sys.s, Edge(fd, bits));
    var sys' := Step(sys, a, fd, Resolve(error, bits)).value;
    MoveKeeps(sys', a, fd, Elsewhere(Register));
    ReachStep(sys'.s, Register);
    RegistrationAgreement(sys'.s, a);
    RegisterQueues(sys'.s, a, fd);
    k := PlaceOf(Apply(sys'.s, Register).state.kernel.queue, fd);
  }

  /** The connect step ends: the handshake has ended, in success or with an error, and the socket is
      entry number `k` of the ready list.  However the future is polled and whatever else happens,
      unless the socket is taken or dropped or stops being writable, its task is woken within
      k/512 + 1 dispatches, and the next poll of the future ends it: with success if there was no
      error, and otherwise with that error. */
  lemma ConnectEnds(sys: System, a: Addr, fd: Fd, error: Option<Errno>, k: nat, moves: seq<Move>) returns (i: nat)
    requires QueuedAt(sys, a, fd, error, k)
    requires Lawful(sys, a, fd, moves) && Play(sys, a, fd, moves).Some?
    requires !Play(sys, a, fd, moves).value.s.phase.Dispatching?
    requires forall m | m in moves :: SparesSocket(m, a, fd)
    requires WaitMoves(moves) >= k / 512 + 1
    ensures i <= |moves| && Lawful(sys, a, fd, moves[..i]) && Play(sys, a, fd, moves[..i]).Some?
    ensures Woken(Play(sys, a, fd, moves[..i]).value.s, a, OUT_BIT)
    ensures forall m | NextAttempt(moves, i, m) :: ReportedAt(sys, a, fd, moves, m, error)
  {
    QueuedWaits(sys, a, fd, error, k);
    i := WaitingArrives(sys, a, fd, moves, k + 1);
    forall m | NextAttempt(moves, i, m)
      ensures ReportedAt(sys, a, fd, moves, m, error)
    {
      NextAttemptReports(sys, a, fd, moves, i, m, error);
    }
  }
}
