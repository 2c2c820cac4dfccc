/** The readiness protocol as a state machine: `Async` values polled by tasks, the reactor's
    dispatch, and the kernel, one atomic step at a time.  The kernel may act between any two
    steps, in particular between an operation that would block and the epoll_ctl after it. */
module Protocol {
  import opened Masks
  import opened Wrappers
  import opened Epoll

  type Task = nat

  /** The size of the event buffer of one dispatch. */
  const BATCH: nat := 512

  /** One `Async` value with its waiter.  `awaited` collects the bits whose last poll, in the
      current or latest run of the owning task, returned Pending; `missed` those of
      them that such a poll was skipped without waiting for; `adds`, `mods`, `dels` count its epoll_ctl calls. */
  datatype AsyncState = AsyncState(
    inner: Option<Fd>,
    waker: Option<Task>,
    registerFor: Mask,
    waitingFor: Mask,
    owner: Task,
    awaited: Mask,
    missed: Mask,
    adds: nat,
    mods: nat,
    dels: nat)

  /** Who is executing: nobody, a task, a task between WouldBlock and epoll_ctl, or the reactor
      with the events it has not delivered yet. */
  datatype Phase =
    | Idle
    | Running(task: Task)
    | Registering(task: Task, addr: Addr, already: Mask)
    | Dispatching(batch: seq<Event>)

  datatype State = State(asyncs: map<Addr, AsyncState>, kernel: Kernel, phase: Phase, woken: set<Task>)

  const INITIAL := State(map[], EMPTY, Idle, {})

  /** What the operation handed to a poll does if it is tried: it fails with WouldBlock, or it goes
      ahead, with success or another error, and uses up some readiness. */
  datatype Attempt = Blocks | GoesAhead(used: Mask)

  datatype Action =
    | Spawn(task: Task)
    | Start(task: Task)
    | Suspend
    | New(addr: Addr, fd: Fd)
    | Poll(addr: Addr, interest: Interest, op: Attempt)
    | Register
    | Take(addr: Addr)
    | Drop(addr: Addr)
    | Edge(fd: Fd, bits: Mask)
    | Clear(fd: Fd, bits: Mask)
    | Wait
    | Deliver
    | Finish

  /** A step ends in a new state, or goes wrong: the kernel refused an epoll_ctl call (the
      program then panics), or an event led to an address where no waiter lives. */
  datatype Outcome = Next(state: State) | Refused | StalePointer

  function FreshAsync(fd: Fd, owner: Task): AsyncState {
    AsyncState(Some(fd), None, {}, {}, owner, {}, {}, 0, 0, 0)
  }

  predicate Held(s: State, fd: Fd) {
    exists a :: a in s.asyncs && s.asyncs[a].inner == Some(fd)
  }

  predicate Pollable(s: State, addr: Addr) {
    addr in s.asyncs && s.asyncs[addr].inner.Some?
  }

  predicate Queueable(k: Kernel) {
    forall fd | fd in k.queue :: fd in k.interest
  }

  /** The short-circuit of a poll. */
  predicate Skips(w: AsyncState, interest: Interest) {
    AsEvents(interest) * w.waitingFor != {}
  }

  /** The file is ready for none of the bits the operation needs. */
  predicate Blocked(k: Kernel, fd: Fd, interest: Interest) {
    Ready(k, fd) * AsEvents(interest) == {}
  }

  /** An operation fails with WouldBlock only when the file is not ready for it, and uses up only
      readiness it asked for.  A skipped operation may be anything. */
  predicate Possible(s: State, addr: Addr, interest: Interest, op: Attempt)
    requires Pollable(s, addr)
  {
    match op
    case Blocks => Skips(s.asyncs[addr], interest) || Blocked(s.kernel, s.asyncs[addr].inner.value, interest)
    case GoesAhead(used) => used <= AsEvents(interest)
  }

  /** The steps a caller may take: the assertions of the source (no poll of a taken value, no
      deletion and no recursion during dispatch) and the assumptions on its environment (two live
      values never hold the same file, each is polled by the one task that owns it, operations
      are possible ones, epoll_wait returns only with something to report). */
  predicate Enabled(s: State, act: Action) {
    match act
    case Spawn(_) => s.phase.Idle? || s.phase.Running?
    case Start(t) => s.phase.Idle? && t in s.woken
    case Suspend => s.phase.Running?
    case New(addr, fd) => s.phase.Running? && addr !in s.asyncs && !Held(s, fd)
    case Poll(addr, interest, op) =>
      && s.phase.Running? && Pollable(s, addr) && s.asyncs[addr].owner == s.phase.task
      && Possible(s, addr, interest, op)
    case Register => s.phase.Registering? && Pollable(s, s.phase.addr)
    case Take(addr) => (s.phase.Idle? || s.phase.Running?) && Pollable(s, addr)
    case Drop(addr) => (s.phase.Idle? || s.phase.Running?) && addr in s.asyncs
    case Edge(_, _) => true
    case Clear(_, _) => true
    case Wait => s.phase.Idle? && Queueable(s.kernel) && Harvest(s.kernel, s.kernel.queue, BATCH).0 != []
    case Deliver => s.phase.Dispatching? && s.phase.batch != []
    case Finish => s.phase == Dispatching([])
  }

  function PollSkipped(w: AsyncState, interest: Interest): AsyncState {
    w.(awaited := w.awaited + AsEvents(interest), missed := w.missed + (AsEvents(interest) - w.waitingFor))
  }

  function PollDone(w: AsyncState, interest: Interest): AsyncState {
    w.(awaited := w.awaited - AsEvents(interest), missed := w.missed - AsEvents(interest))
  }

  function PollBlocked(w: AsyncState, interest: Interest, task: Task): AsyncState {
    w.(waker := Some(task),
       waitingFor := w.waitingFor + AsEvents(interest),
       registerFor := w.registerFor + AsEvents(interest) + EPOLLET,
       awaited := w.awaited + AsEvents(interest),
       missed := w.missed - AsEvents(interest))
  }

  /** A poll that tries its operation. */
  function TryPoll(s: State, addr: Addr, interest: Interest, op: Attempt): State
    requires s.phase.Running? && Pollable(s, addr)
  {
    var w := s.asyncs[addr];
    var fd := w.inner.value;
    if op.GoesAhead? then
      s.(asyncs := s.asyncs[addr := PollDone(w, interest)], kernel := Lower(s.kernel, fd, op.used))
    else
      var w' := PollBlocked(w, interest, s.phase.task);
      s.(asyncs := s.asyncs[addr := w'],
         phase := if w'.registerFor == w.registerFor then s.phase
                  else Registering(s.phase.task, addr, w.registerFor))
  }

  /** A poll: skipped while a bit of the interest is waited for, and tried otherwise. */
  function ApplyPoll(s: State, addr: Addr, interest: Interest, op: Attempt): State
    requires Enabled(s, Poll(addr, interest, op))
  {
    if Skips(s.asyncs[addr], interest) then s.(asyncs := s.asyncs[addr := PollSkipped(s.asyncs[addr], interest)])
    else TryPoll(s, addr, interest, op)
  }

  function ApplyRegister(s: State): Outcome
    requires Enabled(s, Register)
  {
    var addr := s.phase.addr;
    var w := s.asyncs[addr];
    var fd := w.inner.value;
    var reg := Registration(w.registerFor, addr);
    if s.phase.already == {} then
      match CtlAdd(s.kernel, fd, reg)
      case None => Refused
      case Some(k) =>
        Next(s.(asyncs := s.asyncs[addr := w.(adds := w.adds + 1)], kernel := k, phase := Running(s.phase.task)))
    else
      match CtlMod(s.kernel, fd, reg)
      case None => Refused
      case Some(k) =>
        Next(s.(asyncs := s.asyncs[addr := w.(mods := w.mods + 1)], kernel := k, phase := Running(s.phase.task)))
  }

  /** `deregister`: nothing to do for a value that is not registered or no longer holds its file. */
  function Deregister(s: State, addr: Addr): Outcome
    requires addr in s.asyncs
  {
    var w := s.asyncs[addr];
    if w.registerFor == {} || w.inner.None? then Next(s)
    else
      match CtlDel(s.kernel, w.inner.value)
      case None => Refused
      case Some(k) =>
        Next(s.(asyncs := s.asyncs[addr := w.(registerFor := {}, dels := w.dels + 1)], kernel := k))
  }

  /** What delivery does to the waiter of an event. */
  function Delivered(w: AsyncState, events: Mask): AsyncState {
    w.(waitingFor := w.waitingFor - events)
  }

  function Waking(waker: Option<Task>): set<Task> {
    if waker.Some? then {waker.value} else {}
  }

  function ApplyDeliver(s: State): Outcome
    requires Enabled(s, Deliver)
  {
    var e := s.phase.batch[0];
    if e.data !in s.asyncs then StalePointer
    else
      var w := s.asyncs[e.data];
      Next(s.(asyncs := s.asyncs[e.data := Delivered(w, e.events)],
              woken := s.woken + Waking(w.waker),
              phase := Dispatching(s.phase.batch[1..])))
  }

  function StartTask(s: State, task: Task): State {
    s.(asyncs := map a | a in s.asyncs ::
         if s.asyncs[a].owner == task then s.asyncs[a].(awaited := {}, missed := {}) else s.asyncs[a],
       woken := s.woken - {task},
       phase := Running(task))
  }

  function Apply(s: State, act: Action): Outcome
    requires Enabled(s, act)
  {
    match act
    case Spawn(t) => Next(s.(woken := s.woken + {t}))
    case Start(t) => Next(StartTask(s, t))
    case Suspend => Next(s.(phase := Idle))
    case New(addr, fd) => Next(s.(asyncs := s.asyncs[addr := FreshAsync(fd, s.phase.task)]))
    case Poll(addr, interest, op) => Next(ApplyPoll(s, addr, interest, op))
    case Register => ApplyRegister(s)
    case Take(addr) =>
      (match Deregister(s, addr)
       case Next(s') => Next(s'.(asyncs := s'.asyncs[addr := s'.asyncs[addr].(inner := None)]))
       case bad => bad)
    case Drop(addr) =>
      (match Deregister(s, addr)
       case Next(s') => Next(s'.(asyncs := s'.asyncs - {addr}))
       case bad => bad)
    case Edge(fd, bits) => Next(s.(kernel := RaiseEdge(s.kernel, fd, bits)))
    case Clear(fd, bits) => Next(s.(kernel := Lower(s.kernel, fd, bits)))
    case Wait =>
      var (batch, rest) := Harvest(s.kernel, s.kernel.queue, BATCH);
      Next(s.(kernel := s.kernel.(queue := rest), phase := Dispatching(batch)))
    case Deliver => ApplyDeliver(s)
    case Finish => Next(s.(phase := Idle))
  }

  /** A schedule: every step is one its caller may take. */
  predicate Schedule(s: State, acts: seq<Action>)
    decreases acts
  {
    acts == [] ||
    (Enabled(s, acts[0]) &&
     (Apply(s, acts[0]).Next? ==> Schedule(Apply(s, acts[0]).state, acts[1..])))
  }

  function Exec(s: State, acts: seq<Action>): Outcome
    requires Schedule(s, acts)
    decreases acts
  {
    if acts == [] then Next(s)
    else
      match Apply(s, acts[0])
      case Next(s') => Exec(s', acts[1..])
      case bad => bad
  }

  lemma {:induction false} ExecAppend(s: State, before: seq<Action>, after: seq<Action>)
    requires Schedule(s, before) && Exec(s, before).Next?
    requires Schedule(Exec(s, before).state, after)
    ensures Schedule(s, before + after)
    ensures Exec(s, before + after) == Exec(Exec(s, before).state, after)
    decreases before
  {
    if before == [] {
      assert before + after == after;
    } else {
      ExecAppend(Apply(s, before[0]).state, before[1..], after);
      assert (before + after)[1..] == before[1..] + after;
    }
  }

  /** A run passes through each of its prefixes. */
  lemma {:induction false} ExecSplit(s: State, acts: seq<Action>, j: nat)
    requires j <= |acts| && Schedule(s, acts) && Exec(s, acts).Next?
    ensures Schedule(s, acts[..j]) && Exec(s, acts[..j]).Next?
    ensures Schedule(Exec(s, acts[..j]).state, acts[j..])
    ensures Exec(Exec(s, acts[..j]).state, acts[j..]) == Exec(s, acts)
    decreases acts
  {
    if j > 0 {
      ExecSplit(Apply(s, acts[0]).state, acts[1..], j - 1);
      assert acts[..j][1..] == acts[1..][..j - 1] && acts[j..] == acts[1..][j - 1..];
    } else {
      assert acts[0..] == acts && acts[..0] == [];
    }
  }
}
