/** `Async` values, updated in place, and the thread that holds them together with its reactor.
    Every operation is shown to be a run of the readiness protocol. */
module Runtime {
  import opened Masks
  import opened Wrappers
  import opened Epoll
  import opened Protocol
  import opened Readiness
  import opened Batches
  import opened Reactors

  /** What the kernel does on its own. */
  predicate KernelOnly(acts: seq<Action>) {
    forall act | act in acts :: act.Edge? || act.Clear?
  }

  function Stir(k: Kernel, acts: seq<Action>): (r: Kernel)
    ensures r.interest == k.interest
    decreases acts
  {
    if acts == [] then k
    else
      Stir(match acts[0]
           case Edge(fd, bits) => RaiseEdge(k, fd, bits)
           case Clear(fd, bits) => Lower(k, fd, bits)
           case _ => k,
           acts[1..])
  }

  lemma {:induction false} StirRuns(s: State, acts: seq<Action>)
    requires KernelOnly(acts)
    ensures Schedule(s, acts) && Exec(s, acts) == Next(s.(kernel := Stir(s.kernel, acts)))
    decreases acts
  {
    if acts != [] {
      assert acts[0] in acts;
      StirRuns(Apply(s, acts[0]).state, acts[1..]);
    }
  }

  /** How a poll goes: skipped, tried with success, or tried in vain (the waiter is then in place). */
  datatype Polled = Skipped | Finished | WouldBlock

  /** The value and the kernel after a poll that blocked: the epoll_ctl call, if there is one, acts
      on the kernel as it is by then. */
  function AfterBlocking(w: AsyncState, w': AsyncState, a: Addr, k: Kernel, later: Kernel): Option<(AsyncState, Kernel)>
    requires w'.inner.Some?
  {
    var reg := Registration(w'.registerFor, a);
    if w'.registerFor == w.registerFor then Some((w', k))
    else if w.registerFor == {} then
      match CtlAdd(later, w'.inner.value, reg)
      case None => None
      case Some(k') => Some((w'.(adds := w'.adds + 1), k'))
    else
      match CtlMod(later, w'.inner.value, reg)
      case None => None
      case Some(k') => Some((w'.(mods := w'.mods + 1), k'))
  }

  /** The value and the kernel after any poll. */
  function PollEffect(w: AsyncState, k: Kernel, a: Addr, task: Task, interest: Interest, op: Attempt,
                      race: seq<Action>): Option<(AsyncState, Kernel)>
    requires w.inner.Some?
  {
    if Skips(w, interest) then Some((PollSkipped(w, interest), k))
    else if op.GoesAhead? then
      Some((PollDone(w, interest), Lower(k, w.inner.value, op.used)))
    else AfterBlocking(w, PollBlocked(w, interest, task), a, k, Stir(k, race))
  }

  /** The value and the kernel after deregistration. */
  function DeregisterEffect(w: AsyncState, k: Kernel): Option<(AsyncState, Kernel)> {
    if w.registerFor == {} || w.inner.None? then Some((w, k))
    else
      match CtlDel(k, w.inner.value)
      case None => None
      case Some(k') => Some((w.(registerFor := {}, dels := w.dels + 1), k'))
  }

  class Async {
    var inner: Option<Fd>
    const waiter: Waiter
    /** Where the waiter lives in memory. */
    const addr: Addr

    ghost var owner: Task
    ghost var awaited: Mask
    ghost var missed: Mask
    ghost var adds: nat
    ghost var mods: nat
    ghost var dels: nat

    ghost function View(): AsyncState
      reads this, waiter
    {
      AsyncState(inner, waiter.waker, waiter.registerFor, waiter.waitingFor, owner, awaited, missed, adds, mods, dels)
    }

    constructor (fd: Fd, addr: Addr, ghost owner: Task)
      ensures View() == FreshAsync(fd, owner) && this.addr == addr && fresh(waiter)
    {
      inner := Some(fd);
      waiter := new Waiter();
      this.addr := addr;
      this.owner, awaited, missed, adds, mods, dels := owner, {}, {}, 0, 0, 0;
    }

    /** Tells the kernel about the interest, if it is new.  `race` is what the kernel does between
        the update of the waiter and the epoll_ctl call. */
    method EnsureRegistered(reactor: Reactor, fd: Fd, interest: Interest, race: seq<Action>)
      requires KernelOnly(race)
      requires waiter.registerFor == {} <==> fd !in reactor.kernel.interest
      modifies this`adds, this`mods, waiter`registerFor, reactor`kernel
      ensures waiter.registerFor == old(waiter.registerFor) + AsEvents(interest) + EPOLLET
      ensures
        var already := old(waiter.registerFor);
        var reg := Registration(waiter.registerFor, addr);
        if waiter.registerFor == already then
          reactor.kernel == old(reactor.kernel) && adds == old(adds) && mods == old(mods)
        else if already == {} then
          && CtlAdd(Stir(old(reactor.kernel), race), fd, reg) == Some(reactor.kernel)
          && adds == old(adds) + 1 && mods == old(mods)
        else
          && CtlMod(Stir(old(reactor.kernel), race), fd, reg) == Some(reactor.kernel)
          && adds == old(adds) && mods == old(mods) + 1
    {
      var already := waiter.registerFor;
      var registerFor := already + AsEvents(interest) + EPOLLET;
      if registerFor == already {
        return;
      }
      waiter.registerFor := registerFor;
      reactor.kernel := Stir(reactor.kernel, race);
      var ok;
      if already == {} {
        ok := reactor.Add(fd, addr, waiter);
        adds := adds + 1;
      } else {
        ok := reactor.Modify(fd, addr, waiter);
        mods := mods + 1;
      }
      assert ok;
    }

    /** The operation has just failed with WouldBlock: leaves the waker and registers. */
    method Block(reactor: Reactor, task: Task, interest: Interest, race: seq<Action>)
      requires inner.Some? && KernelOnly(race)
      requires waiter.registerFor == {} <==> inner.value !in reactor.kernel.interest
      modifies this`awaited, this`missed, this`adds, this`mods, waiter, reactor`kernel
      ensures inner == old(inner)
      ensures AfterBlocking(old(View()), PollBlocked(old(View()), interest, task), addr,
                            old(reactor.kernel), Stir(old(reactor.kernel), race)) == Some((View(), reactor.kernel))
    {
      waiter.waker := Some(task);
      waiter.waitingFor := waiter.waitingFor + AsEvents(interest);
      awaited, missed := awaited + AsEvents(interest), missed - AsEvents(interest);
      EnsureRegistered(reactor, inner.value, interest, race);
    }

    /** One poll by `task` of an operation that needs `interest`; `op` is what it does if tried. */
    method PollNonblocking(reactor: Reactor, task: Task, interest: Interest, op: Attempt, race: seq<Action>)
      returns (polled: Polled)
      requires inner.Some? && KernelOnly(race)
      requires waiter.registerFor == {} <==> inner.value !in reactor.kernel.interest
      modifies this`awaited, this`missed, this`adds, this`mods, waiter, reactor`kernel
      ensures inner == old(inner)
      ensures polled == Skipped <==> Skips(old(View()), interest)
      ensures polled != Skipped ==> (polled == WouldBlock <==> op == Blocks)
      ensures PollEffect(old(View()), old(reactor.kernel), addr, task, interest, op, race)
           == Some((View(), reactor.kernel))
    {
      if AsEvents(interest) * waiter.waitingFor != {} {
        awaited, missed := awaited + AsEvents(interest), missed + (AsEvents(interest) - waiter.waitingFor);
        return Skipped;
      }
      match op
      case Blocks =>
        Block(reactor, task, interest, race);
        return WouldBlock;
      case GoesAhead(used) =>
        awaited, missed := awaited - AsEvents(interest), missed - AsEvents(interest);
        reactor.kernel := Lower(reactor.kernel, inner.value, used);
        return Finished;
    }

    /** Removes the waiter from the reactor, if it is there. */
    method Deregister(reactor: Reactor)
      requires !reactor.isDispatching
      requires inner.Some? ==> (waiter.registerFor == {} <==> inner.value !in reactor.kernel.interest)
      modifies this`dels, waiter`registerFor, reactor`kernel
      ensures inner == old(inner)
      ensures DeregisterEffect(old(View()), old(reactor.kernel)) == Some((View(), reactor.kernel))
    {
      if waiter.registerFor == {} {
        return;
      }
      match inner
      case None => return;
      case Some(fd) =>
        var ok := reactor.Delete(fd);
        assert ok;
        waiter.registerFor := {};
        dels := dels + 1;
    }

    method TakeInner(reactor: Reactor) returns (fd: Fd)
      requires inner.Some? && !reactor.isDispatching
      requires waiter.registerFor == {} <==> inner.value !in reactor.kernel.interest
      modifies this`inner, this`dels, waiter`registerFor, reactor`kernel
      ensures Some(fd) == old(inner)
      ensures
        var effect := DeregisterEffect(old(View()), old(reactor.kernel));
        effect.Some? && View() == effect.value.0.(inner := None) && reactor.kernel == effect.value.1
    {
      Deregister(reactor);
      fd := inner.value;
      inner := None;
    }
  }

  /** The steps of the protocol that one poll takes. */
  function PollSteps(s: State, a: Addr, interest: Interest, op: Attempt, race: seq<Action>): seq<Action>
    requires Enabled(s, Poll(a, interest, op))
  {
    if ApplyPoll(s, a, interest, op).phase.Registering?
    then [Poll(a, interest, op)] + race + [Register]
    else [Poll(a, interest, op)]
  }

  lemma RegisteredIffInKernel(s: State, a: Addr)
    requires Reachable(s) && !s.phase.Registering? && Pollable(s, a)
    ensures s.asyncs[a].registerFor == {} <==> s.asyncs[a].inner.value !in s.kernel.interest
  {
    RegistrationAgreement(s, a);
  }

  /** A poll that registers, with the kernel acting in between, as a run. */
  lemma BlockingRun(s: State, a: Addr, interest: Interest, op: Attempt, race: seq<Action>)
    requires Reachable(s) && Enabled(s, Poll(a, interest, op)) && KernelOnly(race)
    requires ApplyPoll(s, a, interest, op).phase.Registering?
    ensures
      var acts := [Poll(a, interest, op)] + race + [Register];
      var late := ApplyPoll(s, a, interest, op).(kernel := Stir(s.kernel, race));
      && Enabled(late, Register) && ApplyRegister(late).Next?
      && Schedule(s, acts) && Exec(s, acts) == ApplyRegister(late)
  {
    var mid := ApplyPoll(s, a, interest, op);
    var late := mid.(kernel := Stir(s.kernel, race));
    ReachStep(s, Poll(a, interest, op));
    StirRuns(mid, race);
    ReachRun(mid, race);
    ReachStep(late, Register);
    ExecAppend(mid, race, [Register]);
    assert ([Poll(a, interest, op)] + race + [Register])[1..] == race + [Register];
  }

  /** The state with one value and the kernel replaced. */
  function With(s: State, a: Addr, effect: (AsyncState, Kernel)): State {
    s.(asyncs := s.asyncs[a := effect.0], kernel := effect.1)
  }

  lemma UpdateTwice(m: map<Addr, AsyncState>, a: Addr, x: AsyncState, y: AsyncState)
    ensures m[a := x][a := y] == m[a := y]
  {
  }

  lemma BlockingEffect(s: State, a: Addr, interest: Interest, op: Attempt, later: Kernel)
    requires Enabled(s, Poll(a, interest, op))
    requires ApplyPoll(s, a, interest, op).phase.Registering?
    requires
      var late := ApplyPoll(s, a, interest, op).(kernel := later);
      Enabled(late, Register) && ApplyRegister(late).Next?
    ensures
      var w := s.asyncs[a];
      var effect := AfterBlocking(w, PollBlocked(w, interest, s.phase.task), a, s.kernel, later);
      effect.Some? && ApplyRegister(ApplyPoll(s, a, interest, op).(kernel := later)) == Next(With(s, a, effect.value))
  {
    var w' := PollBlocked(s.asyncs[a], interest, s.phase.task);
    UpdateTwice(s.asyncs, a, w', w'.(adds := w'.adds + 1));
    UpdateTwice(s.asyncs, a, w', w'.(mods := w'.mods + 1));
  }

  /** A poll as a run of the protocol. */
  lemma PollRun(s: State, a: Addr, interest: Interest, op: Attempt, race: seq<Action>)
    requires Reachable(s) && Enabled(s, Poll(a, interest, op)) && KernelOnly(race)
    ensures
      var acts := PollSteps(s, a, interest, op, race);
      var effect := PollEffect(s.asyncs[a], s.kernel, a, s.phase.task, interest, op, race);
      && Schedule(s, acts) && Exec(s, acts).Next? && Reachable(Exec(s, acts).state)
      && effect.Some? && Exec(s, acts).state == With(s, a, effect.value)
  {
    var acts := PollSteps(s, a, interest, op, race);
    if ApplyPoll(s, a, interest, op).phase.Registering? {
      BlockingRun(s, a, interest, op, race);
      BlockingEffect(s, a, interest, op, Stir(s.kernel, race));
    } else {
      ReachStep(s, Poll(a, interest, op));
    }
    ReachRun(s, acts);
  }

  lemma TakeEffect(s: State, a: Addr)
    requires Enabled(s, Take(a)) && Apply(s, Take(a)).Next?
    ensures
      var effect := DeregisterEffect(s.asyncs[a], s.kernel);
      && effect.Some?
      && Apply(s, Take(a)) == Next(With(s, a, (effect.value.0.(inner := None), effect.value.1)))
  {
    var x := DeregisterEffect(s.asyncs[a], s.kernel).value.0;
    UpdateTwice(s.asyncs, a, x, x.(inner := None));
  }

  lemma DropEffect(s: State, a: Addr)
    requires Enabled(s, Drop(a)) && Apply(s, Drop(a)).Next?
    ensures
      var effect := DeregisterEffect(s.asyncs[a], s.kernel);
      && effect.Some?
      && Apply(s, Drop(a)) == Next(s.(asyncs := s.asyncs - {a}, kernel := effect.value.1))
  {
    var x := DeregisterEffect(s.asyncs[a], s.kernel).value.0;
    assert s.asyncs[a := x] - {a} == s.asyncs - {a};
  }

  lemma MapUpdated(m: map<Addr, AsyncState>, m': map<Addr, AsyncState>, a: Addr, w: AsyncState)
    requires forall b :: b in m' <==> b in m || b == a
    requires forall b | b in m' && b != a :: m'[b] == m[b]
    requires m'[a] == w
    ensures m' == m[a := w]
  {
  }

  lemma MapWithout(m: map<Addr, AsyncState>, m': map<Addr, AsyncState>, a: Addr)
    requires forall b :: b in m' <==> b in m && b != a
    requires forall b | b in m' :: m'[b] == m[b]
    ensures m' == m - {a}
  {
  }

  /** No task awaits a bit that its file is ready for, unless a half-skipped poll has missed it. */
  ghost predicate NothingReady(s: State) {
    forall a, b | Pollable(s, a) && b in s.asyncs[a].awaited - s.asyncs[a].missed ::
      b !in Ready(s.kernel, s.asyncs[a].inner.value)
  }

  /** The steps of one dispatch. */
  function DispatchSteps(s: State): seq<Action>
    requires Queueable(s.kernel)
  {
    [Wait] + Repeat(Deliver, |Harvest(s.kernel, s.kernel.queue, BATCH).0|) + [Finish]
  }

  /** The state after one dispatch, all at once. */
  function AfterDispatch(s: State): State
    requires Queueable(s.kernel)
  {
    var (batch, rest) := Harvest(s.kernel, s.kernel.queue, BATCH);
    DeliverAll(s.(kernel := s.kernel.(queue := rest)), batch).(phase := Idle)
  }

  lemma DispatchRun(s: State)
    requires Reachable(s) && Enabled(s, Wait)
    ensures Schedule(s, DispatchSteps(s)) && Exec(s, DispatchSteps(s)) == Next(AfterDispatch(s))
    ensures Reachable(AfterDispatch(s))
  {
    var batch := Harvest(s.kernel, s.kernel.queue, BATCH).0;
    var deliveries := Repeat(Deliver, |batch|);
    var mid := Apply(s, Wait).state;
    ReachStep(s, Wait);
    DeliveriesRun(mid);
    assert DispatchSteps(s)[1..] == deliveries + [Finish];
    ReachRun(s, DispatchSteps(s));
  }

  lemma DeliveriesRun(s: State)
    requires Reachable(s) && s.phase.Dispatching?
    ensures
      var acts := Repeat(Deliver, |s.phase.batch|) + [Finish];
      Schedule(s, acts) && Exec(s, acts) == Next(DeliverAll(s, s.phase.batch).(phase := Idle))
  {
    var acts := Repeat(Deliver, |s.phase.batch|);
    ReachableInv(s);
    BatchIsAFold(s);
    ReachRun(s, acts);
    ReachStep(DeliverAll(s, s.phase.batch), Finish);
    ExecAppend(s, acts, [Finish]);
  }

  lemma DispatchedState(s: State, s': State, batch: seq<Event>)
    requires s.phase.Idle? && s'.phase.Idle?
    requires s'.asyncs.Keys == s.asyncs.Keys
    requires forall a | a in s.asyncs :: s'.asyncs[a] == Delivered(s.asyncs[a], UnionFor(batch, a))
    requires s'.woken == s.woken + WakersOf(s.asyncs, batch)
    requires s'.kernel == s.kernel.(queue := s'.kernel.queue)
    ensures s' == DeliverAll(s.(kernel := s'.kernel), batch).(phase := Idle)
    ensures batch == [] && s'.kernel == s.kernel ==> s' == s
  {
    assert s'.asyncs == DeliverAll(s, batch).asyncs;
    if batch == [] && s'.kernel == s.kernel {
      EmptyBatch(s.(phase := Dispatching([])));
      assert s'.asyncs == s.asyncs;
    }
  }

  /** One thread: its live values, its reactor, and the tasks marked as runnable. */
  class Thread {
    const reactor: Reactor
    var asyncs: map<Addr, Async>
    var woken: set<Task>
    /** The task being run, if any. */
    var running: Option<Task>

    ghost function Waiters(): set<Waiter>
      reads this, asyncs.Values
    {
      set x | x in asyncs.Values :: x.waiter
    }

    /** The state of the protocol that the objects stand for. */
    ghost function Abs(): State
      reads this, reactor, asyncs.Values, Waiters()
    {
      State(map a | a in asyncs :: asyncs[a].View(),
            reactor.kernel,
            if running.Some? then Running(running.value) else Idle,
            woken)
    }

    ghost predicate Shape()
      reads this, reactor, asyncs.Values
    {
      && !reactor.isDispatching
      && (forall a | a in asyncs :: asyncs[a].addr == a)
      && (forall a, b | a in asyncs && b in asyncs && a != b :: asyncs[a].waiter != asyncs[b].waiter)
    }

    ghost predicate Valid()
      reads this, reactor, asyncs.Values, Waiters()
    {
      Shape() && Reachable(Abs())
    }

    constructor ()
      ensures Valid() && Abs() == INITIAL && fresh(reactor) && asyncs == map[]
    {
      reactor := new Reactor();
      asyncs, woken, running := map[], {}, None;
      new;
      InitialReachable();
      assert Abs().asyncs == map[];
    }

    /** One poll of the value at `a` by the running task. */
    method Poll(a: Addr, interest: Interest, op: Attempt, race: seq<Action>) returns (polled: Polled)
      requires Valid() && Enabled(Abs(), Protocol.Poll(a, interest, op)) && KernelOnly(race)
      modifies reactor`kernel, asyncs[a], asyncs[a].waiter
      ensures Valid()
      ensures polled == Skipped <==> Skips(old(Abs()).asyncs[a], interest)
      ensures polled != Skipped ==> (polled == WouldBlock <==> op == Blocks)
      ensures
        var acts := PollSteps(old(Abs()), a, interest, op, race);
        Schedule(old(Abs()), acts) && Exec(old(Abs()), acts) == Next(Abs())
    {
      ghost var s := Abs();
      RegisteredIffInKernel(s, a);
      polled := PollValue(a, interest, op, race);
      PollRun(s, a, interest, op, race);
    }

    method PollValue(a: Addr, interest: Interest, op: Attempt, race: seq<Action>) returns (polled: Polled)
      requires Shape() && running.Some? && a in asyncs && asyncs[a].inner.Some? && KernelOnly(race)
      requires asyncs[a].waiter.registerFor == {} <==> asyncs[a].inner.value !in reactor.kernel.interest
      modifies reactor`kernel, asyncs[a], asyncs[a].waiter
      ensures Shape()
      ensures polled == Skipped <==> Skips(old(Abs()).asyncs[a], interest)
      ensures polled != Skipped ==> (polled == WouldBlock <==> op == Blocks)
      ensures
        var s := old(Abs());
        var effect := PollEffect(s.asyncs[a], s.kernel, a, running.value, interest, op, race);
        effect.Some? && Abs() == With(s, a, effect.value)
    {
      hide PollEffect, Stir, Skips;
      ghost var s := Abs();
      polled := asyncs[a].PollNonblocking(reactor, running.value, interest, op, race);
      MapUpdated(s.asyncs, Abs().asyncs, a, asyncs[a].View());
    }

    /** The kernel acts on its own. */
    method Elapse(acts: seq<Action>)
      requires Valid() && KernelOnly(acts)
      modifies reactor`kernel
      ensures Valid()
      ensures Schedule(old(Abs()), acts) && Exec(old(Abs()), acts) == Next(Abs())
    {
      ghost var s := Abs();
      reactor.kernel := Stir(reactor.kernel, acts);
      StirRuns(s, acts);
      assert Abs().asyncs == s.asyncs;
      ReachRun(s, acts);
    }

    /** The executor picks a woken task. */
    method Start(task: Task)
      requires Valid() && running == None && task in woken
      modifies this`woken, this`running, set x | x in asyncs.Values && x.owner == task :: x
      ensures Valid() && asyncs == old(asyncs)
      ensures Apply(old(Abs()), Protocol.Start(task)) == Next(Abs())
    {
      ReachStep(Abs(), Protocol.Start(task));
      Forget(task);
      Switch(Some(task), woken - {task});
    }

    method Switch(next: Option<Task>, left: set<Task>)
      requires Shape()
      modifies this`woken, this`running
      ensures Shape()
      ensures Abs() == old(Abs()).(woken := left, phase := if next.Some? then Running(next.value) else Idle)
    {
      ghost var s := Abs();
      woken, running := left, next;
      assert Abs().asyncs == s.asyncs;
    }

    /** What the task awaited before no longer counts. */
    ghost method Forget(task: Task)
      requires Shape()
      modifies set x | x in asyncs.Values && x.owner == task :: x
      ensures Shape() && Abs() == old(Abs()).(asyncs := StartTask(old(Abs()), task).asyncs)
    {
      ghost var s := Abs();
      ghost var mine := set x | x in asyncs.Values && x.owner == task;
      forall x | x in mine {
        x.awaited := {};
      }
      forall x | x in mine {
        x.missed := {};
      }
      assert Abs().asyncs == StartTask(s, task).asyncs;
    }

    method Suspend()
      requires Valid() && running.Some?
      modifies this`running, this`woken
      ensures Valid() && Apply(old(Abs()), Protocol.Suspend) == Next(Abs())
    {
      ReachStep(Abs(), Protocol.Suspend);
      Switch(None, woken);
    }

    method Spawn(task: Task)
      requires Valid()
      modifies this`woken, this`running
      ensures Valid() && Apply(old(Abs()), Protocol.Spawn(task)) == Next(Abs())
    {
      ReachStep(Abs(), Protocol.Spawn(task));
      Wake({task});
    }

    /** The running task wraps a file, and pins the value at `a`. */
    method New(a: Addr, fd: Fd)
      requires Valid() && Enabled(Abs(), Protocol.New(a, fd))
      modifies this`asyncs
      ensures Valid() && Apply(old(Abs()), Protocol.New(a, fd)) == Next(Abs())
      ensures asyncs.Keys == old(asyncs).Keys + {a} && fresh(asyncs[a]) && fresh(asyncs[a].waiter)
      ensures forall b | b in old(asyncs) :: asyncs[b] == old(asyncs)[b]
    {
      ghost var s := Abs();
      var x := new Async(fd, a, running.value);
      asyncs := asyncs[a := x];
      ReachStep(s, Protocol.New(a, fd));
      MapUpdated(s.asyncs, Abs().asyncs, a, FreshAsync(fd, running.value));
    }

    /** One dispatch of the reactor, from the executor's loop.  It never sleeps over available
        work: when it does not return and no task is woken, no task awaits a bit that its file
        is ready for, unless a half-skipped poll has missed it. */
    method Dispatch(interrupted: bool) returns (result: Dispatched)
      requires Valid() && running == None
      modifies this`woken, this`running, reactor, Waiters()`waitingFor
      ensures Valid()
      ensures result == Interrupted <==> interrupted
      ensures result != Done ==> Abs() == old(Abs())
      ensures result == Done ==>
        && Enabled(old(Abs()), Wait)
        && Schedule(old(Abs()), DispatchSteps(old(Abs()))) && Exec(old(Abs()), DispatchSteps(old(Abs()))) == Next(Abs())
      ensures result == Asleep ==> !Enabled(Abs(), Wait)
      ensures result == Asleep && woken == {} ==> NothingReady(Abs())
    {
      ghost var s := Abs();
      LivePointers(s);
      result := DispatchValues(interrupted);
      if result == Done {
        DispatchRun(s);
      } else if result == Asleep && woken == {} {
        forall a, b | Pollable(s, a) && b in s.asyncs[a].awaited - s.asyncs[a].missed
          ensures b !in Ready(s.kernel, s.asyncs[a].inner.value)
        {
          if b in Ready(s.kernel, s.asyncs[a].inner.value) {
            NeverSleepsOverWork(s, a, b);
          }
        }
      }
    }

    method DispatchValues(interrupted: bool) returns (result: Dispatched)
      requires Shape() && running == None && Queueable(reactor.kernel)
      requires forall fd | fd in reactor.kernel.interest :: reactor.kernel.interest[fd].data in asyncs
      modifies this`woken, this`running, reactor, Waiters()`waitingFor
      ensures Shape()
      ensures result == Interrupted <==> interrupted
      ensures result != Done ==> Abs() == old(Abs())
      ensures result == Done ==> Enabled(old(Abs()), Wait) && Abs() == AfterDispatch(old(Abs()))
      ensures result == Asleep ==> !Enabled(Abs(), Wait)
    {
      ghost var s := Abs();
      ghost var batch;
      var more;
      result, more, batch := DispatchMemory(Memory(), interrupted);
      Wake(more);
      DispatchedState(s, Abs(), batch);
    }

    /** Wakers mark their tasks as runnable. */
    method Wake(tasks: set<Task>)
      requires Shape()
      modifies this`woken, this`running
      ensures Shape() && Abs() == old(Abs()).(woken := old(woken) + tasks)
    {
      Switch(running, woken + tasks);
    }

    /** The live waiters by address. */
    function Memory(): (memory: Memory)
      reads this, asyncs.Values
      ensures memory.Keys == asyncs.Keys
      ensures forall w | w in memory.Values :: w in Waiters()
    {
      map a | a in asyncs :: asyncs[a].waiter
    }

    method DispatchMemory(memory: Memory, interrupted: bool)
      returns (result: Dispatched, more: set<Task>, ghost batch: seq<Event>)
      requires Shape() && Queueable(reactor.kernel)
      requires memory.Keys == asyncs.Keys && forall a | a in asyncs :: memory[a] == asyncs[a].waiter
      requires forall fd | fd in reactor.kernel.interest :: reactor.kernel.interest[fd].data in asyncs
      modifies reactor, memory.Values`waitingFor
      ensures Shape()
      ensures result == Interrupted <==> interrupted
      ensures result == Done ==>
        batch != [] && (batch, reactor.kernel.queue) == Harvest(old(reactor.kernel), old(reactor.kernel).queue, BATCH)
      ensures result == Asleep ==> Harvest(old(reactor.kernel), old(reactor.kernel).queue, BATCH).0 == []
      ensures result != Done ==> batch == [] && reactor.kernel == old(reactor.kernel)
      ensures reactor.kernel == old(reactor.kernel).(queue := reactor.kernel.queue)
      ensures more == WakersOf(old(Abs()).asyncs, batch)
      ensures forall a | a in asyncs :: asyncs[a].View() == Delivered(old(asyncs[a].View()), UnionFor(batch, a))
    {
      hide Harvest, UnionFor, WakersOf;
      ghost var s := Abs();
      result, more, batch := reactor.Dispatch(memory, interrupted);
      WakersAgree(s, memory, batch);
    }

    lemma WakersAgree(s: State, memory: Memory, batch: seq<Event>)
      requires memory.Keys == s.asyncs.Keys
      requires forall a | a in memory :: memory[a].waker == s.asyncs[a].waker
      ensures Reactor.Wakers(memory, batch) == WakersOf(s.asyncs, batch)
    {
    }

    /** Extracts the file of the value at `a`. */
    method Take(a: Addr) returns (fd: Fd)
      requires Valid() && Enabled(Abs(), Protocol.Take(a))
      modifies reactor`kernel, asyncs[a], asyncs[a].waiter
      ensures Valid() && Some(fd) == old(asyncs[a].inner)
      ensures Apply(old(Abs()), Protocol.Take(a)) == Next(Abs())
    {
      ghost var s := Abs();
      RegisteredIffInKernel(s, a);
      fd := TakeValue(a);
      ReachStep(s, Protocol.Take(a));
      TakeEffect(s, a);
    }

    method TakeValue(a: Addr) returns (fd: Fd)
      requires Shape() && a in asyncs && asyncs[a].inner.Some?
      requires asyncs[a].waiter.registerFor == {} <==> asyncs[a].inner.value !in reactor.kernel.interest
      modifies reactor`kernel, asyncs[a], asyncs[a].waiter
      ensures Shape() && Some(fd) == old(asyncs[a].inner)
      ensures
        var s := old(Abs());
        var effect := DeregisterEffect(s.asyncs[a], s.kernel);
        effect.Some? && Abs() == With(s, a, (effect.value.0.(inner := None), effect.value.1))
    {
      ghost var s := Abs();
      fd := asyncs[a].TakeInner(reactor);
      MapUpdated(s.asyncs, Abs().asyncs, a, asyncs[a].View());
    }

    /** The value at `a` goes away; its memory may be used again. */
    method Drop(a: Addr)
      requires Valid() && Enabled(Abs(), Protocol.Drop(a))
      modifies this`asyncs, reactor`kernel, asyncs[a], asyncs[a].waiter
      ensures Valid() && asyncs == old(asyncs) - {a}
      ensures Apply(old(Abs()), Protocol.Drop(a)) == Next(Abs())
    {
      ghost var s := Abs();
      if asyncs[a].inner.Some? {
        RegisteredIffInKernel(s, a);
      }
      ReachStep(s, Protocol.Drop(a));
      DropEffect(s, a);
      Discard(a);
    }

    method Discard(a: Addr)
      requires Shape() && a in asyncs
      requires asyncs[a].inner.Some? ==>
        (asyncs[a].waiter.registerFor == {} <==> asyncs[a].inner.value !in reactor.kernel.interest)
      modifies this`asyncs, reactor`kernel, asyncs[a], asyncs[a].waiter
      ensures Shape() && asyncs == old(asyncs) - {a}
      ensures
        var s := old(Abs());
        var effect := DeregisterEffect(s.asyncs[a], s.kernel);
        effect.Some? && Abs() == s.(asyncs := s.asyncs - {a}, kernel := effect.value.1)
    {
      ghost var s := Abs();
      asyncs[a].Deregister(reactor);
      asyncs := asyncs - {a};
      MapWithout(s.asyncs, Abs().asyncs, a);
    }
  }
}
