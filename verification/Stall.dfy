/** Where a skipped poll loses track of readiness: when the value waits for some but not all of the
    bits of the poll's interest, which can only be `ReadWrite`.  Runs without such a poll never sleep
    over available work; every such poll can be followed by a sleep over available work. */
module ReadWriteStall {
  import opened Masks
  import opened Wrappers
  import opened Epoll
  import opened Protocol
  import opened Invariant
  import opened Readiness

  /** If the step is a skipped poll, every bit of its interest is waited for. */
  predicate FullSkip(s: State, act: Action) {
    act.Poll? && Pollable(s, act.addr) && Skips(s.asyncs[act.addr], act.interest) ==>
      AsEvents(act.interest) <= s.asyncs[act.addr].waitingFor
  }

  predicate FullSkips(s: State, acts: seq<Action>)
    requires Schedule(s, acts)
    decreases acts
  {
    acts == [] ||
    (FullSkip(s, acts[0]) &&
     (Apply(s, acts[0]).Next? ==> FullSkips(Apply(s, acts[0]).state, acts[1..])))
  }

  /** Polls for reading and polls for writing are always skipped in full. */
  lemma SingleInterest(s: State, act: Action)
    requires act.Poll? ==> !act.interest.ReadWrite?
    ensures FullSkip(s, act)
  {
  }

  ghost predicate NothingMissed(s: State) {
    forall a | a in s.asyncs :: s.asyncs[a].missed == {}
  }

  lemma FullSkipMissesNothing(s: State, act: Action)
    requires Enabled(s, act) && Apply(s, act).Next? && FullSkip(s, act) && NothingMissed(s)
    ensures NothingMissed(Apply(s, act).state)
  {
    if act.Poll? && Skips(s.asyncs[act.addr], act.interest) {
      assert AsEvents(act.interest) - s.asyncs[act.addr].waitingFor == {};
    }
  }

  lemma {:induction false} FullSkipsMissNothing(s: State, acts: seq<Action>)
    requires Schedule(s, acts) && FullSkips(s, acts) && NothingMissed(s)
    ensures Exec(s, acts).Next? ==> NothingMissed(Exec(s, acts).state)
    decreases acts
  {
    if acts != [] && Apply(s, acts[0]).Next? {
      FullSkipMissesNothing(s, acts[0]);
      FullSkipsMissNothing(Apply(s, acts[0]).state, acts[1..]);
    }
  }

  /** Nobody runs and nobody is woken, and epoll_wait has nothing to report. */
  predicate Asleep(s: State) {
    s.phase.Idle? && s.woken == {} && !Enabled(s, Wait)
  }

  /** Every task is suspended and none is woken, epoll_wait has nothing to report, and yet some
      task awaits the bit and its file is ready for it. */
  ghost predicate SleepsOver(s: State, a: Addr, b: Bit) {
    && Asleep(s)
    && Pollable(s, a) && b in s.asyncs[a].awaited && b in Ready(s.kernel, s.asyncs[a].inner.value)
  }

  /** A run that skips polls only in full never sleeps over available work, whatever the interests. */
  lemma FullSkipsNeverStall(acts: seq<Action>, a: Addr, b: Bit)
    requires Schedule(INITIAL, acts) && FullSkips(INITIAL, acts)
    ensures Exec(INITIAL, acts).Next? && !SleepsOver(Exec(INITIAL, acts).state, a, b)
  {
    RunsNeverGoWrong(acts);
    FullSkipsMissNothing(INITIAL, acts);
    var s := Exec(INITIAL, acts).state;
    if SleepsOver(s, a, b) {
      NeverSleepsOverWork(s, a, b);
    }
  }

  lemma {:induction false} SingleInterests(s: State, acts: seq<Action>)
    requires Schedule(s, acts) && forall act | act in acts :: act.Poll? ==> !act.interest.ReadWrite?
    ensures FullSkips(s, acts)
    decreases |acts|
  {
    if acts != [] {
      assert acts[0] in acts;
      SingleInterest(s, acts[0]);
      if Apply(s, acts[0]).Next? {
        SingleInterests(Apply(s, acts[0]).state, acts[1..]);
      }
    }
  }

  /** A program that polls only for reading or only for writing never sleeps over available work. */
  lemma SingleInterestsNeverStall(acts: seq<Action>, a: Addr, b: Bit)
    requires Schedule(INITIAL, acts) && forall act | act in acts :: act.Poll? ==> !act.interest.ReadWrite?
    ensures FullSkips(INITIAL, acts)
    ensures Exec(INITIAL, acts).Next? && !SleepsOver(Exec(INITIAL, acts).state, a, b)
  {
    SingleInterests(INITIAL, acts);
    FullSkipsNeverStall(acts, a, b);
  }

  lemma {:induction false} NothingHarvested(k: Kernel, queue: seq<Fd>, max: nat, fd: Fd)
    requires forall x | x in queue :: x in k.interest
    requires max > 0 && Harvest(k, queue, max).0 == [] && fd in queue
    ensures Reported(k, fd) == {}
    decreases |queue|
  {
    if queue[0] != fd {
      NothingHarvested(k, queue[1..], max, fd);
    }
  }

  /** epoll_wait blocks exactly when every file on the ready list has nothing to report. */
  lemma WaitBlocksExactly(s: State)
    requires s.phase.Idle? && Queueable(s.kernel)
    ensures !Enabled(s, Wait) <==> forall fd | fd in s.kernel.queue :: Reported(s.kernel, fd) == {}
  {
    hide Harvest;
    if forall fd | fd in s.kernel.queue :: Reported(s.kernel, fd) == {} {
      HarvestNothing(s.kernel, s.kernel.queue, BATCH);
    } else if !Enabled(s, Wait) {
      forall fd | fd in s.kernel.queue
        ensures Reported(s.kernel, fd) == {}
      {
        NothingHarvested(s.kernel, s.kernel.queue, BATCH, fd);
      }
    }
  }

  lemma AsleepStep(s: State, act: Action)
    requires Reachable(s) && Asleep(s) && Enabled(s, act) && !act.Edge? && !act.Spawn?
    ensures Apply(s, act).Next? && Asleep(Apply(s, act).state)
  {
    hide Harvest, Reachable;
    ReachStep(s, act);
    var s' := Apply(s, act).state;
    QueueOf(s);
    QueueOf(s');
    WaitBlocksExactly(s);
    forall fd | fd in s'.kernel.queue
      ensures Reported(s'.kernel, fd) == {}
    {
      StillQueued(s, act, fd);
    }
    WaitBlocksExactly(s');
  }

  /** Without an edge the ready list of an idle program gains nothing. */
  lemma StillQueued(s: State, act: Action, fd: Fd)
    requires s.phase.Idle? && Enabled(s, act) && Apply(s, act).Next?
    requires !act.Edge? && !act.Spawn? && !act.Start? && !act.Wait?
    requires fd in Apply(s, act).state.kernel.queue && Queueable(s.kernel) && Queueable(Apply(s, act).state.kernel)
    ensures fd in s.kernel.queue
    ensures Reported(Apply(s, act).state.kernel, fd) <= Reported(s.kernel, fd)
  {
    if (act.Take? || act.Drop?) && s.asyncs[act.addr].inner.Some? {
      DequeueMembers(s.kernel.queue, s.asyncs[act.addr].inner.value);
    }
  }

  /** A sleep is for good: until the kernel makes some file ready or a new task is spawned, no task is
      ever woken and epoll_wait has nothing to report, whatever else may happen. */
  lemma {:induction false} AsleepForGood(s: State, acts: seq<Action>)
    requires Reachable(s) && Asleep(s) && Schedule(s, acts)
    requires forall act | act in acts :: !act.Edge? && !act.Spawn?
    ensures Exec(s, acts).Next? && Asleep(Exec(s, acts).state)
    decreases |acts|
  {
    if acts != [] {
      assert acts[0] in acts;
      AsleepStep(s, acts[0]);
      ReachStep(s, acts[0]);
      AsleepForGood(Apply(s, acts[0]).state, acts[1..]);
    }
  }

  // ----- the converse -----

  /** Some schedule leads from one state to the other. */
  ghost predicate Leads(s: State, s': State) {
    exists acts :: Schedule(s, acts) && Exec(s, acts) == Next(s')
  }

  lemma LeadsNowhere(s: State)
    ensures Leads(s, s)
  {
    assert Schedule(s, []) && Exec(s, []) == Next(s);
  }

  lemma LeadsOn(s: State, mid: State, acts: seq<Action>)
    requires Leads(s, mid) && Schedule(mid, acts) && Exec(mid, acts).Next?
    ensures Leads(s, Exec(mid, acts).state)
  {
    var before :| Schedule(s, before) && Exec(s, before) == Next(mid);
    ExecAppend(s, before, acts);
  }

  lemma Onward(s: State, mid: State, act: Action) returns (s': State)
    requires Reachable(mid) && Leads(s, mid) && Enabled(mid, act)
    ensures Apply(mid, act) == Next(s') && Reachable(s') && Leads(s, s')
  {
    ReachStep(mid, act);
    LeadsOn(s, mid, [act]);
    s' := Apply(mid, act).state;
  }

  /** A poll of the value for `interest` is skipped, though `b` of it is not waited for. */
  ghost predicate Half(s: State, a: Addr, fd: Fd, interest: Interest, b: Bit) {
    && a in s.asyncs && s.asyncs[a].inner == Some(fd)
    && Skips(s.asyncs[a], interest)
    && b in AsEvents(interest) - s.asyncs[a].waitingFor
  }

  /** The kernel can make every file on the ready list unready. */
  lemma {:induction false} Quieten(s: State, mid: State, queue: seq<Fd>) returns (s': State)
    requires Reachable(mid) && Leads(s, mid)
    ensures Reachable(s') && Leads(s, s')
    ensures s' == mid.(kernel := mid.kernel.(ready := s'.kernel.ready))
    ensures forall x :: Ready(s'.kernel, x) == if x in queue then {} else Ready(mid.kernel, x)
    decreases queue
  {
    if queue == [] {
      s' := mid;
    } else {
      var next := Onward(s, mid, Clear(queue[0], Ready(mid.kernel, queue[0])));
      s' := Quieten(s, next, queue[1..]);
    }
  }

  /** Of a ready list with one ready file, epoll_wait reports that file and takes off all. */
  lemma {:induction false} HarvestOnly(k: Kernel, queue: seq<Fd>, max: nat, fd: Fd)
    requires forall x | x in queue :: x in k.interest
    requires NoDuplicates(queue) && max > 1 && fd in queue && Reported(k, fd) != {}
    requires forall x | x in queue && x != fd :: Reported(k, x) == {}
    ensures Harvest(k, queue, max) == ([Event(Reported(k, fd), k.interest[fd].data)], [])
  {
    if queue[0] == fd {
      assert forall x | x in queue[1..] :: x in queue && x != fd;
      HarvestNothing(k, queue[1..], max - 1);
      var e := Event(Reported(k, fd), k.interest[fd].data);
      assert [e] + Harvest(k, queue[1..], max - 1).0 == [e];
    } else {
      assert fd in queue[1..];
      HarvestOnly(k, queue[1..], max, fd);
    }
  }

  lemma {:induction false} HarvestNothing(k: Kernel, queue: seq<Fd>, max: nat)
    requires forall x | x in queue :: x in k.interest && Reported(k, x) == {}
    ensures Harvest(k, queue, max).0 == []
    ensures max > 0 ==> Harvest(k, queue, max).1 == []
  {
    if queue != [] {
      HarvestNothing(k, queue[1..], max);
    }
  }

  /** The state is between runs with an empty ready list, the file ready for `b`, and a poll for
      `interest` still skipped without waiting for `b`. */
  ghost predicate Poised(s: State, a: Addr, fd: Fd, interest: Interest, b: Bit) {
    && Reachable(s) && s.phase.Idle? && Half(s, a, fd, interest, b)
    && s.kernel.queue == [] && b in Ready(s.kernel, fd)
  }

  /** A hang-up of the file, which lifts no bit, is delivered along with `b`; the owner is woken. */
  lemma HangUp(s: State, mid: State, a: Addr, fd: Fd, interest: Interest, b: Bit) returns (s': State)
    requires Reachable(mid) && Leads(s, mid) && mid.phase.Idle? && Half(mid, a, fd, interest, b)
    requires Ready(mid.kernel, fd) == {} && forall x | x in mid.kernel.queue :: Ready(mid.kernel, x) == {}
    ensures Leads(s, s') && Poised(s', a, fd, interest, b)
    ensures s'.asyncs[a].owner in s'.woken
  {
    hide Reachable, Leads;
    WaiterOf(mid, a);
    RegistrationAgreement(mid, a);
    s' := Onward(s, mid, Edge(fd, {b} + EPOLLHUP));
    RaisedAlone(mid, s', a, fd, b);
    s' := Onward(s, s', Wait);
    s' := DeliverOne(s, s', a);
  }

  lemma DeliverOne(s: State, mid: State, a: Addr) returns (s': State)
    requires Reachable(mid) && Leads(s, mid) && a in mid.asyncs
    requires mid.phase.Dispatching? && |mid.phase.batch| == 1 && mid.phase.batch[0].data == a
    ensures Reachable(s') && Leads(s, s')
    ensures s' == mid.(asyncs := mid.asyncs[a := Delivered(mid.asyncs[a], mid.phase.batch[0].events)],
                       woken := mid.woken + Waking(mid.asyncs[a].waker), phase := Idle)
  {
    s' := Onward(s, mid, Deliver);
    s' := Onward(s, s', Finish);
  }

  lemma WaiterOf(s: State, a: Addr)
    requires Reachable(s) && Pollable(s, a) && s.asyncs[a].waitingFor != {}
    ensures s.asyncs[a].waker == Some(s.asyncs[a].owner)
    ensures s.asyncs[a].waitingFor <= EPOLLIN + EPOLLOUT
  {
    ReachableInv(s);
    assert LocalInv(s.asyncs[a], KernelMask(s, a), s.woken);
  }

  lemma RaisedAlone(s: State, s': State, a: Addr, fd: Fd, b: Bit)
    requires Reachable(s') && s.phase.Idle? && Apply(s, Edge(fd, {b} + EPOLLHUP)) == Next(s')
    requires fd in s.kernel.interest && s.kernel.interest[fd].data == a
    requires Ready(s.kernel, fd) == {} && forall x | x in s.kernel.queue :: Ready(s.kernel, x) == {}
    ensures Enabled(s', Wait) && b in Ready(s'.kernel, fd)
    ensures exists events ::
      && events <= {b} + EPOLLHUP
      && Apply(s', Wait) == Next(s'.(kernel := s'.kernel.(queue := []), phase := Dispatching([Event(events, a)])))
  {
    QueueOf(s');
    RaisedFile(s.kernel, fd, {b} + EPOLLHUP);
  }

  lemma QueueOf(s: State)
    requires Reachable(s)
    ensures Queueable(s.kernel) && NoDuplicates(s.kernel.queue)
  {
    ReachableInv(s);
  }

  lemma RaisedFile(k: Kernel, fd: Fd, bits: Mask)
    requires fd in k.interest && EPOLLHUP <= bits
    requires Ready(k, fd) == {} && forall x | x in k.queue :: Ready(k, x) == {}
    requires Queueable(RaiseEdge(k, fd, bits)) && NoDuplicates(RaiseEdge(k, fd, bits).queue)
    ensures
      var k' := RaiseEdge(k, fd, bits);
      && Ready(k', fd) == bits && Reported(k', fd) <= bits
      && Harvest(k', k'.queue, BATCH) == ([Event(Reported(k', fd), k.interest[fd].data)], [])
  {
    var k' := RaiseEdge(k, fd, bits);
    assert 4 in bits * (k.interest[fd].mask + EPOLLERR + EPOLLHUP);
    assert Ready(k', fd) == bits && 4 in Reported(k', fd);
    HarvestOnly(k', k'.queue, BATCH, fd);
  }

  /** All woken tasks but the owner run, and do nothing. */
  lemma {:induction false} OthersRun(s: State, mid: State, a: Addr, fd: Fd, interest: Interest, b: Bit)
    returns (s': State)
    requires Leads(s, mid) && Poised(mid, a, fd, interest, b) && mid.asyncs[a].owner in mid.woken
    ensures Leads(s, s') && Poised(s', a, fd, interest, b)
    ensures s'.woken == {s'.asyncs[a].owner}
    decreases mid.woken
  {
    var owner := mid.asyncs[a].owner;
    if task :| task in mid.woken && task != owner {
      var next := Onward(s, mid, Start(task));
      next := Onward(s, next, Suspend);
      s' := OthersRun(s, next, a, fd, interest, b);
    } else {
      s' := mid;
    }
  }

  /** The owner runs, has its poll skipped once more, and suspends. */
  lemma OwnerRuns(s: State, mid: State, a: Addr, fd: Fd, interest: Interest, b: Bit) returns (s': State)
    requires Leads(s, mid) && Poised(mid, a, fd, interest, b) && mid.woken == {mid.asyncs[a].owner}
    ensures Leads(s, s') && SleepsOver(s', a, b)
    ensures s'.asyncs[a].inner == Some(fd) && fd !in s'.kernel.queue && !Blocked(s'.kernel, fd, interest)
  {
    hide Reachable, Leads, Harvest;
    s' := Onward(s, mid, Start(mid.asyncs[a].owner));
    s' := Onward(s, s', Poll(a, interest, Blocks));
    s' := Onward(s, s', Suspend);
    WaitBlocksExactly(s');
    assert b in Ready(s'.kernel, fd) * AsEvents(interest);
  }

  /** Every poll skipped without waiting for all of its interest can end in a sleep over available
      work: from any reachable state, there is a continuation after which nothing will ever wake
      the task on its own, though the operation would go ahead. */
  lemma HalfSkipCanStall(s: State, a: Addr, interest: Interest, op: Attempt, b: Bit)
    returns (acts: seq<Action>, s': State)
    requires Reachable(s) && Enabled(s, Poll(a, interest, op)) && Skips(s.asyncs[a], interest)
    requires b in AsEvents(interest) - s.asyncs[a].waitingFor
    ensures Schedule(s, [Poll(a, interest, op)] + acts) && Exec(s, [Poll(a, interest, op)] + acts) == Next(s')
    ensures SleepsOver(s', a, b)
    ensures
      var fd := s.asyncs[a].inner.value;
      s'.asyncs[a].inner == Some(fd) && fd !in s'.kernel.queue && !Blocked(s'.kernel, fd, interest)
  {
    var fd, poll := s.asyncs[a].inner.value, Poll(a, interest, op);
    ReachStep(s, poll);
    var polled := Apply(s, poll).state;
    LeadsNowhere(polled);
    s' := Onward(polled, polled, Suspend);
    s' := Quieten(polled, s', s'.kernel.queue + [fd]);
    s' := HangUp(polled, s', a, fd, interest, b);
    s' := OthersRun(polled, s', a, fd, interest, b);
    s' := OwnerRuns(polled, s', a, fd, interest, b);
    acts :| Schedule(polled, acts) && Exec(polled, acts) == Next(s');
    assert ([poll] + acts)[1..] == acts;
  }

  lemma {:induction false} FirstHalfSkip(s: State, acts: seq<Action>) returns (i: nat)
    requires Reachable(s) && Schedule(s, acts) && !FullSkips(s, acts)
    ensures i < |acts| && Schedule(s, acts[..i]) && Exec(s, acts[..i]).Next?
    ensures
      var mid := Exec(s, acts[..i]).state;
      Reachable(mid) && Enabled(mid, acts[i]) && !FullSkip(mid, acts[i])
    decreases acts
  {
    if !FullSkip(s, acts[0]) {
      i := 0;
      assert acts[..0] == [];
    } else {
      ReachStep(s, acts[0]);
      var j := FirstHalfSkip(Apply(s, acts[0]).state, acts[1..]);
      i := j + 1;
      assert acts[..i][1..] == acts[1..][..j];
    }
  }

  /** A run that does not skip polls only in full goes through a poll that can be followed by a sleep
      over available work. */
  lemma HalfSkipsStall(acts: seq<Action>) returns (i: nat, more: seq<Action>, s': State, a: Addr, b: Bit)
    requires Schedule(INITIAL, acts) && !FullSkips(INITIAL, acts)
    ensures i < |acts| && acts[i].Poll? && acts[i].addr == a && b in AsEvents(acts[i].interest)
    ensures Schedule(INITIAL, acts[..i] + ([acts[i]] + more))
    ensures Exec(INITIAL, acts[..i] + ([acts[i]] + more)) == Next(s')
    ensures SleepsOver(s', a, b) && !Blocked(s'.kernel, s'.asyncs[a].inner.value, acts[i].interest)
  {
    InitialReachable();
    i := FirstHalfSkip(INITIAL, acts);
    var mid := Exec(INITIAL, acts[..i]).state;
    a := acts[i].addr;
    b :| b in AsEvents(acts[i].interest) && b !in mid.asyncs[a].waitingFor;
    more, s' := HalfSkipCanStall(mid, a, acts[i].interest, acts[i].op, b);
    ExecAppend(INITIAL, acts[..i], [acts[i]] + more);
  }

  // ----- one such run -----

  /** One value, polled once with `ReadWrite` while its file was not ready. */
  const BOTH: Mask := EPOLLIN + EPOLLOUT + EPOLLET

  const POLLED_BOTH := AsyncState(Some(0), Some(7), BOTH, EPOLLIN + EPOLLOUT, 7, EPOLLIN + EPOLLOUT, {}, 1, 0, 0)

  const SUSPENDED_BOTH := State(map[0 := POLLED_BOTH], Kernel(map[0 := Registration(BOTH, 0)], map[], []), Idle, {})

  const REGISTERING_BOTH := State(map[0 := POLLED_BOTH.(adds := 0)], EMPTY, Registering(7, 0, {}), {})

  lemma PollFresh(s: State)
    requires s == State(map[0 := FreshAsync(0, 7)], EMPTY, Running(7), {})
    ensures Enabled(s, Poll(0, ReadWrite, Blocks)) && ApplyPoll(s, 0, ReadWrite, Blocks) == REGISTERING_BOTH
  {
    assert {} + AsEvents(ReadWrite) + EPOLLET == BOTH;
    assert {} - AsEvents(ReadWrite) == {};
  }

  lemma RegisteringBothReachable()
    ensures Reachable(REGISTERING_BOTH)
  {
    InitialReachable();
    var s := Extend(INITIAL, Spawn(7));
    s := Extend(s, Start(7));
    s := Extend(s, New(0, 0));
    PollFresh(s);
    s := Extend(s, Poll(0, ReadWrite, Blocks));
  }

  lemma SuspendedBothReachable()
    ensures Reachable(SUSPENDED_BOTH)
  {
    RegisteringBothReachable();
    var s := Extend(REGISTERING_BOTH, Register);
    s := Extend(s, Suspend);
    assert s == SUSPENDED_BOTH;
  }

  const WOKEN_BOTH := State(map[0 := POLLED_BOTH.(waitingFor := EPOLLOUT)],
                            SUSPENDED_BOTH.kernel.(ready := map[0 := EPOLLIN]), Idle, {7})

  lemma HarvestOne(k: Kernel, fd: Fd)
    requires fd in k.interest && Reported(k, fd) != {}
    ensures Harvest(k, [fd], BATCH) == ([Event(Reported(k, fd), k.interest[fd].data)], [])
  {
    assert [fd][1..] == [];
    var e := Event(Reported(k, fd), k.interest[fd].data);
    assert [e] + Harvest(k, [], BATCH - 1).0 == [e];
  }

  lemma WaitOne(s: State, fd: Fd)
    requires s.phase.Idle? && s.kernel.queue == [fd] && fd in s.kernel.interest && Reported(s.kernel, fd) != {}
    ensures Enabled(s, Wait)
    ensures
      var e := Event(Reported(s.kernel, fd), s.kernel.interest[fd].data);
      Apply(s, Wait) == Next(s.(kernel := s.kernel.(queue := []), phase := Dispatching([e])))
  {
    HarvestOne(s.kernel, fd);
  }

  /** A quiet file becomes ready for something it is registered for, and the dispatch after that
      delivers it. */
  lemma WakeOne(s: State, a: Addr, fd: Fd, bits: Mask) returns (s': State)
    requires Reachable(s) && s.phase.Idle? && s.kernel.queue == [] && fd in s.kernel.interest
    requires a in s.asyncs && s.kernel.interest[fd].data == a
    requires Ready(s.kernel, fd) == {} && bits != {} && bits <= s.kernel.interest[fd].mask
    ensures Reachable(s')
    ensures s' == State(s.asyncs[a := Delivered(s.asyncs[a], bits)], s.kernel.(ready := s.kernel.ready[fd := bits]),
                        Idle, s.woken + Waking(s.asyncs[a].waker))
  {
    s' := Extend(s, Edge(fd, bits));
    assert bits * (s.kernel.interest[fd].mask + EPOLLERR + EPOLLHUP) == bits;
    assert Ready(s'.kernel, fd) == bits && Reported(s'.kernel, fd) == bits && s'.kernel.queue == [fd];
    WaitOne(s', fd);
    s' := Extend(s', Wait);
    s' := Extend(s', Deliver);
    assert [Event(bits, a)][1..] == [];
    s' := Extend(s', Finish);
  }

  lemma WokenBothReachable()
    ensures Reachable(WOKEN_BOTH)
  {
    SuspendedBothReachable();
    var s := WakeOne(SUSPENDED_BOTH, 0, 0, EPOLLIN);
    assert EPOLLIN + EPOLLOUT - EPOLLIN == EPOLLOUT;
    assert s == WOKEN_BOTH;
  }

  const AGAIN_BOTH :=
    State(map[0 := POLLED_BOTH.(waitingFor := EPOLLOUT, awaited := {})], WOKEN_BOTH.kernel, Running(7), {})

  const STALLED_BOTH :=
    State(map[0 := POLLED_BOTH.(waitingFor := EPOLLOUT, missed := EPOLLIN)], WOKEN_BOTH.kernel, Running(7), {})

  lemma StartsAgain()
    ensures Enabled(WOKEN_BOTH, Start(7)) && Apply(WOKEN_BOTH, Start(7)) == Next(AGAIN_BOTH)
  {
    assert {7} - {7} == {};
  }

  lemma SkipsAgain()
    ensures Enabled(AGAIN_BOTH, Poll(0, ReadWrite, Blocks))
    ensures ApplyPoll(AGAIN_BOTH, 0, ReadWrite, Blocks) == STALLED_BOTH
  {
    var w := AGAIN_BOTH.asyncs[0];
    assert OUT_BIT in AsEvents(ReadWrite) * w.waitingFor;
    assert {} + AsEvents(ReadWrite) == EPOLLIN + EPOLLOUT;
    assert {} + (AsEvents(ReadWrite) - EPOLLOUT) == EPOLLIN;
  }

  lemma NothingQueued(s: State)
    requires s.kernel.queue == []
    ensures !Enabled(s, Wait)
  {
  }

  lemma SleepsAgain()
    ensures SleepsOver(STALLED_BOTH.(phase := Idle), 0, IN_BIT)
    ensures !Blocked(STALLED_BOTH.kernel, 0, ReadWrite)
  {
    hide Enabled, Harvest;
    NothingQueued(STALLED_BOTH.(phase := Idle));
    assert IN_BIT in Ready(STALLED_BOTH.kernel, 0) * AsEvents(ReadWrite);
  }

  /** One such run, in full: the value registers for both bits, the file becomes readable, the task
      is woken and polls again.  That poll is skipped on account of the writing bit, and the task
      is never woken, though the file is readable. */
  lemma ReadWriteStalls() returns (s: State)
    ensures Reachable(s) && SleepsOver(s, 0, IN_BIT)
    ensures s.asyncs[0].awaited == AsEvents(ReadWrite) && s.asyncs[0].waitingFor == EPOLLOUT
    ensures s.kernel.queue == [] && !Blocked(s.kernel, s.asyncs[0].inner.value, ReadWrite)
  {
    hide Reachable, Apply, Enabled;
    WokenBothReachable();
    StartsAgain();
    s := Extend(WOKEN_BOTH, Start(7));
    SkipsAgain();
    PollApplies(s);
    s := Extend(s, Poll(0, ReadWrite, Blocks));
    SuspendApplies(s);
    s := Extend(s, Suspend);
    SleepsAgain();
  }

  lemma PollApplies(s: State)
    requires Enabled(s, Poll(0, ReadWrite, Blocks))
    ensures Apply(s, Poll(0, ReadWrite, Blocks)) == Next(ApplyPoll(s, 0, ReadWrite, Blocks))
  {
  }

  lemma SuspendApplies(s: State)
    requires s.phase.Running?
    ensures Enabled(s, Suspend) && Apply(s, Suspend) == Next(s.(phase := Idle))
  {
  }

  // ----- a full skip first -----

  /** The file has become readable and is on the ready list when the task polls again. */
  const LATE_BOTH :=
    State(map[0 := POLLED_BOTH.(awaited := {})], WOKEN_BOTH.kernel.(queue := [0]), Running(7), {})

  const QUEUED_BOTH := State(map[0 := POLLED_BOTH], WOKEN_BOTH.kernel.(queue := [0]), Idle, {})

  lemma QueuedBothReachable()
    ensures Reachable(QUEUED_BOTH)
  {
    SuspendedBothReachable();
    var s := Extend(SUSPENDED_BOTH, Edge(0, EPOLLIN));
    assert {} + EPOLLIN == EPOLLIN;
    assert IN_BIT in EPOLLIN * (BOTH + EPOLLERR + EPOLLHUP);
    assert s == QUEUED_BOTH;
  }

  lemma LateBothReachable()
    ensures Reachable(LATE_BOTH)
  {
    QueuedBothReachable();
    var s := Extend(QUEUED_BOTH, Spawn(7));
    s := Extend(s, Start(7));
    assert {} + {7} - {7} == {};
    assert s == LATE_BOTH;
  }

  /** The poll is skipped, whatever its operation would do, and waits for both bits. */
  lemma LateSkips(op: Attempt)
    requires op.GoesAhead? ==> op.used <= AsEvents(ReadWrite)
    ensures Enabled(LATE_BOTH, Poll(0, ReadWrite, op)) && FullSkip(LATE_BOTH, Poll(0, ReadWrite, op))
    ensures Skips(LATE_BOTH.asyncs[0], ReadWrite)
    ensures Apply(LATE_BOTH, Poll(0, ReadWrite, op)) == Next(QUEUED_BOTH.(phase := Running(7)))
  {
    var w := LATE_BOTH.asyncs[0];
    assert IN_BIT in AsEvents(ReadWrite) * w.waitingFor;
    assert {} + AsEvents(ReadWrite) == EPOLLIN + EPOLLOUT;
    assert {} + (AsEvents(ReadWrite) - w.waitingFor) == {};
  }

  lemma LateDelivers(s: State) returns (s': State)
    requires Leads(s, QUEUED_BOTH)
    ensures s' == WOKEN_BOTH && Leads(s, s')
  {
    hide Harvest, Leads, Reachable;
    QueuedBothReachable();
    assert Reported(QUEUED_BOTH.kernel, 0) == EPOLLIN;
    WaitOne(QUEUED_BOTH, 0);
    s' := Onward(s, QUEUED_BOTH, Wait);
    s' := DeliverOne(s, s', 0);
    assert EPOLLIN + EPOLLOUT - EPOLLIN == EPOLLOUT;
    assert {} + Waking(Some(7)) == {7};
  }

  lemma LateLeadsToStall()
    ensures Reachable(LATE_BOTH) && Leads(QUEUED_BOTH.(phase := Running(7)), STALLED_BOTH.(phase := Idle))
    ensures SleepsOver(STALLED_BOTH.(phase := Idle), 0, IN_BIT)
  {
    hide Reachable, Leads, Apply, Enabled;
    LateBothReachable();
    LateSkips(Blocks);
    var skipped := Extend(LATE_BOTH, Poll(0, ReadWrite, Blocks));
    LeadsNowhere(skipped);
    SuspendApplies(skipped);
    var s := Onward(skipped, skipped, Suspend);
    s := LateDelivers(skipped);
    WokenBothReachable();
    StartsAgain();
    s := Onward(skipped, s, Start(7));
    SkipsAgain();
    PollApplies(s);
    s := Onward(skipped, s, Poll(0, ReadWrite, Blocks));
    SuspendApplies(s);
    s := Onward(skipped, s, Suspend);
    SleepsAgain();
  }
}
