/** Which edges a blocked operation hears: a read that of bit 0 and no other, a write that of bit 2, and
    either one an operation that waits for both. */
module Hearing {
  import opened Masks
  import opened Wrappers
  import opened Epoll
  import opened Protocol
  import opened Invariant
  import opened Readiness
  import opened WakeUp

  // ----- before the edge -----

  /** The value at `a` waits for `b`, its file is not ready for it, and nothing says otherwise. */
  ghost predicate HeldBack(s: State, a: Addr, fd: Fd, b: Bit) {
    && a in s.asyncs && s.asyncs[a].inner == Some(fd)
    && b in s.asyncs[a].waitingFor
    && b !in Ready(s.kernel, fd)
    && b !in UnionFor(Undelivered(s), a)
  }

  lemma WaitHoldsBack(s: State, a: Addr, fd: Fd, b: Bit)
    requires Reachable(s) && HeldBack(s, a, fd, b) && Enabled(s, Wait)
    ensures HeldBack(Apply(s, Wait).state, a, fd, b)
  {
    LivePointers(s);
    HarvestSources(s.kernel, s.kernel.queue, BATCH);
    UnionForMembers(Harvest(s.kernel, s.kernel.queue, BATCH).0, a, b);
  }

  /** The step neither ends the value nor makes its file ready for `b`. */
  predicate Leaves(act: Action, a: Addr, fd: Fd, b: Bit) {
    && !((act.Drop? || act.Take?) && act.addr == a)
    && (act.Edge? && act.fd == fd ==> b !in act.bits)
  }

  /** Only an edge of `b` lifts the short-circuit. */
  lemma StepHoldsBack(s: State, a: Addr, fd: Fd, b: Bit, act: Action)
    requires Reachable(s) && HeldBack(s, a, fd, b) && Enabled(s, act) && Apply(s, act).Next?
    requires Leaves(act, a, fd, b)
    ensures HeldBack(Apply(s, act).state, a, fd, b)
  {
    if act.Wait? {
      WaitHoldsBack(s, a, fd, b);
    }
  }

  lemma {:induction false} RunHoldsBack(s: State, a: Addr, fd: Fd, b: Bit, acts: seq<Action>)
    requires Reachable(s) && HeldBack(s, a, fd, b) && Schedule(s, acts)
    requires forall act | act in acts :: Leaves(act, a, fd, b)
    ensures Exec(s, acts).Next? && HeldBack(Exec(s, acts).state, a, fd, b)
    decreases |acts|
  {
    if acts != [] {
      assert acts[0] in acts;
      ReachStep(s, acts[0]);
      StepHoldsBack(s, a, fd, b, acts[0]);
      RunHoldsBack(Apply(s, acts[0]).state, a, fd, b, acts[1..]);
    }
  }

  // ----- a poll that blocks -----

  /** The poll and its epoll_ctl call, if there is one. */
  function BlockingSteps(s: State, a: Addr, interest: Interest): seq<Action>
    requires Enabled(s, Poll(a, interest, Blocks))
  {
    if ApplyPoll(s, a, interest, Blocks).phase.Registering?
    then [Poll(a, interest, Blocks), Register] else [Poll(a, interest, Blocks)]
  }

  /** A poll that is not skipped blocks. */
  ghost predicate BlocksNow(s: State, a: Addr, interest: Interest) {
    Reachable(s) && Enabled(s, Poll(a, interest, Blocks)) && !Skips(s.asyncs[a], interest)
  }

  lemma PollHoldsBack(s: State, a: Addr, interest: Interest, b: Bit)
    requires BlocksNow(s, a, interest) && b in AsEvents(interest)
    ensures HeldBack(ApplyPoll(s, a, interest, Blocks), a, s.asyncs[a].inner.value, b)
  {
    assert b !in Ready(s.kernel, s.asyncs[a].inner.value) * AsEvents(interest);
  }

  lemma BlockingStepsRun(s: State, a: Addr, interest: Interest)
    requires BlocksNow(s, a, interest)
    ensures Schedule(s, BlockingSteps(s, a, interest)) && Exec(s, BlockingSteps(s, a, interest)).Next?
    ensures
      var s' := Exec(s, BlockingSteps(s, a, interest)).state;
      && Reachable(s') && s'.phase == s.phase && Pollable(s', a)
      && s'.asyncs[a].inner == s.asyncs[a].inner
      && s'.asyncs[a].waitingFor == s.asyncs[a].waitingFor + AsEvents(interest)
      && s'.asyncs[a].registerFor == s.asyncs[a].registerFor + AsEvents(interest) + EPOLLET
  {
    var poll := Poll(a, interest, Blocks);
    ReachStep(s, poll);
    var mid := ApplyPoll(s, a, interest, Blocks);
    if mid.phase.Registering? {
      ReachStep(mid, Register);
      ExecAppend(s, [poll], [Register]);
      assert [poll] + [Register] == [poll, Register];
    }
  }

  /** After the poll and its epoll_ctl call the value waits for `b`, and the kernel knows. */
  lemma BlockedWaits(s: State, a: Addr, interest: Interest, b: Bit)
    requires BlocksNow(s, a, interest) && b in AsEvents(interest)
    requires Schedule(s, BlockingSteps(s, a, interest)) && Exec(s, BlockingSteps(s, a, interest)).Next?
    ensures
      var s' := Exec(s, BlockingSteps(s, a, interest)).state;
      var fd := s.asyncs[a].inner.value;
      && HeldBack(s', a, fd, b)
      && fd in s'.kernel.interest && s'.kernel.interest[fd].data == a && b in s'.kernel.interest[fd].mask
  {
    var poll, fd := Poll(a, interest, Blocks), s.asyncs[a].inner.value;
    BlockingStepsRun(s, a, interest);
    PollHoldsBack(s, a, interest, b);
    var mid := ApplyPoll(s, a, interest, Blocks);
    ReachStep(s, poll);
    if mid.phase.Registering? {
      ReachStep(mid, Register);
      StepHoldsBack(mid, a, fd, b, Register);
      ExecAppend(s, [poll], [Register]);
      assert [poll] + [Register] == [poll, Register];
    }
    RegistrationAgreement(Exec(s, BlockingSteps(s, a, interest)).state, a);
  }

  /** The state after the poll, its epoll_ctl call and an edge. */
  function AfterEdge(s: State, a: Addr, interest: Interest, bits: Mask): State
    requires Enabled(s, Poll(a, interest, Blocks))
    requires Schedule(s, BlockingSteps(s, a, interest)) && Exec(s, BlockingSteps(s, a, interest)).Next?
  {
    var s' := Exec(s, BlockingSteps(s, a, interest)).state;
    s'.(kernel := RaiseEdge(s'.kernel, s.asyncs[a].inner.value, bits))
  }

  /** A poll blocks, an edge follows, and the program goes on for n/512 + 1 dispatches, where n files
      are on the ready list, leaving the value and the readiness alone. */
  ghost predicate GoesOn(s: State, a: Addr, interest: Interest, bits: Mask, b: Bit, acts: seq<Action>) {
    && BlocksNow(s, a, interest)
    && Schedule(s, BlockingSteps(s, a, interest)) && Exec(s, BlockingSteps(s, a, interest)).Next?
    && var s' := AfterEdge(s, a, interest, bits);
    && Schedule(s', acts) && Exec(s', acts).Next? && !Exec(s', acts).state.phase.Dispatching?
    && (forall act | act in acts :: Spares(act, a, s.asyncs[a].inner.value, b))
    && Waits(acts) >= |s'.kernel.queue| / 512 + 1
  }

  lemma Hears(s: State, a: Addr, interest: Interest, bits: Mask, b: Bit, acts: seq<Action>) returns (j: nat)
    requires GoesOn(s, a, interest, bits, b, acts) && b in AsEvents(interest) && b in bits
    ensures
      var s' := AfterEdge(s, a, interest, bits);
      && s.asyncs[a].inner.value in s'.kernel.queue
      && j <= |acts| && Schedule(s', acts[..j]) && Exec(s', acts[..j]).Next?
      && Woken(Exec(s', acts[..j]).state, a, b)
      && forall i | j <= i <= |acts| && Untouched(acts, j, i, a, b) :: LiftedAt(s', acts, i, a, interest, b)
  {
    var fd := s.asyncs[a].inner.value;
    BlockingStepsRun(s, a, interest);
    BlockedWaits(s, a, interest, b);
    var s1 := Exec(s, BlockingSteps(s, a, interest)).state;
    ReachStep(s1, Edge(fd, bits));
    assert b in bits * (s1.kernel.interest[fd].mask + EPOLLERR + EPOLLHUP);
    var s' := AfterEdge(s, a, interest, bits);
    var k: nat :| k < |s'.kernel.queue| && s'.kernel.queue[k] == fd;
    j := BoundedWakeUp(s', acts, a, k, b);
    forall i | j <= i <= |acts| && Untouched(acts, j, i, a, b)
      ensures LiftedAt(s', acts, i, a, interest, b)
    {
      LiftedUntil(s', acts, j, i, a, interest, b);
    }
  }

  // ----- in the kernel's bits: 0 for reading, 2 for writing, 31 for edges -----

  /** What a blocked poll adds to the waiter, and what the kernel has of it then. */
  lemma BlockedMasks(s: State, a: Addr, interest: Interest)
    requires BlocksNow(s, a, interest)
    ensures Schedule(s, BlockingSteps(s, a, interest)) && Exec(s, BlockingSteps(s, a, interest)).Next?
    ensures
      var s' := Exec(s, BlockingSteps(s, a, interest)).state;
      var needs: Mask := match interest case Read => {0} case Write => {2} case ReadWrite => {0, 2};
      && a in s'.asyncs
      && s'.asyncs[a].waitingFor == s.asyncs[a].waitingFor + needs
      && s'.asyncs[a].registerFor == s.asyncs[a].registerFor + needs + {31}
      && s.asyncs[a].inner.value in s'.kernel.interest
      && s'.kernel.interest[s.asyncs[a].inner.value] == Registration(s'.asyncs[a].registerFor, a)
  {
    BlockingStepsRun(s, a, interest);
    var s' := Exec(s, BlockingSteps(s, a, interest)).state;
    RegistrationAgreement(s', a);
    assert 31 in s'.asyncs[a].registerFor;
  }

  /** After `i` of the steps a poll for the interest is tried. */
  ghost predicate TriedAt(s: State, acts: seq<Action>, i: nat, a: Addr, interest: Interest) {
    && i <= |acts| && Schedule(s, acts[..i]) && Exec(s, acts[..i]).Next?
    && a in Exec(s, acts[..i]).state.asyncs && !Skips(Exec(s, acts[..i]).state.asyncs[a], interest)
  }

  /** After `j` of the steps the owner is woken and `b` lifted, and then the next poll is tried. */
  ghost predicate Served(s: State, acts: seq<Action>, j: nat, a: Addr, interest: Interest, b: Bit) {
    && j <= |acts| && Schedule(s, acts[..j]) && Exec(s, acts[..j]).Next?
    && Woken(Exec(s, acts[..j]).state, a, b)
    && forall i | j <= i <= |acts| && Untouched(acts, j, i, a, b) :: TriedAt(s, acts, i, a, interest)
  }

  /** A read that blocked hears an edge of bit 0. */
  lemma ReadHears(s: State, a: Addr, bits: Mask, acts: seq<Action>) returns (j: nat)
    requires GoesOn(s, a, Read, bits, 0, acts) && 0 in bits
    ensures s.asyncs[a].inner.value in AfterEdge(s, a, Read, bits).kernel.queue
    ensures Served(AfterEdge(s, a, Read, bits), acts, j, a, Read, 0)
  {
    j := Hears(s, a, Read, bits, 0, acts);
    LiftedIsTried(AfterEdge(s, a, Read, bits), acts, j, a, Read, 0);
  }

  /** A write that blocked hears an edge of bit 2. */
  lemma WriteHears(s: State, a: Addr, bits: Mask, acts: seq<Action>) returns (j: nat)
    requires GoesOn(s, a, Write, bits, 2, acts) && 2 in bits
    ensures s.asyncs[a].inner.value in AfterEdge(s, a, Write, bits).kernel.queue
    ensures Served(AfterEdge(s, a, Write, bits), acts, j, a, Write, 2)
  {
    j := Hears(s, a, Write, bits, 2, acts);
    LiftedIsTried(AfterEdge(s, a, Write, bits), acts, j, a, Write, 2);
  }

  /** An operation that blocked on both hears an edge of either; whether its next poll is tried depends
      on the other bit. */
  lemma ReadWriteHears(s: State, a: Addr, bits: Mask, b: Bit, acts: seq<Action>) returns (j: nat)
    requires GoesOn(s, a, ReadWrite, bits, b, acts) && b in bits && (b == 0 || b == 2)
    ensures s.asyncs[a].inner.value in AfterEdge(s, a, ReadWrite, bits).kernel.queue
    ensures
      var s' := AfterEdge(s, a, ReadWrite, bits);
      && j <= |acts| && Schedule(s', acts[..j]) && Exec(s', acts[..j]).Next?
      && Woken(Exec(s', acts[..j]).state, a, b)
      && forall i | j <= i <= |acts| && Untouched(acts, j, i, a, b) :: LiftedAt(s', acts, i, a, ReadWrite, b)
  {
    j := Hears(s, a, ReadWrite, bits, b, acts);
  }

  lemma LiftedIsTried(s: State, acts: seq<Action>, j: nat, a: Addr, interest: Interest, b: Bit)
    requires AsEvents(interest) == {b}
    requires forall i | j <= i <= |acts| && Untouched(acts, j, i, a, b) :: LiftedAt(s, acts, i, a, interest, b)
    ensures forall i | j <= i <= |acts| && Untouched(acts, j, i, a, b) :: TriedAt(s, acts, i, a, interest)
  {
    forall i | j <= i <= |acts| && Untouched(acts, j, i, a, b)
      ensures TriedAt(s, acts, i, a, interest)
    {
      assert LiftedAt(s, acts, i, a, interest, b);
    }
  }

  /** A read that blocked hears nothing else: without an edge of bit 0, whatever happens, it would go on
      blocking, and its polls are skipped. */
  lemma ReadHearsNothingElse(s: State, a: Addr, acts: seq<Action>)
    requires BlocksNow(s, a, Read)
    requires Schedule(s, BlockingSteps(s, a, Read)) && Exec(s, BlockingSteps(s, a, Read)).Next?
    requires Schedule(Exec(s, BlockingSteps(s, a, Read)).state, acts)
    requires forall act | act in acts :: Leaves(act, a, s.asyncs[a].inner.value, 0)
    ensures
      var end := Exec(Exec(s, BlockingSteps(s, a, Read)).state, acts);
      end.Next? && HeldBack(end.state, a, s.asyncs[a].inner.value, 0) && Skips(end.state.asyncs[a], Read)
  {
    StaysDeaf(s, a, Read, 0, acts);
  }

  /** A write that blocked hears nothing but an edge of bit 2. */
  lemma WriteHearsNothingElse(s: State, a: Addr, acts: seq<Action>)
    requires BlocksNow(s, a, Write)
    requires Schedule(s, BlockingSteps(s, a, Write)) && Exec(s, BlockingSteps(s, a, Write)).Next?
    requires Schedule(Exec(s, BlockingSteps(s, a, Write)).state, acts)
    requires forall act | act in acts :: Leaves(act, a, s.asyncs[a].inner.value, 2)
    ensures
      var end := Exec(Exec(s, BlockingSteps(s, a, Write)).state, acts);
      end.Next? && HeldBack(end.state, a, s.asyncs[a].inner.value, 2) && Skips(end.state.asyncs[a], Write)
  {
    StaysDeaf(s, a, Write, 2, acts);
  }

  lemma StaysDeaf(s: State, a: Addr, interest: Interest, b: Bit, acts: seq<Action>)
    requires BlocksNow(s, a, interest) && b in AsEvents(interest)
    requires Schedule(s, BlockingSteps(s, a, interest)) && Exec(s, BlockingSteps(s, a, interest)).Next?
    requires Schedule(Exec(s, BlockingSteps(s, a, interest)).state, acts)
    requires forall act | act in acts :: Leaves(act, a, s.asyncs[a].inner.value, b)
    ensures
      var end := Exec(Exec(s, BlockingSteps(s, a, interest)).state, acts);
      end.Next? && HeldBack(end.state, a, s.asyncs[a].inner.value, b) && Skips(end.state.asyncs[a], interest)
  {
    BlockingStepsRun(s, a, interest);
    BlockedWaits(s, a, interest, b);
    var s' := Exec(s, BlockingSteps(s, a, interest)).state;
    RunHoldsBack(s', a, s.asyncs[a].inner.value, b, acts);
    assert b in AsEvents(interest) * Exec(s', acts).state.asyncs[a].waitingFor;
  }
}
