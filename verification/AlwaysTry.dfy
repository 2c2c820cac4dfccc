/** The short-circuit against the poller that has none, and tries its operation every time.  Here an
    operation fails with WouldBlock exactly when its file is not ready for it. */
module AlwaysTries {
  import opened Masks
  import opened Epoll
  import opened Protocol
  import opened Invariant
  import opened Readiness
  import opened ReadWriteStall
  import opened WakeUp

  /** What the operation does if it is tried now. */
  predicate Honest(s: State, addr: Addr, interest: Interest, op: Attempt)
    requires Pollable(s, addr)
  {
    && (op == Blocks <==> Blocked(s.kernel, s.asyncs[addr].inner.value, interest))
    && (op.GoesAhead? ==> op.used <= AsEvents(interest))
  }

  // ----- one poll -----

  lemma FullSkipIsAFailedTry(w: AsyncState, held: Mask, woken: set<Task>, interest: Interest)
    requires LocalInv(w, held, woken) && w.inner.Some?
    requires Skips(w, interest) && AsEvents(interest) <= w.waitingFor
    ensures PollBlocked(w, interest, w.owner) == PollSkipped(w, interest)
    ensures PollBlocked(w, interest, w.owner).registerFor == w.registerFor
  {
    assert w.registerFor + AsEvents(interest) + EPOLLET == w.registerFor;
    assert w.waitingFor + AsEvents(interest) == w.waitingFor;
    assert w.missed + (AsEvents(interest) - w.waitingFor) == w.missed - AsEvents(interest);
  }

  /** For any interest: a skipped poll does just what trying and failing with WouldBlock would
      do, if and only if every bit of the interest is waited for. */
  lemma SkipIsAFailedTry(s: State, a: Addr, interest: Interest, op: Attempt)
    requires Reachable(s) && Enabled(s, Poll(a, interest, op)) && Skips(s.asyncs[a], interest)
    ensures ApplyPoll(s, a, interest, op) == TryPoll(s, a, interest, Blocks)
       <==> AsEvents(interest) <= s.asyncs[a].waitingFor
  {
    var w := s.asyncs[a];
    if AsEvents(interest) <= w.waitingFor {
      ReachableInv(s);
      FullSkipIsAFailedTry(w, KernelMask(s, a), s.woken, interest);
    } else {
      var b :| b in AsEvents(interest) && b !in w.waitingFor;
      assert b in TryPoll(s, a, interest, Blocks).asyncs[a].waitingFor;
      assert b !in ApplyPoll(s, a, interest, op).asyncs[a].waitingFor;
    }
  }

  /** For any interest: a skipped operation on a file off the ready list would fail with WouldBlock
      if and only if the file is ready for no bit of the interest that is not waited for. */
  lemma SkippedWouldBlockExactly(s: State, a: Addr, interest: Interest, op: Attempt)
    requires Reachable(s) && s.phase.Running? && Pollable(s, a) && Honest(s, a, interest, op)
    requires Skips(s.asyncs[a], interest) && s.asyncs[a].inner.value !in s.kernel.queue
    ensures
      var w := s.asyncs[a];
      op == Blocks <==> Ready(s.kernel, w.inner.value) * (AsEvents(interest) - w.waitingFor) == {}
  {
    var w := s.asyncs[a];
    var ready := Ready(s.kernel, w.inner.value);
    if ready * (AsEvents(interest) - w.waitingFor) == {} && op != Blocks {
      var b :| b in ready * AsEvents(interest);
      assert b in w.waitingFor by {
        assert b !in ready * (AsEvents(interest) - w.waitingFor);
      }
      NoLostReadiness(s, a, b);
    }
    if ready * (AsEvents(interest) - w.waitingFor) != {} {
      var b :| b in ready * (AsEvents(interest) - w.waitingFor);
      assert b in ready * AsEvents(interest);
    }
  }

  /** A poll whose every bit is waited for and whose file is off the ready list: the operation
      would fail with WouldBlock, and skipping it comes to the same as trying it. */
  lemma ShortCircuitIsSound(s: State, a: Addr, interest: Interest, op: Attempt)
    requires Reachable(s) && Enabled(s, Poll(a, interest, op)) && Honest(s, a, interest, op)
    requires Skips(s.asyncs[a], interest) && AsEvents(interest) <= s.asyncs[a].waitingFor
    requires s.asyncs[a].inner.value !in s.kernel.queue
    ensures op == Blocks && ApplyPoll(s, a, interest, op) == TryPoll(s, a, interest, op)
  {
    assert AsEvents(interest) - s.asyncs[a].waitingFor == {};
    SkippedWouldBlockExactly(s, a, interest, op);
    SkipIsAFailedTry(s, a, interest, op);
  }

  /** Skipping a poll comes to the same as trying it exactly when every bit of the interest is waited
      for and the operation would fail with WouldBlock. */
  lemma StepsAgreeExactly(s: State, a: Addr, interest: Interest, op: Attempt)
    requires Reachable(s) && Enabled(s, Poll(a, interest, op)) && Honest(s, a, interest, op)
    requires Skips(s.asyncs[a], interest)
    ensures ApplyPoll(s, a, interest, op) == TryPoll(s, a, interest, op)
       <==> AsEvents(interest) <= s.asyncs[a].waitingFor && op == Blocks
  {
    if op == Blocks {
      SkipIsAFailedTry(s, a, interest, op);
    } else {
      var b :| b in AsEvents(interest) * s.asyncs[a].waitingFor;
      assert b in ApplyPoll(s, a, interest, op).asyncs[a].awaited;
      assert b !in TryPoll(s, a, interest, op).asyncs[a].awaited;
    }
  }

  // ----- whole runs -----

  /** The steps of the system that tries every time. */
  predicate TryEnabled(s: State, act: Action) {
    match act
    case Poll(addr, interest, op) =>
      && s.phase.Running? && Pollable(s, addr) && s.asyncs[addr].owner == s.phase.task
      && Honest(s, addr, interest, op)
    case _ => Enabled(s, act)
  }

  function TryApply(s: State, act: Action): Outcome
    requires TryEnabled(s, act)
  {
    match act
    case Poll(addr, interest, op) => Next(TryPoll(s, addr, interest, op))
    case _ => Apply(s, act)
  }

  predicate TrySchedule(s: State, acts: seq<Action>)
    decreases acts
  {
    acts == [] ||
    (TryEnabled(s, acts[0]) &&
     (TryApply(s, acts[0]).Next? ==> TrySchedule(TryApply(s, acts[0]).state, acts[1..])))
  }

  function TryExec(s: State, acts: seq<Action>): Outcome
    requires TrySchedule(s, acts)
    decreases acts
  {
    if acts == [] then Next(s)
    else
      match TryApply(s, acts[0])
      case Next(s') => TryExec(s', acts[1..])
      case bad => bad
  }

  /** A poll that would be skipped waits for every bit of its interest, and its file is not on the
      ready list. */
  predicate Prompt(s: State, act: Action) {
    act.Poll? && Pollable(s, act.addr) && Skips(s.asyncs[act.addr], act.interest) ==>
      FullSkip(s, act) && s.asyncs[act.addr].inner.value !in s.kernel.queue
  }

  predicate PromptTries(s: State, acts: seq<Action>)
    requires TrySchedule(s, acts)
    decreases acts
  {
    acts == [] ||
    (Prompt(s, acts[0]) &&
     (TryApply(s, acts[0]).Next? ==> PromptTries(TryApply(s, acts[0]).state, acts[1..])))
  }

  /** A run of the program in which every poll is prompt, and every operation is what trying it would
      show. */
  predicate PromptRun(s: State, acts: seq<Action>)
    requires Schedule(s, acts)
    decreases acts
  {
    acts == [] ||
    (Prompt(s, acts[0]) && TryEnabled(s, acts[0]) &&
     (Apply(s, acts[0]).Next? ==> PromptRun(Apply(s, acts[0]).state, acts[1..])))
  }

  lemma PromptStepsAgree(s: State, act: Action)
    requires Reachable(s) && TryEnabled(s, act) && Prompt(s, act)
    ensures Enabled(s, act) && Apply(s, act) == TryApply(s, act)
  {
    if act.Poll? && Skips(s.asyncs[act.addr], act.interest) {
      ShortCircuitIsSound(s, act.addr, act.interest, act.op);
    }
  }

  /** The program refines the poller that tries every time: a run that skips no poll while its file
      is on the ready list is, step for step, a run of that poller, and ends in the same state. */
  lemma {:induction false} RunsAreTries(s: State, acts: seq<Action>)
    requires Reachable(s) && Schedule(s, acts) && PromptRun(s, acts)
    ensures TrySchedule(s, acts) && TryExec(s, acts) == Exec(s, acts)
    decreases acts
  {
    if acts != [] {
      PromptStepsAgree(s, acts[0]);
      ReachStep(s, acts[0]);
      RunsAreTries(Apply(s, acts[0]).state, acts[1..]);
    }
  }

  /** Conversely, a run of that poller in which no poll would be skipped while its file is on the
      ready list is a run of the program, and ends in the same state. */
  lemma {:induction false} TriesAreRuns(s: State, acts: seq<Action>)
    requires Reachable(s) && TrySchedule(s, acts) && PromptTries(s, acts)
    ensures Schedule(s, acts) && Exec(s, acts) == TryExec(s, acts)
    decreases acts
  {
    if acts != [] {
      PromptStepsAgree(s, acts[0]);
      ReachStep(s, acts[0]);
      TriesAreRuns(Apply(s, acts[0]).state, acts[1..]);
    }
  }

  // ----- any run -----

  /** Every operation is what trying it would show. */
  predicate HonestRun(s: State, acts: seq<Action>)
    requires Schedule(s, acts)
    decreases acts
  {
    acts == [] ||
    (TryEnabled(s, acts[0]) &&
     (Apply(s, acts[0]).Next? ==> HonestRun(Apply(s, acts[0]).state, acts[1..])))
  }

  /** A skipped poll that trying would have told apart. */
  predicate Wasted(s: State, act: Action) {
    && act.Poll? && Pollable(s, act.addr) && Skips(s.asyncs[act.addr], act.interest)
    && !(AsEvents(act.interest) <= s.asyncs[act.addr].waitingFor && act.op == Blocks)
  }

  /** Skipping and trying come to the same except in a wasted poll; and if that waits for all of its
      interest, its file is on the ready list. */
  lemma WastedExactly(s: State, act: Action)
    requires Reachable(s) && Enabled(s, act) && TryEnabled(s, act)
    ensures Wasted(s, act) <==> Apply(s, act) != TryApply(s, act)
    ensures Wasted(s, act) && FullSkip(s, act) ==>
      act.op.GoesAhead? && s.asyncs[act.addr].inner.value in s.kernel.queue
  {
    if act.Poll? && Skips(s.asyncs[act.addr], act.interest) {
      StepsAgreeExactly(s, act.addr, act.interest, act.op);
      if FullSkip(s, act) && s.asyncs[act.addr].inner.value !in s.kernel.queue {
        ShortCircuitIsSound(s, act.addr, act.interest, act.op);
      }
    }
  }

  /** The run without its wasted polls. */
  function Kept(s: State, acts: seq<Action>): seq<Action>
    requires Schedule(s, acts)
    decreases acts
  {
    if acts == [] then []
    else
      (if Wasted(s, acts[0]) then [] else [acts[0]]) +
      (if Apply(s, acts[0]).Next? then Kept(Apply(s, acts[0]).state, acts[1..]) else [])
  }

  function Forget(w: AsyncState): AsyncState {
    w.(awaited := {}, missed := {})
  }

  /** The states agree in all but the bookkeeping of the model, `awaited` and `missed`. */
  ghost predicate Same(s: State, t: State) {
    && s.kernel == t.kernel && s.phase == t.phase && s.woken == t.woken
    && s.asyncs.Keys == t.asyncs.Keys
    && forall a | a in s.asyncs :: Forget(s.asyncs[a]) == Forget(t.asyncs[a])
  }

  ghost predicate SameOutcome(x: Outcome, y: Outcome) {
    if x.Next? && y.Next? then Same(x.state, y.state) else x == y
  }

  lemma SameEnabled(s: State, t: State, act: Action)
    requires Same(s, t) && TryEnabled(s, act)
    ensures TryEnabled(t, act)
  {
    forall a | a in s.asyncs
      ensures s.asyncs[a].inner == t.asyncs[a].inner && s.asyncs[a].owner == t.asyncs[a].owner
    {
      assert Forget(s.asyncs[a]) == Forget(t.asyncs[a]);
    }
  }

  lemma SamePoll(s: State, t: State, a: Addr, interest: Interest, op: Attempt)
    requires Same(s, t) && s.phase.Running? && Pollable(s, a) && Pollable(t, a)
    ensures Same(TryPoll(s, a, interest, op), TryPoll(t, a, interest, op))
  {
    assert Forget(s.asyncs[a]) == Forget(t.asyncs[a]);
  }

  lemma SameDeregister(s: State, t: State, a: Addr)
    requires Same(s, t) && a in s.asyncs
    ensures SameOutcome(Deregister(s, a), Deregister(t, a))
    ensures Deregister(s, a).Next? ==> Deregister(s, a).state.asyncs.Keys == s.asyncs.Keys
  {
    assert Forget(s.asyncs[a]) == Forget(t.asyncs[a]);
  }

  lemma SameApply(s: State, t: State, act: Action)
    requires Same(s, t) && TryEnabled(s, act) && TryEnabled(t, act)
    ensures SameOutcome(TryApply(s, act), TryApply(t, act))
  {
    match act {
      case Poll(a, interest, op) => SamePoll(s, t, a, interest, op);
      case Take(a) => SameDeregister(s, t, a);
      case Drop(a) => SameDeregister(s, t, a);
      case _ =>
    }
  }

  lemma WastedChangesNothing(s: State, t: State, act: Action)
    requires Same(s, t) && Enabled(s, act) && Wasted(s, act)
    ensures Apply(s, act).Next? && Same(Apply(s, act).state, t)
  {
  }

  lemma {:induction false} KeptFrom(s: State, t: State, acts: seq<Action>)
    requires Reachable(s) && Same(s, t) && Schedule(s, acts) && HonestRun(s, acts)
    ensures Exec(s, acts).Next? && TrySchedule(t, Kept(s, acts)) && TryExec(t, Kept(s, acts)).Next?
    ensures Same(Exec(s, acts).state, TryExec(t, Kept(s, acts)).state)
    decreases |acts|
  {
    if acts != [] {
      ReachStep(s, acts[0]);
      WastedExactly(s, acts[0]);
      var s' := Apply(s, acts[0]).state;
      if Wasted(s, acts[0]) {
        WastedChangesNothing(s, t, acts[0]);
        KeptFrom(s', t, acts[1..]);
        assert Kept(s, acts) == Kept(s', acts[1..]);
      } else {
        SameEnabled(s, t, acts[0]);
        SameApply(s, t, acts[0]);
        var t' := TryApply(t, acts[0]).state;
        KeptFrom(s', t', acts[1..]);
        assert Kept(s, acts)[0] == acts[0] && Kept(s, acts)[1..] == Kept(s', acts[1..]);
      }
    }
  }

  /** The program refines the poller that tries every time, over any run and for any interests: leave
      out the wasted polls, and what is left is a run of that poller, which ends in the same state of
      every waiter, of the kernel and of the tasks. */
  lemma AnyRunIsTries(s: State, acts: seq<Action>)
    requires Reachable(s) && Schedule(s, acts) && HonestRun(s, acts)
    ensures Exec(s, acts).Next? && TrySchedule(s, Kept(s, acts)) && TryExec(s, Kept(s, acts)).Next?
    ensures Same(Exec(s, acts).state, TryExec(s, Kept(s, acts)).state)
  {
    KeptFrom(s, s, acts);
  }

  function WastedIn(s: State, acts: seq<Action>): nat
    requires Schedule(s, acts)
    decreases acts
  {
    if acts == [] then 0
    else
      (if Wasted(s, acts[0]) then 1 else 0) +
      (if Apply(s, acts[0]).Next? then WastedIn(Apply(s, acts[0]).state, acts[1..]) else 0)
  }

  /** Nothing but the wasted polls is left out. */
  lemma {:induction false} OnlyWastedLeftOut(s: State, acts: seq<Action>)
    requires Reachable(s) && Schedule(s, acts)
    ensures |Kept(s, acts)| + WastedIn(s, acts) == |acts|
    decreases |acts|
  {
    if acts != [] {
      ReachStep(s, acts[0]);
      OnlyWastedLeftOut(Apply(s, acts[0]).state, acts[1..]);
    }
  }

  // ----- what becomes of a wasted poll -----

  /** A wasted poll whose whole interest is waited for: its file is on the ready list, of n files, and
      unless the value goes away or the readiness does, any run with n/512 + 1 completed
      dispatches comes to a point where the owner is woken and a ready bit of the interest lifted.
      From there on the next poll for that bit is tried, if no other bit of its interest is waited
      for: so always if it is for reading or for writing, and for `ReadWrite` unless it has become
      a half-skipped one. */
  lemma WastedIsServed(s: State, a: Addr, interest: Interest, op: Attempt, acts: seq<Action>)
    returns (b: Bit, j: nat)
    requires Reachable(s) && Enabled(s, Poll(a, interest, op)) && Honest(s, a, interest, op)
    requires Wasted(s, Poll(a, interest, op)) && FullSkip(s, Poll(a, interest, op))
    requires Schedule(s, acts) && Exec(s, acts).Next? && !Exec(s, acts).state.phase.Dispatching?
    requires forall act, bit | act in acts && bit in AsEvents(interest) :: Spares(act, a, s.asyncs[a].inner.value, bit)
    requires Waits(acts) >= |s.kernel.queue| / 512 + 1
    ensures s.asyncs[a].inner.value in s.kernel.queue
    ensures b in AsEvents(interest) && b in Ready(s.kernel, s.asyncs[a].inner.value)
    ensures j <= |acts| && Schedule(s, acts[..j]) && Exec(s, acts[..j]).Next?
    ensures Woken(Exec(s, acts[..j]).state, a, b)
    ensures forall i | j <= i <= |acts| && Untouched(acts, j, i, a, b) :: LiftedAt(s, acts, i, a, interest, b)
    ensures !interest.ReadWrite? ==> AsEvents(interest) == {b}
  {
    var fd := s.asyncs[a].inner.value;
    b :| b in Ready(s.kernel, fd) && b in AsEvents(interest);
    NoLostReadiness(s, a, b);
    var k: nat :| k < |s.kernel.queue| && s.kernel.queue[k] == fd;
    j := BoundedWakeUp(s, acts, a, k, b);
    forall i | j <= i <= |acts| && Untouched(acts, j, i, a, b)
      ensures LiftedAt(s, acts, i, a, interest, b)
    {
      LiftedUntil(s, acts, j, i, a, interest, b);
    }
  }

  /** A wasted `ReadWrite` poll, with both bits waited for, that need not be served: the file is readable
      and on the ready list; reading is lifted and the owner woken; its next poll is skipped by half
      on account of the writing bit, and all sleep. */
  lemma ReadWriteIsNotServed()
    ensures
      var poll := Poll(0, ReadWrite, GoesAhead(EPOLLIN));
      && Reachable(LATE_BOTH) && Enabled(LATE_BOTH, poll) && TryEnabled(LATE_BOTH, poll)
      && Wasted(LATE_BOTH, poll) && FullSkip(LATE_BOTH, poll) && Apply(LATE_BOTH, poll).Next?
      && Leads(Apply(LATE_BOTH, poll).state, STALLED_BOTH.(phase := Idle))
      && SleepsOver(STALLED_BOTH.(phase := Idle), 0, IN_BIT)
  {
    LateLeadsToStall();
    LateSkips(GoesAhead(EPOLLIN));
    assert IN_BIT in Ready(LATE_BOTH.kernel, 0) * AsEvents(ReadWrite);
  }
}
