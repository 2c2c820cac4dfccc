/** What the readiness protocol guarantees over whole runs. */
module Readiness {
  import opened Masks
  import opened Epoll
  import opened Protocol
  import opened Invariant

  /** A state some schedule leads to. */
  ghost predicate Reachable(s: State) {
    exists acts :: Schedule(INITIAL, acts) && Exec(INITIAL, acts) == Next(s)
  }

  lemma {:induction false} RunKeepsInv(s: State, acts: seq<Action>)
    requires Inv(s) && Schedule(s, acts)
    ensures Exec(s, acts).Next? && Inv(Exec(s, acts).state)
    decreases acts
  {
    if acts != [] {
      StepKeepsInv(s, acts[0]);
      RunKeepsInv(Apply(s, acts[0]).state, acts[1..]);
    }
  }

  /** No schedule makes the kernel refuse an epoll_ctl call or delivers to a dead address. */
  lemma RunsNeverGoWrong(acts: seq<Action>)
    requires Schedule(INITIAL, acts)
    ensures Exec(INITIAL, acts).Next?
    ensures Reachable(Exec(INITIAL, acts).state) && Inv(Exec(INITIAL, acts).state)
  {
    RunKeepsInv(INITIAL, acts);
  }

  lemma ReachableInv(s: State)
    requires Reachable(s)
    ensures Inv(s)
  {
    var acts :| Schedule(INITIAL, acts) && Exec(INITIAL, acts) == Next(s);
    RunKeepsInv(INITIAL, acts);
  }

  lemma InitialReachable()
    ensures Reachable(INITIAL)
  {
    assert Schedule(INITIAL, []) && Exec(INITIAL, []) == Next(INITIAL);
  }

  /** A run from a reachable state never goes wrong, and ends in a reachable state. */
  lemma ReachRun(s: State, acts: seq<Action>)
    requires Reachable(s) && Schedule(s, acts)
    ensures Exec(s, acts).Next? && Reachable(Exec(s, acts).state)
  {
    ReachableInv(s);
    RunKeepsInv(s, acts);
    var before :| Schedule(INITIAL, before) && Exec(INITIAL, before) == Next(s);
    ExecAppend(INITIAL, before, acts);
  }

  lemma ReachStep(s: State, act: Action)
    requires Reachable(s) && Enabled(s, act)
    ensures Apply(s, act).Next? && Reachable(Apply(s, act).state)
    ensures Schedule(s, [act]) && Exec(s, [act]) == Apply(s, act)
  {
    ReachableInv(s);
    StepKeepsInv(s, act);
    assert [act][1..] == [];
    ReachRun(s, [act]);
  }

  lemma Extend(s: State, act: Action) returns (s': State)
    requires Reachable(s) && Enabled(s, act)
    ensures Next(s') == Apply(s, act) && Reachable(s')
  {
    ReachStep(s, act);
    s' := Apply(s, act).state;
  }

  /** A bit is in the union of a value's events exactly when one of its events has it; so the
      effect of a batch depends neither on the order of its events nor on repetition. */
  lemma {:induction false} UnionForMembers(batch: seq<Event>, a: Addr, b: Bit)
    ensures b in UnionFor(batch, a) <==> exists e :: e in batch && e.data == a && b in e.events
  {
    if batch != [] {
      UnionForMembers(batch[1..], a, b);
      if b in UnionFor(batch, a) {
        if batch[0].data == a && b in batch[0].events {
          assert batch[0] in batch;
        } else {
          var e :| e in batch[1..] && e.data == a && b in e.events;
          assert e in batch;
        }
      }
    }
  }

  /** Readiness is never lost: whatever a value waits for and its file is ready for is on the
      ready list, or in an event that is about to be delivered; the one exception is a bit that
      the poll in progress has yet to tell the kernel about. */
  lemma NoLostReadiness(s: State, a: Addr, b: Bit)
    requires Reachable(s) && Pollable(s, a)
    requires b in s.asyncs[a].waitingFor && b in Ready(s.kernel, s.asyncs[a].inner.value)
    requires s.phase.Registering? && s.phase.addr == a ==> b in s.phase.already
    ensures
      || s.asyncs[a].inner.value in s.kernel.queue
      || exists e :: e in Undelivered(s) && e.data == a && b in e.events
  {
    ReachableInv(s);
    var w := s.asyncs[a];
    assert LocalInv(w, KernelMask(s, a), s.woken) && Linked(s.kernel.interest, a, w.inner, KernelMask(s, a));
    assert NotLost(s, w.inner.value);
    UnionForMembers(Undelivered(s), a, b);
  }

  /** Live pointers: whatever the kernel may still report, and whatever it has reported, leads to
      a value that is live, holds the file and is registered. */
  lemma LivePointers(s: State)
    requires Reachable(s)
    ensures forall fd | fd in s.kernel.interest :: Owned(s, fd)
    ensures forall fd | fd in s.kernel.queue :: fd in s.kernel.interest
    ensures forall e | e in Undelivered(s) :: LiveEvent(s.asyncs, e)
  {
    ReachableInv(s);
  }

  /** `register_for` is non-zero exactly when the kernel has the file registered, and then the
      kernel has this waiter with this mask.  Whatever is waited for is registered for.  Over
      its whole life a value issues at most one ADD, one MOD and one DEL. */
  lemma RegistrationAgreement(s: State, a: Addr)
    requires Reachable(s) && a in s.asyncs
    ensures s.asyncs[a].adds <= 1 && s.asyncs[a].mods <= 1 && s.asyncs[a].dels <= 1
    ensures s.asyncs[a].inner.None? ==> s.asyncs[a].registerFor == {}
    ensures Pollable(s, a) ==> s.asyncs[a].waitingFor <= s.asyncs[a].registerFor
    ensures Pollable(s, a) && s.asyncs[a].registerFor != {} ==> s.asyncs[a].dels == 0
    ensures Pollable(s, a) && !(s.phase.Registering? && s.phase.addr == a) ==>
      var w := s.asyncs[a];
      && (w.registerFor != {} <==> w.inner.value in s.kernel.interest)
      && (w.registerFor != {} ==> s.kernel.interest[w.inner.value] == Registration(w.registerFor, a))
  {
    ReachableInv(s);
    assert LocalInv(s.asyncs[a], KernelMask(s, a), s.woken);
    assert Linked(s.kernel.interest, a, s.asyncs[a].inner, KernelMask(s, a));
  }

  /** An event carries what its waiter registered for, and errors (bit 3) and hang-ups (bit 4) in any case. */
  lemma ReportedBits(k: Kernel, fd: Fd, b: Bit)
    requires fd in k.interest
    ensures b in Reported(k, fd) <==> b in Ready(k, fd) && (b in k.interest[fd].mask || b == 3 || b == 4)
  {
  }

  lemma {:induction false} EmptyHarvest(k: Kernel, queue: seq<Fd>, max: nat)
    requires forall fd | fd in queue :: fd in k.interest
    requires max > 0 && Harvest(k, queue, max).0 == []
    ensures Harvest(k, queue, max).1 == []
  {
    if queue != [] {
      EmptyHarvest(k, queue[1..], max);
    }
  }

  /** For any interest, `ReadWrite` included: with a bit waited for that its file is ready for, the
      next dispatch has something to report. */
  lemma WaitedForIsReported(s: State, a: Addr, b: Bit)
    requires Reachable(s) && s.phase.Idle? && Pollable(s, a)
    requires b in s.asyncs[a].waitingFor && b in Ready(s.kernel, s.asyncs[a].inner.value)
    ensures s.kernel.queue != [] && Enabled(s, Wait)
  {
    ReachableInv(s);
    var w := s.asyncs[a];
    var fd := w.inner.value;
    assert LocalInv(w, w.registerFor, s.woken) && Linked(s.kernel.interest, a, w.inner, w.registerFor);
    NoLostReadiness(s, a, b);
    assert b in Reported(s.kernel, fd);
    HarvestReports(s.kernel, s.kernel.queue, BATCH, fd);
    if Harvest(s.kernel, s.kernel.queue, BATCH).0 == [] {
      EmptyHarvest(s.kernel, s.kernel.queue, BATCH);
    }
  }

  /** The executor never sleeps over available work: when every task is suspended and none is
      woken, and some task awaits a bit that its file is ready for and no half-skipped poll has
      missed, the next dispatch has something to report. */
  lemma NeverSleepsOverWork(s: State, a: Addr, b: Bit)
    requires Reachable(s) && s.phase.Idle? && s.woken == {}
    requires Pollable(s, a)
    requires b in s.asyncs[a].awaited - s.asyncs[a].missed && b in Ready(s.kernel, s.asyncs[a].inner.value)
    ensures s.kernel.queue != [] && Enabled(s, Wait)
  {
    ReachableInv(s);
    assert LocalInv(s.asyncs[a], KernelMask(s, a), s.woken);
    WaitedForIsReported(s, a, b);
  }
}
