/** What every reachable state of the readiness protocol satisfies. */
module Invariant {
  import opened Masks
  import opened Wrappers
  import opened Epoll
  import opened Protocol

  /** The mask the kernel holds for a value: `registerFor`, except while a poll is between
      updating it and telling the kernel. */
  function KernelMask(s: State, a: Addr): Mask
    requires a in s.asyncs
  {
    if s.phase.Registering? && s.phase.addr == a then s.phase.already else s.asyncs[a].registerFor
  }

  /** Events taken from the kernel and not delivered yet. */
  function Undelivered(s: State): seq<Event> {
    if s.phase.Dispatching? then s.phase.batch else []
  }

  /** A waiter registers for nothing, or edge-triggered for reading, writing or both. */
  predicate RegistrationShape(mask: Mask) {
    mask != {} ==> EPOLLET <= mask <= EPOLLET + EPOLLIN + EPOLLOUT && mask != EPOLLET
  }

  /** What one value satisfies on its own: the masks it may hold, at most one ADD, one MOD and
      one DEL over its life, and an awaited bit that was not missed is still waited for under the
      owner's waker, or the owner has been woken.  `held` is the mask the kernel holds for it. */
  ghost predicate LocalInv(w: AsyncState, held: Mask, woken: set<Task>) {
    && RegistrationShape(w.registerFor)
    && RegistrationShape(held)
    && w.waitingFor <= EPOLLIN + EPOLLOUT
    && (w.inner.Some? ==> w.waitingFor <= w.registerFor)
    && (w.inner.None? ==> w.registerFor == {} && held == {})
    && w.adds <= 1 && w.mods <= 1
    && w.dels == (if w.inner.None? then w.adds else 0)
    && (w.inner.Some? ==> (w.adds == 0 <==> held == {}))
    && (w.inner.Some? && w.mods == 1 ==> held == EPOLLET + EPOLLIN + EPOLLOUT)
    && (w.waitingFor != {} ==> w.waker == Some(w.owner))
    && w.missed <= w.awaited && w.missed * w.waitingFor == {}
    && (w.awaited - w.missed <= w.waitingFor || w.owner in woken)
  }

  /** The kernel's interest entry for the file of the value at `a` agrees with `held`. */
  ghost predicate Linked(interest: map<Fd, Registration>, a: Addr, inner: Option<Fd>, held: Mask) {
    inner.Some? ==>
      if held == {} then inner.value !in interest
      else inner.value in interest && interest[inner.value] == Registration(held, a)
  }

  /** Every interest entry belongs to the live value at its address. */
  ghost predicate Owned(s: State, fd: Fd)
    requires fd in s.kernel.interest
  {
    var a := s.kernel.interest[fd].data;
    a in s.asyncs && s.asyncs[a].inner == Some(fd)
  }

  /** No readiness is lost: a bit that is waited for, registered and ready is on the ready list
      or in the undelivered part of the batch. */
  ghost predicate NotLost(s: State, fd: Fd)
    requires fd in s.kernel.interest && Owned(s, fd)
  {
    var reg := s.kernel.interest[fd];
    || fd in s.kernel.queue
    || s.asyncs[reg.data].waitingFor * reg.mask * Ready(s.kernel, fd) <= UnionFor(Undelivered(s), reg.data)
  }

  ghost predicate DistinctFiles(asyncs: map<Addr, AsyncState>) {
    forall a, b | a in asyncs && b in asyncs && a != b && asyncs[a].inner.Some? ::
      asyncs[a].inner != asyncs[b].inner
  }

  ghost predicate AsyncsInv(s: State) {
    forall a | a in s.asyncs ::
      && LocalInv(s.asyncs[a], KernelMask(s, a), s.woken)
      && Linked(s.kernel.interest, a, s.asyncs[a].inner, KernelMask(s, a))
  }

  ghost predicate KernelInv(s: State) {
    && (forall fd | fd in s.kernel.interest :: Owned(s, fd) && NotLost(s, fd))
    && Queueable(s.kernel)
    && NoDuplicates(s.kernel.queue)
  }

  /** An undelivered event leads to a value that is live and registered. */
  ghost predicate LiveEvent(asyncs: map<Addr, AsyncState>, e: Event) {
    e.data in asyncs && asyncs[e.data].inner.Some? && asyncs[e.data].registerFor != {}
  }

  ghost predicate PhaseInv(s: State) {
    match s.phase
    case Registering(t, a, already) =>
      && Pollable(s, a)
      && s.asyncs[a].owner == t
      && already != s.asyncs[a].registerFor
      && already <= s.asyncs[a].registerFor
    case Dispatching(batch) => forall e | e in batch :: LiveEvent(s.asyncs, e)
    case _ => true
  }

  ghost predicate Inv(s: State) {
    && DistinctFiles(s.asyncs)
    && AsyncsInv(s)
    && KernelInv(s)
    && PhaseInv(s)
  }

  // ----- one value on its own -----

  lemma PollKeepsLocal(w: AsyncState, held: Mask, woken: set<Task>, interest: Interest)
    requires LocalInv(w, held, woken) && w.inner.Some?
    ensures Skips(w, interest) ==> LocalInv(PollSkipped(w, interest), held, woken)
    ensures LocalInv(PollDone(w, interest), held, woken)
    ensures LocalInv(PollBlocked(w, interest, w.owner), held, woken)
  {
    match interest
    case Read => {}
    case Write => {}
    case ReadWrite => {}
  }

  lemma DeliveredKeepsLocal(w: AsyncState, held: Mask, woken: set<Task>, events: Mask)
    requires LocalInv(w, held, woken)
    ensures LocalInv(Delivered(w, events), held, woken + Waking(w.waker))
  {
  }

  lemma RegisterKeepsLocal(w: AsyncState, already: Mask, woken: set<Task>)
    requires LocalInv(w, already, woken) && w.inner.Some?
    requires already != w.registerFor && already <= w.registerFor
    ensures already == {} ==> LocalInv(w.(adds := w.adds + 1), w.registerFor, woken)
    ensures already != {} ==> LocalInv(w.(mods := w.mods + 1), w.registerFor, woken)
  {
  }

  lemma WokenKeepsLocal(w: AsyncState, held: Mask, woken: set<Task>, more: set<Task>)
    requires LocalInv(w, held, woken) && woken <= more
    ensures LocalInv(w, held, more)
  {
  }

  // ----- the table of values -----

  ghost predicate SameEntries(interest: map<Fd, Registration>, interest': map<Fd, Registration>, except: Option<Fd>) {
    forall x | Some(x) != except ::
      && (x in interest <==> x in interest')
      && (x in interest ==> interest[x] == interest'[x])
  }

  /** Changing one value, and at most the interest entry of its own file. */
  lemma UpdateAsync(s: State, s': State, a: Addr)
    requires AsyncsInv(s) && DistinctFiles(s.asyncs)
    requires a in s.asyncs && a in s'.asyncs && s'.asyncs == s.asyncs[a := s'.asyncs[a]]
    requires s'.asyncs[a].inner == s.asyncs[a].inner || s'.asyncs[a].inner.None?
    requires SameEntries(s.kernel.interest, s'.kernel.interest, s.asyncs[a].inner) && s.woken <= s'.woken
    requires forall b | b in s.asyncs && b != a :: KernelMask(s', b) == KernelMask(s, b)
    requires LocalInv(s'.asyncs[a], KernelMask(s', a), s'.woken)
    requires Linked(s'.kernel.interest, a, s'.asyncs[a].inner, KernelMask(s', a))
    ensures AsyncsInv(s') && DistinctFiles(s'.asyncs)
  {
    forall b | b in s'.asyncs && b != a
      ensures LocalInv(s'.asyncs[b], KernelMask(s', b), s'.woken)
      ensures Linked(s'.kernel.interest, b, s'.asyncs[b].inner, KernelMask(s', b))
    {
      WokenKeepsLocal(s.asyncs[b], KernelMask(s, b), s.woken, s'.woken);
      assert s.asyncs[b].inner.Some? ==> s.asyncs[b].inner != s.asyncs[a].inner;
    }
  }

  lemma PollKeepsAsyncs(s: State, addr: Addr, interest: Interest, op: Attempt)
    requires AsyncsInv(s) && DistinctFiles(s.asyncs) && Enabled(s, Poll(addr, interest, op))
    ensures AsyncsInv(ApplyPoll(s, addr, interest, op))
    ensures DistinctFiles(ApplyPoll(s, addr, interest, op).asyncs)
  {
    var s' := ApplyPoll(s, addr, interest, op);
    PollKeepsLocal(s.asyncs[addr], KernelMask(s, addr), s.woken, interest);
    UpdateAsync(s, s', addr);
  }

  lemma PollKeepsKernel(s: State, addr: Addr, interest: Interest, op: Attempt)
    requires KernelInv(s) && Enabled(s, Poll(addr, interest, op))
    ensures KernelInv(ApplyPoll(s, addr, interest, op))
  {
    var s' := ApplyPoll(s, addr, interest, op);
    forall fd | fd in s'.kernel.interest
      ensures Owned(s', fd) && NotLost(s', fd)
    {
      assert Owned(s, fd) && NotLost(s, fd);
    }
  }

  lemma PollKeepsInv(s: State, addr: Addr, interest: Interest, op: Attempt)
    requires Inv(s) && Enabled(s, Poll(addr, interest, op))
    ensures Inv(ApplyPoll(s, addr, interest, op))
  {
    PollKeepsAsyncs(s, addr, interest, op);
    PollKeepsKernel(s, addr, interest, op);
  }

  lemma RegisterKeepsAsyncs(s: State)
    requires AsyncsInv(s) && DistinctFiles(s.asyncs) && PhaseInv(s) && Enabled(s, Register)
    ensures ApplyRegister(s).Next?
    ensures AsyncsInv(ApplyRegister(s).state) && DistinctFiles(ApplyRegister(s).state.asyncs)
  {
    var a := s.phase.addr;
    assert Linked(s.kernel.interest, a, s.asyncs[a].inner, s.phase.already);
    var s' := ApplyRegister(s).state;
    RegisterKeepsLocal(s.asyncs[a], s.phase.already, s.woken);
    UpdateAsync(s, s', a);
  }

  lemma RecheckNotLost(k: Kernel, fd: Fd)
    requires fd in k.interest
    ensures fd in Recheck(k, fd).queue || forall waiting: Mask :: waiting * k.interest[fd].mask * Ready(k, fd) == {}
  {
    if Reported(k, fd) == {} {
      forall waiting: Mask
        ensures waiting * k.interest[fd].mask * Ready(k, fd) == {}
      {
        forall b: Bit
          ensures b !in waiting * k.interest[fd].mask * Ready(k, fd)
        {
          assert b !in Reported(k, fd);
        }
      }
    }
  }

  /** Registering a file under the live value that holds it. */
  lemma RegisteredKernel(s: State, k: Kernel, fd: Fd, reg: Registration)
    requires KernelInv(s) && reg.data in s.asyncs && s.asyncs[reg.data].inner == Some(fd)
    requires k == Recheck(s.kernel.(interest := s.kernel.interest[fd := reg]), fd)
    ensures KernelInv(s.(kernel := k))
  {
    RecheckNotLost(s.kernel.(interest := s.kernel.interest[fd := reg]), fd);
    var s' := s.(kernel := k);
    forall x | x in k.interest
      ensures Owned(s', x) && NotLost(s', x)
    {
      if x != fd {
        assert Owned(s, x) && NotLost(s, x);
      }
    }
  }

  lemma CountingKeepsKernel(s: State, s': State, a: Addr)
    requires KernelInv(s) && a in s.asyncs && s'.kernel == s.kernel
    requires s'.asyncs.Keys == s.asyncs.Keys && Undelivered(s') == Undelivered(s)
    requires forall b | b in s.asyncs ::
      s'.asyncs[b].inner == s.asyncs[b].inner && s'.asyncs[b].waitingFor == s.asyncs[b].waitingFor
    ensures KernelInv(s')
  {
    forall x | x in s.kernel.interest
      ensures Owned(s', x) && NotLost(s', x)
    {
      assert Owned(s, x) && NotLost(s, x);
    }
  }

  lemma RegisterKeepsKernel(s: State)
    requires KernelInv(s) && Enabled(s, Register) && ApplyRegister(s).Next?
    ensures KernelInv(ApplyRegister(s).state)
  {
    var a := s.phase.addr;
    var s' := ApplyRegister(s).state;
    RegisteredKernel(s, s'.kernel, s.asyncs[a].inner.value, Registration(s.asyncs[a].registerFor, a));
    CountingKeepsKernel(s.(kernel := s'.kernel), s', a);
  }

  lemma RegisterKeepsInv(s: State)
    requires Inv(s) && Enabled(s, Register)
    ensures ApplyRegister(s).Next? && Inv(ApplyRegister(s).state)
  {
    RegisterKeepsAsyncs(s);
    RegisterKeepsKernel(s);
  }

  lemma DeregisterAccepted(s: State, a: Addr)
    requires AsyncsInv(s) && KernelInv(s) && a in s.asyncs && (s.phase.Idle? || s.phase.Running?)
    ensures Deregister(s, a).Next?
    ensures
      var s' := Deregister(s, a).state;
      forall fd | fd in s'.kernel.interest :: fd in s.kernel.interest && s'.kernel.interest[fd].data != a
  {
    assert Linked(s.kernel.interest, a, s.asyncs[a].inner, KernelMask(s, a));
    var s' := Deregister(s, a).state;
    forall x | x in s'.kernel.interest
      ensures s'.kernel.interest[x].data != a
    {
      assert Owned(s, x);
    }
  }

  lemma DeregisterKeepsKernel(s: State, a: Addr)
    requires Inv(s) && a in s.asyncs && (s.phase.Idle? || s.phase.Running?)
    ensures Deregister(s, a).Next?
    ensures
      var s' := Deregister(s, a).state;
      && KernelInv(s')
      && (forall fd | fd in s'.kernel.interest :: s'.kernel.interest[fd].data != a)
  {
    DeregisterAccepted(s, a);
    hide AsyncsInv, DistinctFiles, PhaseInv;
    var s' := Deregister(s, a).state;
    if s.asyncs[a].inner.Some? {
      DequeueMembers(s.kernel.queue, s.asyncs[a].inner.value);
    }
    forall x | x in s'.kernel.interest
      ensures Owned(s', x) && NotLost(s', x)
    {
      assert Owned(s, x) && NotLost(s, x);
    }
  }

  lemma TakeKeepsInv(s: State, a: Addr)
    requires Inv(s) && Enabled(s, Take(a))
    ensures Apply(s, Take(a)).Next? && Inv(Apply(s, Take(a)).state)
  {
    DeregisterKeepsKernel(s, a);
    var s' := Apply(s, Take(a)).state;
    UpdateAsync(s, s', a);
    var mid := Deregister(s, a).state;
    forall x | x in s'.kernel.interest
      ensures Owned(s', x) && NotLost(s', x)
    {
      assert Owned(mid, x) && NotLost(mid, x);
    }
  }

  lemma DropKeepsInv(s: State, a: Addr)
    requires Inv(s) && Enabled(s, Drop(a))
    ensures Apply(s, Drop(a)).Next? && Inv(Apply(s, Drop(a)).state)
  {
    DeregisterKeepsKernel(s, a);
    var s' := Apply(s, Drop(a)).state;
    var mid := Deregister(s, a).state;
    forall x | x in s'.kernel.interest
      ensures Owned(s', x) && NotLost(s', x)
    {
      assert Owned(mid, x) && NotLost(mid, x);
    }
    forall b | b in s'.asyncs
      ensures Linked(s'.kernel.interest, b, s'.asyncs[b].inner, KernelMask(s', b))
    {
      assert Linked(s.kernel.interest, b, s.asyncs[b].inner, KernelMask(s, b));
      assert s.asyncs[b].inner.Some? ==> s.asyncs[b].inner != s.asyncs[a].inner;
    }
  }

  lemma RaiseNotLost(k: Kernel, x: Fd, fd: Fd, bits: Mask)
    requires x in k.interest
    ensures x in RaiseEdge(k, fd, bits).queue ||
            Ready(RaiseEdge(k, fd, bits), x) * k.interest[x].mask <= Ready(k, x)
  {
    if x == fd && bits * (k.interest[fd].mask + EPOLLERR + EPOLLHUP) == {} {
      forall b | b in bits ensures b !in k.interest[fd].mask {
        assert b !in bits * (k.interest[fd].mask + EPOLLERR + EPOLLHUP);
      }
    }
  }

  lemma EdgeKeepsKernel(s: State, fd: Fd, bits: Mask)
    requires KernelInv(s)
    ensures KernelInv(s.(kernel := RaiseEdge(s.kernel, fd, bits)))
  {
    var s' := s.(kernel := RaiseEdge(s.kernel, fd, bits));
    forall x | x in s.kernel.interest
      ensures Owned(s', x) && NotLost(s', x)
    {
      assert Owned(s, x) && NotLost(s, x);
      RaiseNotLost(s.kernel, x, fd, bits);
    }
  }

  lemma ClearKeepsKernel(s: State, fd: Fd, bits: Mask)
    requires KernelInv(s)
    ensures KernelInv(s.(kernel := Lower(s.kernel, fd, bits)))
  {
    var s' := s.(kernel := Lower(s.kernel, fd, bits));
    forall x | x in s.kernel.interest
      ensures Owned(s', x) && NotLost(s', x)
    {
      assert Owned(s, x) && NotLost(s, x);
    }
  }

  lemma EdgeKeepsInv(s: State, fd: Fd, bits: Mask)
    requires Inv(s)
    ensures Inv(Apply(s, Edge(fd, bits)).state)
    ensures Inv(Apply(s, Clear(fd, bits)).state)
  {
    EdgeKeepsKernel(s, fd, bits);
    ClearKeepsKernel(s, fd, bits);
  }

  lemma WaitKeepsKernel(s: State)
    requires KernelInv(s) && s.phase.Idle?
    ensures
      var (batch, rest) := Harvest(s.kernel, s.kernel.queue, BATCH);
      KernelInv(s.(kernel := s.kernel.(queue := rest), phase := Dispatching(batch)))
  {
    var k := s.kernel;
    var (batch, rest) := Harvest(k, k.queue, BATCH);
    var s' := s.(kernel := k.(queue := rest), phase := Dispatching(batch));
    forall fd | fd in k.interest
      ensures Owned(s', fd) && NotLost(s', fd)
    {
      assert Owned(s, fd) && NotLost(s, fd);
      if fd in k.queue {
        HarvestReports(k, k.queue, BATCH, fd);
      }
    }
  }

  lemma WaitBatchIsLive(s: State)
    requires AsyncsInv(s) && KernelInv(s) && s.phase.Idle?
    ensures forall e | e in Harvest(s.kernel, s.kernel.queue, BATCH).0 :: LiveEvent(s.asyncs, e)
  {
    var k := s.kernel;
    HarvestSources(k, k.queue, BATCH);
    forall e | e in Harvest(k, k.queue, BATCH).0
      ensures LiveEvent(s.asyncs, e)
    {
      var fd :| fd in k.queue && e == Event(Reported(k, fd), k.interest[fd].data);
      assert Owned(s, fd);
      assert Linked(k.interest, e.data, Some(fd), s.asyncs[e.data].registerFor);
    }
  }

  lemma WaitKeepsInv(s: State)
    requires Inv(s) && Enabled(s, Wait)
    ensures Inv(Apply(s, Wait).state)
  {
    WaitKeepsKernel(s);
    WaitBatchIsLive(s);
  }

  lemma DeliveredCovers(waiting: Mask, mask: Mask, ready: Mask, events: Mask, later: Mask)
    requires waiting * mask * ready <= events + later
    ensures (waiting - events) * mask * ready <= later
  {
    forall b | b in (waiting - events) * mask * ready
      ensures b in later
    {
      assert b in waiting * mask * ready;
    }
  }

  lemma DeliverKeepsKernel(s: State)
    requires KernelInv(s) && Enabled(s, Deliver) && ApplyDeliver(s).Next?
    ensures KernelInv(ApplyDeliver(s).state)
  {
    var e := s.phase.batch[0];
    var s' := ApplyDeliver(s).state;
    forall fd | fd in s.kernel.interest
      ensures Owned(s', fd) && NotLost(s', fd)
    {
      assert Owned(s, fd) && NotLost(s, fd);
      var reg := s.kernel.interest[fd];
      if reg.data == e.data && fd !in s.kernel.queue {
        DeliveredCovers(s.asyncs[reg.data].waitingFor, reg.mask, Ready(s.kernel, fd), e.events,
                        UnionFor(s.phase.batch[1..], reg.data));
      }
    }
  }

  lemma DeliverKeepsInv(s: State)
    requires Inv(s) && Enabled(s, Deliver)
    ensures Apply(s, Deliver).Next? && Inv(Apply(s, Deliver).state)
  {
    var e := s.phase.batch[0];
    assert e in s.phase.batch;
    var s' := ApplyDeliver(s).state;
    DeliveredKeepsLocal(s.asyncs[e.data], KernelMask(s, e.data), s.woken, e.events);
    UpdateAsync(s, s', e.data);
    DeliverKeepsKernel(s);
    forall x | x in s'.phase.batch
      ensures LiveEvent(s'.asyncs, x)
    {
      assert x in s.phase.batch;
    }
  }

  lemma StartKeepsAsyncs(s: State, task: Task)
    requires AsyncsInv(s) && s.phase.Idle?
    ensures AsyncsInv(StartTask(s, task))
  {
    var s' := StartTask(s, task);
    forall a | a in s'.asyncs
      ensures LocalInv(s'.asyncs[a], KernelMask(s', a), s'.woken)
      ensures Linked(s'.kernel.interest, a, s'.asyncs[a].inner, KernelMask(s', a))
    {
      assert LocalInv(s.asyncs[a], KernelMask(s, a), s.woken);
    }
  }

  lemma StartKeepsKernel(s: State, task: Task)
    requires KernelInv(s) && s.phase.Idle?
    ensures KernelInv(StartTask(s, task))
  {
    var s' := StartTask(s, task);
    forall fd | fd in s'.kernel.interest
      ensures Owned(s', fd) && NotLost(s', fd)
    {
      assert Owned(s, fd) && NotLost(s, fd);
    }
  }

  lemma StartKeepsInv(s: State, task: Task)
    requires Inv(s) && Enabled(s, Start(task))
    ensures Inv(StartTask(s, task))
  {
    StartKeepsAsyncs(s, task);
    StartKeepsKernel(s, task);
  }

  lemma StepKeepsInv(s: State, act: Action)
    requires Inv(s) && Enabled(s, act)
    ensures Apply(s, act).Next? && Inv(Apply(s, act).state)
  {
    match act {
      case Start(t) => StartKeepsInv(s, t);
      case Poll(addr, interest, op) => PollKeepsInv(s, addr, interest, op);
      case Register => RegisterKeepsInv(s);
      case Take(addr) => TakeKeepsInv(s, addr);
      case Drop(addr) => DropKeepsInv(s, addr);
      case Edge(fd, bits) => EdgeKeepsInv(s, fd, bits);
      case Clear(fd, bits) => EdgeKeepsInv(s, fd, bits);
      case Wait => WaitKeepsInv(s);
      case Deliver => DeliverKeepsInv(s);
      case _ =>
    }
  }
}
