/** The reactor and the waiters it serves, updated in place. */
module Reactors {
  import opened Masks
  import opened Wrappers
  import opened Epoll
  import opened Protocol
  import opened Readiness

  /** Something waiting for events; the kernel holds its address. */
  class Waiter {
    var waker: Option<Task>
    var registerFor: Mask
    var waitingFor: Mask

    constructor ()
      ensures waker == None && registerFor == {} && waitingFor == {}
    {
      waker, registerFor, waitingFor := None, {}, {};
    }
  }

  /** Live waiters by address: the memory the kernel's data point into. */
  type Memory = map<Addr, Waiter>

  ghost predicate Separate(memory: Memory) {
    forall a, b | a in memory && b in memory && a != b :: memory[a] != memory[b]
  }

  /** How a dispatch ends: normally, with the error of epoll_wait, or never, because there is
      nothing to report and epoll_wait was told to block. */
  datatype Dispatched = Done | Interrupted | Asleep

  lemma UnionForAppend(batch: seq<Event>, e: Event, a: Addr)
    ensures UnionFor(batch + [e], a) == UnionFor(batch, a) + (if e.data == a then e.events else {})
  {
    forall b: Bit
      ensures b in UnionFor(batch + [e], a) <==> b in UnionFor(batch, a) + (if e.data == a then e.events else {})
    {
      UnionForMembers(batch + [e], a, b);
      UnionForMembers(batch, a, b);
      assert forall x :: x in batch + [e] <==> x in batch || x == e;
    }
  }

  lemma UnionForPrefix(batch: seq<Event>, i: nat)
    requires i < |batch|
    ensures batch[..i + 1] == batch[..i] + [batch[i]]
    ensures forall a ::
      UnionFor(batch[..i + 1], a) == UnionFor(batch[..i], a) + (if batch[i].data == a then batch[i].events else {})
  {
    assert batch[..i + 1] == batch[..i] + [batch[i]];
    forall a
      ensures UnionFor(batch[..i + 1], a)
           == UnionFor(batch[..i], a) + (if batch[i].data == a then batch[i].events else {})
    {
      UnionForAppend(batch[..i], batch[i], a);
    }
  }

  class Reactor {
    /** What the epoll descriptor refers to. */
    var kernel: Kernel
    var isDispatching: bool

    constructor ()
      ensures kernel == EMPTY && !isDispatching
    {
      kernel, isDispatching := EMPTY, false;
    }

    method Add(fd: Fd, addr: Addr, waiter: Waiter) returns (ok: bool)
      modifies this`kernel
      ensures ok <==> fd !in old(kernel).interest
      ensures if ok then CtlAdd(old(kernel), fd, Registration(waiter.registerFor, addr)) == Some(kernel)
              else kernel == old(kernel)
    {
      match CtlAdd(kernel, fd, Registration(waiter.registerFor, addr))
      case None => ok := false;
      case Some(k) => kernel, ok := k, true;
    }

    method Modify(fd: Fd, addr: Addr, waiter: Waiter) returns (ok: bool)
      modifies this`kernel
      ensures ok <==> fd in old(kernel).interest
      ensures if ok then CtlMod(old(kernel), fd, Registration(waiter.registerFor, addr)) == Some(kernel)
              else kernel == old(kernel)
    {
      match CtlMod(kernel, fd, Registration(waiter.registerFor, addr))
      case None => ok := false;
      case Some(k) => kernel, ok := k, true;
    }

    method Delete(fd: Fd) returns (ok: bool)
      requires !isDispatching
      modifies this`kernel
      ensures ok <==> fd in old(kernel).interest
      ensures if ok then CtlDel(old(kernel), fd) == Some(kernel) else kernel == old(kernel)
    {
      match CtlDel(kernel, fd)
      case None => ok := false;
      case Some(k) => kernel, ok := k, true;
    }

    /** The event's datum must be the address of a live waiter. */
    static method DeliverEvent(event: Event, memory: Memory) returns (woken: set<Task>)
      requires event.data in memory
      modifies {memory[event.data]}`waitingFor
      ensures memory[event.data].waitingFor == old(memory[event.data].waitingFor) - event.events
      ensures woken == Waking(memory[event.data].waker)
    {
      var waiter := memory[event.data];
      waiter.waitingFor := waiter.waitingFor - event.events;
      woken := Waking(waiter.waker);
    }

    /** The wakers of the waiters that have an event in the batch. */
    static ghost function Wakers(memory: Memory, batch: seq<Event>): set<Task>
      reads memory.Values`waker
    {
      set e | e in batch && e.data in memory && memory[e.data].waker.Some? :: memory[e.data].waker.value
    }

    /** The delivery loop of a dispatch. */
    static method DeliverEvents(batch: seq<Event>, memory: Memory) returns (woken: set<Task>)
      requires Separate(memory) && forall e | e in batch :: e.data in memory
      modifies memory.Values`waitingFor
      ensures woken == Wakers(memory, batch)
      ensures forall a | a in memory :: memory[a].waitingFor == old(memory[a].waitingFor) - UnionFor(batch, a)
    {
      woken := {};
      var i := 0;
      while i < |batch|
        invariant 0 <= i <= |batch|
        invariant forall a | a in memory :: memory[a].waitingFor == old(memory[a].waitingFor) - UnionFor(batch[..i], a)
        invariant woken == Wakers(memory, batch[..i])
      {
        UnionForPrefix(batch, i);
        WakersAppend(memory, batch[..i], batch[i]);
        var more := DeliverEvent(batch[i], memory);
        woken := woken + more;
        i := i + 1;
      }
      assert batch[..|batch|] == batch;
    }

    static lemma WakersAppend(memory: Memory, batch: seq<Event>, e: Event)
      requires e.data in memory
      ensures Wakers(memory, batch + [e]) == Wakers(memory, batch) + Waking(memory[e.data].waker)
    {
      var l, r := Wakers(memory, batch + [e]), Wakers(memory, batch) + Waking(memory[e.data].waker);
      assert forall x :: x in batch + [e] <==> x in batch || x == e;
      assert l == r;
    }

    /** One call of epoll_wait, with room for a batch of events. */
    method EpollWait(interrupted: bool) returns (result: Dispatched, events: seq<Event>)
      requires Queueable(kernel)
      modifies this`kernel
      ensures result == Interrupted <==> interrupted
      ensures result == Done ==>
        events != [] && (events, kernel.queue) == Harvest(old(kernel), old(kernel).queue, BATCH)
      ensures |events| <= 512
      ensures result == Asleep ==> Harvest(old(kernel), old(kernel).queue, BATCH).0 == []
      ensures result != Done ==> events == [] && kernel == old(kernel)
      ensures kernel == old(kernel).(queue := kernel.queue)
      ensures forall e | e in events :: exists fd :: fd in kernel.interest && kernel.interest[fd].data == e.data
    {
      if interrupted {
        return Interrupted, [];
      }
      var (batch, rest) := Harvest(kernel, kernel.queue, BATCH);
      if batch == [] {
        return Asleep, [];
      }
      HarvestSources(kernel, kernel.queue, BATCH);
      kernel := kernel.(queue := rest);
      return Done, batch;
    }

    /** One call of epoll_wait and the delivery of everything it returned. */
    method Dispatch(memory: Memory, interrupted: bool)
      returns (result: Dispatched, woken: set<Task>, ghost batch: seq<Event>)
      requires !isDispatching
      requires Queueable(kernel) && Separate(memory)
      requires forall fd | fd in kernel.interest :: kernel.interest[fd].data in memory
      modifies this, memory.Values`waitingFor
      ensures !isDispatching
      ensures result == Interrupted <==> interrupted
      ensures result == Done ==> batch != [] && (batch, kernel.queue) == Harvest(old(kernel), old(kernel).queue, BATCH)
      ensures |batch| <= 512
      ensures result == Asleep ==> Harvest(old(kernel), old(kernel).queue, BATCH).0 == []
      ensures result != Done ==> batch == [] && kernel == old(kernel)
      ensures kernel == old(kernel).(queue := kernel.queue)
      ensures woken == Wakers(memory, batch)
      ensures forall a | a in memory :: memory[a].waitingFor == old(memory[a].waitingFor) - UnionFor(batch, a)
    {
      hide Harvest, UnionFor, Reactor.Wakers, Queueable;
      var events;
      result, events := EpollWait(interrupted);
      batch := events;
      if result != Done {
        NothingDelivered(memory);
        return result, {}, [];
      }
      isDispatching := true;
      woken := DeliverEvents(events, memory);
      isDispatching := false;
    }

    static lemma NothingDelivered(memory: Memory)
      ensures Wakers(memory, []) == {} && forall a :: UnionFor([], a) == {}
    {
    }
  }
}
