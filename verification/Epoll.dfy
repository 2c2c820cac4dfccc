/** The 32-bit readiness masks of the epoll interface.  A word is written as the set of the
    positions of its one bits, so `a & b`, `a | b` and `a & !b` are `*`, `+` and `-`. */
module Masks {
  type Bit = n: nat | n < 32
  type Mask = set<Bit>

  const IN_BIT: Bit := 0
  const OUT_BIT: Bit := 2

  const EPOLLIN: Mask := {IN_BIT}    // 0x1
  const EPOLLOUT: Mask := {OUT_BIT}  // 0x4
  const EPOLLERR: Mask := {3}        // 0x8
  const EPOLLHUP: Mask := {4}        // 0x10
  const EPOLLET: Mask := {31}        // 0x8000_0000

  /** The kind of readiness an operation needs. */
  datatype Interest = Read | Write | ReadWrite

  function AsEvents(interest: Interest): Mask {
    match interest
    case Read => EPOLLIN
    case Write => EPOLLOUT
    case ReadWrite => EPOLLIN + EPOLLOUT
  }
}

/** What the program relies on from one epoll instance, as a value.  This is the
    environment of the program, not part of it. */
module Epoll {
  import opened Masks
  import opened Wrappers

  type Fd = nat
  /** The 64-bit datum stored with a registration: the address of a waiter. */
  type Addr = nat

  datatype Registration = Registration(mask: Mask, data: Addr)
  datatype Event = Event(events: Mask, data: Addr)

  /** `ready` is what each file can do right now; `queue` is the ready list, in order. */
  datatype Kernel = Kernel(interest: map<Fd, Registration>, ready: map<Fd, Mask>, queue: seq<Fd>)

  const EMPTY := Kernel(map[], map[], [])

  function Ready(k: Kernel, fd: Fd): Mask {
    if fd in k.ready then k.ready[fd] else {}
  }

  /** The events epoll would report for a registered file now.  Errors and hang-ups are
      reported whether or not they were asked for. */
  function Reported(k: Kernel, fd: Fd): Mask
    requires fd in k.interest
  {
    Ready(k, fd) * (k.interest[fd].mask + EPOLLERR + EPOLLHUP)
  }

  function Enqueue(queue: seq<Fd>, fd: Fd): seq<Fd> {
    if fd in queue then queue else queue + [fd]
  }

  function Dequeue(queue: seq<Fd>, fd: Fd): seq<Fd> {
    if queue == [] then []
    else if queue[0] == fd then Dequeue(queue[1..], fd)
    else [queue[0]] + Dequeue(queue[1..], fd)
  }

  /** After ADD and MOD the kernel looks at the file once, under the new mask. */
  function Recheck(k: Kernel, fd: Fd): Kernel
    requires fd in k.interest
  {
    if Reported(k, fd) != {} then k.(queue := Enqueue(k.queue, fd)) else k
  }

  /** EPOLL_CTL_ADD; refused when the file is already registered. */
  function CtlAdd(k: Kernel, fd: Fd, reg: Registration): Option<Kernel> {
    if fd in k.interest then None
    else Some(Recheck(k.(interest := k.interest[fd := reg]), fd))
  }

  /** EPOLL_CTL_MOD; refused when the file is not registered. */
  function CtlMod(k: Kernel, fd: Fd, reg: Registration): Option<Kernel> {
    if fd !in k.interest then None
    else Some(Recheck(k.(interest := k.interest[fd := reg]), fd))
  }

  /** EPOLL_CTL_DEL; refused when the file is not registered. */
  function CtlDel(k: Kernel, fd: Fd): Option<Kernel> {
    if fd !in k.interest then None
    else Some(k.(interest := k.interest - {fd}, queue := Dequeue(k.queue, fd)))
  }

  /** The file becomes ready for `bits`; a registered file that asked for one of them is queued. */
  function RaiseEdge(k: Kernel, fd: Fd, bits: Mask): Kernel {
    var k' := k.(ready := k.ready[fd := Ready(k, fd) + bits]);
    if fd in k.interest && bits * (k.interest[fd].mask + EPOLLERR + EPOLLHUP) != {}
    then k'.(queue := Enqueue(k.queue, fd))
    else k'
  }

  /** The file stops being ready for `bits`. */
  function Lower(k: Kernel, fd: Fd, bits: Mask): Kernel {
    k.(ready := k.ready[fd := Ready(k, fd) - bits])
  }

  /** What epoll_wait takes off the ready list: at most `max` events, in order; a file that
      is no longer ready is taken off without being reported.  The rest of the list is what stays. */
  function Harvest(k: Kernel, queue: seq<Fd>, max: nat): (r: (seq<Event>, seq<Fd>))
    requires forall fd | fd in queue :: fd in k.interest
    ensures |r.0| <= max
    ensures |r.1| <= |queue| && r.1 == queue[|queue| - |r.1|..]
    decreases queue
  {
    if queue == [] || max == 0 then ([], queue)
    else
      var fd := queue[0];
      var events := Reported(k, fd);
      if events == {} then Harvest(k, queue[1..], max)
      else
        var rest := Harvest(k, queue[1..], max - 1);
        ([Event(events, k.interest[fd].data)] + rest.0, rest.1)
  }

  /** The union of the masks of the events that carry `data`. */
  function UnionFor(batch: seq<Event>, data: Addr): Mask {
    if batch == [] then {}
    else (if batch[0].data == data then batch[0].events else {}) + UnionFor(batch[1..], data)
  }

  ghost predicate NoDuplicates(queue: seq<Fd>) {
    forall i, j | 0 <= i < j < |queue| :: queue[i] != queue[j]
  }

  lemma {:induction false} DequeueMembers(queue: seq<Fd>, fd: Fd)
    ensures forall x :: x in Dequeue(queue, fd) <==> x in queue && x != fd
    ensures NoDuplicates(queue) ==> NoDuplicates(Dequeue(queue, fd))
    ensures |Dequeue(queue, fd)| <= |queue|
  {
    if queue != [] {
      DequeueMembers(queue[1..], fd);
      if NoDuplicates(queue) {
        assert queue[0] !in queue[1..];
        assert queue[0] !in Dequeue(queue[1..], fd);
      }
    }
  }

  /** Every file taken off the list was reported in full, or had nothing to report. */
  lemma {:induction false} HarvestReports(k: Kernel, queue: seq<Fd>, max: nat, fd: Fd)
    requires forall x | x in queue :: x in k.interest
    requires fd in queue
    ensures
      var (batch, rest) := Harvest(k, queue, max);
      fd in rest || Reported(k, fd) <= UnionFor(batch, k.interest[fd].data)
  {
    if max != 0 {
      var events := Reported(k, queue[0]);
      if queue[0] != fd {
        HarvestReports(k, queue[1..], if events == {} then max else max - 1, fd);
      }
      if events != {} {
        var (batch, rest) := Harvest(k, queue[1..], max - 1);
        var (full, _) := Harvest(k, queue, max);
        assert full[0] == Event(events, k.interest[queue[0]].data) && full[1..] == batch;
      }
    }
  }

  /** Every reported event carries the datum of a file that was on the list. */
  lemma {:induction false} HarvestSources(k: Kernel, queue: seq<Fd>, max: nat)
    requires forall x | x in queue :: x in k.interest
    ensures forall e | e in Harvest(k, queue, max).0 ::
      exists fd :: fd in queue && e == Event(Reported(k, fd), k.interest[fd].data) && e.events != {}
  {
    if queue != [] && max != 0 {
      var events := Reported(k, queue[0]);
      HarvestSources(k, queue[1..], if events == {} then max else max - 1);
    }
  }
}
