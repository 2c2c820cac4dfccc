/** When a pending task is woken. */
module WakeUp {
  import opened Masks
  import opened Wrappers
  import opened Epoll
  import opened Protocol
  import opened Invariant
  import opened Readiness

  /** How many entries precede `fd` on the list. */
  function Position(queue: seq<Fd>, fd: Fd): nat {
    if queue == [] || queue[0] == fd then 0 else 1 + Position(queue[1..], fd)
  }

  lemma {:induction false} PositionAt(queue: seq<Fd>, k: nat)
    requires k < |queue|
    ensures Position(queue, queue[k]) <= k
  {
    if k > 0 {
      PositionAt(queue[1..], k - 1);
    }
  }

  lemma {:induction false} EnqueueKeepsPlace(queue: seq<Fd>, x: Fd, fd: Fd)
    requires fd in queue
    ensures fd in Enqueue(queue, x) && Position(queue + [x], fd) == Position(queue, fd)
  {
    if queue[0] != fd {
      assert fd in queue[1..];
      EnqueueKeepsPlace(queue[1..], x, fd);
      assert (queue + [x])[1..] == queue[1..] + [x];
    }
  }

  lemma {:induction false} DequeueKeepsPlace(queue: seq<Fd>, x: Fd, fd: Fd)
    requires fd in queue && x != fd
    ensures fd in Dequeue(queue, x) && Position(Dequeue(queue, x), fd) <= Position(queue, fd)
  {
    DequeueMembers(queue, x);
    if queue[0] != fd {
      assert fd in queue[1..];
      DequeueKeepsPlace(queue[1..], x, fd);
    }
  }

  /** A file left on the list by a harvest has moved at least `max` places forward. */
  lemma {:induction false} HarvestMovesForward(k: Kernel, queue: seq<Fd>, max: nat, fd: Fd)
    requires forall x | x in queue :: x in k.interest
    requires NoDuplicates(queue) && fd in Harvest(k, queue, max).1
    ensures Position(Harvest(k, queue, max).1, fd) + max <= Position(queue, fd)
  {
    if max != 0 {
      var max' := if Reported(k, queue[0]) == {} then max else max - 1;
      var rest := Harvest(k, queue[1..], max').1;
      assert rest == queue[1..][|queue| - 1 - |rest|..];
      HarvestMovesForward(k, queue[1..], max', fd);
    }
  }

  /** The value at `a` waits for `b`, its file `fd` is ready for it, and the event is in the batch
      being delivered or among the first `n` entries of the ready list. */
  ghost predicate Coming(s: State, a: Addr, fd: Fd, b: Bit, n: nat) {
    && a in s.asyncs && s.asyncs[a].inner == Some(fd)
    && b in s.asyncs[a].waitingFor
    && b in KernelMask(s, a)
    && b in Ready(s.kernel, fd)
    && (b in UnionFor(Undelivered(s), a) || (fd in s.kernel.queue && Position(s.kernel.queue, fd) < n))
  }

  /** The step leaves the file and the readiness of `b` alone. */
  predicate Spares(act: Action, a: Addr, fd: Fd, b: Bit) {
    match act
    case Take(x) => x != a
    case Drop(x) => x != a
    case Clear(x, bits) => x != fd || b !in bits
    case _ => true
  }

  /** The event has been delivered: `b` is no longer waited for and the owner is woken. */
  ghost predicate Woken(s: State, a: Addr, b: Bit) {
    a in s.asyncs && b !in s.asyncs[a].waitingFor && s.asyncs[a].owner in s.woken
  }

  lemma HarvestBrings(k: Kernel, a: Addr, fd: Fd, b: Bit)
    requires Queueable(k) && NoDuplicates(k.queue) && fd in k.queue
    requires k.interest[fd].data == a && b in k.interest[fd].mask && b in Ready(k, fd)
    ensures
      var (batch, rest) := Harvest(k, k.queue, BATCH);
      b in UnionFor(batch, a) || (fd in rest && Position(rest, fd) + BATCH <= Position(k.queue, fd))
  {
    HarvestReports(k, k.queue, BATCH, fd);
    if fd in Harvest(k, k.queue, BATCH).1 {
      HarvestMovesForward(k, k.queue, BATCH, fd);
    } else {
      assert b in Reported(k, fd);
    }
  }

  lemma WaitBringsCloser(s: State, a: Addr, fd: Fd, b: Bit, n: nat)
    requires AsyncsInv(s) && Queueable(s.kernel) && NoDuplicates(s.kernel.queue)
    requires Enabled(s, Wait) && Coming(s, a, fd, b, n)
    ensures Coming(Apply(s, Wait).state, a, fd, b, if n > BATCH then n - BATCH else 0)
  {
    assert Linked(s.kernel.interest, a, Some(fd), KernelMask(s, a));
    HarvestBrings(s.kernel, a, fd, b);
  }

  lemma PollKeepsComing(s: State, a: Addr, fd: Fd, b: Bit, n: nat, x: Addr, interest: Interest, op: Attempt)
    requires Inv(s) && Enabled(s, Poll(x, interest, op)) && Coming(s, a, fd, b, n)
    ensures Coming(ApplyPoll(s, x, interest, op), a, fd, b, n)
  {
    var s' := ApplyPoll(s, x, interest, op);
    if x == a && !Skips(s.asyncs[a], interest) {
      assert op.GoesAhead? ==> b !in op.used by {
        assert b !in AsEvents(interest) * s.asyncs[a].waitingFor;
      }
    } else if x != a {
      assert s.asyncs[x].inner != s.asyncs[a].inner;
    }
  }

  lemma DeliverKeepsComing(s: State, a: Addr, fd: Fd, b: Bit, n: nat)
    requires Inv(s) && Enabled(s, Deliver) && Coming(s, a, fd, b, n)
    ensures Apply(s, Deliver).Next?
    ensures var s' := Apply(s, Deliver).state; Coming(s', a, fd, b, n) || Woken(s', a, b)
  {
    StepKeepsInv(s, Deliver);
    assert LocalInv(s.asyncs[a], KernelMask(s, a), s.woken);
  }

  lemma StepKeepsComing(s: State, act: Action, a: Addr, fd: Fd, b: Bit, n: nat)
    requires Inv(s) && Enabled(s, act) && !act.Wait? && Coming(s, a, fd, b, n) && Spares(act, a, fd, b)
    ensures Apply(s, act).Next?
    ensures var s' := Apply(s, act).state; Coming(s', a, fd, b, n) || Woken(s', a, b)
  {
    StepKeepsInv(s, act);
    match act {
      case Poll(x, interest, op) => PollKeepsComing(s, a, fd, b, n, x, interest, op);
      case Deliver => DeliverKeepsComing(s, a, fd, b, n);
      case _ => OtherStepKeepsComing(s, act, a, fd, b, n);
    }
  }

  lemma OtherStepKeepsComing(s: State, act: Action, a: Addr, fd: Fd, b: Bit, n: nat)
    requires DistinctFiles(s.asyncs) && Enabled(s, act) && Coming(s, a, fd, b, n) && Spares(act, a, fd, b)
    requires !act.Wait? && !act.Poll? && !act.Deliver? && Apply(s, act).Next?
    requires act.Register? ==> s.phase.already <= s.asyncs[s.phase.addr].registerFor
    ensures Coming(Apply(s, act).state, a, fd, b, n)
  {
    match act {
      case Register => EnqueueKeepsComing(s.kernel.queue, s.asyncs[s.phase.addr].inner.value, fd);
      case Edge(x, _) => EnqueueKeepsComing(s.kernel.queue, x, fd);
      case Take(x) => DeregisterKeepsPlace(s, x, a, fd);
      case Drop(x) => DeregisterKeepsPlace(s, x, a, fd);
      case _ =>
    }
  }

  lemma EnqueueKeepsComing(queue: seq<Fd>, x: Fd, fd: Fd)
    ensures fd in queue ==> fd in Enqueue(queue, x) && Position(Enqueue(queue, x), fd) == Position(queue, fd)
  {
    if fd in queue {
      EnqueueKeepsPlace(queue, x, fd);
    }
  }

  lemma DeregisterKeepsPlace(s: State, x: Addr, a: Addr, fd: Fd)
    requires DistinctFiles(s.asyncs) && x in s.asyncs && x != a && a in s.asyncs && s.asyncs[a].inner == Some(fd)
    requires Deregister(s, x).Next?
    ensures
      var queue' := Deregister(s, x).state.kernel.queue;
      fd in s.kernel.queue ==> fd in queue' && Position(queue', fd) <= Position(s.kernel.queue, fd)
  {
    if fd in s.kernel.queue && s.asyncs[x].inner.Some? {
      DequeueKeepsPlace(s.kernel.queue, s.asyncs[x].inner.value, fd);
    }
  }

  function Waits(acts: seq<Action>): nat
    decreases acts
  {
    if acts == [] then 0 else (if acts[0].Wait? then 1 else 0) + Waits(acts[1..])
  }

  lemma {:induction false} ComingArrives(s: State, acts: seq<Action>, a: Addr, fd: Fd, b: Bit, n: nat) returns (j: nat)
    requires Inv(s) && Schedule(s, acts) && Coming(s, a, fd, b, n)
    requires forall act | act in acts :: Spares(act, a, fd, b)
    requires Waits(acts) * BATCH >= n && Exec(s, acts).Next? && !Exec(s, acts).state.phase.Dispatching?
    ensures j <= |acts| && Schedule(s, acts[..j]) && Exec(s, acts[..j]).Next?
    ensures Woken(Exec(s, acts[..j]).state, a, b)
    decreases acts
  {
    if acts == [] {
      assert false;
    } else {
      StepKeepsInv(s, acts[0]);
      var s', rest := Apply(s, acts[0]).state, acts[1..];
      var i: nat;
      if acts[0].Wait? {
        WaitBringsCloser(s, a, fd, b, n);
        i := ComingArrives(s', rest, a, fd, b, if n > BATCH then n - BATCH else 0);
      } else {
        StepKeepsComing(s, acts[0], a, fd, b, n);
        if Woken(s', a, b) {
          i := 0;
        } else {
          i := ComingArrives(s', rest, a, fd, b, n);
        }
      }
      j := i + 1;
      PrefixRuns(s, acts, i);
    }
  }

  lemma PrefixRuns(s: State, acts: seq<Action>, i: nat)
    requires acts != [] && Enabled(s, acts[0]) && Apply(s, acts[0]).Next? && i < |acts|
    requires Schedule(Apply(s, acts[0]).state, acts[1..][..i])
    ensures Schedule(s, acts[..i + 1])
    ensures Exec(s, acts[..i + 1]) == Exec(Apply(s, acts[0]).state, acts[1..][..i])
  {
    assert acts[..i + 1][0] == acts[0] && acts[..i + 1][1..] == acts[1..][..i];
  }

  /** Bounded wake-up: a value waits for a bit its file is ready for, and the file is entry number
      `k` of the ready list.  Unless the value goes away or the readiness does, every run
      with k/512 + 1 completed dispatches delivers the event and wakes the owner on the way. */
  lemma BoundedWakeUp(s: State, acts: seq<Action>, a: Addr, k: nat, b: Bit) returns (j: nat)
    requires Reachable(s) && !s.phase.Registering? && Pollable(s, a)
    requires b in s.asyncs[a].waitingFor && b in Ready(s.kernel, s.asyncs[a].inner.value)
    requires k < |s.kernel.queue| && s.kernel.queue[k] == s.asyncs[a].inner.value
    requires Schedule(s, acts) && Exec(s, acts).Next? && !Exec(s, acts).state.phase.Dispatching?
    requires forall act | act in acts :: Spares(act, a, s.asyncs[a].inner.value, b)
    requires Waits(acts) >= k / 512 + 1
    ensures j <= |acts| && Schedule(s, acts[..j]) && Exec(s, acts[..j]).Next?
    ensures Woken(Exec(s, acts[..j]).state, a, b)
  {
    ReachableInv(s);
    assert LocalInv(s.asyncs[a], KernelMask(s, a), s.woken);
    PositionAt(s.kernel.queue, k);
    j := ComingArrives(s, acts, a, s.asyncs[a].inner.value, b, k + 1);
  }

  /** The step is not a poll of the value for `b`, and leaves the value in place. */
  predicate LeavesAlone(act: Action, a: Addr, b: Bit) {
    match act
    case Poll(x, interest, _) => x != a || b !in AsEvents(interest)
    case Take(x) => x != a
    case Drop(x) => x != a
    case _ => true
  }

  lemma StaysDelivered(s: State, act: Action, a: Addr, b: Bit)
    requires Enabled(s, act) && Apply(s, act).Next? && LeavesAlone(act, a, b)
    requires a in s.asyncs && b !in s.asyncs[a].waitingFor
    ensures a in Apply(s, act).state.asyncs && b !in Apply(s, act).state.asyncs[a].waitingFor
  {
    assert act.Take? || act.Drop? ==> Deregister(s, act.addr).Next?;
  }

  lemma {:induction false} StaysLifted(s: State, acts: seq<Action>, a: Addr, b: Bit)
    requires Inv(s) && a in s.asyncs && b !in s.asyncs[a].waitingFor
    requires Schedule(s, acts) && forall act | act in acts :: LeavesAlone(act, a, b)
    ensures Exec(s, acts).Next? && a in Exec(s, acts).state.asyncs
    ensures b !in Exec(s, acts).state.asyncs[a].waitingFor
    decreases acts
  {
    if acts != [] {
      StepKeepsInv(s, acts[0]);
      var s' := Apply(s, acts[0]).state;
      StaysDelivered(s, acts[0], a, b);
      StaysLifted(s', acts[1..], a, b);
    }
  }

  /** Once its event is delivered, however the run goes on, the next poll of the value for that
      one bit tries the operation. */
  lemma NextPollTries(s: State, acts: seq<Action>, a: Addr, interest: Interest, b: Bit)
    requires Inv(s) && a in s.asyncs && b !in s.asyncs[a].waitingFor && AsEvents(interest) == {b}
    requires Schedule(s, acts) && forall act | act in acts :: LeavesAlone(act, a, b)
    ensures Exec(s, acts).Next? && a in Exec(s, acts).state.asyncs
    ensures !Skips(Exec(s, acts).state.asyncs[a], interest)
  {
    StaysLifted(s, acts, a, b);
  }

  /** After `i` of the steps `b` is no longer waited for, and a poll for the interest is skipped exactly
      if another bit of it is. */
  ghost predicate LiftedAt(s: State, acts: seq<Action>, i: nat, a: Addr, interest: Interest, b: Bit) {
    && i <= |acts| && Schedule(s, acts[..i]) && Exec(s, acts[..i]).Next?
    && a in Exec(s, acts[..i]).state.asyncs
    && var w := Exec(s, acts[..i]).state.asyncs[a];
    && b !in w.waitingFor
    && (Skips(w, interest) <==> (AsEvents(interest) - {b}) * w.waitingFor != {})
    && (AsEvents(interest) == {b} ==> !Skips(w, interest))
  }

  /** None of the steps from `j` to `i` polls the value for `b`, takes its file or drops it. */
  ghost predicate Untouched(acts: seq<Action>, j: nat, i: nat, a: Addr, b: Bit)
    requires i <= |acts|
  {
    forall m | j <= m < i :: LeavesAlone(acts[m], a, b)
  }

  lemma LiftedUntil(s: State, acts: seq<Action>, j: nat, i: nat, a: Addr, interest: Interest, b: Bit)
    requires Reachable(s) && Schedule(s, acts) && Exec(s, acts).Next? && j <= i <= |acts|
    requires Schedule(s, acts[..j]) && Exec(s, acts[..j]).Next? && Woken(Exec(s, acts[..j]).state, a, b)
    requires Untouched(acts, j, i, a, b)
    ensures LiftedAt(s, acts, i, a, interest, b)
  {
    ReachableInv(s);
    ExecSplit(s, acts, i);
    ExecSplit(s, acts[..i], j);
    assert acts[..i][..j] == acts[..j] && acts[..i][j..] == acts[j..i];
    RunKeepsInv(s, acts[..j]);
    StaysLifted(Exec(s, acts[..j]).state, acts[j..i], a, b);
    var w := Exec(s, acts[..i]).state.asyncs[a];
    assert AsEvents(interest) * w.waitingFor == (AsEvents(interest) - {b}) * w.waitingFor;
  }
}
