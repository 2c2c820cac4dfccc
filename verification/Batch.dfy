/** What the delivery of a batch of events does as a whole. */
module Batches {
  import opened Masks
  import opened Wrappers
  import opened Epoll
  import opened Protocol
  import opened Invariant
  import opened Readiness

  /** The wakers of the values that have an event in the batch. */
  function WakersOf(asyncs: map<Addr, AsyncState>, batch: seq<Event>): set<Task> {
    set e | e in batch && e.data in asyncs && asyncs[e.data].waker.Some? :: asyncs[e.data].waker.value
  }

  function DeliverAll(s: State, batch: seq<Event>): State {
    s.(asyncs := map a | a in s.asyncs :: Delivered(s.asyncs[a], UnionFor(batch, a)),
       woken := s.woken + WakersOf(s.asyncs, batch),
       phase := Dispatching([]))
  }

  function Repeat(act: Action, n: nat): seq<Action> {
    seq(n, _ => act)
  }

  lemma RepeatTail(act: Action, n: nat)
    requires n > 0
    ensures Repeat(act, n)[0] == act && Repeat(act, n)[1..] == Repeat(act, n - 1)
  {
  }

  lemma EmptyBatch(s: State)
    requires s.phase == Dispatching([])
    ensures DeliverAll(s, []) == s
  {
    forall a | a in s.asyncs
      ensures Delivered(s.asyncs[a], {}) == s.asyncs[a]
    {
      assert s.asyncs[a].waitingFor - {} == s.asyncs[a].waitingFor;
    }
    assert DeliverAll(s, []).asyncs == s.asyncs;
  }

  /** Delivering a batch event by event clears from each value the union of its event masks,
      wakes exactly the wakers of the values in the batch, and changes nothing else. */
  lemma {:induction false} BatchIsAFold(s: State)
    requires Inv(s) && s.phase.Dispatching?
    ensures
      var acts := Repeat(Deliver, |s.phase.batch|);
      Schedule(s, acts) && Exec(s, acts) == Next(DeliverAll(s, s.phase.batch))
    decreases if s.phase.Dispatching? then |s.phase.batch| else 0
  {
    hide DeliverAll, Inv;
    if s.phase.batch == [] {
      EmptyBatch(s);
      assert Repeat(Deliver, 0) == [];
    } else {
      StepKeepsInv(s, Deliver);
      BatchIsAFold(Apply(s, Deliver).state);
      RepeatTail(Deliver, |s.phase.batch|);
      FoldStep(s);
    }
  }

  lemma DeliveredTwice(w: AsyncState, first: Mask, second: Mask)
    ensures Delivered(Delivered(w, first), second) == Delivered(w, first + second)
  {
    assert w.waitingFor - first - second == w.waitingFor - (first + second);
  }

  lemma FoldStep(s: State)
    requires Enabled(s, Deliver) && Apply(s, Deliver).Next?
    ensures DeliverAll(Apply(s, Deliver).state, s.phase.batch[1..]) == DeliverAll(s, s.phase.batch)
  {
    var batch := s.phase.batch;
    var s' := ApplyDeliver(s).state;
    forall a | a in s.asyncs
      ensures Delivered(s'.asyncs[a], UnionFor(batch[1..], a)) == Delivered(s.asyncs[a], UnionFor(batch, a))
    {
      DeliveredTwice(s.asyncs[a], if batch[0].data == a then batch[0].events else {}, UnionFor(batch[1..], a));
    }
    assert DeliverAll(s', batch[1..]).asyncs == DeliverAll(s, batch).asyncs;
    FoldWakers(s.asyncs, s'.asyncs, batch);
  }

  lemma FoldWakers(asyncs: map<Addr, AsyncState>, asyncs': map<Addr, AsyncState>, batch: seq<Event>)
    requires batch != [] && batch[0].data in asyncs && asyncs'.Keys == asyncs.Keys
    requires forall a | a in asyncs :: asyncs'[a].waker == asyncs[a].waker
    ensures Waking(asyncs[batch[0].data].waker) + WakersOf(asyncs', batch[1..]) == WakersOf(asyncs, batch)
  {
    var l, r := Waking(asyncs[batch[0].data].waker) + WakersOf(asyncs', batch[1..]), WakersOf(asyncs, batch);
    forall t | t in l
      ensures t in r
    {
      if t in WakersOf(asyncs', batch[1..]) {
        var e :| e in batch[1..] && e.data in asyncs' && asyncs'[e.data].waker == Some(t);
        assert e in batch;
      } else {
        assert batch[0] in batch;
      }
    }
  }

  /** The order of the events in a batch does not matter. */
  lemma BatchOrderIrrelevant(s: State, batch: seq<Event>, batch': seq<Event>)
    requires forall e :: e in batch <==> e in batch'
    ensures DeliverAll(s, batch) == DeliverAll(s, batch')
  {
    forall a
      ensures UnionFor(batch, a) == UnionFor(batch', a)
    {
      forall b: Bit
        ensures b in UnionFor(batch, a) <==> b in UnionFor(batch', a)
      {
        UnionForMembers(batch, a, b);
        UnionForMembers(batch', a, b);
      }
    }
    assert WakersOf(s.asyncs, batch) == WakersOf(s.asyncs, batch');
  }
}
