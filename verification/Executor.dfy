/** The executor's loop: run every task until all are pending and none is woken, see whether the main
    future has sent its output, and otherwise dispatch the reactor. */
module Executor {
  import opened Masks
  import opened Wrappers
  import opened Epoll
  import opened Protocol
  import opened Readiness
  import opened WakeUp
  import opened Batches
  import opened Reactors
  import opened Runtime

  type Output = nat

  /** The task of the main future, which owns the sending end of the channel. */
  const MAIN: Task := 0

  /** What happens while the pool runs: it picks a task, the task does something, the kernel acts. */
  datatype Command =
    | Begin(task: Task)
    | Pause
    | Launch(task: Task)
    | Wrap(addr: Addr, fd: Fd)
    | Try(addr: Addr, interest: Interest, op: Attempt, race: seq<Action>)
    | Extract(addr: Addr)
    | Destroy(addr: Addr)
    | Pass(acts: seq<Action>)
    | Send(output: Output)

  /** One turn of the loop: what happens until the pool stalls, what the kernel does if epoll_wait
      has to block, and whether epoll_wait fails. */
  datatype Round = Round(commands: seq<Command>, during: seq<Action>, interrupted: bool)

  /** How the loop ends: with the output, with the panic for a failed dispatch, in an endless
      epoll_wait, with a failed epoll_ctl or a stale pointer, or not within these rounds. */
  datatype End = Returned(output: Output) | Panicked | Hung | Wrong | Ongoing

  predicate Permitted(s: State, cmd: Command) {
    match cmd
    case Begin(t) => Enabled(s, Start(t))
    case Pause => Enabled(s, Suspend)
    case Launch(t) => Enabled(s, Spawn(t))
    case Wrap(a, fd) => Enabled(s, New(a, fd))
    case Try(a, interest, op, race) => Enabled(s, Poll(a, interest, op)) && KernelOnly(race)
    case Extract(a) => Enabled(s, Take(a))
    case Destroy(a) => Enabled(s, Drop(a))
    case Pass(acts) => KernelOnly(acts)
    case Send(_) => s.phase == Running(MAIN)
  }

  function Steps(s: State, cmd: Command): seq<Action>
    requires Permitted(s, cmd)
  {
    match cmd
    case Begin(t) => [Start(t)]
    case Pause => [Suspend]
    case Launch(t) => [Spawn(t)]
    case Wrap(a, fd) => [New(a, fd)]
    case Try(a, interest, op, race) => PollSteps(s, a, interest, op, race)
    case Extract(a) => [Take(a)]
    case Destroy(a) => [Drop(a)]
    case Pass(acts) => acts
    case Send(_) => []
  }

  /** None if the protocol does not allow the command or goes wrong in it. */
  function Do(s: State, cmd: Command): Option<State>
    requires Permitted(s, cmd)
  {
    if Schedule(s, Steps(s, cmd)) && Exec(s, Steps(s, cmd)).Next? then Some(Exec(s, Steps(s, cmd)).state) else None
  }

  /** The commands can be carried out one after the other, and leave every task pending and unwoken. */
  predicate Stalls(s: State, commands: seq<Command>)
    decreases commands
  {
    if commands == [] then s.phase.Idle? && s.woken == {}
    else
      Permitted(s, commands[0]) &&
      match Do(s, commands[0])
      case None => true
      case Some(s') => Stalls(s', commands[1..])
  }

  function Drive(s: State, commands: seq<Command>): Option<(State, seq<Action>)>
    requires Stalls(s, commands)
    decreases commands
  {
    if commands == [] then Some((s, []))
    else
      match Do(s, commands[0])
      case None => None
      case Some(s') =>
        match Drive(s', commands[1..])
        case None => None
        case Some((end, acts)) => Some((end, Steps(s, commands[0]) + acts))
  }

  /** What the receiver finds: the first output sent. */
  function Received(commands: seq<Command>): Option<Output> {
    if commands == [] then None
    else if commands[0].Send? then Some(commands[0].output)
    else Received(commands[1..])
  }

  /** None of the first `n` commands sends the output. */
  ghost predicate Silent(commands: seq<Command>, n: nat)
    requires n <= |commands|
  {
    forall m | 0 <= m < n :: !commands[m].Send?
  }

  /** Command `m` is the first that sends the output, and sends `v`. */
  ghost predicate Sends(commands: seq<Command>, m: nat, v: Output) {
    m < |commands| && commands[m] == Send(v) && Silent(commands, m)
  }

  /** The receiver finds the very output that was sent, or nothing if none was. */
  lemma {:induction false} ReceivedExactly(commands: seq<Command>)
    ensures match Received(commands)
            case Some(v) => exists m: nat :: Sends(commands, m, v)
            case None => Silent(commands, |commands|)
    decreases |commands|
  {
    if commands != [] {
      if commands[0].Send? {
        assert Received(commands) == Some(commands[0].output);
        assert Sends(commands, 0 as nat, Received(commands).value);
      } else {
        var rest := commands[1..];
        ReceivedExactly(rest);
        assert Received(commands) == Received(rest);
        match Received(rest)
        case Some(v) =>
          var m: nat :| Sends(rest, m, v);
          SilentLater(commands, m);
          assert Sends(commands, m + 1, v);
        case None => SilentLater(commands, |rest|);
      }
    }
  }

  lemma SilentLater(commands: seq<Command>, n: nat)
    requires commands != [] && !commands[0].Send? && n < |commands| && Silent(commands[1..], n)
    ensures Silent(commands, n + 1)
  {
    forall m | 0 <= m < n + 1
      ensures !commands[m].Send?
    {
      assert m > 0 ==> commands[m] == commands[1..][m - 1];
    }
  }

  /** One successful dispatch; the kernel acts if there is nothing to report at first.  None if there
      is nothing to report even then. */
  function DispatchOnce(s: State, during: seq<Action>): Option<(State, seq<Action>)> {
    if Enabled(s, Wait) then Some((AfterDispatch(s), DispatchSteps(s)))
    else
      var s' := s.(kernel := Stir(s.kernel, during));
      if Enabled(s', Wait) then Some((AfterDispatch(s'), during + DispatchSteps(s'))) else None
  }

  /** The state at the end, the steps that led there, and the states in which the loop slept. */
  datatype Trace = Trace(state: State, acts: seq<Action>, sleeps: seq<State>, end: End)

  predicate Lawful(s: State, rounds: seq<Round>)
    decreases rounds
  {
    rounds == [] ||
    (Stalls(s, rounds[0].commands) && KernelOnly(rounds[0].during) &&
     match Drive(s, rounds[0].commands)
     case None => true
     case Some((s1, _)) =>
       Received(rounds[0].commands).None? && !rounds[0].interrupted ==>
         match DispatchOnce(s1, rounds[0].during)
         case None => true
         case Some((s2, _)) => Lawful(s2, rounds[1..]))
  }

  function RunLoop(s: State, rounds: seq<Round>): Trace
    requires Lawful(s, rounds)
    decreases rounds
  {
    if rounds == [] then Trace(s, [], [], Ongoing)
    else
      match Drive(s, rounds[0].commands)
      case None => Trace(s, [], [], Wrong)
      case Some((s1, acts)) =>
        var received := Received(rounds[0].commands);
        if received.Some? then Trace(s1, acts, [], Returned(received.value))
        else if rounds[0].interrupted then Trace(s1, acts, [], Panicked)
        else
          var sleeps := if Enabled(s1, Wait) then [] else [s1];
          match DispatchOnce(s1, rounds[0].during)
          case None =>
            Trace(s1.(kernel := Stir(s1.kernel, rounds[0].during)), acts + rounds[0].during, sleeps, Hung)
          case Some((s2, more)) =>
            var rest := RunLoop(s2, rounds[1..]);
            Trace(rest.state, acts + more + rest.acts, sleeps + rest.sleeps, rest.end)
  }

  // ----- over whole runs -----

  lemma {:induction false} WaitsAppend(before: seq<Action>, after: seq<Action>)
    ensures Waits(before + after) == Waits(before) + Waits(after)
    decreases before
  {
    if before == [] {
      assert before + after == after;
    } else {
      WaitsAppend(before[1..], after);
      assert (before + after)[1..] == before[1..] + after;
    }
  }

  lemma {:induction false} NoWaits(acts: seq<Action>)
    requires forall act | act in acts :: !act.Wait?
    ensures Waits(acts) == 0
    decreases acts
  {
    if acts != [] {
      NoWaits(acts[1..]);
    }
  }

  lemma DoRun(s: State, cmd: Command)
    requires Reachable(s) && Permitted(s, cmd)
    ensures Do(s, cmd).Some? && Reachable(Do(s, cmd).value)
    ensures Waits(Steps(s, cmd)) == 0
  {
    NoWaits(Steps(s, cmd));
    match cmd {
      case Begin(t) => ReachStep(s, Start(t));
      case Pause => ReachStep(s, Suspend);
      case Launch(t) => ReachStep(s, Spawn(t));
      case Wrap(a, fd) => ReachStep(s, New(a, fd));
      case Try(a, interest, op, race) => PollRun(s, a, interest, op, race);
      case Extract(a) => ReachStep(s, Take(a));
      case Destroy(a) => ReachStep(s, Drop(a));
      case Pass(acts) =>
        StirRuns(s, acts);
        ReachRun(s, acts);
      case Send(_) =>
    }
  }

  lemma {:induction false} DriveRun(s: State, commands: seq<Command>)
    requires Reachable(s) && Stalls(s, commands)
    ensures Drive(s, commands).Some?
    ensures
      var (s', acts) := Drive(s, commands).value;
      && Reachable(s') && s'.phase.Idle? && s'.woken == {}
      && Schedule(s, acts) && Exec(s, acts) == Next(s') && Waits(acts) == 0
    decreases commands
  {
    if commands != [] {
      DoRun(s, commands[0]);
      var mid := Do(s, commands[0]).value;
      DriveRun(mid, commands[1..]);
      var acts := Drive(mid, commands[1..]).value.1;
      ExecAppend(s, Steps(s, commands[0]), acts);
      WaitsAppend(Steps(s, commands[0]), acts);
    }
  }

  lemma OneWait(n: nat)
    ensures Waits([Wait] + Repeat(Deliver, n) + [Finish]) == 1
  {
    var rest := Repeat(Deliver, n) + [Finish];
    forall act | act in rest
      ensures !act.Wait?
    {
      assert act in Repeat(Deliver, n) || act in [Finish];
    }
    NoWaits(rest);
    assert [Wait] + Repeat(Deliver, n) + [Finish] == [Wait] + rest;
    assert ([Wait] + rest)[1..] == rest;
  }

  lemma DispatchWaits(s: State)
    requires Queueable(s.kernel)
    ensures Waits(DispatchSteps(s)) == 1
  {
    OneWait(|Harvest(s.kernel, s.kernel.queue, BATCH).0|);
  }

  lemma DispatchOnceRun(s: State, during: seq<Action>)
    requires Reachable(s) && s.phase.Idle? && KernelOnly(during) && DispatchOnce(s, during).Some?
    ensures
      var (s', acts) := DispatchOnce(s, during).value;
      Reachable(s') && Schedule(s, acts) && Exec(s, acts) == Next(s') && Waits(acts) == 1
  {
    if Enabled(s, Wait) {
      DispatchRun(s);
      DispatchWaits(s);
    } else {
      var s' := s.(kernel := Stir(s.kernel, during));
      StirRuns(s, during);
      ReachRun(s, during);
      DispatchRun(s');
      DispatchWaits(s');
      ExecAppend(s, during, DispatchSteps(s'));
      NoWaits(during);
      WaitsAppend(during, DispatchSteps(s'));
    }
  }

  lemma SleepsIdly(s: State)
    requires Reachable(s) && s.phase.Idle? && s.woken == {} && !Enabled(s, Wait)
    ensures NothingReady(s)
  {
    forall a, b | Pollable(s, a) && b in s.asyncs[a].awaited - s.asyncs[a].missed
      ensures b !in Ready(s.kernel, s.asyncs[a].inner.value)
    {
      if b in Ready(s.kernel, s.asyncs[a].inner.value) {
        NeverSleepsOverWork(s, a, b);
      }
    }
  }

  /** Wherever the pool stalls: if the loop has to sleep there, no task awaits a bit that its file is ready
      for, unless a half-skipped poll has missed it. */
  lemma StallSleepsIdly(s: State, commands: seq<Command>)
    requires Reachable(s) && Stalls(s, commands)
    ensures Drive(s, commands).Some?
    ensures
      var s' := Drive(s, commands).value.0;
      !Enabled(s', Wait) ==> NothingReady(s')
  {
    DriveRun(s, commands);
    var s' := Drive(s, commands).value.0;
    if !Enabled(s', Wait) {
      SleepsIdly(s');
    }
  }

  /** The steps lead from one state to the other, with so many calls of epoll_wait. */
  ghost predicate Runs(s: State, acts: seq<Action>, s': State, waits: nat) {
    Reachable(s') && Schedule(s, acts) && Exec(s, acts) == Next(s') && Waits(acts) == waits
  }

  lemma RunsAppend(s: State, acts: seq<Action>, mid: State, more: seq<Action>, s': State, m: nat, n: nat)
    requires Runs(s, acts, mid, m) && Runs(mid, more, s', n)
    ensures Runs(s, acts + more, s', m + n)
  {
    ExecAppend(s, acts, more);
    WaitsAppend(acts, more);
  }

  /** What `LoopIsSafe` says of a trace over so many rounds. */
  ghost predicate Safe(s: State, t: Trace, rounds: nat) {
    && t.end != Wrong
    && Runs(s, t.acts, t.state, Waits(t.acts))
    && (t.end == Ongoing ==> Waits(t.acts) == rounds)
    && forall x | x in t.sleeps :: x.phase.Idle? && x.woken == {} && NothingReady(x)
  }

  /** However the tasks behave, the loop is a run of the protocol that never goes wrong; each turn
      that goes on makes exactly one epoll_wait; and whenever the loop sleeps, no task can be run
      and none awaits a bit that its file is ready for, unless a half-skipped poll has missed it. */
  lemma {:induction false} LoopIsSafe(s: State, rounds: seq<Round>)
    requires Reachable(s) && Lawful(s, rounds)
    ensures Safe(s, RunLoop(s, rounds), |rounds|)
    decreases rounds
  {
    if rounds != [] {
      DriveRun(s, rounds[0].commands);
      var (s1, acts) := Drive(s, rounds[0].commands).value;
      if Received(rounds[0].commands).None? && !rounds[0].interrupted {
        if !Enabled(s1, Wait) {
          SleepsIdly(s1);
        }
        match DispatchOnce(s1, rounds[0].during)
        case None => TurnHangs(s, acts, s1, rounds[0].during);
        case Some((s2, more)) =>
          DispatchOnceRun(s1, rounds[0].during);
          LoopIsSafe(s2, rounds[1..]);
          TurnGoesOn(s, acts, s1, more, s2, RunLoop(s2, rounds[1..]), |rounds| - 1);
      }
    }
  }

  /** No output was sent before this turn, and no dispatch before it failed. */
  ghost predicate Quiet(rounds: seq<Round>, turns: nat)
    requires turns <= |rounds|
  {
    forall j | 0 <= j < turns :: Silent(rounds[j].commands, |rounds[j].commands|) && !rounds[j].interrupted
  }

  /** The main future sends `v` in turn `i`, its first output, and no earlier dispatch failed. */
  ghost predicate SentIn(rounds: seq<Round>, i: nat, v: Output) {
    i < |rounds| && Quiet(rounds, i) && exists m: nat :: Sends(rounds[i].commands, m, v)
  }

  /** The dispatch of turn `i` fails, and nothing was sent until then. */
  ghost predicate FailsIn(rounds: seq<Round>, i: nat) {
    i < |rounds| && Quiet(rounds, i) && Silent(rounds[i].commands, |rounds[i].commands|) && rounds[i].interrupted
  }

  /** The loop returns at the end of the very turn in which the main future sends its output, without
      another dispatch, and returns that output; while it goes on nothing has been sent; and it hangs
      only where there is nothing to report, in the turn after as many as have dispatched. */
  lemma {:induction false} ReturnsAtOnce(s: State, rounds: seq<Round>)
    requires Reachable(s) && Lawful(s, rounds)
    ensures
      match RunLoop(s, rounds).end
      case Returned(v) =>
        exists i: nat ::
          && SentIn(rounds, i, v) && Waits(RunLoop(s, rounds).acts) == i
          && (i > 0 || s.phase != Running(MAIN) ==> Begin(MAIN) in rounds[i].commands)
      case Ongoing => Quiet(rounds, |rounds|)
      case Panicked => exists i: nat :: FailsIn(rounds, i) && Waits(RunLoop(s, rounds).acts) == i
      case Hung =>
        && !Enabled(RunLoop(s, rounds).state, Wait)
        && exists i :: 0 < i <= |rounds| && Quiet(rounds, i) && Waits(RunLoop(s, rounds).acts) == i - 1
      case Wrong => false
    decreases rounds
  {
    hide Stalls, Drive, DispatchOnce, Received, Silent;
    if rounds != [] {
      assert Quiet(rounds, 0);
      ReceivedExactly(rounds[0].commands);
      DriveRun(s, rounds[0].commands);
      var (s1, acts) := Drive(s, rounds[0].commands).value;
      if Received(rounds[0].commands).Some? {
        if s.phase != Running(MAIN) {
          SenderRan(s, rounds[0].commands);
        }
        assert SentIn(rounds, 0, Received(rounds[0].commands).value);
      } else if rounds[0].interrupted {
        assert FailsIn(rounds, 0);
      } else {
        var next := DispatchOnce(s1, rounds[0].during);
        if next.Some? {
          DispatchOnceRun(s1, rounds[0].during);
          DispatchIsIdle(s1, rounds[0].during);
          ReturnsAtOnce(next.value.0, rounds[1..]);
          QuietLater(rounds);
          var rest := RunLoop(next.value.0, rounds[1..]);
          EndsLater(rounds, rest.end);
          WaitsAppend(acts, next.value.1);
          WaitsAppend(acts + next.value.1, rest.acts);
        } else {
          HangsUnready(s1, rounds[0].during);
          NoWaits(rounds[0].during);
          WaitsAppend(acts, rounds[0].during);
          assert Quiet(rounds, 1);
        }
      }
    }
  }

  /** A return or a failure among the later turns is one among all of them. */
  lemma EndsLater(rounds: seq<Round>, end: End)
    requires rounds != [] && Silent(rounds[0].commands, |rounds[0].commands|) && !rounds[0].interrupted
    ensures end.Returned? ==>
      (forall i: nat | SentIn(rounds[1..], i, end.output) ::
        SentIn(rounds, i + 1, end.output) && rounds[i + 1] == rounds[1..][i])
    ensures forall i: nat | FailsIn(rounds[1..], i) :: FailsIn(rounds, i + 1)
  {
    QuietLater(rounds);
  }

  /** Exactly the output that was sent is returned: unless the loop hangs, it returns `v` if and only
      if the main future sends `v`, before it sends anything else and before any dispatch fails. */
  lemma ReturnsExactly(s: State, rounds: seq<Round>, v: Output)
    requires Reachable(s) && Lawful(s, rounds) && RunLoop(s, rounds).end != Hung
    ensures RunLoop(s, rounds).end == Returned(v) <==> exists i: nat :: SentIn(rounds, i, v)
  {
    hide RunLoop, Lawful;
    ReturnsAtOnce(s, rounds);
    if i: nat :| SentIn(rounds, i, v) {
      match RunLoop(s, rounds).end
      case Returned(w) =>
        var j: nat :| SentIn(rounds, j, w);
        SentOnce(rounds, i, v, j, w);
      case Panicked =>
        var j: nat :| FailsIn(rounds, j);
        FailsUnsent(rounds, i, v, j);
      case _ => SentIsNotSilent(rounds, i, v);
    }
  }

  lemma RunReturnsExactly(s: State, rounds: seq<Round>)
    requires Reachable(s) && Lawful(s, rounds)
    ensures RunLoop(s, rounds).end != Hung ==>
      forall v :: RunLoop(s, rounds).end == Returned(v) <==> exists i: nat :: SentIn(rounds, i, v)
  {
    if RunLoop(s, rounds).end != Hung {
      forall v
        ensures RunLoop(s, rounds).end == Returned(v) <==> exists i: nat :: SentIn(rounds, i, v)
      {
        ReturnsExactly(s, rounds, v);
      }
    }
  }

  lemma SentIsNotSilent(rounds: seq<Round>, i: nat, v: Output)
    requires SentIn(rounds, i, v)
    ensures !Silent(rounds[i].commands, |rounds[i].commands|)
    ensures forall j | i < j <= |rounds| :: !Quiet(rounds, j)
  {
    var m: nat :| Sends(rounds[i].commands, m, v);
    assert rounds[i].commands[m].Send?;
  }

  lemma FailsUnsent(rounds: seq<Round>, i: nat, v: Output, j: nat)
    requires SentIn(rounds, i, v)
    ensures !FailsIn(rounds, j)
  {
    SentIsNotSilent(rounds, i, v);
  }

  lemma SentOnce(rounds: seq<Round>, i: nat, v: Output, j: nat, w: Output)
    requires SentIn(rounds, i, v) && SentIn(rounds, j, w)
    ensures i == j && v == w
  {
    SentIsNotSilent(rounds, i, v);
    SentIsNotSilent(rounds, j, w);
    var m: nat :| Sends(rounds[i].commands, m, v);
    var n: nat :| Sends(rounds[j].commands, n, w);
    assert m <= n && n <= m;
  }

  lemma HangsUnready(s: State, during: seq<Action>)
    requires DispatchOnce(s, during).None?
    ensures !Enabled(s.(kernel := Stir(s.kernel, during)), Wait)
  {
  }

  lemma DispatchIsIdle(s: State, during: seq<Action>)
    requires DispatchOnce(s, during).Some?
    ensures DispatchOnce(s, during).value.0.phase.Idle?
  {
  }

  lemma OnlyBeginRuns(s: State, cmd: Command)
    requires Reachable(s) && Permitted(s, cmd) && cmd != Begin(MAIN) && s.phase != Running(MAIN)
    ensures Do(s, cmd).Some? && Do(s, cmd).value.phase != Running(MAIN)
  {
    DoRun(s, cmd);
    match cmd {
      case Begin(t) => ReachStep(s, Start(t));
      case Pause => ReachStep(s, Suspend);
      case Launch(t) => ReachStep(s, Spawn(t));
      case Wrap(a, fd) => ReachStep(s, New(a, fd));
      case Try(a, interest, op, race) => PollRun(s, a, interest, op, race);
      case Extract(a) => ReachStep(s, Take(a));
      case Destroy(a) => ReachStep(s, Drop(a));
      case Pass(acts) => StirRuns(s, acts);
      case Send(_) =>
    }
  }

  /** An output is found only if the pool has run the main future. */
  lemma {:induction false} SenderRan(s: State, commands: seq<Command>)
    requires Reachable(s) && Stalls(s, commands) && s.phase != Running(MAIN) && Received(commands).Some?
    ensures Begin(MAIN) in commands
    decreases |commands|
  {
    if commands[0] != Begin(MAIN) {
      OnlyBeginRuns(s, commands[0]);
      DoRun(s, commands[0]);
      SenderRan(Do(s, commands[0]).value, commands[1..]);
    }
  }

  lemma QuietLater(rounds: seq<Round>)
    requires rounds != [] && Silent(rounds[0].commands, |rounds[0].commands|) && !rounds[0].interrupted
    ensures forall i | 0 <= i < |rounds| && Quiet(rounds[1..], i) ::
      Quiet(rounds, i + 1) && (i + 1 < |rounds| ==> rounds[i + 1] == rounds[1..][i])
  {
    hide Silent;
    forall i | 0 <= i < |rounds| && Quiet(rounds[1..], i)
      ensures Quiet(rounds, i + 1)
    {
      forall j | 0 <= j < i + 1
        ensures Silent(rounds[j].commands, |rounds[j].commands|) && !rounds[j].interrupted
      {
        assert j > 0 ==> rounds[j] == rounds[1..][j - 1];
      }
    }
  }

  /** Every sleep is recorded: after `i` turns that went on, if turn `i` comes to a dispatch with nothing
      to report, the state it sleeps in is among the sleeps of the trace. */
  lemma {:induction false} SleepsAreRecorded(s: State, rounds: seq<Round>, i: nat)
    requires Reachable(s) && Lawful(s, rounds) && i < |rounds|
    ensures Lawful(s, rounds[..i])
    ensures
      var before := RunLoop(s, rounds[..i]);
      before.end == Ongoing ==>
        && Stalls(before.state, rounds[i].commands) && Drive(before.state, rounds[i].commands).Some?
        && var s' := Drive(before.state, rounds[i].commands).value.0;
        (Received(rounds[i].commands).None? && !rounds[i].interrupted && !Enabled(s', Wait) ==>
           s' in RunLoop(s, rounds).sleeps)
    decreases |rounds|
  {
    hide Stalls, Drive, DispatchOnce, Received;
    DriveRun(s, rounds[0].commands);
    if i == 0 {
      assert rounds[..0] == [];
    } else {
      var (s1, acts) := Drive(s, rounds[0].commands).value;
      assert rounds[..i][0] == rounds[0] && rounds[..i][1..] == rounds[1..][..i - 1];
      if Received(rounds[0].commands).None? && !rounds[0].interrupted {
        var next := DispatchOnce(s1, rounds[0].during);
        if next.Some? {
          DispatchOnceRun(s1, rounds[0].during);
          SleepsAreRecorded(next.value.0, rounds[1..], i - 1);
        }
      }
    }
  }

  lemma TurnHangs(s: State, acts: seq<Action>, s1: State, during: seq<Action>)
    requires Reachable(s1) && Runs(s, acts, s1, 0) && KernelOnly(during)
    ensures Runs(s, acts + during, s1.(kernel := Stir(s1.kernel, during)), 0)
  {
    StirRuns(s1, during);
    ReachRun(s1, during);
    NoWaits(during);
    RunsAppend(s, acts, s1, during, s1.(kernel := Stir(s1.kernel, during)), 0, 0);
  }

  lemma TurnGoesOn(s: State, acts: seq<Action>, s1: State, more: seq<Action>, s2: State, rest: Trace, n: nat)
    requires Runs(s, acts, s1, 0) && Runs(s1, more, s2, 1) && Safe(s2, rest, n)
    ensures Runs(s, acts + more + rest.acts, rest.state, 1 + Waits(rest.acts))
  {
    RunsAppend(s, acts, s1, more, s2, 0, 1);
    RunsAppend(s, acts + more, s2, rest.acts, rest.state, 1, Waits(rest.acts));
  }

  /** Progress of the loop: a value waits for a bit its file is ready for, and the file is entry
      number `k` of the ready list.  Unless the value goes away or the readiness does, the owner is
      woken, and the bit no longer waited for, within k/512 + 1 turns that dispatch. */
  lemma LoopWakes(s: State, rounds: seq<Round>, a: Addr, k: nat, b: Bit) returns (j: nat)
    requires Reachable(s) && s.phase.Idle? && Pollable(s, a)
    requires b in s.asyncs[a].waitingFor && b in Ready(s.kernel, s.asyncs[a].inner.value)
    requires k < |s.kernel.queue| && s.kernel.queue[k] == s.asyncs[a].inner.value
    requires Lawful(s, rounds) && RunLoop(s, rounds).end == Ongoing && |rounds| == k / 512 + 1
    requires forall act | act in RunLoop(s, rounds).acts :: Spares(act, a, s.asyncs[a].inner.value, b)
    ensures
      var acts := RunLoop(s, rounds).acts;
      && j <= |acts| && Schedule(s, acts[..j]) && Exec(s, acts[..j]).Next?
      && Woken(Exec(s, acts[..j]).state, a, b)
  {
    LoopIsSafe(s, rounds);
    OngoingIsIdle(s, rounds);
    j := BoundedWakeUp(s, RunLoop(s, rounds).acts, a, k, b);
  }

  lemma {:induction false} OngoingIsIdle(s: State, rounds: seq<Round>)
    requires s.phase.Idle? && Lawful(s, rounds)
    ensures RunLoop(s, rounds).end == Ongoing ==> RunLoop(s, rounds).state.phase.Idle?
    decreases rounds
  {
    if rounds != [] && Drive(s, rounds[0].commands).Some? {
      var s1 := Drive(s, rounds[0].commands).value.0;
      match DispatchOnce(s1, rounds[0].during)
      case None =>
      case Some((s2, _)) =>
        if Received(rounds[0].commands).None? && !rounds[0].interrupted {
          OngoingIsIdle(s2, rounds[1..]);
        }
    }
  }

  lemma OwnerStays(s: State, act: Action, a: Addr)
    requires Enabled(s, act) && Apply(s, act).Next? && a in s.asyncs && act != Drop(a)
    ensures a in Apply(s, act).state.asyncs && Apply(s, act).state.asyncs[a].owner == s.asyncs[a].owner
  {
    assert act.Take? || act.Drop? ==> Deregister(s, act.addr).Next?;
  }

  lemma {:induction false} OwnerStaysAlong(s: State, acts: seq<Action>, a: Addr)
    requires Schedule(s, acts) && Exec(s, acts).Next? && a in s.asyncs && Drop(a) !in acts
    ensures a in Exec(s, acts).state.asyncs && Exec(s, acts).state.asyncs[a].owner == s.asyncs[a].owner
    decreases acts
  {
    if acts != [] {
      OwnerStays(s, acts[0], a);
      OwnerStaysAlong(Apply(s, acts[0]).state, acts[1..], a);
    }
  }

  /** A woken task stays woken until it is run. */
  lemma {:induction false} WokenUntilRun(s: State, acts: seq<Action>, task: Task)
    requires Schedule(s, acts) && Exec(s, acts).Next?
    requires task in s.woken && task !in Exec(s, acts).state.woken
    ensures Start(task) in acts
    decreases acts
  {
    if acts != [] && acts[0] != Start(task) {
      assert task in Apply(s, acts[0]).state.woken;
      WokenUntilRun(Apply(s, acts[0]).state, acts[1..], task);
    }
  }

  /** ... and the owner is then run before the pool next stalls. */
  lemma LoopRunsTask(s: State, rounds: seq<Round>, commands: seq<Command>, a: Addr, k: nat, b: Bit) returns (j: nat)
    requires Reachable(s) && s.phase.Idle? && Pollable(s, a)
    requires b in s.asyncs[a].waitingFor && b in Ready(s.kernel, s.asyncs[a].inner.value)
    requires k < |s.kernel.queue| && s.kernel.queue[k] == s.asyncs[a].inner.value
    requires Lawful(s, rounds) && RunLoop(s, rounds).end == Ongoing && |rounds| == k / 512 + 1
    requires forall act | act in RunLoop(s, rounds).acts :: Spares(act, a, s.asyncs[a].inner.value, b)
    requires Stalls(RunLoop(s, rounds).state, commands)
    ensures Drive(RunLoop(s, rounds).state, commands).Some?
    ensures
      var acts := RunLoop(s, rounds).acts + Drive(RunLoop(s, rounds).state, commands).value.1;
      && j <= |acts| && Schedule(s, acts[..j]) && Exec(s, acts[..j]).Next?
      && Woken(Exec(s, acts[..j]).state, a, b)
      && Start(s.asyncs[a].owner) in acts[j..]
  {
    hide RunLoop, Lawful, Stalls, Drive, Schedule, Exec;
    var t := RunLoop(s, rounds);
    j := LoopWakes(s, rounds, a, k, b);
    LoopIsSafe(s, rounds);
    DriveRun(t.state, commands);
    var (s', more) := Drive(t.state, commands).value;
    var acts := t.acts + more;
    ExecAppend(s, t.acts, more);
    assert acts[..j] == t.acts[..j];
    ExecSplit(s, acts, j);
    OwnerStaysAlong(s, acts[..j], a) by {
      forall act | act in acts[..j] ensures act != Drop(a) {
        assert act in t.acts && Spares(act, a, s.asyncs[a].inner.value, b);
      }
    }
    WokenUntilRun(Exec(s, acts[..j]).state, acts[j..], s.asyncs[a].owner);
  }

  lemma DoStep(s: State, cmd: Command, act: Action)
    requires Reachable(s) && Permitted(s, cmd) && Steps(s, cmd) == [act] && Enabled(s, act)
    ensures Do(s, cmd).Some? && Apply(s, act) == Next(Do(s, cmd).value)
  {
    ReachStep(s, act);
  }

  method Perform(thread: Thread, cmd: Command)
    requires thread.Valid() && Permitted(thread.Abs(), cmd)
    modifies thread, thread.reactor, thread.asyncs.Values, thread.Waiters()
    ensures thread.Valid() && Do(old(thread.Abs()), cmd) == Some(thread.Abs())
    ensures forall a | a in thread.asyncs ::
      || (a in old(thread.asyncs) && thread.asyncs[a] == old(thread.asyncs)[a])
      || (fresh(thread.asyncs[a]) && fresh(thread.asyncs[a].waiter))
  {
    ghost var s := thread.Abs();
    match cmd {
      case Begin(t) =>
        DoStep(s, cmd, Start(t));
        thread.Start(t);
      case Pause =>
        DoStep(s, cmd, Suspend);
        thread.Suspend();
      case Launch(t) =>
        DoStep(s, cmd, Spawn(t));
        thread.Spawn(t);
      case Wrap(a, fd) =>
        DoStep(s, cmd, New(a, fd));
        thread.New(a, fd);
      case Try(a, interest, op, race) =>
        var _ := thread.Poll(a, interest, op, race);
      case Extract(a) =>
        DoStep(s, cmd, Take(a));
        var _ := thread.Take(a);
      case Destroy(a) =>
        DoStep(s, cmd, Drop(a));
        thread.Drop(a);
      case Pass(acts) => thread.Elapse(acts);
      case Send(_) =>
    }
  }

  /** The state in which the commands end. */
  function DriveEnd(s: State, commands: seq<Command>): Option<State>
    requires Stalls(s, commands)
  {
    match Drive(s, commands)
    case None => None
    case Some((s', _)) => Some(s')
  }

  /** Runs the pool until it stalls; `received` is the main future's output, if it was sent. */
  method RunUntilStalled(thread: Thread, commands: seq<Command>) returns (received: Option<Output>)
    requires thread.Valid() && Stalls(thread.Abs(), commands)
    modifies thread, thread.reactor, thread.asyncs.Values, thread.Waiters()
    ensures thread.Valid() && DriveEnd(old(thread.Abs()), commands) == Some(thread.Abs())
    ensures received == Received(commands)
    ensures match received
            case Some(v) => exists m: nat :: Sends(commands, m, v)
            case None => Silent(commands, |commands|)
    ensures forall x | x in thread.asyncs.Values ::
      (x in old(thread.asyncs.Values) && x.waiter in old(thread.Waiters())) || (fresh(x) && fresh(x.waiter))
  {
    received := None;
    var i := 0;
    while i < |commands|
      invariant 0 <= i <= |commands|
      invariant thread.Valid() && Stalls(thread.Abs(), commands[i..])
      invariant DriveEnd(old(thread.Abs()), commands) == DriveEnd(thread.Abs(), commands[i..])
      invariant Received(commands) == if received.Some? then received else Received(commands[i..])
      invariant forall x | x in thread.asyncs.Values ::
        (x in old(thread.asyncs.Values) && x.waiter in old(thread.Waiters())) || (fresh(x) && fresh(x.waiter))
    {
      DoRun(thread.Abs(), commands[i]);
      assert commands[i..][0] == commands[i] && commands[i..][1..] == commands[i + 1..];
      Perform(thread, commands[i]);
      if commands[i].Send? && received.None? {
        received := Some(commands[i].output);
      }
      i := i + 1;
    }
    ReceivedExactly(commands);
  }

  /** Blocks for I/O; `end` is set if epoll_wait fails or nothing ever happens. */
  method WaitForEvents(thread: Thread, round: Round) returns (end: Option<End>, ghost sleeps: seq<State>)
    requires thread.Valid() && thread.running == None && KernelOnly(round.during)
    modifies thread`woken, thread`running, thread.reactor, thread.Waiters()`waitingFor
    ensures thread.Valid()
    ensures end == if round.interrupted then Some(Panicked)
                   else if DispatchOnce(old(thread.Abs()), round.during).None? then Some(Hung) else None
    ensures sleeps == if round.interrupted || Enabled(old(thread.Abs()), Wait) then [] else [old(thread.Abs())]
    ensures thread.Abs() ==
      if round.interrupted then old(thread.Abs())
      else
        match DispatchOnce(old(thread.Abs()), round.during)
        case Some((s', _)) => s'
        case None => old(thread.Abs()).(kernel := Stir(old(thread.Abs()).kernel, round.during))
  {
    ghost var s := thread.Abs();
    var result := thread.Dispatch(round.interrupted);
    sleeps := [];
    if result == Interrupted {
      return Some(Panicked), [];
    }
    if result == Asleep {
      sleeps := [s];
      thread.Elapse(round.during);
      StirRuns(s, round.during);
      s := thread.Abs();
      result := thread.Dispatch(false);
    }
    if result == Asleep {
      return Some(Hung), sleeps;
    }
    DispatchRun(s);
    return None, sleeps;
  }

  /** The first turn of the loop over `rounds`. */
  method Turn(thread: Thread, round: Round, ghost rounds: seq<Round>)
    returns (end: Option<End>, ghost sleeps: seq<State>)
    requires thread.Valid() && rounds != [] && rounds[0] == round && Lawful(thread.Abs(), rounds)
    modifies thread, thread.reactor, thread.asyncs.Values, thread.Waiters()
    ensures thread.Valid()
    ensures
      var t := RunLoop(old(thread.Abs()), rounds);
      if end.Some? then t.state == thread.Abs() && t.end == end.value && t.sleeps == sleeps
      else
        && Lawful(thread.Abs(), rounds[1..])
        && var rest := RunLoop(thread.Abs(), rounds[1..]);
        t.state == rest.state && t.end == rest.end && t.sleeps == sleeps + rest.sleeps
    ensures forall x | x in thread.asyncs.Values ::
      (x in old(thread.asyncs.Values) && x.waiter in old(thread.Waiters())) || (fresh(x) && fresh(x.waiter))
  {
    DriveRun(thread.Abs(), round.commands);
    var received := RunUntilStalled(thread, round.commands);
    if received.Some? {
      return Some(Returned(received.value)), [];
    }
    end, sleeps := WaitForEvents(thread, round);
  }

  lemma NoMoreRounds(s: State)
    ensures Lawful(s, []) && RunLoop(s, []) == Trace(s, [], [], Ongoing)
  {
  }

  /** The loop.  Every sleep is recorded. */
  method Run(thread: Thread, rounds: seq<Round>) returns (end: End, ghost sleeps: seq<State>)
    requires thread.Valid() && Lawful(thread.Abs(), rounds)
    modifies thread, thread.reactor, thread.asyncs.Values, thread.Waiters()
    ensures thread.Valid() && end != Wrong
    ensures
      var t := RunLoop(old(thread.Abs()), rounds);
      thread.Abs() == t.state && end == t.end && sleeps == t.sleeps
    ensures forall x | x in sleeps :: x.woken == {} && NothingReady(x)
    ensures end != Hung ==> forall v :: end == Returned(v) <==> exists i: nat :: SentIn(rounds, i, v)
  {
    hide RunLoop, Lawful, NothingReady;
    ghost var start, s := thread.Abs(), thread.Abs();
    LoopIsSafe(start, rounds);
    RunReturnsExactly(start, rounds);
    sleeps := [];
    var i := 0;
    assert rounds[0..] == rounds;
    while i < |rounds|
      invariant 0 <= i <= |rounds|
      invariant thread.Valid() && thread.Abs() == s && Lawful(s, rounds[i..])
      invariant
        var t, rest := RunLoop(start, rounds), RunLoop(s, rounds[i..]);
        t.state == rest.state && t.end == rest.end && t.sleeps == sleeps + rest.sleeps
      invariant forall x | x in thread.asyncs.Values ::
        (x in old(thread.asyncs.Values) && x.waiter in old(thread.Waiters())) || (fresh(x) && fresh(x.waiter))
    {
      assert rounds[i..][0] == rounds[i] && rounds[i..][1..] == rounds[i + 1..];
      var stop;
      ghost var slept;
      stop, slept := Turn(thread, rounds[i], rounds[i..]);
      sleeps, s := sleeps + slept, thread.Abs();
      if stop.Some? {
        return stop.value, sleeps;
      }
      i := i + 1;
    }
    assert rounds[i..] == [];
    NoMoreRounds(s);
    end := Ongoing;
  }
}
