/**
 * The wake-up protocol between a manager and the router: the manager publishes an event in its
 * queue and then fires a PipedEvent, a flag in front of a pipe; the router, when the pipe is
 * readable, first consumes the event and then drains the queue. The queue is the machine of
 * SpscQueue, step by step. epoll is a readiness test and the pipe a number of bytes. Fire and Consume
 * do nothing when the pipe's source is descriptor zero, as it is when the process starts without a
 * standard input.
 */
module WakeUp {
  import Q = SpscQueue
  import Calls = SpscCalls

  datatype Manager =
    | Out
    | Pushing
      // Fire: before loading the flag, before setting it, before writing the byte
    | CheckFired
    | SetFired
    | WriteByte

  datatype Router =
    | Waiting
      // Consume: before loading the flag, before reading the byte, before clearing the flag
    | CheckFlag
    | ReadByte
    | ClearFlag
    | Draining

  /** `source` is the descriptor of the reading end, which does not change. */
  datatype State = State(q: Q.State, source: int, fired: bool, bytes: nat, manager: Manager, router: Router)

  ghost predicate Init(s: State)
  {
    Q.Init(s.q) && !s.fired && s.bytes == 0 && s.manager == Out && s.router == Waiting
  }

  ghost predicate Emit(s: State, s': State, v: Q.Value)
  {
    s.manager == Out && Q.StartPush(s.q, s'.q, v, false) && s' == s.(q := s'.q, manager := Pushing)
  }

  /** After a push the event is fired; after a drop it is not. */
  function AfterPush(q: Q.State, q': Q.State): Manager
  {
    if q'.ppc != Q.Ready then Pushing else if |q'.pushed| > |q.pushed| then CheckFired else Out
  }

  ghost predicate Manage(s: State, s': State)
  {
    match s.manager
    case Out => false
    case Pushing => Q.Produce(s.q, s'.q) && s' == s.(q := s'.q, manager := AfterPush(s.q, s'.q))
    case CheckFired => s' == s.(manager := if s.source == 0 || s.fired then Out else SetFired)
    case SetFired => s' == s.(fired := true, manager := WriteByte)
    case WriteByte => s' == s.(bytes := s.bytes + 1, manager := Out)
  }

  ghost predicate Route(s: State, s': State)
  {
    match s.router
    case Waiting => s.bytes > 0 && s' == s.(router := CheckFlag)
    case CheckFlag => s' == s.(router := if s.source != 0 && s.fired then ReadByte else Draining)
      // reading an empty pipe would block
    case ReadByte => s.bytes > 0 && s' == s.(bytes := s.bytes - 1, router := ClearFlag)
    case ClearFlag => s' == s.(fired := false, router := Draining)
    case Draining =>
      if s.q.cpc == Q.Away then
        Q.CheckEmpty(s.q, s'.q) && s' == s.(q := s'.q, router := if s'.q.cpc == Q.NotEmpty then Draining else Waiting)
      else Q.Consume(s.q, s'.q) && s' == s.(q := s'.q)
  }

  ghost predicate Step(s: State, s': State)
  {
    (exists v :: Emit(s, s', v)) || Manage(s, s') || Route(s, s')
  }

  ghost predicate IsRun(run: seq<State>)
  {
    && |run| > 0
    && Init(run[0])
    && forall i :: 0 <= i < |run| - 1 ==> Step(run[i], run[i + 1])
  }

  // ------------------------------------------------------------------------------------------
  // The invariant
  // ------------------------------------------------------------------------------------------

  predicate Firing(m: Manager) { m == CheckFired || m == SetFired || m == WriteByte }

  /** The flag and the pipe agree except between the two writes of Fire and of Consume. */
  predicate FlagOk(fired: bool, bytes: nat, m: Manager, r: Router)
  {
    && bytes == (if fired && m != WriteByte && r != ClearFlag then 1 else 0)
    && (m == SetFired ==> !fired) && (m == WriteByte ==> fired)
    && (r == CheckFlag || r == ReadByte ==> bytes == 1)
    && (r == ClearFlag ==> fired && m != WriteByte)
  }

  predicate QueueOk(q: Q.State, m: Manager, r: Router)
  {
    && (q.ppc == Q.Ready <==> m != Pushing)
    && (r != Draining ==> q.cpc == Q.Away)
    && (m == Pushing && q.ppc.LoadRead? ==> !q.ppc.spin)
  }

  /** While the router waits, a queued event has a byte in the pipe or a manager still firing. */
  predicate Covered(q: Q.State, bytes: nat, m: Manager, r: Router)
  {
    r == Waiting && |q.popped| < |q.pushed| ==> bytes == 1 || Firing(m)
  }

  ghost predicate Inv(s: State)
  {
    && Q.Inv(s.q)
    && FlagOk(s.fired, s.bytes, s.manager, s.router)
    && QueueOk(s.q, s.manager, s.router)
    && (s.source != 0 ==> Covered(s.q, s.bytes, s.manager, s.router))
  }

  lemma ManageKeeps(s: State, s': State)
    requires Inv(s) && (Manage(s, s') || exists v :: Emit(s, s', v))
    ensures Inv(s')
  {
    hide Q.Inv;
    if v :| Emit(s, s', v) {
      Q.StartKeeps(s.q, s'.q, v, false);
    } else if s.manager == Pushing {
      Q.ProduceKeeps(s.q, s'.q);
    }
  }

  lemma CheckEmptyTells(q: Q.State, q': Q.State)
    requires Q.Inv(q) && Q.CheckEmpty(q, q')
    ensures Q.Inv(q') && (q'.cpc == Q.NotEmpty <==> |q.popped| < |q.pushed|) && |q.popped| <= |q.pushed|
  {
    var R: nat, W: nat :| Q.Good(q, R, W);
    Q.CheckEmptyKeeps(q, q', R, W);
  }

  lemma RouteKeeps(s: State, s': State)
    requires Inv(s) && Route(s, s')
    ensures Inv(s')
  {
    hide Q.Inv;
    if s.router == Draining {
      if s.q.cpc == Q.Away {
        CheckEmptyTells(s.q, s'.q);
      } else {
        Q.ConsumeKeeps(s.q, s'.q);
      }
    }
  }

  lemma StepKeeps(s: State, s': State)
    requires Inv(s) && Step(s, s')
    ensures Inv(s')
  {
    hide Inv;
    if Route(s, s') {
      RouteKeeps(s, s');
    } else {
      ManageKeeps(s, s');
    }
  }

  lemma {:induction false} RunKeeps(run: seq<State>, i: nat)
    requires IsRun(run) && i < |run|
    ensures Inv(run[i])
  {
    hide Q.Inv, Q.Init, Step;
    if i == 0 {
      Q.InitKeeps(run[0].q);
      StartsEmpty(run[0].q);
    } else {
      RunKeeps(run, i - 1);
      StepKeeps(run[i - 1], run[i]);
    }
  }

  lemma StartsEmpty(q: Q.State)
    requires Q.Init(q)
    ensures q.ppc == Q.Ready && q.cpc == Q.Away && q.pushed == [] && q.popped == []
  {
  }

  // ------------------------------------------------------------------------------------------
  // What the protocol promises
  // ------------------------------------------------------------------------------------------

  /** The pipe holds at most one byte, so Fire never fills it. */
  lemma AtMostOneByte(run: seq<State>, i: nat)
    requires IsRun(run) && i < |run|
    ensures run[i].bytes <= 1
  {
    hide Q.Inv, Step, Init;
    RunKeeps(run, i);
  }

  /** Consume finds the flag set and never reads an empty pipe. */
  lemma ConsumeNeverBlocks(run: seq<State>, i: nat)
    requires IsRun(run) && i < |run|
    ensures run[i].router == CheckFlag ==> run[i].fired
    ensures run[i].router == ReadByte ==> run[i].bytes == 1
  {
    hide Q.Inv, Step, Init;
    RunKeeps(run, i);
  }

  lemma IdleIsCovered(s: State)
    requires Inv(s) && s.source != 0 && s.manager == Out && s.router == Waiting
    ensures s.q.pushed != s.q.popped ==> s.bytes == 1
    ensures s.bytes == 0 ==> s.q.popped == s.q.pushed
  {
    hide Q.Inv;
    PoppedIsPrefix(s.q);
  }

  /** No lost wake-up: with both sides idle, a queued event means an unread byte, which wakes the router. */
  lemma NoLostWakeUp(run: seq<State>, i: nat)
    requires IsRun(run) && i < |run| && run[i].source != 0 && run[i].manager == Out && run[i].router == Waiting
    ensures run[i].q.pushed != run[i].q.popped ==> run[i].bytes == 1 && Route(run[i], run[i].(router := CheckFlag))
    ensures run[i].bytes == 0 ==> run[i].q.popped == run[i].q.pushed
  {
    hide Step, Init, Inv;
    RunKeeps(run, i);
    IdleIsCovered(run[i]);
  }

  /** Emit can begin with any event, and fires the pipe exactly when the queue took it. */
  lemma FiresIffPushed(run: seq<State>, i: nat)
    requires IsRun(run) && i + 1 < |run| && run[i].manager == Pushing && Manage(run[i], run[i + 1])
    ensures var q, q' := run[i].q, run[i + 1].q;
      && (run[i + 1].manager == CheckFired <==> q'.pushed != q.pushed)
      && (run[i + 1].manager == Out <==> q'.dropped != q.dropped)
      && (run[i + 1].manager == Pushing <==> q'.ppc != Q.Ready)
  {
    hide Step, Init, Q.Inv;
    RunKeeps(run, i);
  }

  lemma EmitBegins(run: seq<State>, i: nat, v: Q.Value) returns (s': State)
    requires IsRun(run) && i < |run| && run[i].manager == Out
    ensures Emit(run[i], s', v) && s'.q.ppc != Q.Ready && s'.q.ppc.v == v
  {
    hide Step, Init, Q.Inv;
    RunKeeps(run, i);
    var s := run[i];
    var R: nat, q' := Calls.BeginPush(s.q, v, false);
    s' := s.(q := q', manager := Pushing);
  }

  /** The router drains the queue only after it has taken the byte and cleared the flag. */
  lemma ConsumedBeforeDrain(run: seq<State>, i: nat)
    requires IsRun(run) && i + 1 < |run| && run[i].source != 0 && Route(run[i], run[i + 1])
    requires run[i].router != Draining && run[i + 1].router == Draining
    ensures !run[i + 1].fired && run[i + 1].bytes == 0
  {
    hide Step, Init, Q.Inv;
    RunKeeps(run, i);
  }

  /** An event that nothing will ever wake the router for. */
  predicate Lost(s: State)
  {
    s.manager == Out && s.router == Waiting && s.bytes == 0 && s.q.pushed != s.q.popped
  }

  /** With descriptor zero as the source, the first event is lost. */
  lemma LostAtZero() returns (run: seq<State>)
    ensures IsRun(run) && run[0].source == 0 && Lost(run[|run| - 1])
  {
    var q0 := Q.State([0, 0], 0, 0, 0, 0, Q.Ready, Q.Away, [], [], Q.NoCall, 0);
    var q1, q2 := q0.(ppc := Q.Write(7)), q0.(slots := [7, 0], ppc := Q.StoreWrite(7));
    var q3 := q0.(slots := [7, 0], writeIdx := 1, pushed := [7]);
    assert Q.StartPush(q0, q1, 7, false) && Q.Produce(q1, q2) && Q.Produce(q2, q3) by {
      assert [0, 0][0 := 7] == [7, 0] && [] + [7] == [7];
    }
    var s0 := State(q0, 0, false, 0, Out, Waiting);
    var s1, s2 := s0.(q := q1, manager := Pushing), s0.(q := q2, manager := Pushing);
    var s3, s4 := s0.(q := q3, manager := CheckFired), s0.(q := q3);
    assert Emit(s0, s1, 7) && Manage(s1, s2) && Manage(s2, s3) && Manage(s3, s4);
    run := [s0, s1, s2, s3, s4];
  }

  /** No event is lost in any run exactly when the source is not descriptor zero. */
  lemma NothingIsLostIff(source: int)
    ensures (forall run: seq<State>, i: nat | IsRun(run) && i < |run| && run[0].source == source :: !Lost(run[i]))
      <==> source != 0
  {
    hide IsRun;
    if source == 0 {
      var run := LostAtZero();
      RunNotEmpty(run);
      var i: nat := |run| - 1;
      assert Lost(run[i]);
    } else {
      forall run: seq<State>, i: nat | IsRun(run) && i < |run| && run[0].source == source ensures !Lost(run[i]) {
        SourceFixed(run, i);
        if Lost(run[i]) {
          NoLostWakeUp(run, i);
        }
      }
    }
  }

  lemma RunNotEmpty(run: seq<State>)
    requires IsRun(run)
    ensures |run| > 0
  {
  }

  lemma {:induction false} SourceFixed(run: seq<State>, i: nat)
    requires IsRun(run) && i < |run|
    ensures run[i].source == run[0].source
  {
    hide Init;
    if i > 0 {
      SourceFixed(run, i - 1);
      assert Step(run[i - 1], run[i]);
    }
  }

  lemma PoppedIsPrefix(q: Q.State)
    requires Q.Inv(q)
    ensures q.popped <= q.pushed
  {
    hide Q.Places, Q.Indices;
    var R: nat, W: nat :| Q.Good(q, R, W);
  }

  /** The events drained are the events published, in order. */
  lemma DrainedInOrder(run: seq<State>, i: nat)
    requires IsRun(run) && i < |run|
    ensures run[i].q.popped <= run[i].q.pushed
  {
    hide Step, Init, Q.Inv;
    RunKeeps(run, i);
    PoppedIsPrefix(run[i].q);
  }

  /** In the drain loop, front never returns null. */
  lemma FrontNeverNull(run: seq<State>, i: nat)
    requires IsRun(run) && i < |run| && run[i].router == Draining && run[i].q.cpc != Q.Away
    ensures |run[i].q.popped| < |run[i].q.pushed|
  {
    hide Step, Init;
    DrainingOk(run, i);
    RunKeeps(run, i);
    hide Q.Contents;
    var R: nat, W: nat :| Q.Good(run[i].q, R, W);
  }

  /** The router only calls front after empty has returned false. */
  lemma {:induction false} DrainingOk(run: seq<State>, i: nat)
    requires IsRun(run) && i < |run|
    ensures run[i].q.cpc.LoadWrite? ==> run[i].q.cpc.sure
  {
    hide Q.Inv, Init;
    if i > 0 {
      DrainingOk(run, i - 1);
      RunKeeps(run, i - 1);
      StaysSure(run[i - 1], run[i]);
    } else {
      FirstIsAway(run[0]);
    }
  }

  lemma FirstIsAway(s: State)
    requires Init(s)
    ensures s.q.cpc == Q.Away
  {
  }

  lemma StaysSure(s: State, s': State)
    requires Inv(s) && Step(s, s') && (s.q.cpc.LoadWrite? ==> s.q.cpc.sure)
    ensures s'.q.cpc.LoadWrite? ==> s'.q.cpc.sure
  {
    hide Q.Inv, FlagOk, Covered;
  }

  // ------------------------------------------------------------------------------------------
  // Nothing waits forever: once the manager is out, the router alone empties the queue
  // ------------------------------------------------------------------------------------------

  function Queued(q: Q.State): int { |q.pushed| - |q.popped| }

  /** The steps of the router up to the next element. */
  function Rank(r: Router, c: Q.Consumer): nat
  {
    match r
    case Waiting => 0
    case CheckFlag => 7
    case ReadByte => 6
    case ClearFlag => 5
    case Draining => if c == Q.Away then 4 else if c == Q.NotEmpty then 3 else if c.LoadWrite? then 2 else 1
  }

  predicate Sure(c: Q.Consumer) { c.LoadWrite? ==> c.sure }

  /** What one call of the router does to the queue in the drain loop. */
  lemma DrainStep(q: Q.State, q': Q.State)
    requires Q.Inv(q) && Sure(q.cpc) && q.cpc != Q.Away && Q.Consume(q, q')
    ensures q'.pushed == q.pushed && q'.ppc == q.ppc
    ensures Queued(q') < Queued(q) || (Queued(q') == Queued(q) && Rank(Draining, q'.cpc) < Rank(Draining, q.cpc))
    ensures Queued(q') >= 0
  {
    hide Q.Contents, Q.Good, Q.CheckEmpty, Q.StartFront, Q.RefreshFront, Q.Pop;
    var R: nat, W: nat :| Q.Good(q, R, W);
    Calls.ConsumerFinds(q, q', R, W);
    InQueue(q, R, W);
    AwayAfterPop(q, q', R, W);
  }

  lemma AwayAfterPop(q: Q.State, q': Q.State, R: nat, W: nat)
    requires Q.Good(q, R, W) && Sure(q.cpc) && q.cpc != Q.Away && Q.Consume(q, q')
    ensures q.cpc != Q.AtFront ==> q'.cpc != Q.Away && Rank(Draining, q'.cpc) < Rank(Draining, q.cpc)
    ensures q.cpc == Q.AtFront ==> q'.cpc == Q.Away
  {
    hide Q.Contents;
    Q.EmptyIffMeets(|q.pushed|, |q.popped|, |q.slots|);
  }

  lemma InQueue(q: Q.State, R: nat, W: nat)
    requires Q.Good(q, R, W)
    ensures |q.popped| <= |q.pushed|
  {
    hide Q.Contents, Q.Places;
  }

  /** Every step of the router brings it closer to the end of its loop, where the queue is empty. */
  lemma RouteShrinks(s: State, s': State)
    requires Inv(s) && Sure(s.q.cpc) && s.router != Waiting && Route(s, s')
    ensures s'.q.pushed == s.q.pushed && s'.manager == s.manager && s'.source == s.source
    ensures 0 <= Queued(s'.q) <= Queued(s.q)
    ensures Queued(s'.q) < Queued(s.q) || Rank(s'.router, s'.q.cpc) < Rank(s.router, s.q.cpc)
    ensures s'.router == Waiting ==> s'.q.popped == s'.q.pushed
  {
    hide Q.Inv, FlagOk, Covered;
    PoppedIsPrefix(s.q);
    if s.router == Draining {
      if s.q.cpc == Q.Away {
        CheckEmptyTells(s.q, s'.q);
      } else {
        hide Q.Consume;
        DrainStep(s.q, s'.q);
      }
    }
  }

  lemma RouterStep(s: State) returns (s': State)
    requires Inv(s) && s.router != Waiting
    ensures Route(s, s')
  {
    hide Q.Inv, Covered;
    match s.router {
      case CheckFlag => s' := s.(router := if s.source != 0 && s.fired then ReadByte else Draining);
      case ReadByte => s' := s.(bytes := s.bytes - 1, router := ClearFlag);
      case ClearFlag => s' := s.(fired := false, router := Draining);
      case Draining =>
        if s.q.cpc == Q.Away {
          var q' := if s.q.writeIdx == s.q.readIdx then s.q else s.q.(cpc := Q.NotEmpty);
          s' := s.(q := q', router := if q'.cpc == Q.NotEmpty then Draining else Waiting);
        } else {
          var q' := Calls.ConsumerStep(s.q);
          s' := s.(q := q');
        }
    }
  }

  lemma Extend(run: seq<State>, s': State) returns (run': seq<State>)
    requires IsRun(run) && Step(run[|run| - 1], s')
    ensures IsRun(run') && run <= run' && run' == run + [s']
  {
    hide Step, Init;
    run' := run + [s'];
    forall i | 0 <= i < |run'| - 1 ensures Step(run'[i], run'[i + 1]) {
      if i < |run| - 1 {
        assert run'[i] == run[i] && run'[i + 1] == run[i + 1];
      }
    }
  }

  /** A router in its loop can go on until it waits again, and then has drained every event. */
  lemma {:induction false} RouterDrains(run: seq<State>) returns (run': seq<State>)
    requires IsRun(run) && run[|run| - 1].router != Waiting
    ensures IsRun(run') && run <= run' && run'[|run'| - 1].router == Waiting
    ensures run'[|run'| - 1].q.popped == run'[|run'| - 1].q.pushed == run[|run| - 1].q.pushed
    decreases Queued(run[|run| - 1].q), Rank(run[|run| - 1].router, run[|run| - 1].q.cpc)
  {
    hide Step, Route, Inv, Init;
    var s := run[|run| - 1];
    RunKeeps(run, |run| - 1);
    DrainingOk(run, |run| - 1);
    var s' := RouterStep(s);
    RouteShrinks(s, s');
    RouteIsStep(s, s');
    run' := Extend(run, s');
    if s'.router != Waiting {
      run' := RouterDrains(run');
    }
  }

  lemma RouteIsStep(s: State, s': State)
    requires Route(s, s')
    ensures Step(s, s')
  {
  }

  /** Once the manager is out, the router by itself drains every event that was published. */
  lemma EventuallyDrained(run: seq<State>) returns (run': seq<State>)
    requires IsRun(run) && run[|run| - 1].manager == Out && run[|run| - 1].source != 0
    ensures IsRun(run') && run <= run'
    ensures run'[|run'| - 1].router == Waiting
    ensures run'[|run'| - 1].q.popped == run'[|run'| - 1].q.pushed == run[|run| - 1].q.pushed
  {
    var s := run[|run| - 1];
    NoLostOrIdle(run);
    hide IsRun;
    if s.router != Waiting {
      run' := RouterDrains(run);
    } else if s.bytes == 0 {
      run' := run;
    } else {
      var s' := s.(router := CheckFlag);
      assert Route(s, s') && Step(s, s');
      run' := Extend(run, s');
      run' := RouterDrains(run');
    }
  }

  lemma NoLostOrIdle(run: seq<State>)
    requires IsRun(run) && run[|run| - 1].manager == Out && run[|run| - 1].source != 0
    ensures run[|run| - 1].router == Waiting && run[|run| - 1].bytes == 0 ==>
      run[|run| - 1].q.popped == run[|run| - 1].q.pushed
  {
    if run[|run| - 1].router == Waiting {
      NoLostWakeUp(run, |run| - 1);
    }
  }

  /** The steps of a manager up to the end of its emit. */
  function ManagerSteps(s: State): nat
  {
    match s.manager
    case Out => 0
    case WriteByte => 1
    case SetFired => 2
    case CheckFired => 3
    case Pushing => 4 + Calls.ProducerSteps(s.q.ppc)
  }

  /** A manager inside Emit or Fire can take its next step, closer to its end: it never waits for the router. */
  lemma ManagerNeverStuck(run: seq<State>, i: nat) returns (s': State)
    requires IsRun(run) && i < |run| && run[i].manager != Out
    ensures Manage(run[i], s') && ManagerSteps(s') < ManagerSteps(run[i])
  {
    hide Step, Init, Inv, ManagerSteps;
    RunKeeps(run, i);
    s' := ManagerStep(run[i]);
  }

  lemma ManagerStep(s: State) returns (s': State)
    requires Inv(s) && s.manager != Out
    ensures Manage(s, s') && ManagerSteps(s') < ManagerSteps(s) && s'.source == s.source && s'.router == s.router
    ensures s.q.pushed <= s'.q.pushed
  {
    hide Q.Inv, FlagOk, Covered;
    match s.manager {
      case Pushing =>
        var q' := Calls.ProducerStep(s.q);
        s' := s.(q := q', manager := AfterPush(s.q, q'));
      case CheckFired => s' := s.(manager := if s.source == 0 || s.fired then Out else SetFired);
      case SetFired => s' := s.(fired := true, manager := WriteByte);
      case WriteByte => s' := s.(bytes := s.bytes + 1, manager := Out);
    }
  }
}
