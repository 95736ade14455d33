/**
 * The semaphore of the single-producer single-consumer queues: one thread waits and one thread
 * signals. The waiter gives a decrement back by incrementing and, if it was signalled meanwhile,
 * decrementing again, so the count passes through values no thread meant to publish.
 */
module SpscSemaphore {
  import opened Counting

  datatype Waiter =
      // between calls; `got` is what the last one returned
    | Idle(got: bool)
    | Load(blocking: bool)
      // a positive count was seen: before the decrement that takes a unit
    | Take
    | Spin
    | Decrement
    | Asleep
      // timed out: before the increment that gives the decrement back
    | Restore
      // it was signalled after all: before the decrement that withdraws the increment
    | Redo
    | TryKernel

  datatype Signaller = Quiet | Post

  datatype State = State(
    initial: nat,
    count: int,
    kernel: nat,
    waiter: Waiter,
    signaller: Signaller,
    signalled: nat,
    granted: nat)

  function Initial(n: nat): State { State(n, n, 0, Idle(false), Quiet, 0, 0) }

  /** The waiting call returns with a unit. */
  function Grant(s: State): State { s.(waiter := Idle(true), granted := s.granted + 1) }

  ghost predicate StartWait(s: State, s': State, blocking: bool)
  {
    s.waiter.Idle? && s' == s.(waiter := Load(blocking))
  }

  /** Steps inside tryWait, wait and timed wait. */
  ghost predicate WaitStep(s: State, s': State)
  {
    match s.waiter
    case Idle(_) => false
    case Load(blocking) =>
      s' == s.(waiter := if s.count > 0 then Take else if blocking then Spin else Idle(false))
    case Take => s' == Grant(s).(count := s.count - 1)
    case Spin => s' == s.(waiter := if s.count > 0 then Take else Spin) || s' == s.(waiter := Decrement)
    case Decrement =>
      s' == if s.count > 0 then Grant(s).(count := s.count - 1) else s.(waiter := Asleep, count := s.count - 1)
    case Asleep => (s.kernel > 0 && s' == Grant(s).(kernel := s.kernel - 1)) || s' == s.(waiter := Restore)
    case Restore => s' == s.(waiter := if s.count < 0 then Idle(false) else Redo, count := s.count + 1)
    case Redo => s' == s.(waiter := if s.count > 0 then TryKernel else Restore, count := s.count - 1)
    case TryKernel => s' == if s.kernel > 0 then Grant(s).(kernel := s.kernel - 1) else s.(waiter := Restore)
  }

  ghost predicate Signal(s: State, s': State, n: nat)
  {
    && s.signaller == Quiet
    && s' == s.(signaller := if s.count < 0 then Post else Quiet, count := s.count + n, signalled := s.signalled + n)
  }

  ghost predicate PostStep(s: State, s': State)
  {
    s.signaller == Post && s' == s.(signaller := Quiet, kernel := s.kernel + 1)
  }

  ghost predicate Step(s: State, s': State)
  {
    || (exists blocking :: StartWait(s, s', blocking)) || WaitStep(s, s')
    || (exists n: nat :: Signal(s, s', n)) || PostStep(s, s')
  }

  /** A run in which every call of signal adds at least `least`. */
  ghost predicate IsRun(run: seq<State>, least: nat)
  {
    && |run| > 0
    && run[0] == Initial(run[0].initial)
    && (forall i :: 0 <= i < |run| - 1 ==> Step(run[i], run[i + 1]))
    && (forall i :: 0 <= i < |run| - 1 ==> SignalsAtLeast(run[i], run[i + 1], least))
  }

  predicate SignalsAtLeast(s: State, s': State, least: nat)
  {
    s.signaller == Quiet && (s'.signaller == Post || s'.signalled != s.signalled) ==>
      s'.signalled >= s.signalled + least
  }

  // ------------------------------------------------------------------------------------------
  // The invariant
  // ------------------------------------------------------------------------------------------

  /** The waiter's decrement stands, or will stand again after Redo. */
  predicate Waiting(w: Waiter) { w.Asleep? || w.Restore? || w.Redo? || w.TryKernel? }

  function Pending(s: State): nat { if s.signaller == Post then 1 else 0 }

  /** The count without the increment that is about to be withdrawn. */
  function Settled(s: State): int { if s.waiter == Redo then s.count - 1 else s.count }

  predicate Inv(s: State)
  {
    && s.kernel + Pending(s) + Owed(Settled(s)) == (if Waiting(s.waiter) then 1 else 0)
    && Free(Settled(s)) + s.kernel + Pending(s) + s.granted == s.initial + s.signalled
    && (s.waiter == Take ==> s.count > 0)
    && (s.waiter == Redo || s.waiter == TryKernel ==> Settled(s) >= 0)
  }

  lemma WaitKeeps(s: State, s': State)
    requires Inv(s) && (WaitStep(s, s') || exists blocking :: StartWait(s, s', blocking))
    ensures Inv(s')
  {
  }

  /** A signal keeps the accounts exactly when it adds something or nobody is owed a post. */
  lemma SignalKeepsIff(s: State, s': State, n: nat)
    requires Inv(s) && Signal(s, s', n)
    ensures Inv(s') <==> n >= 1 || s.count >= 0
    ensures s.count >= -1
  {
  }

  lemma StepKeeps(s: State, s': State)
    requires Inv(s) && Step(s, s') && SignalsAtLeast(s, s', 1)
    ensures Inv(s') && s'.initial == s.initial
  {
    if n: nat :| Signal(s, s', n) {
      SignalKeepsIff(s, s', n);
    } else if PostStep(s, s') {
      assert s'.kernel == s.kernel + 1;
    } else {
      WaitKeeps(s, s');
      hide Inv;
    }
  }

  lemma {:induction false} RunKeeps(run: seq<State>, i: nat)
    requires IsRun(run, 1) && i < |run|
    ensures Inv(run[i]) && run[i].initial == run[0].initial
  {
    if i > 0 {
      RunKeeps(run, i - 1);
      StepKeeps(run[i - 1], run[i]);
    }
  }

  // ------------------------------------------------------------------------------------------
  // What the semaphore promises
  // ------------------------------------------------------------------------------------------

  /** Conservation, and so no over-granting, when every signal adds at least one. */
  lemma UnitsAreConserved(run: seq<State>, i: nat)
    requires IsRun(run, 1) && i < |run|
    ensures var s := run[i];
      s.granted + Free(Settled(s)) + s.kernel + Pending(s) == run[0].initial + s.signalled
    ensures run[i].granted <= run[0].initial + run[i].signalled
  {
    RunKeeps(run, i);
  }

  /** The assert in signal: the count it finds is never below minus one. */
  lemma CountFloor(run: seq<State>, i: nat)
    requires IsRun(run, 1) && i < |run|
    ensures run[i].count >= -1
  {
    RunKeeps(run, i);
  }

  /** A sleeper facing a count of at least zero has its token in the kernel or about to be posted. */
  lemma NoLostWakeUp(run: seq<State>, i: nat)
    requires IsRun(run, 1) && i < |run| && run[i].waiter == Asleep && run[i].count >= 0
    ensures run[i].kernel == 1 || run[i].signaller == Post
  {
    RunKeeps(run, i);
  }

  /** A wait that gives up leaves the semaphore as if it had not been called. */
  lemma GivingUpLeavesNoTrace(run: seq<State>, i: nat)
    requires IsRun(run, 1) && i < |run| && run[i].waiter.Idle?
    ensures run[i].count == run[0].initial + run[i].signalled - run[i].granted
    ensures run[i].kernel == 0 && run[i].signaller == Quiet
  {
    RunKeeps(run, i);
  }

  /** A wait, timed or not, and a try come back without a unit only at a moment when all units have been granted. */
  lemma FailsWhenNothing(run: seq<State>, i: nat)
    requires IsRun(run, 1) && i + 1 < |run| && WaitStep(run[i], run[i + 1]) && run[i + 1].waiter == Idle(false)
    ensures run[i].granted == run[i].initial + run[i].signalled
  {
    hide Step;
    RunKeeps(run, i);
  }

  /** A try comes back at once; a wait comes back without a unit only after its time is up. */
  lemma GivesUpOnlyAfterTimeout(s: State, s': State)
    requires WaitStep(s, s')
    ensures s.waiter == Load(false) ==> s'.waiter == if s.count > 0 then Take else Idle(false)
    ensures s'.waiter == Idle(false) ==> s.waiter == Load(false) || (s.waiter == Restore && s.count < 0)
  {
  }

  /** A waiter that sees a unit while it spins can take it and return without sleeping. */
  lemma SpinTakesWhatItSees(s: State) returns (s1: State, s2: State)
    requires s.waiter == Spin && s.count > 0
    ensures WaitStep(s, s1) && WaitStep(s1, s2)
    ensures s2.waiter == Idle(true) && s2.granted == s.granted + 1 && s2.count == s.count - 1
  {
    s1 := s.(waiter := Take);
    s2 := Grant(s1).(count := s.count - 1);
  }

  /** The steps a waiter needs to take the token that is there for it. */
  function Rank(w: Waiter): nat
  {
    match w
    case Asleep => 4
    case Restore => 3
    case Redo => 2
    case TryKernel => 1
    case _ => 0
  }

  /** Once a token has been posted, the waiter takes it, even if its time is up, and returns with a unit. */
  lemma TokenIsTaken(run: seq<State>, i: nat)
    requires IsRun(run, 1) && i + 1 < |run| && WaitStep(run[i], run[i + 1])
    requires run[i].kernel > 0
    ensures Waiting(run[i].waiter)
    ensures var s, s' := run[i], run[i + 1];
      if s'.waiter.Idle? then s'.waiter == Idle(true) && s'.granted == s.granted + 1 && s'.kernel == 0
      else Waiting(s'.waiter) && s'.kernel == s.kernel && Rank(s'.waiter) < Rank(s.waiter)
  {
    hide Step;
    RunKeeps(run, i);
  }

  /** A call can always take its next step. */
  lemma WaiterStep(s: State) returns (s': State)
    requires !s.waiter.Idle?
    ensures WaitStep(s, s') && s'.waiter != s.waiter
  {
    match s.waiter {
      case Load(blocking) =>
        s' := s.(waiter := if s.count > 0 then Take else if blocking then Spin else Idle(false));
      case Take => s' := Grant(s).(count := s.count - 1);
      case Spin => s' := s.(waiter := Decrement);
      case Decrement =>
        s' := if s.count > 0 then Grant(s).(count := s.count - 1) else s.(waiter := Asleep, count := s.count - 1);
      case Asleep => s' := if s.kernel > 0 then Grant(s).(kernel := s.kernel - 1) else s.(waiter := Restore);
      case Restore => s' := s.(waiter := if s.count < 0 then Idle(false) else Redo, count := s.count + 1);
      case Redo => s' := s.(waiter := if s.count > 0 then TryKernel else Restore, count := s.count - 1);
      case TryKernel => s' := if s.kernel > 0 then Grant(s).(kernel := s.kernel - 1) else s.(waiter := Restore);
    }
  }

  lemma Signalled(s: State, n: nat) returns (s': State)
    requires s.signaller == Quiet
    ensures Signal(s, s', n)
  {
    s' := s.(signaller := if s.count < 0 then Post else Quiet, count := s.count + n, signalled := s.signalled + n);
  }

  /** A signal of zero wakes a sleeper for nothing: one unit granted, none ever put in. */
  lemma ZeroSignalOverGrants() returns (run: seq<State>)
    ensures IsRun(run, 0)
    ensures run[|run| - 1].granted > run[0].initial + run[|run| - 1].signalled
  {
    var s0 := Initial(0);
    var s1 := s0.(waiter := Load(true));
    assert StartWait(s0, s1, true);
    var s2 := s0.(waiter := Spin);
    var s3 := s0.(waiter := Decrement);
    var s4 := s0.(waiter := Asleep, count := -1);
    var s5 := s4.(signaller := Post);
    assert Signal(s4, s5, 0);
    var s6 := s4.(kernel := 1);
    var s7 := s4.(waiter := Idle(true), granted := 1);
    run := [s0, s1, s2, s3, s4, s5, s6, s7];
  }

  /**
   * Grants stay within the units put in, in every run with signals of at least `least`, exactly
   * when `least` is positive.
   */
  lemma ConservedIff(least: nat)
    ensures (forall run: seq<State>, i: nat | IsRun(run, least) && i < |run| ::
               run[i].granted <= run[0].initial + run[i].signalled)
            <==> least >= 1
  {
    hide IsRun;
    if least == 0 {
      var run := ZeroSignalOverGrants();
      RunNotEmpty(run, 0);
      var i: nat := |run| - 1;
      assert run[i].granted > run[0].initial + run[i].signalled;
    } else {
      forall run: seq<State>, i: nat | IsRun(run, least) && i < |run|
          ensures run[i].granted <= run[0].initial + run[i].signalled {
        RunWeaken(run, least);
        UnitsAreConserved(run, i);
      }
    }
  }

  lemma RunNotEmpty(run: seq<State>, least: nat)
    requires IsRun(run, least)
    ensures |run| > 0
  {
  }

  lemma RunWeaken(run: seq<State>, least: nat)
    requires IsRun(run, least) && least >= 1
    ensures IsRun(run, 1) && |run| > 0
  {
    hide Step;
    forall i | 0 <= i < |run| - 1 ensures SignalsAtLeast(run[i], run[i + 1], 1) {
      assert SignalsAtLeast(run[i], run[i + 1], least);
    }
  }
}
