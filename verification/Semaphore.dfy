/**
 * LightweightSemaphore: a counter in front of a kernel semaphore, used by any number of threads.
 * A negative count says how many waiters the kernel semaphore still owes a post. wait and tryWait
 * are waitMany and tryWaitMany with a maximum of one. Time is not modelled: a timed sleeper may time
 * out at any moment, and a spinning thread may stop spinning at any moment. Waiting on the kernel
 * semaphore without a timeout does not fail.
 */
module Semaphore {
  import opened Counting

  /** tryWaitMany, waitMany with a timeout, and waitMany without. */
  datatype Mode = Try | Timed | Forever

  /** Every call carries `want`, the most it may acquire. */
  datatype Pc =
      // between calls; the last one acquired `got` of `want`
    | Done(got: nat, want: nat, mode: Mode)
      // tryWaitMany for all but `got`: before loading the count, and before the CAS
    | Load(want: nat, got: nat, mode: Mode)
    | Cas(want: nat, got: nat, mode: Mode, seen: int)
    | Spin(want: nat, mode: Mode)
    | SpinCas(want: nat, mode: Mode, seen: int)
    | Decrement(want: nat, mode: Mode)
      // the count was not positive before the decrement
    | Asleep(want: nat, mode: Mode)
      // timed out: load the count, then either take a post or give the decrement back
    | Undo(want: nat)
    | UndoTake(want: nat)
    | UndoCas(want: nat, seen: int)
      // one unit acquired by the decrement or from the kernel
    | Won(want: nat, mode: Mode)
      // a signaller with `left` posts to make
    | Post(left: nat)

  /**
   * `signalled` counts all units signalled, `granted` all units taken and `returned` all units that
   * calls have returned to their callers.
   */
  datatype State = State(
    initial: nat,
    count: int,
    kernel: nat,
    pcs: seq<Pc>,
    signalled: nat,
    granted: nat,
    returned: nat)

  function Goto(s: State, t: nat, p: Pc): State
    requires t < |s.pcs|
  {
    s.(pcs := s.pcs[t := p])
  }

  /** A call returns `got` units to its caller. */
  function Return(s: State, t: nat, got: nat, want: nat, mode: Mode): State
    requires t < |s.pcs|
  {
    Goto(s, t, Done(got, want, mode)).(returned := s.returned + got)
  }

  function Left(seen: int, max: int): int { if seen > max then seen - max else 0 }

  ghost predicate Init(s: State)
  {
    && s.count == s.initial && s.kernel == 0 && s.signalled == 0 && s.granted == 0 && s.returned == 0
    && forall t | 0 <= t < |s.pcs| :: s.pcs[t] == Done(0, 0, Try)
  }

  // ------------------------------------------------------------------------------------------
  // Steps of thread t
  // ------------------------------------------------------------------------------------------

  ghost predicate Call(s: State, s': State, t: nat, want: nat, mode: Mode)
  {
    t < |s.pcs| && s.pcs[t].Done? && s' == Goto(s, t, Load(want, 0, mode))
  }

  /** The loop of tryWaitMany ends without units: the call returns, or goes on to wait. */
  function GiveUp(s: State, t: nat, want: nat, got: nat, mode: Mode): State
    requires t < |s.pcs|
  {
    if mode != Try && got == 0 && want > 0 then Goto(s, t, Spin(want, mode)) else Return(s, t, got, want, mode)
  }

  ghost predicate TryStep(s: State, s': State, t: nat)
  {
    t < |s.pcs| &&
    match s.pcs[t]
    case Load(want, got, mode) =>
      s' == if s.count > 0 then Goto(s, t, Cas(want, got, mode, s.count)) else GiveUp(s, t, want, got, mode)
    case Cas(want, got, mode, seen) =>
      // the weak CAS may fail for no reason; it then leaves the current count in `seen`
      || (s.count == seen && got <= want && seen > 0
          && var taken := seen - Left(seen, want - got);
          s' == Return(s, t, got + taken, want, mode).(count := seen - taken, granted := s.granted + taken))
      || s' == if s.count > 0 then Goto(s, t, Cas(want, got, mode, s.count)) else GiveUp(s, t, want, got, mode)
    case _ => false
  }

  ghost predicate SpinStep(s: State, s': State, t: nat)
  {
    t < |s.pcs| &&
    match s.pcs[t]
    case Spin(want, mode) =>
      || s' == Goto(s, t, Decrement(want, mode))
      || s' == if s.count > 0 then Goto(s, t, SpinCas(want, mode, s.count)) else s
    case SpinCas(want, mode, seen) =>
      if s.count == seen && seen > 0 then
        var taken := seen - Left(seen, want);
        s' == Return(s, t, taken, want, mode).(count := seen - taken, granted := s.granted + taken)
      else s' == Goto(s, t, Spin(want, mode))
    case Decrement(want, mode) =>
      s' == if s.count > 0 then Goto(s, t, Won(want, mode)).(count := s.count - 1, granted := s.granted + 1)
            else Goto(s, t, Asleep(want, mode)).(count := s.count - 1)
    case _ => false
  }

  ghost predicate SleepStep(s: State, s': State, t: nat)
  {
    t < |s.pcs| &&
    match s.pcs[t]
    case Asleep(want, mode) =>
      || (s.kernel > 0 && s' == Goto(s, t, Won(want, mode)).(kernel := s.kernel - 1, granted := s.granted + 1))
      || (mode == Timed && s' == Goto(s, t, Undo(want)))
    case Undo(want) => s' == Goto(s, t, if s.count >= 0 then UndoTake(want) else UndoCas(want, s.count))
    case UndoTake(want) =>
      s' == if s.kernel > 0 then Goto(s, t, Won(want, Timed)).(kernel := s.kernel - 1, granted := s.granted + 1)
            else Goto(s, t, Undo(want))
    case UndoCas(want, seen) =>
      s' == if s.count == seen then Return(s, t, 0, want, Timed).(count := s.count + 1) else Goto(s, t, Undo(want))
    case Won(want, mode) =>
      s' == if want > 1 then Goto(s, t, Load(want, 1, mode)) else Return(s, t, 1, want, mode)
    case _ => false
  }

  ghost predicate Signal(s: State, s': State, t: nat, n: nat)
  {
    && t < |s.pcs| && s.pcs[t].Done?
    && var release := if -s.count < n then -s.count else n;
    && s' == Goto(s, t, if release > 0 then Post(release) else Done(0, 0, Try))
             .(count := s.count + n, signalled := s.signalled + n)
  }

  ghost predicate PostStep(s: State, s': State, t: nat)
  {
    && t < |s.pcs| && s.pcs[t].Post? && s.pcs[t].left > 0
    && s' == Goto(s, t, if s.pcs[t].left > 1 then Post(s.pcs[t].left - 1) else Done(0, 0, Try)).(kernel := s.kernel + 1)
  }

  ghost predicate ThreadStep(s: State, s': State, t: nat)
  {
    || (exists want, mode :: Call(s, s', t, want, mode))
    || TryStep(s, s', t) || SpinStep(s, s', t) || SleepStep(s, s', t)
    || (exists n: nat :: Signal(s, s', t, n)) || PostStep(s, s', t)
  }

  ghost predicate Step(s: State, s': State) { exists t :: ThreadStep(s, s', t) }

  ghost predicate IsRun(run: seq<State>)
  {
    && |run| > 0
    && Init(run[0])
    && forall i :: 0 <= i < |run| - 1 ==> Step(run[i], run[i + 1])
  }

  // ------------------------------------------------------------------------------------------
  // Accounting
  // ------------------------------------------------------------------------------------------

  /** A waiter whose decrement is neither matched by a post taken nor undone. */
  function Waits(p: Pc): nat { if p.Asleep? || p.Undo? || p.UndoTake? || p.UndoCas? then 1 else 0 }

  function Posts(p: Pc): nat { if p.Post? then p.left else 0 }

  /** Units taken by a call that has not returned yet. */
  function Holds(p: Pc): nat { if p.Won? then 1 else if p.Load? || p.Cas? then p.got else 0 }

  ghost function Waiters(s: State): nat { Total(s.pcs, Waits) }

  ghost function Pending(s: State): nat { Total(s.pcs, Posts) }

  ghost function Held(s: State): nat { Total(s.pcs, Holds) }

  predicate PcOk(p: Pc)
  {
    match p
    case Done(got, want, mode) => got <= want && (mode == Forever && want > 0 ==> got > 0)
    case Load(want, got, mode) => got <= want && got <= 1
    case Cas(want, got, mode, seen) => got <= want && seen > 0 && got <= 1
    case SpinCas(want, mode, seen) => seen > 0 && want > 0
    case UndoCas(want, seen) => seen < 0 && want > 0
    case Post(left) => left > 0
    case _ => p.want > 0
  }

  ghost predicate Balanced(s: State)
  {
    && Waiters(s) == s.kernel + Pending(s) + Owed(s.count)
    && s.count + Waiters(s) + s.granted == s.initial + s.signalled
    && s.granted == s.returned + Held(s)
  }

  ghost predicate Inv(s: State)
  {
    && (forall t | 0 <= t < |s.pcs| :: PcOk(s.pcs[t]))
    && Balanced(s)
  }

  /** How the three sums change when thread t moves. */
  lemma Moved(s: State, s': State, t: nat, p: Pc)
    requires t < |s.pcs| && s'.pcs == s.pcs[t := p]
    ensures Waiters(s') + Waits(s.pcs[t]) == Waiters(s) + Waits(p)
    ensures Pending(s') + Posts(s.pcs[t]) == Pending(s) + Posts(p)
    ensures Held(s') + Holds(s.pcs[t]) == Held(s) + Holds(p)
  {
    TotalUpdate(s.pcs, t, p, Waits);
    TotalUpdate(s.pcs, t, p, Posts);
    TotalUpdate(s.pcs, t, p, Holds);
  }

  lemma TryPc(s: State, s': State, t: nat)
    requires t < |s.pcs| && PcOk(s.pcs[t]) && TryStep(s, s', t)
    ensures |s'.pcs| == |s.pcs| && s'.pcs == s.pcs[t := s'.pcs[t]] && PcOk(s'.pcs[t])
  {
  }

  lemma SpinPc(s: State, s': State, t: nat)
    requires t < |s.pcs| && PcOk(s.pcs[t]) && SpinStep(s, s', t)
    ensures |s'.pcs| == |s.pcs| && s'.pcs == s.pcs[t := s'.pcs[t]] && PcOk(s'.pcs[t])
  {
  }

  lemma OtherPc(s: State, s': State, t: nat)
    requires t < |s.pcs| && PcOk(s.pcs[t]) && ThreadStep(s, s', t) && !TryStep(s, s', t) && !SpinStep(s, s', t)
    ensures |s'.pcs| == |s.pcs| && s'.pcs == s.pcs[t := s'.pcs[t]] && PcOk(s'.pcs[t])
  {
    hide TryStep, SpinStep;
  }

  lemma StepKeepsPcs(s: State, s': State, t: nat)
    requires Inv(s) && ThreadStep(s, s', t)
    ensures forall u | 0 <= u < |s'.pcs| :: PcOk(s'.pcs[u])
  {
    hide Balanced, PcOk;
    assert t < |s.pcs|;
    hide Signal, Call, PostStep, SleepStep;
    if TryStep(s, s', t) {
      TryPc(s, s', t);
    } else if SpinStep(s, s', t) {
      SpinPc(s, s', t);
    } else {
      OtherPc(s, s', t);
    }
  }

  lemma TryKeeps(s: State, s': State, t: nat)
    requires Inv(s) && TryStep(s, s', t)
    ensures Balanced(s')
  {
    hide Waiters, Pending, Held;
    assert PcOk(s.pcs[t]);
    Moved(s, s', t, s'.pcs[t]);
  }

  lemma SpinKeeps(s: State, s': State, t: nat)
    requires Inv(s) && SpinStep(s, s', t)
    ensures Balanced(s')
  {
    hide Waiters, Pending, Held;
    assert PcOk(s.pcs[t]);
    assert s'.pcs == s.pcs[t := s'.pcs[t]];
    Moved(s, s', t, s'.pcs[t]);
  }

  lemma SleepKeeps(s: State, s': State, t: nat)
    requires Inv(s) && SleepStep(s, s', t)
    ensures Balanced(s')
  {
    hide Waiters, Pending, Held;
    assert PcOk(s.pcs[t]);
    Moved(s, s', t, s'.pcs[t]);
  }

  lemma SignalKeeps(s: State, s': State, t: nat, n: nat)
    requires Inv(s) && Signal(s, s', t, n)
    ensures Balanced(s')
  {
    hide Waiters, Pending, Held;
    Moved(s, s', t, s'.pcs[t]);
  }

  lemma StepKeeps(s: State, s': State)
    requires Inv(s) && Step(s, s')
    ensures Inv(s') && s'.initial == s.initial
  {
    hide Balanced;
    var t :| ThreadStep(s, s', t);
    StepKeepsPcs(s, s', t);
    if TryStep(s, s', t) {
      TryKeeps(s, s', t);
    } else if SpinStep(s, s', t) {
      SpinKeeps(s, s', t);
    } else if SleepStep(s, s', t) {
      SleepKeeps(s, s', t);
    } else if n: nat :| Signal(s, s', t, n) {
      SignalKeeps(s, s', t, n);
    } else {
      OtherKeeps(s, s', t);
    }
  }

  lemma OtherKeeps(s: State, s': State, t: nat)
    requires Inv(s) && (PostStep(s, s', t) || exists want, mode :: Call(s, s', t, want, mode))
    ensures Balanced(s')
  {
    hide Waiters, Pending, Held;
    Moved(s, s', t, s'.pcs[t]);
  }

  lemma InitKeeps(s: State)
    requires Init(s)
    ensures Inv(s)
  {
    TotalZero(s.pcs, Waits);
    TotalZero(s.pcs, Posts);
    TotalZero(s.pcs, Holds);
  }

  lemma {:induction false} RunKeeps(run: seq<State>, i: nat)
    requires IsRun(run) && i < |run|
    ensures Inv(run[i]) && run[i].initial == run[0].initial
  {
    hide Inv, Step, Init;
    if i == 0 {
      InitKeeps(run[0]);
    } else {
      RunKeeps(run, i - 1);
      StepKeeps(run[i - 1], run[i]);
    }
  }

  // ------------------------------------------------------------------------------------------
  // What the semaphore promises
  // ------------------------------------------------------------------------------------------

  /** Unresolved waiters are matched one to one by posts made, posts to be made, and the negative count. */
  lemma WaitersAreAccounted(run: seq<State>, i: nat)
    requires IsRun(run) && i < |run|
    ensures Waiters(run[i]) == run[i].kernel + Pending(run[i]) + Owed(run[i].count)
  {
    RunKeeps(run, i);
  }

  /** Conservation: every unit is returned, held by a call about to return, free, or on its way through the kernel. */
  lemma UnitsAreConserved(run: seq<State>, i: nat)
    requires IsRun(run) && i < |run|
    ensures var s := run[i];
      s.returned + Held(s) + Free(s.count) + s.kernel + Pending(s) == run[0].initial + s.signalled
  {
    RunKeeps(run, i);
  }

  /** What calls have returned, timed waits included, never exceeds what was put in. */
  lemma NeverOverGranted(run: seq<State>, i: nat)
    requires IsRun(run) && i < |run|
    ensures run[i].returned <= run[0].initial + run[i].signalled
  {
    UnitsAreConserved(run, i);
  }

  /** A call never returns more than it asked for. */
  lemma NeverMoreThanWanted(run: seq<State>, i: nat, t: nat)
    requires IsRun(run) && i < |run| && t < |run[i].pcs| && run[i].pcs[t].Done?
    ensures run[i].pcs[t].got <= run[i].pcs[t].want
  {
    RunKeeps(run, i);
    assert PcOk(run[i].pcs[t]);
  }

  /** waitMany without a timeout acquires something, as it asserts, exactly when it is asked for something. */
  lemma WaitsForSomethingIff(run: seq<State>, i: nat, t: nat)
    requires IsRun(run) && i < |run| && t < |run[i].pcs| && run[i].pcs[t].Done? && run[i].pcs[t].mode == Forever
    ensures run[i].pcs[t].got > 0 <==> run[i].pcs[t].want > 0
  {
    RunKeeps(run, i);
    assert PcOk(run[i].pcs[t]);
  }

  /** Asked for nothing, waitMany returns nothing, and its assert fails. */
  lemma WaitForNothing() returns (run: seq<State>)
    ensures IsRun(run) && run[|run| - 1].pcs == [Done(0, 0, Forever)]
  {
    var s0 := State(1, 1, 0, [Done(0, 0, Try)], 0, 0, 0);
    var s1 := s0.(pcs := [Load(0, 0, Forever)]);
    var s2 := s0.(pcs := [Cas(0, 0, Forever, 1)]);
    var s3 := s0.(pcs := [Done(0, 0, Forever)]);
    assert s1 == Goto(s0, 0, Load(0, 0, Forever)) && Call(s0, s1, 0, 0, Forever);
    assert s2 == Goto(s1, 0, Cas(0, 0, Forever, 1)) && TryStep(s1, s2, 0);
    assert s3 == Return(s2, 0, 0, 0, Forever) && TryStep(s2, s3, 0);
    assert ThreadStep(s0, s1, 0) && ThreadStep(s1, s2, 0) && ThreadStep(s2, s3, 0);
    run := [s0, s1, s2, s3];
  }

  /** No lost wake-up: with a count of at least zero and no post pending, there is a token for every waiter. */
  lemma NoLostWakeUp(run: seq<State>, i: nat)
    requires IsRun(run) && i < |run| && run[i].count >= 0 && Pending(run[i]) == 0
    ensures run[i].kernel == Waiters(run[i])
    ensures forall t | 0 <= t < |run[i].pcs| :: run[i].pcs[t].Asleep? ==> run[i].kernel > 0
  {
    RunKeeps(run, i);
    forall t | 0 <= t < |run[i].pcs| && run[i].pcs[t].Asleep? ensures run[i].kernel > 0 {
      TotalAtLeast(run[i].pcs, t, Waits);
    }
  }

  /** A timed-out waiter that finds a count of at least zero is covered by a token posted or about to be posted. */
  lemma TimedOutIsCovered(run: seq<State>, i: nat, t: nat)
    requires IsRun(run) && i < |run| && t < |run[i].pcs| && run[i].pcs[t].Undo? && run[i].count >= 0
    ensures run[i].kernel + Pending(run[i]) >= 1
    ensures run[i].kernel == 0 ==> exists u :: 0 <= u < |run[i].pcs| && run[i].pcs[u].Post?
  {
    RunKeeps(run, i);
    TotalAtLeast(run[i].pcs, t, Waits);
    if run[i].kernel == 0 {
      var u := TotalWitness(run[i].pcs, Posts);
      assert run[i].pcs[u].Post?;
    }
  }

  /** When every call has returned, the count is exactly what was put in and not taken out. */
  lemma QuietCount(run: seq<State>, i: nat)
    requires IsRun(run) && i < |run| && forall t | 0 <= t < |run[i].pcs| :: run[i].pcs[t].Done?
    ensures run[i].count == run[0].initial + run[i].signalled - run[i].returned && run[i].count >= 0
      && run[i].kernel == 0
  {
    RunKeeps(run, i);
    TotalZero(run[i].pcs, Waits);
    TotalZero(run[i].pcs, Holds);
  }
}
