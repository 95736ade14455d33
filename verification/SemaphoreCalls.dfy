/**
 * What the calls of LightweightSemaphore answer: a call returns exactly as many of the units it wanted
 * as the count showed when it decided, so it comes back with nothing only when there was nothing, and
 * every call can take its next step except an untimed wait with no token.
 */
module SemaphoreCalls {
  import opened Semaphore
  import opened Counting

  function Min(a: int, b: int): int { if a < b then a else b }

  predicate InCall(p: Pc) { !p.Done? && !p.Post? }

  lemma ReturnIsGreedy(s: State, s': State, t: nat)
    requires t < |s.pcs| && t < |s'.pcs| && PcOk(s.pcs[t]) && InCall(s.pcs[t]) && s'.pcs[t].Done?
    requires TryStep(s, s', t) || SpinStep(s, s', t) || SleepStep(s, s', t)
    ensures var first := Holds(s.pcs[t]);
      s'.pcs[t].want == s.pcs[t].want && s'.pcs[t].got == first + Min(s.pcs[t].want - first, Free(s.count))
  {
  }

  /**
   * A call that returns at this moment returns what it held, at most one unit won by waiting, plus as
   * much of the rest as the count shows: all it wants, or all there is.
   */
  lemma AnswerIsGreedy(run: seq<State>, i: nat, t: nat)
    requires IsRun(run) && i + 1 < |run| && t < |run[i].pcs| && t < |run[i + 1].pcs|
    requires InCall(run[i].pcs[t]) && run[i + 1].pcs[t].Done?
    ensures var p, q := run[i].pcs[t], run[i + 1].pcs[t];
      q.want == p.want && q.got == Holds(p) + Min(p.want - Holds(p), Free(run[i].count))
  {
    hide Init, Balanced;
    RunKeeps(run, i);
    var s, s' := run[i], run[i + 1];
    assert PcOk(s.pcs[t]);
    hide PcOk;
    MovedBy(s, s', t);
    ReturnIsGreedy(s, s', t);
  }

  function ModeOf(p: Pc): Mode
    requires InCall(p)
  {
    if p.Undo? || p.UndoTake? || p.UndoCas? then Timed else p.mode
  }

  /** A call can begin for any number of units and in any mode, and wants as many, in that mode, until it returns. */
  lemma CallKeepsItsWant(s: State, s': State, t: nat)
    requires t < |s.pcs| && InCall(s.pcs[t]) && Step(s, s') && t < |s'.pcs| && InCall(s'.pcs[t])
    ensures s'.pcs[t].want == s.pcs[t].want && ModeOf(s.pcs[t]) == ModeOf(s'.pcs[t])
  {
    hide ModeOf, ThreadStep;
    var u :| ThreadStep(s, s', u);
    if u != t {
      StaysPut(s, s', u, t);
    } else {
      OwnStepKeeps(s, s', t);
    }
  }

  lemma OwnStepKeeps(s: State, s': State, t: nat)
    requires t < |s.pcs| && InCall(s.pcs[t]) && ThreadStep(s, s', t) && t < |s'.pcs| && InCall(s'.pcs[t])
    ensures s'.pcs[t].want == s.pcs[t].want && ModeOf(s.pcs[t]) == ModeOf(s'.pcs[t])
  {
    hide Call, Signal, PostStep, SpinStep, TryStep, SleepStep;
    if TryStep(s, s', t) {
      TryKeeps(s, s', t);
    } else if SpinStep(s, s', t) {
      SpinKeeps(s, s', t);
    } else if SleepStep(s, s', t) {
      SleepKeeps(s, s', t);
    } else {
      NoCallBegins(s, s', t);
      assert false;
    }
  }

  lemma NoCallBegins(s: State, s': State, t: nat)
    requires t < |s.pcs| && InCall(s.pcs[t])
    ensures !PostStep(s, s', t) && forall n: nat :: !Signal(s, s', t, n)
    ensures forall want, mode :: !Call(s, s', t, want, mode)
  {
  }

  lemma TryKeeps(s: State, s': State, t: nat)
    requires TryStep(s, s', t) && InCall(s.pcs[t]) && t < |s'.pcs| && InCall(s'.pcs[t])
    ensures s'.pcs[t].want == s.pcs[t].want && ModeOf(s.pcs[t]) == ModeOf(s'.pcs[t])
  {
  }

  lemma SpinKeeps(s: State, s': State, t: nat)
    requires SpinStep(s, s', t) && InCall(s.pcs[t]) && t < |s'.pcs| && InCall(s'.pcs[t])
    ensures s'.pcs[t].want == s.pcs[t].want && ModeOf(s.pcs[t]) == ModeOf(s'.pcs[t])
  {
  }

  lemma SleepKeeps(s: State, s': State, t: nat)
    requires SleepStep(s, s', t) && InCall(s.pcs[t]) && t < |s'.pcs| && InCall(s'.pcs[t])
    ensures s'.pcs[t].want == s.pcs[t].want && ModeOf(s.pcs[t]) == ModeOf(s'.pcs[t])
  {
  }

  lemma CallBegins(s: State, t: nat, want: nat, mode: Mode) returns (s': State)
    requires t < |s.pcs| && s.pcs[t].Done?
    ensures Call(s, s', t, want, mode) && InCall(s'.pcs[t]) && s'.pcs[t].want == want && ModeOf(s'.pcs[t]) == mode
    ensures Holds(s'.pcs[t]) == 0 && forall x | Call(s, x, t, want, mode) :: x == s'
  {
    s' := Goto(s, t, Load(want, 0, mode));
  }

  /** A try decides at once; any other call comes back with nothing only after its time is up. */
  lemma NothingOnlyAfterTimeout(s: State, s': State, t: nat)
    requires t < |s.pcs| && t < |s'.pcs| && InCall(s.pcs[t]) && PcOk(s.pcs[t])
    requires TryStep(s, s', t) || SpinStep(s, s', t) || SleepStep(s, s', t)
    ensures s'.pcs[t].Done? && s'.pcs[t].got == 0 && s'.pcs[t].want > 0 ==>
      ModeOf(s.pcs[t]) == Try || (s.pcs[t].UndoCas? && s.count < 0)
    ensures ModeOf(s.pcs[t]) == Try && (s.pcs[t].Load? || s.pcs[t].Cas?) ==> s'.pcs[t].Done? || s'.pcs[t].Cas?
  {
  }

  /** A waiter that sees units while it spins can take as many as it wants of them and return without sleeping. */
  lemma SpinTakesWhatItSees(s: State, t: nat) returns (s1: State, s2: State)
    requires t < |s.pcs| && s.pcs[t].Spin? && s.count > 0
    ensures SpinStep(s, s1, t) && SpinStep(s1, s2, t)
    ensures var got := Min(s.pcs[t].want, s.count);
      s2.pcs[t] == Done(got, s.pcs[t].want, s.pcs[t].mode) && s2.count == s.count - got
        && s2.returned == s.returned + got
  {
    var want, mode := s.pcs[t].want, s.pcs[t].mode;
    s1 := Goto(s, t, SpinCas(want, mode, s.count));
    var taken := s.count - Left(s.count, want);
    s2 := Return(s1, t, taken, want, mode).(count := s.count - taken, granted := s.granted + taken);
  }

  /** Only its own steps take a thread out of a call. */
  lemma MovedBy(s: State, s': State, t: nat)
    requires Step(s, s') && t < |s.pcs| && t < |s'.pcs| && InCall(s.pcs[t]) && s'.pcs[t].Done?
    ensures TryStep(s, s', t) || SpinStep(s, s', t) || SleepStep(s, s', t)
  {
    var u :| ThreadStep(s, s', u);
    if u != t {
      StaysPut(s, s', u, t);
      assert false;
    }
    hide TryStep, SpinStep, SleepStep;
  }

  lemma StaysPut(s: State, s': State, u: nat, t: nat)
    requires ThreadStep(s, s', u) && u != t && t < |s.pcs| && t < |s'.pcs|
    ensures s'.pcs[t] == s.pcs[t]
  {
  }

  /** tryWait and tryWaitMany take all they want or all there is. */
  lemma TryTakesWhatIsThere(run: seq<State>, i: nat, t: nat)
    requires IsRun(run) && i + 1 < |run| && t < |run[i].pcs| && t < |run[i + 1].pcs|
    requires InCall(run[i].pcs[t]) && run[i + 1].pcs[t].Done? && Holds(run[i].pcs[t]) == 0
    ensures run[i + 1].pcs[t].got == Min(run[i].pcs[t].want, Free(run[i].count))
    ensures run[i + 1].pcs[t].got == 0 && run[i].pcs[t].want > 0 ==> run[i].count <= 0
  {
    AnswerIsGreedy(run, i, t);
  }

  /** Only a call that has waited holds a unit before it returns. */
  lemma TryHoldsNothing(run: seq<State>, i: nat, t: nat)
    requires IsRun(run) && i < |run| && t < |run[i].pcs| && InCall(run[i].pcs[t])
    ensures (run[i].pcs[t].Load? || run[i].pcs[t].Cas?) && run[i].pcs[t].mode == Try ==> Holds(run[i].pcs[t]) == 0
    ensures run[i].pcs[t].Won? || run[i].pcs[t].Asleep? || run[i].pcs[t].Decrement? ==> run[i].pcs[t].mode != Try
  {
    hide Init;
    TriesOnlyTry(run, i);
    assert TryOk(run[i].pcs[t]);
  }

  predicate TryOk(p: Pc)
  {
    && (p.Load? || p.Cas? ==> (p.mode == Try ==> p.got == 0))
    && (p.Spin? || p.SpinCas? || p.Decrement? || p.Asleep? || p.Won? ==> p.mode != Try)
  }

  lemma TryOkStep(s: State, s': State, t: nat)
    requires ThreadStep(s, s', t) && forall u | 0 <= u < |s.pcs| :: TryOk(s.pcs[u])
    ensures forall u | 0 <= u < |s'.pcs| :: TryOk(s'.pcs[u])
  {
    assert t < |s.pcs| && TryOk(s.pcs[t]);
    OwnTryOk(s, s', t);
    forall u | 0 <= u < |s'.pcs| ensures TryOk(s'.pcs[u]) {
      if u != t {
        StaysPut(s, s', t, u);
      }
    }
  }

  lemma OwnTryOk(s: State, s': State, t: nat)
    requires ThreadStep(s, s', t) && t < |s.pcs| && TryOk(s.pcs[t])
    ensures |s'.pcs| == |s.pcs| && TryOk(s'.pcs[t])
  {
  }

  lemma {:induction false} TriesOnlyTry(run: seq<State>, i: nat)
    requires IsRun(run) && i < |run|
    ensures forall t | 0 <= t < |run[i].pcs| :: TryOk(run[i].pcs[t])
  {
    hide ThreadStep, TryOk;
    if i == 0 {
      StartsTry(run[0]);
    } else {
      TriesOnlyTry(run, i - 1);
      assert Step(run[i - 1], run[i]);
      var t :| ThreadStep(run[i - 1], run[i], t);
      TryOkStep(run[i - 1], run[i], t);
    }
  }

  lemma StartsTry(s: State)
    requires Init(s)
    ensures forall t | 0 <= t < |s.pcs| :: TryOk(s.pcs[t])
  {
  }

  /** A call in flight can take its next step, unless it waits without a timeout and no token is there. */
  lemma NeverStuck(run: seq<State>, i: nat, t: nat) returns (s': State)
    requires IsRun(run) && i < |run| && t < |run[i].pcs| && !run[i].pcs[t].Done?
    requires run[i].pcs[t].Asleep? ==> run[i].kernel > 0 || run[i].pcs[t].mode == Timed
    ensures ThreadStep(run[i], s', t) && |s'.pcs| == |run[i].pcs| && s'.pcs[t] != run[i].pcs[t]
  {
    hide Init, Balanced, Step;
    RunKeeps(run, i);
    assert PcOk(run[i].pcs[t]);
    s' := Advance(run[i], t);
  }

  lemma Advance(s: State, t: nat) returns (s': State)
    requires t < |s.pcs| && PcOk(s.pcs[t]) && !s.pcs[t].Done?
    requires s.pcs[t].Asleep? ==> s.kernel > 0 || s.pcs[t].mode == Timed
    ensures ThreadStep(s, s', t) && |s'.pcs| == |s.pcs| && s'.pcs[t] != s.pcs[t]
  {
    match s.pcs[t] {
      case Load(want, got, mode) =>
        s' := if s.count > 0 then Goto(s, t, Cas(want, got, mode, s.count)) else GiveUp(s, t, want, got, mode);
        assert TryStep(s, s', t);
      case Cas(want, got, mode, seen) =>
        if s.count == seen {
          var taken := seen - Left(seen, want - got);
          s' := Return(s, t, got + taken, want, mode).(count := seen - taken, granted := s.granted + taken);
        } else {
          s' := if s.count > 0 then Goto(s, t, Cas(want, got, mode, s.count)) else GiveUp(s, t, want, got, mode);
        }
        assert TryStep(s, s', t);
      case Spin(want, mode) =>
        s' := Goto(s, t, Decrement(want, mode));
        assert SpinStep(s, s', t);
      case SpinCas(want, mode, seen) =>
        if s.count == seen {
          var taken := seen - Left(seen, want);
          s' := Return(s, t, taken, want, mode).(count := seen - taken, granted := s.granted + taken);
        } else {
          s' := Goto(s, t, Spin(want, mode));
        }
        assert SpinStep(s, s', t);
      case Decrement(want, mode) =>
        s' := if s.count > 0 then Goto(s, t, Won(want, mode)).(count := s.count - 1, granted := s.granted + 1)
              else Goto(s, t, Asleep(want, mode)).(count := s.count - 1);
        assert SpinStep(s, s', t);
      case Asleep(want, mode) =>
        s' := if s.kernel > 0 then Goto(s, t, Won(want, mode)).(kernel := s.kernel - 1, granted := s.granted + 1)
              else Goto(s, t, Undo(want));
        assert SleepStep(s, s', t);
      case Undo(want) =>
        s' := Goto(s, t, if s.count >= 0 then UndoTake(want) else UndoCas(want, s.count));
        assert SleepStep(s, s', t);
      case UndoTake(want) =>
        s' := if s.kernel > 0 then Goto(s, t, Won(want, Timed)).(kernel := s.kernel - 1, granted := s.granted + 1)
              else Goto(s, t, Undo(want));
        assert SleepStep(s, s', t);
      case UndoCas(want, seen) =>
        s' := if s.count == seen then Return(s, t, 0, want, Timed).(count := s.count + 1) else Goto(s, t, Undo(want));
        assert SleepStep(s, s', t);
      case Won(want, mode) =>
        s' := if want > 1 then Goto(s, t, Load(want, 1, mode)) else Return(s, t, 1, want, mode);
        assert SleepStep(s, s', t);
      case Post(left) =>
        s' := Goto(s, t, if left > 1 then Post(left - 1) else Done(0, 0, Try)).(kernel := s.kernel + 1);
        assert PostStep(s, s', t);
    }
  }
}
