/**
 * What a dequeue answers: it never claims more than it was asked for, can always take its next step,
 * and when no other attempt is in flight claims exactly as much as was asked for and is there.
 */
module OptimisticCalls {
  import opened OptimisticDequeue
  import opened Counting

  /** How much an attempt at this position asks for or has been granted. */
  function Amount(p: Pc): nat
  {
    if p.Idle? then 0
    else if p.LoadTail? || p.LoadOvercommit? || p.LoadOptimistic? then p.max
    else if p.Ticket? || p.Recheck? then p.want
    else if p.GiveBack? then (if p.got <= p.want then p.want else p.got)
    else if p.Claim? then p.got
    else p.count
  }

  /** Consumer t is inside one call from moment j to moment i. */
  predicate Busy(run: seq<State>, t: nat, j: nat, i: nat)
    requires j <= i < |run|
  {
    forall k | j <= k <= i :: t < |run[k].pcs| && run[k].pcs[t] != Idle
  }

  lemma AmountShrinks(s: State, s': State, t: nat)
    requires Step(s, s') && t < |s'.pcs| && s'.pcs[t] != Idle && !s'.pcs[t].LoadTail?
    ensures t < |s.pcs| && s.pcs[t] != Idle && Amount(s'.pcs[t]) <= Amount(s.pcs[t])
  {
  }

  lemma StartsIdle(run: seq<State>)
    requires IsRun(run)
    ensures forall t | 0 <= t < |run[0].pcs| :: run[0].pcs[t] == Idle
  {
  }

  /** No call, single or bulk, ever claims more than the maximum it began with. */
  lemma {:induction false} ClaimsAtMostMax(run: seq<State>, i: nat, t: nat) returns (j: nat)
    requires IsRun(run) && i < |run| && t < |run[i].pcs| && run[i].pcs[t] != Idle
    ensures j <= i && Busy(run, t, j, i) && run[j].pcs[t].LoadTail? && Amount(run[i].pcs[t]) <= run[j].pcs[t].max
    ensures run[i].pcs[t].Claimed? ==> run[i].pcs[t].count <= run[j].pcs[t].max
  {
    hide Step, Init;
    StartsIdle(run);
    if run[i].pcs[t].LoadTail? {
      j := i;
    } else {
      AmountShrinks(run[i - 1], run[i], t);
      j := ClaimsAtMostMax(run, i - 1, t);
    }
  }

  /** Every consumer inside a call can take its next step, whatever the others do. */
  lemma NeverStuck(run: seq<State>, i: nat, t: nat) returns (s': State)
    requires IsRun(run) && i < |run| && t < |run[i].pcs| && run[i].pcs[t] != Idle
    ensures Dequeue(run[i], s', t) && |s'.pcs| == |run[i].pcs| && s'.pcs[t] != run[i].pcs[t]
  {
    hide Init, Step, Inv;
    RunKeeps(run, i);
    if run[i].pcs[t].GiveBack? {
      GaveNoMore(run[i], t);
    }
    s' := Advance(run[i], t);
  }

  lemma Advance(s: State, t: nat) returns (s': State)
    requires t < |s.pcs| && s.pcs[t] != Idle && (s.pcs[t].GiveBack? ==> s.pcs[t].got <= s.pcs[t].want)
    ensures Dequeue(s, s', t) && |s'.pcs| == |s.pcs| && s'.pcs[t] != s.pcs[t]
  {
    match s.pcs[t] {
      case LoadTail(max) => s' := Goto(s, t, LoadOvercommit(max, s.tail));
      case LoadOvercommit(max, tail) => s' := Goto(s, t, LoadOptimistic(max, tail, s.overcommit));
      case LoadOptimistic(max, tail, over) =>
        var desired := tail - (s.optimistic - over);
        s' := Goto(s, t, if desired > 0 then Ticket(Min(desired, max), over) else Idle);
      case Ticket(want, over) =>
        s' := Goto(s, t, Recheck(want, over, s.optimistic)).(optimistic := s.optimistic + want);
      case Recheck(want, over, my) =>
        var actual := s.tail - (my - over);
        s' := Goto(s, t, if actual <= 0 then GiveBack(want, 0)
                         else if actual < want then GiveBack(want, actual) else Claim(want));
      case GiveBack(want, got) =>
        s' := Goto(s, t, if got > 0 then Claim(got) else Idle).(overcommit := s.overcommit + want - got);
      case Claim(got) => s' := Goto(s, t, Claimed(s.head, got)).(head := s.head + got);
      case Claimed(_, _) => s' := Goto(s, t, Idle);
    }
  }

  lemma GaveNoMore(s: State, t: nat)
    requires Inv(s) && t < |s.pcs| && s.pcs[t].GiveBack?
    ensures s.pcs[t].got <= s.pcs[t].want
  {
    var h :| Good(s, h);
    assert Current(h.attempts, h.of[t], t, s.pcs[t]);
    assert h.attempts[h.of[t]] in h.attempts;
  }

  predicate Quiet(s: State) { forall t | 0 <= t < |s.pcs| :: s.pcs[t] == Idle }

  /** A sequence of steps of consumer t. */
  ghost predicate Path(path: seq<State>, t: nat)
  {
    && |path| > 0 && (forall i | 0 <= i < |path| :: t < |path[i].pcs|)
    && forall i | 0 <= i < |path| - 1 :: Moves(path[i], path[i + 1], t)
  }

  ghost predicate Moves(s: State, s': State, t: nat)
    requires t < |s.pcs|
  {
    (exists max :: Begin(s, s', t, max)) || Dequeue(s, s', t)
  }

  /**
   * With no other attempt in flight, a dequeue of at most max elements claims exactly as many as were
   * asked for and are there, from the head on, and comes back without a claim only if there are none.
   */
  lemma DequeueAlone(run: seq<State>, i: nat, t: nat, max: nat) returns (path: seq<State>)
    requires IsRun(run) && i < |run| && Quiet(run[i]) && t < |run[i].pcs|
    ensures Path(path, t) && path[0] == run[i]
    ensures var s, s' := run[i], path[|path| - 1];
      && s'.tail == s.tail && s.head <= s.tail && s'.head == s.head + Min(max, s.tail - s.head)
      && s'.pcs[t] == if s.head < s.tail then Claimed(s.head, Min(max, s.tail - s.head)) else Idle
  {
    CountersSettle(run, i);
    ClaimsAreSafe(run, i);
    hide IsRun;
    path := DequeueSteps(run[i], t, max);
  }

  lemma DequeueSteps(s: State, t: nat, max: nat) returns (path: seq<State>)
    requires Quiet(s) && t < |s.pcs| && s.optimistic - s.overcommit == s.head <= s.tail
    ensures Path(path, t) && path[0] == s
    ensures var s' := path[|path| - 1];
      && s'.tail == s.tail && s'.head == s.head + Min(max, s.tail - s.head)
      && s'.pcs[t] == if s.head < s.tail then Claimed(s.head, Min(max, s.tail - s.head)) else Idle
  {
    var want := Min(max, s.tail - s.head);
    var s1, s2 := Goto(s, t, LoadTail(max)), Goto(s, t, LoadOvercommit(max, s.tail));
    var s3 := Goto(s, t, LoadOptimistic(max, s.tail, s.overcommit));
    assert Begin(s, s1, t, max) && Dequeue(s1, s2, t) && Dequeue(s2, s3, t);
    if s.head == s.tail {
      var s4 := Goto(s, t, Idle);
      assert Dequeue(s3, s4, t);
      hide Dequeue;
      path := [s, s1, s2, s3, s4];
    } else {
      var s4 := Goto(s, t, Ticket(want, s.overcommit));
      assert Dequeue(s3, s4, t);
      var s5 := Goto(s, t, Recheck(want, s.overcommit, s.optimistic)).(optimistic := s.optimistic + want);
      var s6 := Goto(s, t, Claim(want)).(optimistic := s.optimistic + want);
      var s7 := Goto(s, t, Claimed(s.head, want)).(optimistic := s.optimistic + want, head := s.head + want);
      assert Dequeue(s4, s5, t) && Dequeue(s5, s6, t) && Dequeue(s6, s7, t);
      hide Dequeue;
      path := [s, s1, s2, s3, s4, s5, s6, s7];
    }
  }

  // ------------------------------------------------------------------------------------------
  // A dequeue comes back without a claim only if the elements it saw were spoken for
  // ------------------------------------------------------------------------------------------

  /** What an attempt with a ticket may still claim or give back. */
  function SpokenFor(p: Pc): nat
  {
    if p.Recheck? || p.GiveBack? then p.want else if p.Claim? then p.got else 0
  }

  ghost function SpokenForIn(s: State): nat { Total(s.pcs, SpokenFor) }

  ghost predicate Balanced(s: State) { s.optimistic == s.overcommit + s.head + SpokenForIn(s) }

  lemma DequeueBalances(s: State, s': State, t: nat)
    requires Balanced(s) && t < |s.pcs| && Dequeue(s, s', t)
    ensures Balanced(s')
  {
    TotalUpdate(s.pcs, t, s'.pcs[t], SpokenFor);
    assert s'.pcs == s.pcs[t := s'.pcs[t]];
    hide Total;
  }

  lemma StepBalances(s: State, s': State)
    requires Balanced(s) && Step(s, s')
    ensures Balanced(s')
  {
    hide Dequeue;
    if t: nat :| t < |s.pcs| && Dequeue(s, s', t) {
      DequeueBalances(s, s', t);
    } else if t: nat, max :| t < |s.pcs| && Begin(s, s', t, max) {
      TotalUpdate(s.pcs, t, LoadTail(max), SpokenFor);
    }
  }

  lemma {:induction false} RunBalances(run: seq<State>, i: nat)
    requires IsRun(run) && i < |run|
    ensures Balanced(run[i])
  {
    hide Step, Balanced;
    if i == 0 {
      StartsBalanced(run[0]);
    } else {
      RunBalances(run, i - 1);
      StepBalances(run[i - 1], run[i]);
    }
  }

  lemma StartsBalanced(s: State)
    requires Init(s)
    ensures Balanced(s)
  {
    TotalZero(s.pcs, SpokenFor);
  }

  /** One step of the history of what consumer t has loaded. */
  lemma LoadStep(s: State, s': State, t: nat)
    requires Step(s, s') && t < |s'.pcs| && s'.pcs[t] != Idle && !s'.pcs[t].LoadTail?
    ensures t < |s.pcs| && s.pcs[t] != Idle
    ensures s'.pcs[t].LoadOvercommit? || s'.pcs[t].LoadOptimistic? ==>
      if s.pcs[t].LoadTail? then s'.pcs[t].tail == s.tail
      else (s.pcs[t].LoadOvercommit? || s.pcs[t].LoadOptimistic?) && s.pcs[t].tail == s'.pcs[t].tail
    ensures HasOver(s'.pcs[t]) ==>
      if HasOver(s.pcs[t]) then s'.pcs[t].over == s.pcs[t].over else s'.pcs[t].over == s.overcommit
    ensures s'.pcs[t].Recheck? ==>
      if s.pcs[t].Recheck? then s'.pcs[t].my == s.pcs[t].my else s.pcs[t].Ticket? && s'.pcs[t].my == s.optimistic
  {
  }

  predicate HasOver(p: Pc) { p.LoadOptimistic? || p.Ticket? || p.Recheck? }

  /** The tail loaded first was the tail at a moment of the call. */
  lemma {:induction false} TailLoaded(run: seq<State>, i: nat, t: nat) returns (j: nat)
    requires IsRun(run) && i < |run| && t < |run[i].pcs|
    requires run[i].pcs[t].LoadOvercommit? || run[i].pcs[t].LoadOptimistic?
    ensures j < i && Busy(run, t, j, i) && run[j].tail == run[i].pcs[t].tail
  {
    hide Step;
    StartsIdle(run);
    LoadStep(run[i - 1], run[i], t);
    if run[i - 1].pcs[t].LoadTail? {
      j := i - 1;
    } else {
      j := TailLoaded(run, i - 1, t);
    }
  }

  lemma {:induction false} OverLoaded(run: seq<State>, i: nat, t: nat) returns (k: nat)
    requires IsRun(run) && i < |run| && t < |run[i].pcs| && HasOver(run[i].pcs[t])
    ensures k < i && Busy(run, t, k, i) && run[k].overcommit == run[i].pcs[t].over
  {
    hide Step;
    StartsIdle(run);
    LoadStep(run[i - 1], run[i], t);
    if HasOver(run[i - 1].pcs[t]) {
      k := OverLoaded(run, i - 1, t);
    } else {
      k := i - 1;
    }
  }

  lemma {:induction false} TicketTaken(run: seq<State>, i: nat, t: nat) returns (m: nat)
    requires IsRun(run) && i < |run| && t < |run[i].pcs| && run[i].pcs[t].Recheck?
    ensures m < i && Busy(run, t, m, i) && run[m].optimistic == run[i].pcs[t].my
  {
    hide Step;
    StartsIdle(run);
    LoadStep(run[i - 1], run[i], t);
    if run[i - 1].pcs[t].Recheck? {
      m := TicketTaken(run, i - 1, t);
    } else {
      m := i - 1;
    }
  }

  /**
   * A dequeue turns away at its first look only if the elements it saw enqueued are claimed, spoken for
   * by other attempts, or no more than other attempts have given back since it looked.
   */
  lemma TurnsAwayOnlyIfSpokenFor(run: seq<State>, i: nat, t: nat) returns (j: nat, k: nat)
    requires IsRun(run) && i + 1 < |run| && t < |run[i].pcs| && run[i].pcs[t].LoadOptimistic?
    requires Dequeue(run[i], run[i + 1], t) && run[i + 1].pcs[t] == Idle
    ensures j < i && Busy(run, t, j, i) && k < i && Busy(run, t, k, i)
    ensures run[j].tail <= run[i].head + SpokenForIn(run[i]) + (run[i].overcommit - run[k].overcommit)
  {
    hide Init, Step;
    RunBalances(run, i);
    j := TailLoaded(run, i, t);
    k := OverLoaded(run, i, t);
  }

  /** And it gets nothing for its ticket only if that was so when it took the ticket, of the tail it then reloads. */
  lemma GetsNothingOnlyIfSpokenFor(run: seq<State>, i: nat, t: nat) returns (m: nat, k: nat)
    requires IsRun(run) && i + 1 < |run| && t < |run[i].pcs| && run[i].pcs[t].Recheck?
    requires Dequeue(run[i], run[i + 1], t) && run[i + 1].pcs[t].GiveBack? && run[i + 1].pcs[t].got == 0
    ensures m < i && Busy(run, t, m, i) && k < i && Busy(run, t, k, i)
    ensures run[i].tail <= run[m].head + SpokenForIn(run[m]) + (run[m].overcommit - run[k].overcommit)
  {
    hide Init, Step;
    m := TicketTaken(run, i, t);
    k := OverLoaded(run, i, t);
    RunBalances(run, m);
  }
}
