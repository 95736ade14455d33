/**
 * What the 32-bit tickets of AtomicQueue2 do to try-only use: for sizes below 2^31 that do not divide
 * 2^32, two tickets of one lap meet in one slot at the wrap and a single thread gets stuck; and a
 * try_push that stalls for half a turn of the counters refuses an empty queue. Together with
 * AtomicQueue.SomeoneCanStep this says exactly which sizes are safe.
 */
module AtomicQueueWrap {
  import opened AtomicQueue
  import opened Tickets

  ghost predicate Reachable(s: State) { exists run :: IsTryRun(run) && run[|run| - 1] == s }

  lemma ReachStep(s: State, s': State)
    requires Reachable(s) && TryOnlyStep(s, s') && NoTurn(s')
    ensures Reachable(s')
  {
    hide TryOnlyStep, Init, NoTurn;
    var run :| IsTryRun(run) && run[|run| - 1] == s;
    var run' := run + [s'];
    forall i | 0 <= i < |run'| - 1 ensures TryOnlyStep(run'[i], run'[i + 1]) {
      if i < |run| - 1 {
        assert run'[i] == run[i] && run'[i + 1] == run[i + 1];
      }
    }
    forall i | 0 <= i < |run'| ensures NoTurn(run'[i]) {
      if i < |run| {
        assert run'[i] == run[i];
      }
    }
    assert IsTryRun(run') && run'[|run'| - 1] == s';
  }

  lemma ReachableInv(s: State)
    requires Reachable(s)
    ensures Inv(s)
  {
    hide TryOnlyStep, Init, NoTurn, Inv, Step;
    var run :| IsTryRun(run) && run[|run| - 1] == s;
    TryRunIsRun(run);
    RunKeeps(run, |run| - 1);
  }

  lemma WordsOf(s: State)
    requires Reachable(s)
    ensures s.head == s.pushes % WORD && s.tail == s.pops % WORD
  {
    hide Reachable, SlotOk, ThreadOk, Conserved, Counting.Total;
    ReachableInv(s);
  }

  // ------------------------------------------------------------------------------------------
  // One thread works while the others, `rest`, stand still
  // ------------------------------------------------------------------------------------------

  /** The other threads have not fallen a turn behind the counts. */
  ghost predicate Calm(rest: seq<Pc>, pushes: nat, pops: nat)
  {
    forall i | 0 <= i < |rest| :: Lag(rest[i], pushes, pops) < WORD
  }

  lemma CalmBefore(rest: seq<Pc>, pushes: nat, pops: nat, pushes': nat, pops': nat)
    requires Calm(rest, pushes', pops') && pushes <= pushes' && pops <= pops'
    ensures Calm(rest, pushes, pops)
  {
    forall i | 0 <= i < |rest| ensures Lag(rest[i], pushes, pops) < WORD {
      assert Lag(rest[i], pushes', pops') < WORD;
    }
  }

  /** A step of the working thread, from position p to position q. */
  lemma Works(s: State, s': State, rest: seq<Pc>, p: Pc, q: Pc)
    requires Reachable(s) && s.pcs == rest + [p] && s'.pcs == rest + [q]
    requires var t := |rest|; TryStart(s, s', t) || TryStep(s, s', t) || SlotStep(s, s', t)
    requires Calm(rest, s'.pushes, s'.pops) && Lag(q, s'.pushes, s'.pops) < WORD
    ensures Reachable(s')
  {
    hide Reachable, TryStart, TryStep, SlotStep, Lag;
    ReachStep(s, s');
  }

  /** Before the slot: a try_push of an idle thread takes its ticket. */
  lemma TakesTicket(s: State, rest: seq<Pc>, y: nat) returns (s': State)
    requires Reachable(s) && s.pcs == rest + [Idle] && Calm(rest, s.pushes + 1, s.pops)
    requires s.pops <= s.pushes < s.pops + |s.slots| && 0 < |s.slots| < HALF && y == SlotOf(s.pushes, |s.slots|)
    ensures Reachable(s') && s'.pcs == rest + [PushAt(0, y)] && s'.slots == s.slots
    ensures s'.pushes == s.pushes + 1 && s'.pops == s.pops
  {
    hide Reachable, TryOnlyStep, Difference, Calm;
    WordsOf(s);
    DifferenceExact(s.pushes, s.pops);
    CalmBefore(rest, s.pushes, s.pops, s.pushes + 1, s.pops);
    var t, p1, p2 := |rest|, PushLoad(0, s.head, s.pushes), PushCas(0, s.head, s.pushes);
    var s1, s2 := s.(pcs := rest + [p1]), s.(pcs := rest + [p2]);
    assert s1 == Goto(s, t, PushLoad(0, s.head, s.pushes));
    Works(s, s1, rest, Idle, p1);
    assert s2 == Goto(s1, t, p2);
    Works(s1, s2, rest, p1, p2);
    s' := TakePush(s2, t, 0);
    assert s'.pcs == rest + [PushAt(0, y)];
    Works(s2, s', rest, p2, PushAt(0, y));
  }

  /** At the slot: with the slot empty the push completes. */
  lemma PushOnce(s: State, rest: seq<Pc>, y: nat) returns (s': State)
    requires Reachable(s) && s.pcs == rest + [Idle] && Calm(rest, s.pushes + 1, s.pops)
    requires s.pops <= s.pushes < s.pops + |s.slots| && 0 < |s.slots| < HALF
    requires y == SlotOf(s.pushes, |s.slots|) < |s.slots| && s.slots[y].phase == EMPTY
    ensures Reachable(s') && s'.pcs == rest + [Idle] && s'.slots == s.slots[y := Slot(STORED, 0, true)]
    ensures s'.pushes == s.pushes + 1 && s'.pops == s.pops
  {
    hide Reachable, TryStep, TryStart, Calm;
    var t := |rest|;
    var s1 := TakesTicket(s, rest, y);
    var s2 := SetSlot(Goto(s1, t, Write(0, y)), y, s1.slots[y].(phase := STORING));
    assert s2.pcs == rest + [Write(0, y)];
    Works(s1, s2, rest, PushAt(0, y), Write(0, y));
    var s3 := SetSlot(Goto(s2, t, Finish(y)), y, s2.slots[y].(elem := 0, live := true));
    assert s3.pcs == rest + [Finish(y)];
    Works(s2, s3, rest, Write(0, y), Finish(y));
    s' := SetSlot(Goto(s3, t, Idle), y, s3.slots[y].(phase := STORED));
    assert s'.pcs == rest + [Idle];
    Works(s3, s', rest, Finish(y), Idle);
  }

  lemma TakesPop(s: State, rest: seq<Pc>, y: nat) returns (s': State)
    requires Reachable(s) && s.pcs == rest + [Idle] && Calm(rest, s.pushes, s.pops + 1)
    requires s.pops < s.pushes <= s.pops + |s.slots| && 0 < |s.slots| < HALF && y == SlotOf(s.pops, |s.slots|)
    ensures Reachable(s') && s'.pcs == rest + [PopAt(y)] && s'.slots == s.slots
    ensures s'.pushes == s.pushes && s'.pops == s.pops + 1
  {
    hide Reachable, TryOnlyStep, Difference, Calm;
    WordsOf(s);
    DifferenceExact(s.pushes, s.pops);
    CalmBefore(rest, s.pushes, s.pops, s.pushes, s.pops + 1);
    var t, p1, p2 := |rest|, PopLoad(s.tail, s.pops), PopCas(s.tail, s.pops);
    var s1, s2 := s.(pcs := rest + [p1]), s.(pcs := rest + [p2]);
    assert s1 == Goto(s, t, PopLoad(s.tail, s.pops));
    Works(s, s1, rest, Idle, p1);
    assert s2 == Goto(s1, t, p2);
    Works(s1, s2, rest, p1, p2);
    s' := TakePop(s2, t);
    assert s'.pcs == rest + [PopAt(y)];
    Works(s2, s', rest, p2, PopAt(y));
  }

  lemma PopOnce(s: State, rest: seq<Pc>, y: nat) returns (s': State)
    requires Reachable(s) && s.pcs == rest + [Idle] && Calm(rest, s.pushes, s.pops + 1)
    requires s.pops < s.pushes <= s.pops + |s.slots| && 0 < |s.slots| < HALF
    requires y == SlotOf(s.pops, |s.slots|) < |s.slots| && s.slots[y] == Slot(STORED, 0, true)
    ensures Reachable(s') && s'.pcs == rest + [Idle] && s'.slots == s.slots[y := Slot(EMPTY, 0, false)]
    ensures s'.pushes == s.pushes && s'.pops == s.pops + 1
  {
    hide Reachable, TryStep, TryStart, Calm;
    var t := |rest|;
    var s1 := TakesPop(s, rest, y);
    var s2 := SetSlot(Goto(s1, t, Read(y)), y, s1.slots[y].(phase := LOADING));
    assert s2.pcs == rest + [Read(y)];
    Works(s1, s2, rest, PopAt(y), Read(y));
    var s3 := SetSlot(Goto(s2, t, Clear(0, y)), y, s2.slots[y].(live := false));
    assert s3.pcs == rest + [Clear(0, y)];
    Works(s2, s3, rest, Read(y), Clear(0, y));
    s' := SetSlot(Goto(s3, t, Idle), y, s3.slots[y].(phase := EMPTY)).(popped := s3.popped + multiset{0});
    assert s'.pcs == rest + [Idle];
    Works(s3, s', rest, Clear(0, y), Idle);
  }

  /** Slots of which the first j hold a value. */
  function Row(size: nat, j: nat): seq<Slot>
  {
    seq(size, x => if x < j then Slot(STORED, 0, true) else Slot(EMPTY, 0, false))
  }

  /** A queue at rest after equally many pushes and pops. */
  ghost predicate Settled(s: State, rest: seq<Pc>, size: nat, n: nat)
  {
    && Reachable(s) && s.pcs == rest + [Idle] && s.slots == Row(size, 0) && s.pushes == n && s.pops == n
  }

  lemma Fresh(size: nat, threads: nat) returns (s: State)
    requires 0 < size < HALF
    ensures Settled(s, seq(threads, _ => Idle), size, 0)
  {
    var rest: seq<Pc> := seq(threads, _ => Idle);
    s := State(0, 0, 0, 0, Row(size, 0), rest + [Idle], multiset{}, multiset{});
    assert forall t | 0 <= t < |s.pcs| :: s.pcs[t] == Idle;
    assert Init(s) && NoTurn(s);
    assert IsTryRun([s]) && [s][0] == s;
  }

  /** From a settled state, any number of pushes, each followed by its pop. */
  lemma {:induction false} Cycles(s0: State, rest: seq<Pc>, size: nat, n: nat) returns (s: State)
    requires 0 < size < HALF && Settled(s0, rest, size, 0) && Calm(rest, n, n)
    ensures Settled(s, rest, size, n)
    decreases n
  {
    hide Reachable, SlotOf, Calm;
    if n == 0 {
      s := s0;
    } else {
      CalmBefore(rest, n - 1, n - 1, n, n);
      CalmBefore(rest, n, n - 1, n, n);
      var s1 := Cycles(s0, rest, size, n - 1);
      SlotInRange(n - 1, size);
      var y := SlotOf(n - 1, size);
      var s2 := PushOnce(s1, rest, y);
      s := PopOnce(s2, rest, y);
      assert s.slots == s1.slots;
    }
  }

  // ------------------------------------------------------------------------------------------
  // Stuck at the wrap
  // ------------------------------------------------------------------------------------------

  /** Pushes into the incomplete lap before the wrap. */
  lemma {:induction false} Fills(size: nat, j: nat) returns (s: State)
    requires 0 < size < HALF && j <= WORD % size && WORD % size > 0
    ensures Reachable(s) && s.pcs == [] + [Idle] && s.slots == Row(size, j)
    ensures s.pushes == WORD - WORD % size + j && s.pops == WORD - WORD % size
    decreases j
  {
    hide Reachable, SlotOf;
    LastLap(size, 0);
    if j == 0 {
      var s0 := Fresh(size, 0);
      s := Cycles(s0, [], size, WORD - WORD % size);
    } else {
      var s0 := Fills(size, j - 1);
      LastLap(size, j - 1);
      s := PushOnce(s0, [], j - 1);
      assert s.slots == Row(size, j);
    }
  }

  /**
   * The thread's next try_push gets the wrapped ticket and waits at slot zero, which is full: an
   * operation is in flight and nothing in flight can step.
   */
  lemma StuckAtWrap(size: nat) returns (s: State)
    requires 0 < size < HALF && !Divides(size)
    ensures Reachable(s) && |s.slots| == size && InFlight(s) && !SomeoneCan(s)
    ensures s.pushes == WORD + 1 && s.pops == WORD - WORD % size && s.pcs == [PushAt(0, 0)]
  {
    hide Reachable, SlotOf;
    LastLap(size, 0);
    var s0 := Fills(size, WORD % size);
    WrappedTicket(size);
    s := TakesTicket(s0, [], 0);
    assert s.pcs[0] == PushAt(0, 0) && s.slots[0].phase == STORED;
  }

  /** Three slots: the ticket before the wrap and the one after it both name slot zero. */
  lemma ThreeSlotsGetStuck() returns (s: State)
    ensures Reachable(s) && |s.slots| == 3 && InFlight(s) && !SomeoneCan(s) && s.pops == WORD - 1
  {
    hide Reachable;
    s := StuckAtWrap(3);
  }

  /** From 2^31 slots on no call takes a ticket: the queue stays as it was built. */
  predicate Untouched(s: State)
  {
    && s.head == 0 && s.tail == 0 && HALF <= |s.slots| < WORD
    && forall t | 0 <= t < |s.pcs| :: Looking(s.pcs[t])
  }

  predicate Looking(p: Pc) { p.Idle? || (p.PushLoad? && p.head == 0) || (p.PopLoad? && p.tail == 0) }

  lemma UntouchedKeeps(s: State, s': State)
    requires Untouched(s) && TryOnlyStep(s, s')
    ensures Untouched(s')
  {
    var t: nat :| TryStart(s, s', t) || TryStep(s, s', t) || SlotStep(s, s', t);
    assert Looking(s.pcs[t]);
  }

  lemma {:induction false} HugeIsUntouched(run: seq<State>, i: nat)
    requires IsTryRun(run) && i < |run| && |run[0].slots| >= HALF
    ensures Untouched(run[i])
  {
    hide TryOnlyStep, NoTurn;
    if i > 0 {
      HugeIsUntouched(run, i - 1);
      UntouchedKeeps(run[i - 1], run[i]);
    }
  }

  /**
   * Deadlock freedom of try-only use holds in all runs exactly when the size divides 2^32, or is so
   * large that no call ever takes a ticket.
   */
  lemma SomeoneCanStepIff(size: nat)
    requires 0 < size < WORD
    ensures (forall s | Reachable(s) && |s.slots| == size && InFlight(s) :: SomeoneCan(s))
            <==> Divides(size) || size >= HALF
  {
    hide Reachable, SomeoneCan, InFlight, Divides;
    if Divides(size) || size >= HALF {
      forall s | Reachable(s) && |s.slots| == size && InFlight(s) ensures SomeoneCan(s) {
        MovesOn(s);
      }
    } else {
      var s := StuckAtWrap(size);
    }
  }

  lemma MovesOn(s: State)
    requires Reachable(s) && 0 < |s.slots| < WORD && InFlight(s) && (Divides(|s.slots|) || |s.slots| >= HALF)
    ensures SomeoneCan(s)
  {
    hide TryOnlyStep, Init, NoTurn, Divides;
    var run :| IsTryRun(run) && run[|run| - 1] == s;
    SizeFixed(run, |run| - 1);
    var t :| 0 <= t < |s.pcs| && s.pcs[t] != Idle;
    if |s.slots| >= HALF {
      HugeIsUntouched(run, |run| - 1);
      assert Looking(s.pcs[t]) && CanStep(s, t);
    } else {
      hide CanStep;
      var u := SomeoneCanStep(run, |run| - 1, t);
    }
  }

  // ------------------------------------------------------------------------------------------
  // Stalled for half a turn
  // ------------------------------------------------------------------------------------------

  /**
   * What try_push answers in any try-only run: it gives up exactly when the tickets it knows of fill
   * the queue, or when the head it loaded is more than half a turn behind the tail.
   */
  lemma GivesUpIff(run: seq<State>, i: nat, t: nat)
    requires IsTryRun(run) && i < |run| - 1 && 0 < |run[0].slots| < HALF
    requires t < |run[i].pcs| && run[i].pcs[t].PushLoad? && TryStep(run[i], run[i + 1], t)
    ensures t < |run[i + 1].pcs|
    ensures var d := run[i].pcs[t].at - run[i].pops; var size := |run[i].slots|;
      run[i + 1].pcs[t] == Idle <==> d >= size || size - WORD <= d < -HALF
  {
    hide TryOnlyStep, Init, SlotOk, Conserved, Difference, Signed, Counting.Total;
    BoundsHold(run, i);
    var s := run[i];
    var p := s.pcs[t];
    assert ThreadOk(p, s.slots, s.pushes, s.pops) && NoTurn(s);
    assert Lag(p, s.pushes, s.pops) < WORD;
    LooksFullIff(p.at, s.pops, |s.slots|);
  }

  /**
   * One slot and two threads: one starts a try_push and stalls, the other pushes and pops 2^31 + 1
   * times; then the first is refused, although the queue is empty.
   */
  lemma StalledIsRefused() returns (s: State, s': State)
    ensures Reachable(s) && Reachable(s') && |s.slots| == 1 && s.slots[0].phase == EMPTY
    ensures s.pcs == [PushLoad(0, 0, 0), Idle] && s.pushes == HALF + 1 && s.pops == HALF + 1
    ensures TryStep(s, s', 0) && s'.pcs == [Idle, Idle] && s'.slots == s.slots
  {
    hide Reachable;
    var s0 := Fresh(1, 1);
    var first := PushLoad(0, 0, 0);
    var s1 := s0.(pcs := [first] + [Idle]);
    Stalls(s0, s1);
    s := Cycles(s1, [first], 1, HALF + 1);
    s' := s.(pcs := [Idle, Idle]);
    WordsOf(s);
    Refuses(s, s');
  }

  lemma Stalls(s0: State, s1: State)
    requires Settled(s0, seq(1, _ => Idle), 1, 0) && s1 == s0.(pcs := [PushLoad(0, 0, 0)] + [Idle])
    ensures Settled(s1, [PushLoad(0, 0, 0)], 1, 0)
  {
    hide Reachable, SlotStep, TryStep;
    WordsOf(s0);
    assert s0.pcs == [Idle, Idle];
    assert s1 == Goto(s0, 0, PushLoad(0, s0.head, s0.pushes));
    assert TryStart(s0, s1, 0);
    ReachStep(s0, s1);
  }

  lemma Refuses(s: State, s': State)
    requires Reachable(s) && s.pcs == [PushLoad(0, 0, 0), Idle] && |s.slots| == 1 && s.tail == (HALF + 1) % WORD
    requires s' == s.(pcs := [Idle, Idle])
    ensures TryStep(s, s', 0) && Reachable(s')
  {
    assert s' == Goto(s, 0, Idle);
    assert TryStep(s, s', 0);
    hide Reachable;
    ReachStep(s, s');
  }
}
