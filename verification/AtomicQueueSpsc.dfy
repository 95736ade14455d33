/**
 * AtomicQueue2 and AtomicQueueB2 with one producer thread and one consumer thread, both with the
 * SPSC option (plain loads and stores of a slot's state) and without it (CAS through the
 * intermediate states), for every size. The counters are 32-bit words, so two tickets of one lap may
 * name the same slot; the order is kept all the same. Slots are numbered before remapping.
 */
module AtomicQueueSpsc {
  import opened Modular
  import opened Tickets

  type Value = int

  datatype Slot = Slot(phase: Phase, elem: Value)

  datatype Producer =
    | Ready
      // try_push: before loading tail_, and before taking the ticket
    | LoadTail(v: Value)
    | TakeHead(v: Value)
      // with a ticket for slot x: waiting for it, before writing the element, before storing the state
    | Await(v: Value, x: nat)
    | Write(v: Value, x: nat)
    | Finish(v: Value, x: nat)

  datatype Consumer = Resting | LoadHead | TakeTail | Expect(x: nat) | Read(x: nat) | Clear(v: Value, x: nat)

  /** `pushed` and `popped` list the values of the completed pushes and pops. */
  datatype State = State(
    spsc: bool,
    head: nat,
    tail: nat,
    slots: seq<Slot>,
    ppc: Producer,
    cpc: Consumer,
    pushed: seq<Value>,
    popped: seq<Value>)

  ghost predicate Init(s: State)
  {
    && 0 < |s.slots| < WORD && s.head == 0 && s.tail == 0 && s.ppc == Ready && s.cpc == Resting
    && s.pushed == [] && s.popped == []
    && forall x | 0 <= x < |s.slots| :: s.slots[x].phase == EMPTY
  }

  function SetSlot(s: State, x: nat, k: Slot): State
    requires x < |s.slots|
  {
    s.(slots := s.slots[x := k])
  }

  ghost predicate StartPush(s: State, s': State, v: Value)
  {
    s.ppc == Ready && (s' == s.(ppc := LoadTail(v)) || s' == s.(ppc := TakeHead(v)))
  }

  ghost predicate Produce(s: State, s': State)
  {
    match s.ppc
    case Ready => false
    case LoadTail(v) =>
      s' == s.(ppc := if Difference(s.head, s.tail) >= Signed(|s.slots|) then Ready else TakeHead(v))
    case TakeHead(v) =>
      |s.slots| > 0 && s' == s.(ppc := Await(v, s.head % |s.slots|), head := (s.head + 1) % WORD)
    case Await(v, x) =>
      && x < |s.slots| && s.slots[x].phase == EMPTY
      && s' == SetSlot(s, x, s.slots[x].(phase := if s.spsc then EMPTY else STORING)).(ppc := Write(v, x))
    case Write(v, x) => x < |s.slots| && s' == SetSlot(s, x, s.slots[x].(elem := v)).(ppc := Finish(v, x))
    case Finish(v, x) =>
      x < |s.slots| && s' == SetSlot(s, x, s.slots[x].(phase := STORED)).(ppc := Ready, pushed := s.pushed + [v])
  }

  ghost predicate StartPop(s: State, s': State)
  {
    s.cpc == Resting && (s' == s.(cpc := LoadHead) || s' == s.(cpc := TakeTail))
  }

  ghost predicate Consume(s: State, s': State)
  {
    match s.cpc
    case Resting => false
    case LoadHead => s' == s.(cpc := if Difference(s.head, s.tail) <= 0 then Resting else TakeTail)
    case TakeTail => |s.slots| > 0 && s' == s.(cpc := Expect(s.tail % |s.slots|), tail := (s.tail + 1) % WORD)
    case Expect(x) =>
      && x < |s.slots| && s.slots[x].phase == STORED
      && s' == SetSlot(s, x, s.slots[x].(phase := if s.spsc then STORED else LOADING)).(cpc := Read(x))
    case Read(x) => x < |s.slots| && s' == s.(cpc := Clear(s.slots[x].elem, x))
    case Clear(v, x) =>
      x < |s.slots| && s' == SetSlot(s, x, s.slots[x].(phase := EMPTY)).(cpc := Resting, popped := s.popped + [v])
  }

  ghost predicate Step(s: State, s': State)
  {
    (exists v :: StartPush(s, s', v)) || Produce(s, s') || StartPop(s, s') || Consume(s, s')
  }

  ghost predicate IsRun(run: seq<State>)
  {
    && |run| > 0
    && Init(run[0])
    && forall i :: 0 <= i < |run| - 1 ==> Step(run[i], run[i + 1])
  }

  // ------------------------------------------------------------------------------------------
  // The invariant, over the tickets from m to n of the elements between pushes and pops
  // ------------------------------------------------------------------------------------------

  predicate Storing(p: Producer) { p.Write? || p.Finish? }

  predicate Loading(p: Consumer) { p.Read? || p.Clear? }

  ghost predicate Named(x: nat, m: nat, n: nat, size: nat)
    requires size > 0
  {
    exists k: nat :: m <= k < n && SlotOf(k, size) == x
  }

  /** The elements are in different slots. */
  ghost predicate Spread(m: nat, n: nat, size: nat)
    requires size > 0
  {
    forall j: nat, k: nat | m <= j < k < n :: SlotOf(j, size) != SlotOf(k, size)
  }

  /** The element of ticket k is in its slot. */
  ghost predicate Kept(spsc: bool, slots: seq<Slot>, c: Consumer, pushed: seq<Value>, m: nat, k: nat)
    requires |slots| > 0 && k < |pushed|
  {
    && SlotOf(k, |slots|) < |slots|
    && slots[SlotOf(k, |slots|)].elem == pushed[k]
    && slots[SlotOf(k, |slots|)].phase == (if k == m && Loading(c) && !spsc then LOADING else STORED)
  }

  ghost predicate SlotsOk(spsc: bool, slots: seq<Slot>, p: Producer, c: Consumer, pushed: seq<Value>, m: nat)
  {
    && |slots| > 0 && Spread(m, |pushed|, |slots|)
    && (forall k: nat | m <= k < |pushed| :: Kept(spsc, slots, c, pushed, m, k))
    && (forall x: nat | x < |slots| && !Named(x, m, |pushed|, |slots|) ::
          slots[x].phase == if Storing(p) && x == p.x && !spsc then STORING else EMPTY)
    && (Storing(p) ==> p.x < |slots| && !Named(p.x, m, |pushed|, |slots|))
    && (p.Finish? ==> slots[p.x].elem == p.v)
  }

  ghost predicate CountersOk(s: State)
  {
    && |s.slots| > 0
    && s.head == (|s.pushed| + (if s.ppc.Await? || Storing(s.ppc) then 1 else 0)) % WORD
    && s.tail == (|s.popped| + (if s.cpc.Expect? || Loading(s.cpc) then 1 else 0)) % WORD
    && (s.ppc.Await? || Storing(s.ppc) ==> s.ppc.x == SlotOf(|s.pushed|, |s.slots|))
    && (s.cpc.Expect? || Loading(s.cpc) ==> s.cpc.x == SlotOf(|s.popped|, |s.slots|))
  }

  ghost predicate Inv(s: State)
  {
    && CountersOk(s)
    && |s.popped| <= |s.pushed| && s.popped == s.pushed[..|s.popped|]
    && (Loading(s.cpc) ==> |s.popped| < |s.pushed|)
    && (s.cpc.Clear? ==> s.cpc.v == s.pushed[|s.popped|])
    && SlotsOk(s.spsc, s.slots, s.ppc, s.cpc, s.pushed, |s.popped|)
  }

  lemma CountersKept(s: State, s': State)
    requires CountersOk(s) && (Produce(s, s') || Consume(s, s'))
    ensures CountersOk(s')
  {
    if Produce(s, s') {
      ProducerCounters(s, s');
    } else {
      ConsumerCounters(s, s');
    }
  }

  lemma ProducerCounters(s: State, s': State)
    requires CountersOk(s) && Produce(s, s')
    ensures CountersOk(s')
  {
    hide Difference, Signed;
    RemAdd(|s.pushed|, 1, WORD);
  }

  lemma ConsumerCounters(s: State, s': State)
    requires CountersOk(s) && Consume(s, s')
    ensures CountersOk(s')
  {
    hide Difference, Signed;
    RemAdd(|s.popped|, 1, WORD);
  }

  /** An empty slot is not the slot of any element, so the new element is apart from the others. */
  lemma AwaitKeeps(s: State, s': State)
    requires Inv(s) && s.ppc.Await? && Produce(s, s')
    ensures SlotsOk(s'.spsc, s'.slots, s'.ppc, s'.cpc, s'.pushed, |s'.popped|)
  {
    hide SlotOf, CountersOk;
    var x := s.ppc.x;
    forall k: nat | |s.popped| <= k < |s.pushed| ensures SlotOf(k, |s.slots|) != x {
      assert Kept(s.spsc, s.slots, s.cpc, s.pushed, |s.popped|, k);
    }
    OthersKept(s, s', x);
  }

  /** Changing a slot that holds no element leaves the elements alone. */
  lemma OthersKept(s: State, s': State, x: nat)
    requires SlotsOk(s.spsc, s.slots, s.ppc, s.cpc, s.pushed, |s.popped|) && x < |s.slots| == |s'.slots|
    requires s'.slots == s.slots[x := s'.slots[x]] && !Named(x, |s.popped|, |s.pushed|, |s.slots|)
    requires s'.spsc == s.spsc && s'.cpc == s.cpc && s.pushed <= s'.pushed && s'.popped == s.popped
    ensures forall k: nat | |s.popped| <= k < |s.pushed| :: Kept(s'.spsc, s'.slots, s'.cpc, s'.pushed, |s'.popped|, k)
  {
    hide SlotOf;
    forall k: nat | |s.popped| <= k < |s.pushed| ensures Kept(s'.spsc, s'.slots, s'.cpc, s'.pushed, |s'.popped|, k) {
      assert Kept(s.spsc, s.slots, s.cpc, s.pushed, |s.popped|, k) && SlotOf(k, |s.slots|) != x;
    }
  }

  lemma WriteKeeps(s: State, s': State)
    requires Inv(s) && s.ppc.Write? && Produce(s, s')
    ensures SlotsOk(s'.spsc, s'.slots, s'.ppc, s'.cpc, s'.pushed, |s'.popped|)
  {
    hide SlotOf, CountersOk;
    OthersKept(s, s', s.ppc.x);
  }

  lemma FinishKeeps(s: State, s': State)
    requires Inv(s) && s.ppc.Finish? && Produce(s, s')
    ensures SlotsOk(s'.spsc, s'.slots, s'.ppc, s'.cpc, s'.pushed, |s'.popped|)
  {
    hide SlotOf;
    var x, m, n, size := s.ppc.x, |s.popped|, |s.pushed|, |s.slots|;
    OthersKept(s, s', x);
    assert SlotOf(n, size) == x;
    forall y: nat | y < size ensures Named(y, m, n + 1, size) <==> Named(y, m, n, size) || y == x {
      if Named(y, m, n, size) {
        var k: nat :| m <= k < n && SlotOf(k, size) == y;
        assert m <= k < n + 1 && SlotOf(k, size) == y;
      }
    }
    assert Kept(s'.spsc, s'.slots, s'.cpc, s'.pushed, m, n);
    assert Spread(m, n + 1, size);
  }

  lemma ProduceKeeps(s: State, s': State)
    requires Inv(s) && Produce(s, s')
    ensures Inv(s')
  {
    CountersKept(s, s');
    hide CountersOk, Difference, Signed;
    match s.ppc
    case Await(_, _) => AwaitKeeps(s, s'); hide SlotsOk;
    case Write(_, _) => WriteKeeps(s, s'); hide SlotsOk;
    case Finish(_, _) => FinishKeeps(s, s'); hide SlotsOk;
    case LoadTail(_) => IdleKeeps(s, s'); hide SlotsOk;
    case TakeHead(_) => IdleKeeps(s, s'); hide SlotsOk;
    case Ready => {}
  }

  lemma IdleKeeps(s: State, s': State)
    requires SlotsOk(s.spsc, s.slots, s.ppc, s.cpc, s.pushed, |s.popped|) && !Storing(s.ppc) && !Storing(s'.ppc)
    requires s' == s.(ppc := s'.ppc, head := s'.head)
    ensures SlotsOk(s'.spsc, s'.slots, s'.ppc, s'.cpc, s'.pushed, |s'.popped|)
  {
    hide SlotOf, Kept;
  }

  /** A stored slot is the slot of an element, so there is one. */
  lemma ExpectKeeps(s: State, s': State)
    requires Inv(s) && s.cpc.Expect? && Consume(s, s')
    ensures SlotsOk(s'.spsc, s'.slots, s'.ppc, s'.cpc, s'.pushed, |s'.popped|) && |s.popped| < |s.pushed|
  {
    hide SlotOf;
    var x, m, n, size := s.cpc.x, |s.popped|, |s.pushed|, |s.slots|;
    assert !(m == n && Named(x, m, n, size));
    assert m < n && SlotOf(m, size) == x;
    assert Named(x, m, n, size);
    forall k: nat | m <= k < n ensures Kept(s'.spsc, s'.slots, s'.cpc, s'.pushed, m, k) {
      assert Kept(s.spsc, s.slots, s.cpc, s.pushed, m, k);
    }
  }

  lemma ReadFinds(s: State, s': State)
    requires Inv(s) && s.cpc.Read? && Consume(s, s')
    ensures SlotsOk(s'.spsc, s'.slots, s'.ppc, s'.cpc, s'.pushed, |s'.popped|)
    ensures |s.popped| < |s.pushed| && s'.cpc.Clear? && s'.cpc.v == s.pushed[|s.popped|]
  {
    hide SlotOf;
    assert Kept(s.spsc, s.slots, s.cpc, s.pushed, |s.popped|, |s.popped|);
    forall k: nat | |s.popped| <= k < |s.pushed| ensures Kept(s'.spsc, s'.slots, s'.cpc, s'.pushed, |s.popped|, k) {
      assert Kept(s.spsc, s.slots, s.cpc, s.pushed, |s.popped|, k);
    }
  }

  /** Completing a pop empties the slot of the oldest element, which is the slot of no other. */
  lemma ClearKeeps(s: State, s': State)
    requires Inv(s) && s.cpc.Clear? && Consume(s, s')
    ensures SlotsOk(s'.spsc, s'.slots, s'.ppc, s'.cpc, s'.pushed, |s'.popped|)
  {
    hide SlotOf;
    var x, m, n, size := s.cpc.x, |s.popped|, |s.pushed|, |s.slots|;
    assert SlotOf(m, size) == x && Named(x, m, n, size);
    var m' := m + 1;
    forall k: nat | m' <= k < n ensures Kept(s'.spsc, s'.slots, s'.cpc, s'.pushed, m', k) {
      assert Kept(s.spsc, s.slots, s.cpc, s.pushed, m, k) && SlotOf(k, size) != x;
    }
    forall y: nat | y < size ensures Named(y, m, n, size) <==> Named(y, m + 1, n, size) || y == x {
      if Named(y, m + 1, n, size) {
        var k: nat :| m + 1 <= k < n && SlotOf(k, size) == y;
        assert m <= k < n && SlotOf(k, size) == y;
      }
    }
    assert !Named(x, m + 1, n, size);
  }

  lemma ConsumeKeeps(s: State, s': State)
    requires Inv(s) && Consume(s, s')
    ensures Inv(s')
  {
    CountersKept(s, s');
    hide CountersOk, Difference, Signed;
    match s.cpc
    case Expect(_) => ExpectKeeps(s, s'); hide SlotsOk;
    case Read(_) => ReadFinds(s, s'); hide SlotsOk;
    case Clear(_, _) => ClearKeeps(s, s'); hide SlotsOk;
    case LoadHead => LookKeeps(s, s'); hide SlotsOk;
    case TakeTail => LookKeeps(s, s'); hide SlotsOk;
    case Resting => {}
  }

  lemma LookKeeps(s: State, s': State)
    requires SlotsOk(s.spsc, s.slots, s.ppc, s.cpc, s.pushed, |s.popped|) && !Loading(s.cpc) && !Loading(s'.cpc)
    requires s' == s.(cpc := s'.cpc, tail := s'.tail)
    ensures SlotsOk(s'.spsc, s'.slots, s'.ppc, s'.cpc, s'.pushed, |s'.popped|)
  {
    hide SlotOf;
    forall k: nat | |s.popped| <= k < |s.pushed| ensures Kept(s'.spsc, s'.slots, s'.cpc, s'.pushed, |s.popped|, k) {
      assert Kept(s.spsc, s.slots, s.cpc, s.pushed, |s.popped|, k);
    }
  }

  lemma StartKeeps(s: State, s': State)
    requires Inv(s) && (StartPop(s, s') || exists v :: StartPush(s, s', v))
    ensures Inv(s')
  {
    if StartPop(s, s') {
      LookKeeps(s, s');
      hide SlotsOk;
    } else {
      IdleKeeps(s, s');
      hide SlotsOk;
    }
  }

  lemma InitKeeps(s: State)
    requires Init(s)
    ensures Inv(s)
  {
    hide SlotOf;
    assert |s.popped| == 0 && |s.pushed| == 0;
  }

  lemma {:induction false} RunKeeps(run: seq<State>, i: nat)
    requires IsRun(run) && i < |run|
    ensures Inv(run[i])
  {
    hide Inv, Produce, Consume, Init;
    if i == 0 {
      InitKeeps(run[0]);
    } else {
      RunKeeps(run, i - 1);
      var s, s' := run[i - 1], run[i];
      assert Step(s, s');
      if Produce(s, s') {
        ProduceKeeps(s, s');
      } else if Consume(s, s') {
        ConsumeKeeps(s, s');
      } else {
        StartKeeps(s, s');
      }
    }
  }

  // ------------------------------------------------------------------------------------------
  // What the queue promises
  // ------------------------------------------------------------------------------------------

  /** The k-th pop returns the k-th push. */
  lemma PopsInPushOrder(run: seq<State>, i: nat, k: nat)
    requires IsRun(run) && i < |run| && k < |run[i].popped|
    ensures k < |run[i].pushed| && run[i].popped[k] == run[i].pushed[k]
  {
    hide SlotsOk, Init, Step, CountersOk;
    RunKeeps(run, i);
  }

  /** The two threads never access the same element. */
  lemma ElementsApart(run: seq<State>, i: nat)
    requires IsRun(run) && i < |run| && run[i].ppc.Write? && run[i].cpc.Read?
    ensures run[i].ppc.x != run[i].cpc.x
  {
    hide Init, Step, SlotOf;
    RunKeeps(run, i);
    var s := run[i];
    assert SlotOf(|s.popped|, |s.slots|) == s.cpc.x && Named(s.cpc.x, |s.popped|, |s.pushed|, |s.slots|);
  }

  /** Never more elements than slots, even where push does not look. */
  lemma Bounded(run: seq<State>, i: nat)
    requires IsRun(run) && i < |run|
    ensures |run[i].popped| <= |run[i].pushed| <= |run[i].popped| + |run[i].slots|
  {
    hide Init, Step, Kept, Named;
    RunKeeps(run, i);
    var s := run[i];
    var used := UsedSlots(|s.popped|, |s.pushed|, |s.slots|);
    Pigeons(used, |s.slots|);
  }

  /** The slots of the elements, as many as there are elements. */
  lemma {:induction false} UsedSlots(m: nat, n: nat, size: nat) returns (used: set<nat>)
    requires size > 0 && m <= n && Spread(m, n, size)
    ensures |used| == n - m && forall x | x in used :: x < size && exists k: nat :: m <= k < n && SlotOf(k, size) == x
    decreases n
  {
    if m == n {
      used := {};
    } else {
      SlotInRange(n - 1, size);
      hide SlotOf;
      var rest := UsedSlots(m, n - 1, size);
      used := rest + {SlotOf(n - 1, size)};
      assert SlotOf(n - 1, size) !in rest;
    }
  }

  lemma {:induction false} Pigeons(used: set<nat>, size: nat)
    requires forall x | x in used :: x < size
    ensures |used| <= size
  {
    if size == 0 {
      assert used == {};
    } else {
      Pigeons(used - {size - 1}, size - 1);
    }
  }

  // ------------------------------------------------------------------------------------------
  // What calls answer, and when they wait
  // ------------------------------------------------------------------------------------------

  /** Pops that have taken their ticket, and pushes that have. */
  function PopsBegun(s: State): nat { |s.popped| + if s.cpc.Expect? || Loading(s.cpc) then 1 else 0 }

  function PushesBegun(s: State): nat { |s.pushed| + if s.ppc.Await? || Storing(s.ppc) then 1 else 0 }

  /**
   * try_push gives up exactly on a queue with no slot left besides the pop in flight, and, with half
   * a turn of slots or more, as long as the queue is less than half a turn long.
   */
  lemma PushFailsIff(run: seq<State>, i: nat)
    requires IsRun(run) && i + 1 < |run| && run[i].ppc.LoadTail? && Produce(run[i], run[i + 1])
    ensures var s := run[i];
      var used := |s.pushed| - PopsBegun(s);
      run[i + 1].ppc == (if used >= |s.slots| || used < HALF <= |s.slots| then Ready else TakeHead(s.ppc.v))
  {
    hide Init, Step, SlotsOk, Difference;
    Bounded(run, i);
    SizeFixed(run, i);
    RunKeeps(run, i);
    var s := run[i];
    WordDifference(|s.pushed|, PopsBegun(s));
    WordSmall(|s.pushed| - PopsBegun(s));
  }

  /** try_pop gives up exactly when no push has begun, or half a turn or more of them. */
  lemma PopFailsIff(run: seq<State>, i: nat)
    requires IsRun(run) && i + 1 < |run| && run[i].cpc.LoadHead? && Consume(run[i], run[i + 1])
    ensures var s := run[i];
      var ahead := PushesBegun(s) - |s.popped|;
      run[i + 1].cpc == if ahead == 0 || ahead >= HALF then Resting else TakeTail
  {
    hide Init, Step, SlotsOk, Difference;
    Bounded(run, i);
    SizeFixed(run, i);
    RunKeeps(run, i);
    var s := run[i];
    WordDifference(PushesBegun(s), |s.popped|);
    WordSmall(PushesBegun(s) - |s.popped|);
  }

  lemma WordSmall(d: int)
    requires -1 <= d <= WORD
    ensures d % WORD == if d == WORD then 0 else if d < 0 then d + WORD else d
  {
  }

  lemma {:induction false} SizeFixed(run: seq<State>, i: nat)
    requires IsRun(run) && i < |run|
    ensures 0 < |run[i].slots| < WORD
  {
    if i > 0 {
      hide Init;
      SizeFixed(run, i - 1);
      SameSize(run[i - 1], run[i]);
    }
  }

  lemma SameSize(s: State, s': State)
    requires Step(s, s')
    ensures |s'.slots| == |s.slots|
  {
  }

  /** push and try_push can begin with any value, pop and try_pop too, and a push is then about its value. */
  lemma CallsBegin(s: State, v: Value)
    ensures s.ppc == Ready ==> StartPush(s, s.(ppc := LoadTail(v)), v) && StartPush(s, s.(ppc := TakeHead(v)), v)
    ensures s.cpc == Resting ==> StartPop(s, s.(cpc := LoadHead)) && StartPop(s, s.(cpc := TakeTail))
    ensures forall s' | StartPush(s, s', v) :: s'.ppc != Ready && s'.ppc.v == v && s'.pushed == s.pushed
  {
  }

  /** A push stays about its value until it returns, having appended it unless it gave up. */
  lemma PushIsOfItsValue(s: State, s': State)
    requires Produce(s, s')
    ensures s.ppc != Ready && (s'.ppc != Ready ==> s'.ppc.v == s.ppc.v && s'.pushed == s.pushed)
    ensures s'.ppc == Ready ==> s'.pushed == if s.ppc.LoadTail? then s.pushed else s.pushed + [s.ppc.v]
  {
    hide Difference, Signed;
  }

  /** A push waits only for a slot that still holds an element, and a pop only while nothing is pushed. */
  lemma WaitsOnlyFor(run: seq<State>, i: nat)
    requires IsRun(run) && i < |run|
    ensures var s := run[i];
      && (s.ppc.Await? ==>
            && s.ppc.x < |s.slots|
            && (s.slots[s.ppc.x].phase != EMPTY <==> Named(s.ppc.x, |s.popped|, |s.pushed|, |s.slots|)))
      && (s.cpc.Expect? ==>
            && s.cpc.x < |s.slots|
            && (s.slots[s.cpc.x].phase != STORED <==> |s.popped| == |s.pushed|))
  {
    hide Init, Step, SlotOf;
    RunKeeps(run, i);
    var s := run[i];
    if s.ppc.Await? {
      SlotInRange(|s.pushed|, |s.slots|);
      AwaitedSlot(s);
    }
    if s.cpc.Expect? {
      SlotInRange(|s.popped|, |s.slots|);
      ExpectedSlot(s);
    }
  }

  lemma AwaitedSlot(s: State)
    requires Inv(s) && s.ppc.Await? && s.ppc.x < |s.slots|
    ensures s.slots[s.ppc.x].phase != EMPTY <==> Named(s.ppc.x, |s.popped|, |s.pushed|, |s.slots|)
  {
    hide SlotOf;
    if Named(s.ppc.x, |s.popped|, |s.pushed|, |s.slots|) {
      var k: nat :| |s.popped| <= k < |s.pushed| && SlotOf(k, |s.slots|) == s.ppc.x;
      assert Kept(s.spsc, s.slots, s.cpc, s.pushed, |s.popped|, k);
    }
  }

  lemma ExpectedSlot(s: State)
    requires Inv(s) && s.cpc.Expect? && s.cpc.x < |s.slots|
    ensures s.slots[s.cpc.x].phase != STORED <==> |s.popped| == |s.pushed|
  {
    hide SlotOf;
    if |s.popped| < |s.pushed| {
      assert Kept(s.spsc, s.slots, s.cpc, s.pushed, |s.popped|, |s.popped|);
    } else {
      assert !Named(s.cpc.x, |s.popped|, |s.pushed|, |s.slots|);
    }
  }

  /** A push and a pop in flight never wait for each other, whatever the size. */
  lemma NeverBothWait(run: seq<State>, i: nat)
    requires IsRun(run) && i < |run| && run[i].ppc != Ready && run[i].cpc != Resting
    ensures exists s' :: (Produce(run[i], s') && s'.ppc != run[i].ppc) || (Consume(run[i], s') && s'.cpc != run[i].cpc)
  {
    WaitsOnlyFor(run, i);
    RunKeeps(run, i);
    var s := run[i];
    hide IsRun, SlotsOk, SlotOf;
    if s.ppc.Await? && s.slots[s.ppc.x].phase != EMPTY {
      var s' := PopStep(s);
    } else {
      SlotInRange(|s.pushed|, |s.slots|);
      var s' := PushStep(s);
    }
  }

  /** Every position of the producer but a wait has a next step. */
  lemma PushStep(s: State) returns (s': State)
    requires |s.slots| > 0 && s.ppc != Ready
    requires s.ppc.Await? || Storing(s.ppc) ==> s.ppc.x < |s.slots|
    requires s.ppc.Await? ==> s.slots[s.ppc.x].phase == EMPTY
    ensures Produce(s, s') && s'.ppc != s.ppc
  {
    hide Difference, Signed;
    match s.ppc {
      case LoadTail(v) =>
        s' := s.(ppc := if Difference(s.head, s.tail) >= Signed(|s.slots|) then Ready else TakeHead(v));
      case TakeHead(v) => s' := s.(ppc := Await(v, s.head % |s.slots|), head := (s.head + 1) % WORD);
      case Await(v, x) =>
        s' := SetSlot(s, x, s.slots[x].(phase := if s.spsc then EMPTY else STORING)).(ppc := Write(v, x));
      case Write(v, x) => s' := SetSlot(s, x, s.slots[x].(elem := v)).(ppc := Finish(v, x));
      case Finish(v, x) =>
        s' := SetSlot(s, x, s.slots[x].(phase := STORED)).(ppc := Ready, pushed := s.pushed + [v]);
    }
  }

  lemma PopStep(s: State) returns (s': State)
    requires |s.slots| > 0 && s.cpc != Resting
    requires s.cpc.Expect? || Loading(s.cpc) ==> s.cpc.x < |s.slots|
    requires s.cpc.Expect? ==> s.slots[s.cpc.x].phase == STORED
    ensures Consume(s, s') && s'.cpc != s.cpc
  {
    hide Difference, Signed;
    match s.cpc {
      case LoadHead => s' := s.(cpc := if Difference(s.head, s.tail) <= 0 then Resting else TakeTail);
      case TakeTail => s' := s.(cpc := Expect(s.tail % |s.slots|), tail := (s.tail + 1) % WORD);
      case Expect(x) =>
        s' := SetSlot(s, x, s.slots[x].(phase := if s.spsc then STORED else LOADING)).(cpc := Read(x));
      case Read(x) => s' := s.(cpc := Clear(s.slots[x].elem, x));
      case Clear(v, x) =>
        s' := SetSlot(s, x, s.slots[x].(phase := EMPTY)).(cpc := Resting, popped := s.popped + [v]);
    }
  }
}
