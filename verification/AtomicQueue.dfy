/**
 * AtomicQueue2 and AtomicQueueB2 for any number of threads: a ticket from the head or tail counter
 * names a slot, and a four-valued state per slot orders the threads that meet there. The counters
 * are 32-bit words, compared as signed differences. Slot x stands for the array cell that remap_index
 * gives x (Bits.RemapInvolution shows that remapping is a bijection). One step is one access to a
 * shared variable.
 */
module AtomicQueue {
  import opened Counting
  import opened Modular
  import opened Tickets

  type Value = int

  /** `live` records whether the cell holds a value that was put in and not moved out. */
  datatype Slot = Slot(phase: Phase, elem: Value, live: bool)

  datatype Pc =
    | Idle
      // try_push: before loading tail_, and before the CAS on head_; `at` records how many tickets
      // had been taken when head_ was loaded
    | PushLoad(v: Value, head: nat, at: nat)
    | PushCas(v: Value, head: nat, at: nat)
      // holding a ticket for slot x: before the CAS, the element write, the state store
    | PushAt(v: Value, x: nat)
    | Write(v: Value, x: nat)
    | Finish(x: nat)
      // the same for try_pop and pop
    | PopLoad(tail: nat, at: nat)
    | PopCas(tail: nat, at: nat)
    | PopAt(x: nat)
    | Read(x: nat)
    | Clear(v: Value, x: nat)

  /**
   * `head` and `tail` are the stored words; `pushes` and `pops` count the tickets taken since the
   * start. `pushed` gains a value with its ticket; `popped` gains one when its pop returns.
   */
  datatype State = State(
    head: nat,
    tail: nat,
    pushes: nat,
    pops: nat,
    slots: seq<Slot>,
    pcs: seq<Pc>,
    pushed: multiset<Value>,
    popped: multiset<Value>)

  ghost predicate Init(s: State)
  {
    && 0 < |s.slots| < WORD && s.head == s.tail == 0 && s.pushes == s.pops == 0 && s.pushed == s.popped == multiset{}
    && (forall x | 0 <= x < |s.slots| :: s.slots[x].phase == EMPTY && !s.slots[x].live)
    && forall t | 0 <= t < |s.pcs| :: s.pcs[t] == Idle
  }

  function Goto(s: State, t: nat, p: Pc): State
    requires t < |s.pcs|
  {
    s.(pcs := s.pcs[t := p])
  }

  function SetSlot(s: State, x: nat, k: Slot): State
    requires x < |s.slots|
  {
    s.(slots := s.slots[x := k])
  }

  /** Thread t takes the head ticket. */
  function TakePush(s: State, t: nat, v: Value): State
    requires t < |s.pcs| && |s.slots| > 0
  {
    Goto(s, t, PushAt(v, s.head % |s.slots|))
    .(head := (s.head + 1) % WORD, pushes := s.pushes + 1, pushed := s.pushed + multiset{v})
  }

  function TakePop(s: State, t: nat): State
    requires t < |s.pcs| && |s.slots| > 0
  {
    Goto(s, t, PopAt(s.tail % |s.slots|)).(tail := (s.tail + 1) % WORD, pops := s.pops + 1)
  }

  // ------------------------------------------------------------------------------------------
  // Steps of thread t
  // ------------------------------------------------------------------------------------------

  ghost predicate Push(s: State, s': State, t: nat, v: Value)
  {
    t < |s.pcs| && s.pcs[t] == Idle && |s.slots| > 0 && s' == TakePush(s, t, v)
  }

  ghost predicate Pop(s: State, s': State, t: nat)
  {
    t < |s.pcs| && s.pcs[t] == Idle && |s.slots| > 0 && s' == TakePop(s, t)
  }

  ghost predicate TryStart(s: State, s': State, t: nat)
  {
    && t < |s.pcs| && s.pcs[t] == Idle
    && ((exists v :: s' == Goto(s, t, PushLoad(v, s.head, s.pushes))) || s' == Goto(s, t, PopLoad(s.tail, s.pops)))
  }

  /** The loops of try_push and try_pop; a weak CAS may fail for no reason and reloads the counter. */
  ghost predicate TryStep(s: State, s': State, t: nat)
  {
    t < |s.pcs| && |s.slots| > 0 &&
    match s.pcs[t]
    case PushLoad(v, head, at) =>
      s' == Goto(s, t, if Difference(head, s.tail) >= Signed(|s.slots|) then Idle else PushCas(v, head, at))
    case PushCas(v, head, _) =>
      (s.head == head && s' == TakePush(s, t, v)) || s' == Goto(s, t, PushLoad(v, s.head, s.pushes))
    case PopLoad(tail, at) => s' == Goto(s, t, if Difference(s.head, tail) <= 0 then Idle else PopCas(tail, at))
    case PopCas(tail, _) => (s.tail == tail && s' == TakePop(s, t)) || s' == Goto(s, t, PopLoad(s.tail, s.pops))
    case _ => false
  }

  /** do_push_any and do_pop_any. */
  ghost predicate SlotStep(s: State, s': State, t: nat)
  {
    t < |s.pcs| &&
    match s.pcs[t]
    case PushAt(v, x) =>
      && x < |s.slots| && s.slots[x].phase == EMPTY
      && s' == SetSlot(Goto(s, t, Write(v, x)), x, s.slots[x].(phase := STORING))
    case Write(v, x) =>
      x < |s.slots| && s' == SetSlot(Goto(s, t, Finish(x)), x, s.slots[x].(elem := v, live := true))
    case Finish(x) => x < |s.slots| && s' == SetSlot(Goto(s, t, Idle), x, s.slots[x].(phase := STORED))
    case PopAt(x) =>
      && x < |s.slots| && s.slots[x].phase == STORED
      && s' == SetSlot(Goto(s, t, Read(x)), x, s.slots[x].(phase := LOADING))
    case Read(x) =>
      x < |s.slots| && s' == SetSlot(Goto(s, t, Clear(s.slots[x].elem, x)), x, s.slots[x].(live := false))
    case Clear(v, x) =>
      && x < |s.slots|
      && s' == SetSlot(Goto(s, t, Idle), x, s.slots[x].(phase := EMPTY)).(popped := s.popped + multiset{v})
    case _ => false
  }

  ghost predicate TryOnlyStep(s: State, s': State)
  {
    exists t: nat :: TryStart(s, s', t) || TryStep(s, s', t) || SlotStep(s, s', t)
  }

  ghost predicate Step(s: State, s': State)
  {
    TryOnlyStep(s, s') || (exists t: nat, v :: Push(s, s', t, v)) || (exists t: nat :: Pop(s, s', t))
  }

  ghost predicate IsRun(run: seq<State>)
  {
    && |run| > 0
    && Init(run[0])
    && forall i :: 0 <= i < |run| - 1 ==> Step(run[i], run[i + 1])
  }

  /**
   * A run in which only try_push and try_pop are called, and no attempt lasts so long that a counter
   * goes round completely between its load and its CAS.
   */
  ghost predicate IsTryRun(run: seq<State>)
  {
    && |run| > 0
    && Init(run[0])
    && (forall i :: 0 <= i < |run| - 1 ==> TryOnlyStep(run[i], run[i + 1]))
    && forall i | 0 <= i < |run| :: NoTurn(run[i])
  }

  /** How many tickets have been taken since a thread's attempt loaded the counter. */
  function Lag(p: Pc, pushes: nat, pops: nat): int
  {
    if p.PushLoad? || p.PushCas? then pushes - p.at else if p.PopLoad? || p.PopCas? then pops - p.at else 0
  }

  ghost predicate NoTurn(s: State)
  {
    forall t | 0 <= t < |s.pcs| :: Lag(s.pcs[t], s.pushes, s.pops) < WORD
  }

  // ------------------------------------------------------------------------------------------
  // Slots: who is at a slot, and what its state says
  // ------------------------------------------------------------------------------------------

  function Pushing(x: nat): Pc -> nat { (p: Pc) => if p.PushAt? && p.x == x then 1 else 0 }

  function Popping(x: nat): Pc -> nat { (p: Pc) => if p.PopAt? && p.x == x then 1 else 0 }

  function Storing(x: nat): Pc -> nat { (p: Pc) => if (p.Write? || p.Finish?) && p.x == x then 1 else 0 }

  function Loading(x: nat): Pc -> nat { (p: Pc) => if (p.Read? || p.Clear?) && p.x == x then 1 else 0 }

  function Occupied(f: Phase): nat { if f == STORING || f == STORED then 1 else 0 }

  /** A slot is being stored or loaded by exactly one thread when its state says so, and its tickets add up. */
  ghost predicate SlotOk(s: State, x: nat)
  {
    && x < |s.slots|
    && var f := s.slots[x].phase;
    && Total(s.pcs, Storing(x)) == (if f == STORING then 1 else 0)
    && Total(s.pcs, Loading(x)) == (if f == LOADING then 1 else 0)
    && TicketsFor(s.pushes, x, |s.slots|) + Total(s.pcs, Popping(x))
       == TicketsFor(s.pops, x, |s.slots|) + Total(s.pcs, Pushing(x)) + Occupied(f)
    && (f == EMPTY ==> !s.slots[x].live)
    && (f == STORED ==> s.slots[x].live)
  }

  /** What a thread's position says about its slot. */
  ghost predicate ThreadOk(p: Pc, slots: seq<Slot>, pushes: nat, pops: nat)
  {
    match p
    case Idle => true
    case PushLoad(_, head, at) => at <= pushes && head == at % WORD
    case PushCas(_, head, at) => at <= pushes && head == at % WORD
    case PopLoad(tail, at) => at <= pops && tail == at % WORD
    case PopCas(tail, at) => at <= pops && tail == at % WORD
    case PushAt(_, x) => x < |slots|
    case PopAt(x) => x < |slots|
    case Write(_, x) => x < |slots| && slots[x].phase == STORING && !slots[x].live
    case Finish(x) => x < |slots| && slots[x].phase == STORING && slots[x].live
    case Read(x) => x < |slots| && slots[x].phase == LOADING && slots[x].live
    case Clear(_, x) => x < |slots| && slots[x].phase == LOADING && !slots[x].live
  }

  /** The value a thread carries, and the value a slot holds. */
  function Carried(p: Pc): multiset<Value>
  {
    if p.PushAt? || p.Write? || p.Clear? then multiset{p.v} else multiset{}
  }

  function Kept(k: Slot): multiset<Value> { if k.live then multiset{k.elem} else multiset{} }

  ghost predicate Conserved(s: State)
  {
    s.pushed == s.popped + Bag(s.pcs, Carried) + Bag(s.slots, Kept)
  }

  /** The words are the remainders of the counts, which differ by what is under way and in the slots. */
  ghost predicate CountersOk(s: State)
  {
    && 0 < |s.slots| < WORD
    && s.head == s.pushes % WORD && s.tail == s.pops % WORD
    && s.pushes + Total(s.pcs, AnyPop) == s.pops + Total(s.pcs, AnyPush) + Total(s.slots, Filled)
  }

  function AnyPush(p: Pc): nat { if p.PushAt? then 1 else 0 }

  function AnyPop(p: Pc): nat { if p.PopAt? then 1 else 0 }

  function Filled(k: Slot): nat { Occupied(k.phase) }

  ghost predicate Inv(s: State)
  {
    && CountersOk(s)
    && (forall t | 0 <= t < |s.pcs| :: ThreadOk(s.pcs[t], s.slots, s.pushes, s.pops))
    && (forall x: nat | x < |s.slots| :: SlotOk(s, x))
    && Conserved(s)
  }

  /** Whether a thread is inside the critical part of slot x. */
  predicate Inside(p: Pc, x: nat) { (p.Write? || p.Finish? || p.Read? || p.Clear?) && p.x == x }

  /** Two threads are never inside the same slot. */
  lemma Alone(s: State, t: nat, u: nat, x: nat)
    requires Inv(s) && t < |s.pcs| && u < |s.pcs| && x < |s.slots|
    requires Inside(s.pcs[t], x) && Inside(s.pcs[u], x)
    ensures t == u
  {
    hide Conserved;
    assert SlotOk(s, x) && ThreadOk(s.pcs[t], s.slots, s.pushes, s.pops)
        && ThreadOk(s.pcs[u], s.slots, s.pushes, s.pops);
    if t != u {
      TotalAtLeastTwo(s.pcs, if t < u then t else u, if t < u then u else t, Storing(x));
      TotalAtLeastTwo(s.pcs, if t < u then t else u, if t < u then u else t, Loading(x));
    }
  }

  lemma TotalsMoved(s: State, s': State, t: nat, x: nat)
    requires t < |s.pcs| && t < |s'.pcs| && s'.pcs == s.pcs[t := s'.pcs[t]]
    ensures Total(s'.pcs, Storing(x)) + Storing(x)(s.pcs[t]) == Total(s.pcs, Storing(x)) + Storing(x)(s'.pcs[t])
    ensures Total(s'.pcs, Loading(x)) + Loading(x)(s.pcs[t]) == Total(s.pcs, Loading(x)) + Loading(x)(s'.pcs[t])
    ensures Total(s'.pcs, Pushing(x)) + Pushing(x)(s.pcs[t]) == Total(s.pcs, Pushing(x)) + Pushing(x)(s'.pcs[t])
    ensures Total(s'.pcs, Popping(x)) + Popping(x)(s.pcs[t]) == Total(s.pcs, Popping(x)) + Popping(x)(s'.pcs[t])
  {
    TotalUpdate(s.pcs, t, s'.pcs[t], Storing(x));
    TotalUpdate(s.pcs, t, s'.pcs[t], Loading(x));
    TotalUpdate(s.pcs, t, s'.pcs[t], Pushing(x));
    TotalUpdate(s.pcs, t, s'.pcs[t], Popping(x));
  }

  // ------------------------------------------------------------------------------------------
  // Steps outside the slots
  // ------------------------------------------------------------------------------------------

  lemma CarriedKeeps(s: State, s': State, t: nat, added: multiset<Value>)
    requires Conserved(s) && t < |s.pcs| == |s'.pcs| && s'.pcs == s.pcs[t := s'.pcs[t]] && s'.slots == s.slots
    requires s'.popped == s.popped && s'.pushed == s.pushed + added && Carried(s'.pcs[t]) == Carried(s.pcs[t]) + added
    ensures Conserved(s')
  {
    hide Bag, Carried;
    BagUpdate(s.pcs, t, s'.pcs[t], Carried);
    Regain(s.pushed, s.popped, Bag(s.pcs, Carried), Bag(s.slots, Kept), added, Bag(s'.pcs, Carried), Carried(s.pcs[t]));
  }

  lemma TakePushSlots(s: State, s': State, t: nat, v: Value, x: nat)
    requires SlotOk(s, x) && s.head == s.pushes % WORD && 0 < |s.slots| && t < |s.pcs|
    requires (s.pcs[t].Idle? || s.pcs[t].PushCas?) && s' == TakePush(s, t, v)
    ensures SlotOk(s', x)
  {
    hide Total;
    TotalsMoved(s, s', t, x);
  }

  lemma TakePopSlots(s: State, s': State, t: nat, x: nat)
    requires SlotOk(s, x) && s.tail == s.pops % WORD && 0 < |s.slots| && t < |s.pcs|
    requires (s.pcs[t].Idle? || s.pcs[t].PopCas?) && s' == TakePop(s, t)
    ensures SlotOk(s', x)
  {
    hide Total;
    TotalsMoved(s, s', t, x);
  }

  /** Taking a ticket counts it and its holder. */
  lemma TakeCounters(s: State, s': State, t: nat, v: Value)
    requires CountersOk(s) && t < |s.pcs| && !s.pcs[t].PushAt? && !s.pcs[t].PopAt?
    requires s' == TakePush(s, t, v) || s' == TakePop(s, t)
    ensures CountersOk(s')
  {
    hide Total;
    AllMoved(s, s', t);
    RemAdd(s.pushes, 1, WORD);
    RemAdd(s.pops, 1, WORD);
  }

  lemma AllMoved(s: State, s': State, t: nat)
    requires t < |s.pcs| && t < |s'.pcs| && s'.pcs == s.pcs[t := s'.pcs[t]]
    ensures Total(s'.pcs, AnyPush) + AnyPush(s.pcs[t]) == Total(s.pcs, AnyPush) + AnyPush(s'.pcs[t])
    ensures Total(s'.pcs, AnyPop) + AnyPop(s.pcs[t]) == Total(s.pcs, AnyPop) + AnyPop(s'.pcs[t])
  {
    TotalUpdate(s.pcs, t, s'.pcs[t], AnyPush);
    TotalUpdate(s.pcs, t, s'.pcs[t], AnyPop);
  }

  /** Counts only grow, and what a thread knows of them stays true. */
  lemma ThreadsLater(s: State, s': State, t: nat)
    requires forall u | 0 <= u < |s.pcs| :: ThreadOk(s.pcs[u], s.slots, s.pushes, s.pops)
    requires t < |s.pcs| == |s'.pcs| && s'.pcs == s.pcs[t := s'.pcs[t]] && s'.slots == s.slots
    requires s.pushes <= s'.pushes && s.pops <= s'.pops && ThreadOk(s'.pcs[t], s'.slots, s'.pushes, s'.pops)
    ensures forall u | 0 <= u < |s'.pcs| :: ThreadOk(s'.pcs[u], s'.slots, s'.pushes, s'.pops)
  {
    forall u | 0 <= u < |s'.pcs| ensures ThreadOk(s'.pcs[u], s'.slots, s'.pushes, s'.pops) {
      assert ThreadOk(s.pcs[u], s.slots, s.pushes, s.pops);
    }
  }

  lemma WordsAreCounts(s: State)
    requires CountersOk(s)
    ensures |s.slots| > 0 && s.head == s.pushes % WORD && s.tail == s.pops % WORD
    ensures s.head % |s.slots| < |s.slots| && s.tail % |s.slots| < |s.slots|
  {
    hide Total;
  }

  lemma HolderOk(s: State, s': State, t: nat)
    requires t < |s.pcs| && |s.slots| > 0 && ((exists v :: s' == TakePush(s, t, v)) || s' == TakePop(s, t))
    ensures ThreadOk(s'.pcs[t], s'.slots, s'.pushes, s'.pops)
  {
  }

  lemma TakePushKeeps(s: State, s': State, t: nat, v: Value)
    requires Inv(s) && t < |s.pcs| && (s.pcs[t].Idle? || s.pcs[t].PushCas?) && s' == TakePush(s, t, v)
    ensures Inv(s')
  {
    hide SlotOk, Conserved, CountersOk;
    WordsAreCounts(s);
    HolderOk(s, s', t);
    hide ThreadOk;
    TakeCounters(s, s', t, v);
    ThreadsLater(s, s', t);
    forall x: nat | x < |s'.slots| ensures SlotOk(s', x) {
      TakePushSlots(s, s', t, v, x);
    }
    CarriedKeeps(s, s', t, multiset{v});
  }

  lemma TakePopKeeps(s: State, s': State, t: nat)
    requires Inv(s) && t < |s.pcs| && (s.pcs[t].Idle? || s.pcs[t].PopCas?) && s' == TakePop(s, t)
    ensures Inv(s')
  {
    hide SlotOk, Conserved, CountersOk;
    WordsAreCounts(s);
    HolderOk(s, s', t);
    hide ThreadOk;
    TakeCounters(s, s', t, 0);
    ThreadsLater(s, s', t);
    forall x: nat | x < |s'.slots| ensures SlotOk(s', x) {
      TakePopSlots(s, s', t, x);
    }
    CarriedKeeps(s, s', t, multiset{});
  }

  /** A step of the loops of try_push and try_pop that takes no ticket. */
  lemma LookKeeps(s: State, s': State, t: nat, p: Pc)
    requires Inv(s) && t < |s.pcs| && s' == Goto(s, t, p) && ThreadOk(p, s.slots, s.pushes, s.pops)
    requires s.pcs[t].Idle? || s.pcs[t].PushLoad? || s.pcs[t].PushCas? || s.pcs[t].PopLoad? || s.pcs[t].PopCas?
    requires p.Idle? || p.PushLoad? || p.PushCas? || p.PopLoad? || p.PopCas?
    ensures Inv(s')
  {
    hide Total, Bag, TicketsFor;
    forall x: nat | x < |s'.slots| ensures SlotOk(s', x) {
      assert SlotOk(s, x);
      TotalsMoved(s, s', t, x);
    }
    AllMoved(s, s', t);
    CarriedKeeps(s, s', t, multiset{});
  }

  lemma TryKeeps(s: State, s': State, t: nat)
    requires Inv(s) && (TryStep(s, s', t) || TryStart(s, s', t))
    ensures Inv(s')
  {
    hide SlotOk, Conserved, Difference, Signed, Total;
    var p := s'.pcs[t];
    assert ThreadOk(s.pcs[t], s.slots, s.pushes, s.pops);
    if s.pcs[t].PushCas? && s' == TakePush(s, t, s.pcs[t].v) {
      TakePushKeeps(s, s', t, s.pcs[t].v);
    } else if s.pcs[t].PopCas? && s' == TakePop(s, t) {
      TakePopKeeps(s, s', t);
    } else {
      LookKeeps(s, s', t, p);
    }
  }

  // ------------------------------------------------------------------------------------------
  // Steps at a slot
  // ------------------------------------------------------------------------------------------

  /** A thread moves at slot x and changes only that slot; the other threads inside slots are elsewhere. */
  lemma OthersKeep(s: State, s': State, t: nat, x: nat)
    requires Inv(s) && t < |s.pcs| && x < |s.slots| && (Inside(s.pcs[t], x) || s.slots[x].phase == EMPTY
      || s.slots[x].phase == STORED)
    requires |s'.pcs| == |s.pcs| && s'.pcs == s.pcs[t := s'.pcs[t]] && |s'.slots| == |s.slots|
      && s'.slots == s.slots[x := s'.slots[x]]
    requires s'.pushes == s.pushes && s'.pops == s.pops && ThreadOk(s'.pcs[t], s'.slots, s'.pushes, s'.pops)
    ensures forall u | 0 <= u < |s'.pcs| :: ThreadOk(s'.pcs[u], s'.slots, s'.pushes, s'.pops)
  {
    hide SlotOk, Conserved;
    forall u | 0 <= u < |s'.pcs| ensures ThreadOk(s'.pcs[u], s'.slots, s'.pushes, s'.pops) {
      assert ThreadOk(s.pcs[u], s.slots, s.pushes, s.pops);
      if u != t && Inside(s.pcs[u], x) && Inside(s.pcs[t], x) {
        Alone(s, t, u, x);
      }
    }
  }

  lemma SlotsKeep(s: State, s': State, t: nat)
    requires Inv(s) && SlotStep(s, s', t)
    ensures |s'.slots| == |s.slots| && forall y: nat | y < |s'.slots| :: SlotOk(s', y)
  {
    hide Total, Bag, TicketsFor, Conserved;
    assert ThreadOk(s.pcs[t], s.slots, s.pushes, s.pops);
    forall y: nat | y < |s'.slots| ensures SlotOk(s', y) {
      assert SlotOk(s, y);
      TotalsMoved(s, s', t, y);
    }
  }

  lemma SlotShape(s: State, s': State, t: nat) returns (x: nat)
    requires SlotStep(s, s', t) && ThreadOk(s.pcs[t], s.slots, s.pushes, s.pops)
    ensures x < |s.slots| == |s'.slots| && t < |s'.pcs| && x == s.pcs[t].x && s'.pushed == s.pushed
    ensures s'.pcs == s.pcs[t := s'.pcs[t]] && s'.slots == s.slots[x := s'.slots[x]]
    ensures Moves(s.pcs[t], s'.pcs[t], s.slots[x], s'.slots[x])
    ensures s'.popped == s.popped + Out(s.pcs[t])
  {
    x := s.pcs[t].x;
    assert s.popped + multiset{} == s.popped;
  }

  /** What leaves the queue with the step of a thread. */
  function Out(p: Pc): multiset<Value> { if p.Clear? then multiset{p.v} else multiset{} }

  /** What a step at a slot does to the values of the thread and the slot. */
  predicate Moves(p: Pc, p': Pc, k: Slot, k': Slot)
  {
    match p
    case PushAt(v, _) => p'.Write? && p'.v == v && k'.live == k.live && k'.elem == k.elem
    case Write(v, _) => p'.Finish? && !k.live && k'.live && k'.elem == v
    case Read(_) => p'.Clear? && p'.v == k.elem && k.live && !k'.live
    case Clear(v, _) => p'.Idle? && !k.live && !k'.live
    case _ => (p.Finish? || p.PopAt?) && (p'.Idle? || p'.Read?) && k'.live == k.live && k'.elem == k.elem
  }

  /** A step at a slot moves a value between the thread and the slot, or out to the caller. */
  lemma ValueMoves(p: Pc, p': Pc, k: Slot, k': Slot)
    requires Moves(p, p', k, k')
    ensures Carried(p) + Kept(k) == Out(p) + Carried(p') + Kept(k')
  {
  }

  lemma ValuesKeep(s: State, s': State, t: nat)
    requires Inv(s) && SlotStep(s, s', t)
    ensures Conserved(s')
  {
    hide SlotOk, Bag, ThreadOk, Carried, Kept;
    assert t < |s.pcs| && ThreadOk(s.pcs[t], s.slots, s.pushes, s.pops);
    hide SlotStep, Moves, Out;
    var x := SlotShape(s, s', t);
    ValueMoves(s.pcs[t], s'.pcs[t], s.slots[x], s'.slots[x]);
    BagUpdate(s.pcs, t, s'.pcs[t], Carried);
    BagUpdate(s.slots, x, s'.slots[x], Kept);
    Rebalance(s.pushed, s.popped, Bag(s.pcs, Carried), Bag(s.slots, Kept), Out(s.pcs[t]), Bag(s'.pcs, Carried),
      Bag(s'.slots, Kept),
              Carried(s.pcs[t]), Carried(s'.pcs[t]), Kept(s.slots[x]), Kept(s'.slots[x]));
  }

  /** The moving thread's own position, and why its slot is its own. */
  lemma MoverKeeps(s: State, s': State, t: nat) returns (x: nat)
    requires Inv(s) && SlotStep(s, s', t)
    ensures s'.head == s.head && s'.tail == s.tail && s'.pushes == s.pushes && s'.pops == s.pops
      && |s'.slots| == |s.slots|
    ensures t < |s'.pcs| == |s.pcs| && s'.pcs == s.pcs[t := s'.pcs[t]]
      && ThreadOk(s'.pcs[t], s'.slots, s'.pushes, s'.pops)
    ensures x < |s.slots| && s'.slots == s.slots[x := s'.slots[x]]
      && Occupies(s.pcs[t], s'.pcs[t], s.slots[x], s'.slots[x])
    ensures Inside(s.pcs[t], x) || s.slots[x].phase == EMPTY || s.slots[x].phase == STORED
  {
    hide Total, TicketsFor, Conserved, Bag;
    x := s.pcs[t].x;
    assert ThreadOk(s.pcs[t], s.slots, s.pushes, s.pops);
    assert SlotOk(s, s.pcs[t].x);
  }

  /** A ticket holder that enters its slot turns from waiting into an occupant, or out of it. */
  predicate Occupies(p: Pc, p': Pc, k: Slot, k': Slot)
  {
    AnyPush(p) + AnyPop(p') + Filled(k) == AnyPush(p') + AnyPop(p) + Filled(k')
  }

  lemma CountersStay(s: State, s': State, t: nat, x: nat)
    requires CountersOk(s) && t < |s.pcs| == |s'.pcs| && x < |s.slots| == |s'.slots|
    requires s'.pcs == s.pcs[t := s'.pcs[t]] && s'.slots == s.slots[x := s'.slots[x]]
    requires s'.head == s.head && s'.tail == s.tail && s'.pushes == s.pushes && s'.pops == s.pops
    requires Occupies(s.pcs[t], s'.pcs[t], s.slots[x], s'.slots[x])
    ensures CountersOk(s')
  {
    hide Total, AnyPush, AnyPop, Filled;
    AllMoved(s, s', t);
    TotalUpdate(s.slots, x, s'.slots[x], Filled);
  }

  lemma SlotKeeps(s: State, s': State, t: nat)
    requires Inv(s) && SlotStep(s, s', t)
    ensures Inv(s')
  {
    hide SlotOk, Conserved, SlotStep, ThreadOk, CountersOk, Occupies;
    SlotsKeep(s, s', t);
    ValuesKeep(s, s', t);
    var x := MoverKeeps(s, s', t);
    OthersKeep(s, s', t, x);
    CountersStay(s, s', t, x);
  }

  lemma TryOnlyKeeps(s: State, s': State)
    requires Inv(s) && TryOnlyStep(s, s')
    ensures Inv(s')
  {
    hide Inv, SlotStep, TryStep, TryStart;
    var t: nat :| TryStart(s, s', t) || TryStep(s, s', t) || SlotStep(s, s', t);
    if SlotStep(s, s', t) {
      SlotKeeps(s, s', t);
    } else {
      TryKeeps(s, s', t);
    }
  }

  lemma StepKeeps(s: State, s': State)
    requires Inv(s) && Step(s, s')
    ensures Inv(s')
  {
    hide Inv, TryOnlyStep;
    if TryOnlyStep(s, s') {
      TryOnlyKeeps(s, s');
    } else if t: nat, v :| Push(s, s', t, v) {
      TakePushKeeps(s, s', t, v);
    } else {
      var t: nat :| Pop(s, s', t);
      TakePopKeeps(s, s', t);
    }
  }

  lemma InitKeeps(s: State)
    requires Init(s)
    ensures Inv(s)
  {
    forall x: nat | x < |s.slots| ensures SlotOk(s, x) {
      TotalZero(s.pcs, Storing(x));
      TotalZero(s.pcs, Loading(x));
      TotalZero(s.pcs, Pushing(x));
      TotalZero(s.pcs, Popping(x));
    }
    TotalZero(s.pcs, AnyPush);
    TotalZero(s.pcs, AnyPop);
    TotalZero(s.slots, Filled);
    BagEmpty(s.pcs, Carried);
    BagEmpty(s.slots, Kept);
  }

  lemma {:induction false} RunKeeps(run: seq<State>, i: nat)
    requires IsRun(run) && i < |run|
    ensures Inv(run[i])
  {
    hide Inv, Step, Init;
    if i == 0 {
      InitKeeps(run[0]);
    } else {
      RunKeeps(run, i - 1);
      StepKeeps(run[i - 1], run[i]);
    }
  }

  // ------------------------------------------------------------------------------------------
  // What the queue promises
  // ------------------------------------------------------------------------------------------

  /** At most one thread accesses a slot's element at a time. */
  lemma SlotIsExclusive(run: seq<State>, i: nat, t: nat, u: nat, x: nat)
    requires IsRun(run) && i < |run| && t < |run[i].pcs| && u < |run[i].pcs|
    requires Inside(run[i].pcs[t], x) && Inside(run[i].pcs[u], x)
    ensures t == u
  {
    hide Inv, Init, Step;
    RunKeeps(run, i);
    InsideInRange(run[i], t, x);
    Alone(run[i], t, u, x);
  }

  lemma InsideInRange(s: State, t: nat, x: nat)
    requires Inv(s) && t < |s.pcs| && Inside(s.pcs[t], x)
    ensures x < |s.slots|
  {
    assert ThreadOk(s.pcs[t], s.slots, s.pushes, s.pops);
  }

  /** An element is written only into a cell without a live value and moved only out of one that has it. */
  lemma NoOverwriteNoDoubleRead(run: seq<State>, i: nat, t: nat)
    requires IsRun(run) && i < |run| && t < |run[i].pcs|
    ensures var p := run[i].pcs[t];
      && (p.Write? ==> p.x < |run[i].slots| && !run[i].slots[p.x].live)
      && (p.Read? ==> p.x < |run[i].slots| && run[i].slots[p.x].live)
  {
    hide Init, Step, SlotOk, Conserved;
    RunKeeps(run, i);
    assert ThreadOk(run[i].pcs[t], run[i].slots, run[i].pushes, run[i].pops);
  }

  /** Values pushed are exactly those popped, carried by threads, or stored in cells, with multiplicity. */
  lemma ValuesAreConserved(run: seq<State>, i: nat)
    requires IsRun(run) && i < |run|
    ensures run[i].pushed == run[i].popped + Bag(run[i].pcs, Carried) + Bag(run[i].slots, Kept)
    ensures run[i].popped <= run[i].pushed
  {
    hide Init, Step, SlotOk, ThreadOk, Bag;
    RunKeeps(run, i);
  }

  /** The counts never drift further apart than the slots and the threads allow, whatever is called. */
  lemma CountsStayClose(run: seq<State>, i: nat)
    requires IsRun(run) && i < |run|
    ensures -|run[i].pcs| <= run[i].pushes - run[i].pops <= |run[i].pcs| + |run[i].slots|
  {
    hide Init, Step, SlotOk, ThreadOk, Conserved, Total;
    RunKeeps(run, i);
    TotalBound(run[i].pcs, AnyPush);
    TotalBound(run[i].pcs, AnyPop);
    TotalBound(run[i].slots, Filled);
  }

  /**
   * try_push fails exactly when the tickets known to it fill the queue, and then the queue is full at
   * that moment, for sizes below 2^31 and attempts that have not fallen 2^31 tickets behind.
   */
  lemma PushFailsWhenFull(run: seq<State>, i: nat, t: nat)
    requires IsRun(run) && i < |run| - 1 && t < |run[i].pcs| && TryStep(run[i], run[i + 1], t)
      && run[i].pcs[t].PushLoad?
    requires |run[i].slots| + |run[i].pcs| < HALF && run[i].pushes - run[i].pcs[t].at + |run[i].pcs| <= HALF
    ensures t < |run[i + 1].pcs|
    ensures run[i + 1].pcs[t] == Idle <==> run[i].pcs[t].at >= run[i].pops + |run[i].slots|
    ensures run[i + 1].pcs[t] == Idle ==> run[i].pushes >= run[i].pops + |run[i].slots|
  {
    hide Init, Step, SlotOk, Conserved, Total, Difference;
    RunKeeps(run, i);
    CountsStayClose(run, i);
    var s := run[i];
    assert ThreadOk(s.pcs[t], s.slots, s.pushes, s.pops);
    DifferenceExact(s.pcs[t].at, s.pops);
  }

  /** The same for try_pop and an empty queue. */
  lemma PopFailsWhenEmpty(run: seq<State>, i: nat, t: nat)
    requires IsRun(run) && i < |run| - 1 && t < |run[i].pcs| && TryStep(run[i], run[i + 1], t) && run[i].pcs[t].PopLoad?
    requires |run[i].slots| + |run[i].pcs| + run[i].pops - run[i].pcs[t].at < HALF
    ensures t < |run[i + 1].pcs|
    ensures run[i + 1].pcs[t] == Idle <==> run[i].pushes <= run[i].pcs[t].at
    ensures run[i + 1].pcs[t] == Idle ==> run[i].pushes <= run[i].pops
  {
    hide Init, Step, SlotOk, Conserved, Total, Difference;
    RunKeeps(run, i);
    CountsStayClose(run, i);
    var s := run[i];
    assert ThreadOk(s.pcs[t], s.slots, s.pushes, s.pops);
    DifferenceExact(s.pushes, s.pcs[t].at);
  }

  /** A fresh queue accepts its first try_push exactly when its size is below 2^31. */
  lemma FreshAcceptsIff(s: State, s': State, s'': State, t: nat, v: Value)
    requires Init(s) && t < |s.pcs| && s' == Goto(s, t, PushLoad(v, s.head, s.pushes)) && TryStep(s', s'', t)
    ensures s''.pcs[t].PushCas? <==> |s.slots| < HALF
    ensures |s.slots| >= HALF ==> s''.pcs[t] == Idle
  {
  }

  // ------------------------------------------------------------------------------------------
  // Try-only use
  // ------------------------------------------------------------------------------------------

  lemma TryRunIsRun(run: seq<State>)
    requires IsTryRun(run)
    ensures IsRun(run)
  {
    hide TryOnlyStep, Init, NoTurn;
  }

  lemma {:induction false} SizeFixed(run: seq<State>, i: nat)
    requires IsTryRun(run) && i < |run|
    ensures |run[i].slots| == |run[0].slots|
  {
    hide Init, NoTurn, Difference, Signed;
    if i > 0 {
      SizeFixed(run, i - 1);
      assert TryOnlyStep(run[i - 1], run[i]);
    }
  }

  /** A thread about to CAS on an unchanged counter has seen room, or something to pop. */
  predicate SeenOk(p: Pc, pushes: nat, pops: nat, size: nat)
  {
    && (p.PushCas? && p.at == pushes ==> pushes < pops + size)
    && (p.PopCas? && p.at == pops ==> pops < pushes)
  }

  ghost predicate Bounded(s: State)
  {
    && s.pops <= s.pushes <= s.pops + |s.slots| && |s.slots| < HALF
    && forall t | 0 <= t < |s.pcs| :: SeenOk(s.pcs[t], s.pushes, s.pops, |s.slots|)
  }

  /** A CAS that succeeds without a turn of the counter in between finds the counter unchanged. */
  lemma SameCount(at: nat, n: nat)
    requires at <= n < at + WORD && at % WORD == n % WORD
    ensures at == n
  {
    if at < n {
      RemDistinct(at, n, WORD);
    }
  }

  lemma TryBounds(s: State, s': State, t: nat)
    requires Inv(s) && Bounded(s) && NoTurn(s) && TryStep(s, s', t)
    ensures Bounded(s')
  {
    hide SlotOk, Conserved, Total, Difference;
    var p := s.pcs[t];
    assert ThreadOk(p, s.slots, s.pushes, s.pops) && SeenOk(p, s.pushes, s.pops, |s.slots|)
        && Lag(p, s.pushes, s.pops) < WORD;
    match p
    case PushLoad(_, head, at) => DifferenceExact(s.pushes, s.pops);
    case PopLoad(tail, at) => DifferenceExact(s.pushes, s.pops);
    case PushCas(_, head, at) =>
      if s.head == head {
        SameCount(at, s.pushes);
      }
    case PopCas(tail, at) =>
      if s.tail == tail {
        SameCount(at, s.pops);
      }
    case _ => assert false;
  }

  lemma StartBounds(s: State, s': State, t: nat)
    requires Bounded(s) && (TryStart(s, s', t) || SlotStep(s, s', t))
    ensures Bounded(s')
  {
  }

  lemma BoundsKept(s: State, s': State)
    requires Inv(s) && Bounded(s) && NoTurn(s) && TryOnlyStep(s, s')
    ensures Bounded(s')
  {
    hide Inv, Bounded, NoTurn, TryStart, TryStep, SlotStep;
    var t: nat :| TryStart(s, s', t) || TryStep(s, s', t) || SlotStep(s, s', t);
    if TryStep(s, s', t) {
      TryBounds(s, s', t);
    } else {
      StartBounds(s, s', t);
    }
  }

  lemma {:induction false} BoundsHold(run: seq<State>, i: nat)
    requires IsTryRun(run) && i < |run| && |run[0].slots| < HALF
    ensures Inv(run[i]) && Bounded(run[i])
  {
    hide Inv, TryOnlyStep, Step, NoTurn;
    TryRunIsRun(run);
    RunKeeps(run, i);
    if i > 0 {
      BoundsHold(run, i - 1);
      BoundsKept(run[i - 1], run[i]);
    }
  }

  /** The counters stay within one lap of each other, as counts and as the words that are stored. */
  lemma CountersInBounds(run: seq<State>, i: nat)
    requires IsTryRun(run) && i < |run| && |run[0].slots| < HALF
    ensures run[i].pops <= run[i].pushes <= run[i].pops + |run[i].slots|
    ensures Difference(run[i].head, run[i].tail) == run[i].pushes - run[i].pops
  {
    hide Init, TryOnlyStep, NoTurn, SlotOk, ThreadOk, Conserved, Difference;
    BoundsHold(run, i);
    DifferenceExact(run[i].pushes, run[i].pops);
  }

  /** try_push can begin with any value, and so can try_pop; push and pop take their tickets at once. */
  lemma CallsBegin(s: State, t: nat, v: Value)
    requires t < |s.pcs| && s.pcs[t] == Idle && |s.slots| > 0
    ensures TryStart(s, Goto(s, t, PushLoad(v, s.head, s.pushes)), t)
      && TryStart(s, Goto(s, t, PopLoad(s.tail, s.pops)), t)
    ensures Push(s, TakePush(s, t, v), t, v) && Pop(s, TakePop(s, t), t)
    ensures TakePush(s, t, v).pcs[t].PushAt? && TakePush(s, t, v).pcs[t].v == v
    ensures TakePush(s, t, v).pushed == s.pushed + multiset{v} && TakePop(s, t).pcs[t].PopAt?
  {
  }

  predicate Trying(p: Pc) { p.PushLoad? || p.PushCas? }

  /** A try_push stays about its value, and its ticket puts that value, and nothing else, into the queue. */
  lemma PushIsOfItsValue(s: State, s': State, t: nat)
    requires TryStep(s, s', t) && Trying(s.pcs[t])
    ensures t < |s'.pcs| && (Trying(s'.pcs[t]) || s'.pcs[t].PushAt? || s'.pcs[t] == Idle)
    ensures s'.pcs[t] != Idle ==> s'.pcs[t].v == s.pcs[t].v
    ensures s'.pushed == if s'.pcs[t].PushAt? then s.pushed + multiset{s.pcs[t].v} else s.pushed
  {
    hide Difference, Signed;
  }

  /** Whether thread t can take a step that is not a mere repetition of a load. */
  predicate CanStep(s: State, t: nat)
    requires t < |s.pcs|
  {
    match s.pcs[t]
    case Idle => false
    case PushAt(_, x) => x < |s.slots| && s.slots[x].phase == EMPTY
    case PopAt(x) => x < |s.slots| && s.slots[x].phase == STORED
    case _ => true
  }

  predicate SomeoneCan(s: State) { exists u :: 0 <= u < |s.pcs| && CanStep(s, u) }

  predicate InFlight(s: State) { exists t :: 0 <= t < |s.pcs| && s.pcs[t] != Idle }

  /** Deadlock freedom: while any operation is in flight, some operation in flight can step. */
  lemma SomeoneCanStep(run: seq<State>, i: nat, t: nat) returns (u: nat)
    requires IsTryRun(run) && i < |run| && t < |run[i].pcs| && run[i].pcs[t] != Idle
    requires 0 < |run[0].slots| < HALF && Divides(|run[0].slots|)
    ensures u < |run[i].pcs| && CanStep(run[i], u)
  {
    hide Inv, TryOnlyStep, Init, NoTurn, Divides;
    SizeFixed(run, i);
    BoundsHold(run, i);
    u := Unblocked(run[i], t);
  }

  lemma Unblocked(s: State, t: nat) returns (u: nat)
    requires Inv(s) && Bounded(s) && t < |s.pcs| && s.pcs[t] != Idle && Divides(|s.slots|)
    ensures u < |s.pcs| && CanStep(s, u)
  {
    hide Conserved, TicketsFor, Total, Divides;
    u := t;
    if !CanStep(s, t) {
      assert ThreadOk(s.pcs[t], s.slots, s.pushes, s.pops);
      var x := s.pcs[t].x;
      assert SlotOk(s, x);
      OneTicketPerLap(s.pushes, s.pops, x, |s.slots|);
      TotalAtLeast(s.pcs, t, Pushing(x));
      TotalAtLeast(s.pcs, t, Popping(x));
      match s.slots[x].phase
      case EMPTY => u := TotalWitness(s.pcs, Pushing(x));
      case STORING => u := TotalWitness(s.pcs, Storing(x));
      case STORED => u := TotalWitness(s.pcs, Popping(x));
      case LOADING => u := TotalWitness(s.pcs, Loading(x));
    }
  }

  /** Whatever is called, a push and a pop waiting at the same slot never block each other. */
  lemma MeetingMoves(run: seq<State>, i: nat, t: nat, u: nat) returns (w: nat)
    requires IsRun(run) && i < |run| && t < |run[i].pcs| && u < |run[i].pcs|
    requires run[i].pcs[t].PushAt? && run[i].pcs[u].PopAt? && run[i].pcs[t].x == run[i].pcs[u].x
    ensures w < |run[i].pcs| && !run[i].pcs[w].Idle? && CanStep(run[i], w)
  {
    hide Conserved, TicketsFor, Total, Step, Init;
    RunKeeps(run, i);
    var s := run[i];
    var x := s.pcs[t].x;
    assert ThreadOk(s.pcs[t], s.slots, s.pushes, s.pops);
    assert SlotOk(s, x);
    match s.slots[x].phase
    case EMPTY => w := t;
    case STORING => w := TotalWitness(s.pcs, Storing(x));
    case STORED => w := u;
    case LOADING => w := TotalWitness(s.pcs, Loading(x));
  }

  /** A thread that can step does: a CAS on an unchanged counter takes its ticket, other steps move on. */
  lemma CanStepHasStep(s: State, t: nat) returns (s': State)
    requires Inv(s) && t < |s.pcs| && CanStep(s, t)
    ensures TryOnlyStep(s, s') && t < |s'.pcs| && s'.pcs[t] != s.pcs[t]
    ensures s.pcs[t].PushCas? && s.pcs[t].head == s.head ==> s'.pcs[t].PushAt?
    ensures s.pcs[t].PopCas? && s.pcs[t].tail == s.tail ==> s'.pcs[t].PopAt?
  {
    hide SlotOk, Conserved, Difference, Signed, Total;
    assert ThreadOk(s.pcs[t], s.slots, s.pushes, s.pops);
    match s.pcs[t] {
      case PushLoad(v, head, at) =>
        s' := Goto(s, t, if Difference(head, s.tail) >= Signed(|s.slots|) then Idle else PushCas(v, head, at));
        assert TryStep(s, s', t);
      case PushCas(v, head, at) =>
        s' := if s.head == head then TakePush(s, t, v) else Goto(s, t, PushLoad(v, s.head, s.pushes));
        assert TryStep(s, s', t);
      case PopLoad(tail, at) =>
        s' := Goto(s, t, if Difference(s.head, tail) <= 0 then Idle else PopCas(tail, at));
        assert TryStep(s, s', t);
      case PopCas(tail, at) =>
        s' := if s.tail == tail then TakePop(s, t) else Goto(s, t, PopLoad(s.tail, s.pops));
        assert TryStep(s, s', t);
      case PushAt(v, x) =>
        s' := SetSlot(Goto(s, t, Write(v, x)), x, s.slots[x].(phase := STORING));
        assert SlotStep(s, s', t);
      case Write(v, x) =>
        s' := SetSlot(Goto(s, t, Finish(x)), x, s.slots[x].(elem := v, live := true));
        assert SlotStep(s, s', t);
      case Finish(x) =>
        s' := SetSlot(Goto(s, t, Idle), x, s.slots[x].(phase := STORED));
        assert SlotStep(s, s', t);
      case PopAt(x) =>
        s' := SetSlot(Goto(s, t, Read(x)), x, s.slots[x].(phase := LOADING));
        assert SlotStep(s, s', t);
      case Read(x) =>
        s' := SetSlot(Goto(s, t, Clear(s.slots[x].elem, x)), x, s.slots[x].(live := false));
        assert SlotStep(s, s', t);
      case Clear(v, x) =>
        s' := SetSlot(Goto(s, t, Idle), x, s.slots[x].(phase := EMPTY)).(popped := s.popped + multiset{v});
        assert SlotStep(s, s', t);
    }
  }

  /** When no operation is in flight, exactly the slots of the tickets between tail and head hold a value. */
  lemma QuietSlots(run: seq<State>, i: nat, x: nat)
    requires IsTryRun(run) && i < |run| && x < |run[i].slots| && 0 < |run[0].slots| < HALF && Divides(|run[0].slots|)
    requires forall t | 0 <= t < |run[i].pcs| :: run[i].pcs[t] == Idle
    ensures run[i].slots[x].live == (run[i].slots[x].phase == STORED)
    ensures run[i].slots[x].live
            <==> exists k: nat :: run[i].pops <= k < run[i].pushes && SlotOf(k, |run[i].slots|) == x
  {
    hide TryOnlyStep, Step, Init, NoTurn, SlotOf, Divides;
    SizeFixed(run, i);
    BoundsHold(run, i);
    var s := run[i];
    TotalZero(s.pcs, Storing(x));
    TotalZero(s.pcs, Loading(x));
    TotalZero(s.pcs, Pushing(x));
    TotalZero(s.pcs, Popping(x));
    assert SlotOk(s, x);
    hide Total, TicketsFor;
    OneTicketPerLap(s.pushes, s.pops, x, |s.slots|);
    if k: nat :| s.pops <= k < s.pushes && SlotOf(k, |s.slots|) == x {
      TicketCounted(s.pushes, s.pops, k, |s.slots|);
    }
  }
}
