/**
 * BlockingReaderWriterCircularBuffer: a ring of `size` slots between one producer and one consumer,
 * guarded by two semaphores, one counting free slots and one counting items. The index mask is
 * `size - 1`, so masking an index is taking its remainder (Masks.MaskIsRemainder); `size` is the
 * least power of two that holds `maxcap` (Masks.MaskForHolds), of which only the lower bound matters.
 */
module CircularBuffer {
  import opened Modular
  import Sem = SpscSemaphore
  import Masks

  type Value = int

  datatype Producer =
    | Outside
      // inside tryWait, wait or timed wait on the free slots
    | Acquire(v: Value)
    | Write(v: Value)
      // before and, if the consumer sleeps, after the signal of the items
    | Publish
    | Posting

  datatype Consumer = Away | Await | Read | Release | Waking | PeekRead

  datatype Result = NoResult | Empty | Popped(v: Value) | Peeked(v: Value)

  /** `pushed` and `popped` list the values written and read so far. */
  datatype State = State(
    maxcap: nat,
    size: nat,
    slots: Sem.State,
    items: Sem.State,
    data: seq<Value>,
    nextSlot: nat,
    nextItem: nat,
    ppc: Producer,
    cpc: Consumer,
    pushed: seq<Value>,
    popped: seq<Value>,
    result: Result)

  ghost predicate Init(s: State)
  {
    && s.maxcap < Masks.Limit(6) && s.size == Masks.MaskFor(s.maxcap) + 1 && |s.data| == s.size
    && s.slots == Sem.Initial(s.maxcap) && s.items == Sem.Initial(0)
    && s.nextSlot == s.nextItem == 0 && s.ppc == Outside && s.cpc == Away
    && s.pushed == s.popped == [] && s.result == NoResult
  }

  // ------------------------------------------------------------------------------------------
  // The producer
  // ------------------------------------------------------------------------------------------

  /** try_enqueue, wait_enqueue or wait_enqueue_timed. */
  ghost predicate StartEnqueue(s: State, s': State, v: Value, blocking: bool)
  {
    s.ppc == Outside && Sem.StartWait(s.slots, s'.slots, blocking) && s' == s.(ppc := Acquire(v), slots := s'.slots)
  }

  function AfterAcquire(w: Sem.Waiter, v: Value): Producer
  {
    if !w.Idle? then Acquire(v) else if w.got then Write(v) else Outside
  }

  ghost predicate Produce(s: State, s': State)
  {
    match s.ppc
    case Outside => false
    case Acquire(v) =>
      Sem.WaitStep(s.slots, s'.slots) && s' == s.(slots := s'.slots, ppc := AfterAcquire(s'.slots.waiter, v))
    case Write(v) =>
      && |s.data| == s.size > 0
      && s' == s.(data := s.data[s.nextSlot % s.size := v], nextSlot := s.nextSlot + 1, pushed := s.pushed + [v],
          ppc := Publish)
    case Publish =>
      && Sem.Signal(s.items, s'.items, 1)
      && s' == s.(items := s'.items, ppc := if s'.items.signaller == Sem.Post then Posting else Outside)
    case Posting => Sem.PostStep(s.items, s'.items) && s' == s.(items := s'.items, ppc := Outside)
  }

  // ------------------------------------------------------------------------------------------
  // The consumer
  // ------------------------------------------------------------------------------------------

  ghost predicate StartDequeue(s: State, s': State, blocking: bool)
  {
    s.cpc == Away && Sem.StartWait(s.items, s'.items, blocking) && s' == s.(cpc := Await, items := s'.items)
  }

  ghost predicate StartPeek(s: State, s': State)
  {
    s.cpc == Away && s' == if s.items.count > 0 then s.(cpc := PeekRead) else s.(result := Empty)
  }

  function AfterAwait(w: Sem.Waiter): Consumer
  {
    if !w.Idle? then Await else if w.got then Read else Away
  }

  ghost predicate Consume(s: State, s': State)
  {
    match s.cpc
    case Away => false
    case Await => Sem.WaitStep(s.items, s'.items) && s' == s.(items := s'.items, cpc := AfterAwait(s'.items.waiter))
    case Read =>
      && |s.data| == s.size > 0
      && var v := s.data[s.nextItem % s.size];
      && s' == s.(nextItem := s.nextItem + 1, popped := s.popped + [v], result := Popped(v), cpc := Release)
    case Release =>
      && Sem.Signal(s.slots, s'.slots, 1)
      && s' == s.(slots := s'.slots, cpc := if s'.slots.signaller == Sem.Post then Waking else Away)
    case Waking => Sem.PostStep(s.slots, s'.slots) && s' == s.(slots := s'.slots, cpc := Away)
    case PeekRead =>
      && |s.data| == s.size > 0
      && s' == s.(result := Peeked(s.data[s.nextItem % s.size]), cpc := Away)
  }

  ghost predicate Step(s: State, s': State)
  {
    || (exists v, blocking :: StartEnqueue(s, s', v, blocking)) || Produce(s, s')
    || (exists blocking :: StartDequeue(s, s', blocking)) || StartPeek(s, s') || Consume(s, s')
  }

  ghost predicate IsRun(run: seq<State>)
  {
    && |run| > 0
    && Init(run[0])
    && forall i :: 0 <= i < |run| - 1 ==> Step(run[i], run[i + 1])
  }

  // ------------------------------------------------------------------------------------------
  // The invariant
  // ------------------------------------------------------------------------------------------

  /** Permits of the producer: taken for what is or will be written, returned as items after writing. */
  predicate ProducerOk(p: Producer, slots: Sem.State, items: Sem.State, nextSlot: nat)
  {
    && slots.granted == nextSlot + (if p.Write? then 1 else 0)
    && items.signalled + (if p.Publish? then 1 else 0) == nextSlot
    && (slots.waiter.Idle? <==> !p.Acquire?)
    && (items.signaller == Sem.Post <==> p.Posting?)
  }

  predicate ConsumerOk(p: Consumer, slots: Sem.State, items: Sem.State, nextItem: nat, nextSlot: nat)
  {
    && items.granted == nextItem + (if p.Read? then 1 else 0)
    && slots.signalled + (if p.Release? then 1 else 0) == nextItem
    && (items.waiter.Idle? <==> !p.Await?)
    && (slots.signaller == Sem.Post <==> p.Waking?)
    && (p.PeekRead? ==> nextItem < nextSlot)
  }

  ghost predicate DataOk(data: seq<Value>, size: nat, pushed: seq<Value>, popped: seq<Value>, nextSlot: nat,
      nextItem: nat)
  {
    && |data| == size >= 1
    && |pushed| == nextSlot && nextItem <= nextSlot && popped == pushed[..nextItem]
    && forall i | nextItem <= i < nextSlot :: data[i % size] == pushed[i]
  }

  ghost predicate Inv(s: State)
  {
    && Sem.Inv(s.slots) && Sem.Inv(s.items)
    && s.slots.initial == s.maxcap <= s.size && s.items.initial == 0
    && ProducerOk(s.ppc, s.slots, s.items, s.nextSlot)
    && ConsumerOk(s.cpc, s.slots, s.items, s.nextItem, s.nextSlot)
    && DataOk(s.data, s.size, s.pushed, s.popped, s.nextSlot, s.nextItem)
  }

  lemma AcquireKeeps(s: State, s': State, v: Value)
    requires Inv(s) && s.ppc == Acquire(v) && Produce(s, s')
    ensures Inv(s')
  {
    hide DataOk, Sem.Inv;
    Sem.WaitKeeps(s.slots, s'.slots);
  }

  /** A permit held means that the slot about to be written is free. */
  lemma WriteIsFree(s: State)
    requires Inv(s) && s.ppc.Write?
    ensures s.nextSlot < s.maxcap + s.slots.signalled
    ensures forall i | s.slots.signalled <= i < s.nextSlot :: i % s.size != s.nextSlot % s.size
  {
    forall i | s.slots.signalled <= i < s.nextSlot ensures i % s.size != s.nextSlot % s.size {
      RemDistinct(i, s.nextSlot, s.size);
    }
  }

  lemma WriteKeeps(s: State, s': State, v: Value)
    requires Inv(s) && s.ppc == Write(v) && Produce(s, s')
    ensures Inv(s')
  {
    WriteIsFree(s);
    hide Sem.Inv;
  }

  lemma PublishKeeps(s: State, s': State)
    requires Inv(s) && (s.ppc == Publish || s.ppc == Posting) && Produce(s, s')
    ensures Inv(s')
  {
    hide DataOk;
    if s.ppc == Publish {
      Sem.SignalKeepsIff(s.items, s'.items, 1);
    }
  }

  lemma AwaitKeeps(s: State, s': State)
    requires Inv(s) && s.cpc == Await && Consume(s, s')
    ensures Inv(s')
  {
    hide DataOk, Sem.Inv;
    Sem.WaitKeeps(s.items, s'.items);
  }

  /** A permit held means that there is an item to read. */
  lemma ReadKeeps(s: State, s': State)
    requires Inv(s) && (s.cpc == Read || s.cpc == PeekRead) && Consume(s, s')
    ensures Inv(s') && s.nextItem < s.nextSlot
    ensures s'.result == if s.cpc == Read then Popped(s.pushed[s.nextItem]) else Peeked(s.pushed[s.nextItem])
  {
    assert s.nextItem < s.nextSlot;
    hide Sem.Inv;
  }

  lemma ReleaseKeeps(s: State, s': State)
    requires Inv(s) && (s.cpc == Release || s.cpc == Waking) && Consume(s, s')
    ensures Inv(s')
  {
    hide DataOk;
    if s.cpc == Release {
      Sem.SignalKeepsIff(s.slots, s'.slots, 1);
    }
  }

  lemma StartKeeps(s: State, s': State)
    requires Inv(s)
    requires StartPeek(s, s') || (exists v, blocking :: StartEnqueue(s, s', v, blocking))
      || (exists blocking :: StartDequeue(s, s', blocking))
    ensures Inv(s')
  {
    hide DataOk;
  }

  lemma StepKeeps(s: State, s': State)
    requires Inv(s) && Step(s, s')
    ensures Inv(s') && s'.maxcap == s.maxcap && s'.size == s.size && s.pushed <= s'.pushed
  {
    hide Inv;
    if Produce(s, s') {
      match s.ppc
      case Acquire(v) => AcquireKeeps(s, s', v);
      case Write(v) => WriteKeeps(s, s', v);
      case Publish => PublishKeeps(s, s');
      case Posting => PublishKeeps(s, s');
    } else if Consume(s, s') {
      match s.cpc
      case Await => AwaitKeeps(s, s');
      case Read => ReadKeeps(s, s');
      case PeekRead => ReadKeeps(s, s');
      case Release => ReleaseKeeps(s, s');
      case Waking => ReleaseKeeps(s, s');
    } else {
      StartKeeps(s, s');
    }
  }

  lemma InitKeeps(s: State)
    requires Init(s)
    ensures Inv(s)
  {
    hide DataOk, Sem.Inv, ProducerOk, ConsumerOk, Masks.MaskFor, Masks.Limit;
    Masks.MaskForHolds(s.maxcap, 0);
    SemStart(s.maxcap);
    SemStart(0);
    SidesStart(s);
    DataStart(s.data, s.size);
  }

  lemma SemStart(n: nat)
    ensures Sem.Inv(Sem.Initial(n))
  {
  }

  lemma SidesStart(s: State)
    requires Init(s)
    ensures ProducerOk(s.ppc, s.slots, s.items, s.nextSlot)
    ensures ConsumerOk(s.cpc, s.slots, s.items, s.nextItem, s.nextSlot)
  {
    hide DataOk, Sem.Inv;
  }

  lemma DataStart(data: seq<Value>, size: nat)
    requires |data| == size >= 1
    ensures DataOk(data, size, [], [], 0, 0)
  {
  }

  lemma {:induction false} RunKeeps(run: seq<State>, i: nat)
    requires IsRun(run) && i < |run|
    ensures Inv(run[i]) && run[i].maxcap == run[0].maxcap && run[i].size == run[0].size
  {
    hide Step, Inv, Init;
    if i == 0 {
      InitKeeps(run[0]);
    } else {
      RunKeeps(run, i - 1);
      StepKeeps(run[i - 1], run[i]);
    }
  }

  // ------------------------------------------------------------------------------------------
  // What the buffer promises
  // ------------------------------------------------------------------------------------------

  /** Never more than maxcap slots between those written and those given back, and never fewer than none. */
  lemma Bounded(run: seq<State>, i: nat)
    requires IsRun(run) && i < |run|
    ensures run[i].slots.signalled <= run[i].nextItem <= run[i].nextSlot <= run[i].slots.signalled + run[0].maxcap
    ensures run[0].maxcap <= run[0].size
  {
    RunKeeps(run, i);
  }

  /** No write lands on a slot that holds an item or is still being read. */
  lemma NoOverwrite(run: seq<State>, i: nat, k: nat)
    requires IsRun(run) && i < |run| && run[i].ppc.Write? && run[i].slots.signalled <= k < run[i].nextSlot
    ensures run[i].nextSlot % run[0].size != k % run[0].size
    ensures run[i].cpc == Read ==> run[i].nextSlot % run[0].size != run[i].nextItem % run[0].size
  {
    RunKeeps(run, i);
    WriteIsFree(run[i]);
    hide DataOk;
    if run[i].cpc == Read {
      assert run[i].slots.signalled == run[i].nextItem < run[i].nextSlot;
    }
  }

  /** First in, first out. */
  lemma FirstInFirstOut(run: seq<State>, i: nat)
    requires IsRun(run) && i < |run|
    ensures run[i].popped <= run[i].pushed && |run[i].popped| == run[i].nextItem
  {
    RunKeeps(run, i);
  }

  lemma {:induction false} PushedGrows(run: seq<State>, i: nat, j: nat)
    requires IsRun(run) && i <= j < |run|
    ensures run[i].pushed <= run[j].pushed
  {
    hide Step, Inv;
    if i < j {
      PushedGrows(run, i, j - 1);
      RunKeeps(run, j - 1);
      StepKeeps(run[j - 1], run[j]);
    }
  }

  /** What peek shows is what the next dequeue returns. */
  lemma PeekIsNextDequeue(run: seq<State>, i: nat, j: nat)
    requires IsRun(run) && i < j < |run| - 1
    requires run[i].cpc == PeekRead && Consume(run[i], run[i + 1])
    requires run[j].cpc == Read && Consume(run[j], run[j + 1]) && run[j].nextItem == run[i].nextItem
    ensures run[i + 1].result.Peeked? && run[j + 1].result == Popped(run[i + 1].result.v)
  {
    hide Step, Consume, Init;
    RunKeeps(run, i);
    RunKeeps(run, j);
    ReadKeeps(run[i], run[i + 1]);
    ReadKeeps(run[j], run[j + 1]);
    PushedGrows(run, i, j);
  }

  /** An enqueue, timed or not, fails only at a moment when maxcap slots are in use. */
  lemma EnqueueFailsWhenFull(run: seq<State>, i: nat)
    requires IsRun(run) && i < |run| - 1 && run[i].ppc.Acquire? && Produce(run[i], run[i + 1])
      && run[i + 1].ppc == Outside
    ensures run[i].nextSlot == run[i].slots.signalled + run[0].maxcap
  {
    hide Step, Init, DataOk, ConsumerOk;
    RunKeeps(run, i);
  }

  /** A dequeue, timed or not, fails only at a moment when every item published has been taken. */
  lemma DequeueFailsWhenEmpty(run: seq<State>, i: nat)
    requires IsRun(run) && i < |run| - 1 && run[i].cpc == Await && Consume(run[i], run[i + 1]) && run[i + 1].cpc == Away
    ensures run[i].nextItem == run[i].items.signalled
  {
    hide Step, Init, DataOk, ProducerOk;
    RunKeeps(run, i);
  }

  /** size_approx: with no dequeue under way, the items counted are exactly those published and not taken. */
  lemma SizeIsExact(run: seq<State>, i: nat)
    requires IsRun(run) && i < |run| && run[i].cpc == Away
    ensures run[i].items.count == run[i].items.signalled - run[i].nextItem
  {
    RunKeeps(run, i);
  }

  /** peek comes back empty exactly at a moment when every item published has been taken. */
  lemma PeekFailsIff(run: seq<State>, i: nat)
    requires IsRun(run) && i < |run| - 1 && StartPeek(run[i], run[i + 1])
    ensures run[i].nextItem <= run[i].items.signalled
    ensures if run[i].nextItem == run[i].items.signalled then run[i + 1].cpc == Away && run[i + 1].result == Empty
            else run[i + 1].cpc == PeekRead
  {
    RunKeeps(run, i);
  }

  /** An enqueue writes the value it was called with, and only once it has a permit. */
  lemma EnqueueIsOfItsValue(s: State, s': State)
    requires Step(s, s')
    ensures s'.pushed != s.pushed ==> s.ppc.Write? && s'.pushed == s.pushed + [s.ppc.v]
    ensures s'.ppc.Write? && !s.ppc.Write? ==> s.ppc == Acquire(s'.ppc.v)
    ensures s.ppc.Acquire? && s'.ppc.Acquire? ==> s'.ppc == s.ppc
  {
  }

  /** Every call can begin, an enqueue with any value, which it is then about. */
  lemma CallsBegin(run: seq<State>, i: nat, v: Value, blocking: bool)
    requires IsRun(run) && i < |run|
    ensures var s := run[i];
      && (s.ppc == Outside ==>
            StartEnqueue(s, s.(ppc := Acquire(v), slots := s.slots.(waiter := Sem.Load(blocking))), v, blocking))
      && (s.cpc == Away ==>
            StartDequeue(s, s.(cpc := Await, items := s.items.(waiter := Sem.Load(blocking))), blocking))
    ensures forall s' | StartEnqueue(run[i], s', v, blocking) :: s'.ppc == Acquire(v)
  {
    RunKeeps(run, i);
  }

  /** The array holds maxcap elements and is as large as the index mask asks, so masking takes the remainder. */
  lemma IndexIsMasked(run: seq<State>, i: nat)
    requires IsRun(run) && i < |run|
    ensures |run[i].data| == run[i].size == Masks.MaskFor(run[0].maxcap) + 1
  {
    RunKeeps(run, i);
  }

  /** Every call can take its next step; a call that waits can give up. */
  lemma NeverStuck(run: seq<State>, i: nat)
    requires IsRun(run) && i < |run|
    ensures run[i].ppc != Outside ==> exists s' :: Produce(run[i], s')
    ensures run[i].cpc != Away ==> exists s' :: Consume(run[i], s')
  {
    RunKeeps(run, i);
    var s := run[i];
    hide IsRun, Sem.WaitStep;
    match s.ppc {
      case Outside =>
      case Acquire(v) =>
        var w := Sem.WaiterStep(s.slots);
        assert Produce(s, s.(slots := w, ppc := AfterAcquire(w.waiter, v)));
      case Write(v) =>
        assert Produce(s, s.(data := s.data[s.nextSlot % s.size := v], nextSlot := s.nextSlot + 1,
                             pushed := s.pushed + [v], ppc := Publish));
      case Publish =>
        var w := Sem.Signalled(s.items, 1);
        assert Produce(s, s.(items := w, ppc := if w.signaller == Sem.Post then Posting else Outside));
      case Posting =>
        assert Produce(s, s.(items := s.items.(signaller := Sem.Quiet, kernel := s.items.kernel + 1), ppc := Outside));
    }
    match s.cpc {
      case Away =>
      case Await =>
        var w := Sem.WaiterStep(s.items);
        assert Consume(s, s.(items := w, cpc := AfterAwait(w.waiter)));
      case Read =>
        var v := s.data[s.nextItem % s.size];
        assert Consume(s, s.(nextItem := s.nextItem + 1, popped := s.popped + [v], result := Popped(v),
            cpc := Release));
      case Release =>
        var w := Sem.Signalled(s.slots, 1);
        assert Consume(s, s.(slots := w, cpc := if w.signaller == Sem.Post then Waking else Away));
      case Waking =>
        assert Consume(s, s.(slots := s.slots.(signaller := Sem.Quiet, kernel := s.slots.kernel + 1), cpc := Away));
      case PeekRead => assert Consume(s, s.(result := Peeked(s.data[s.nextItem % s.size]), cpc := Away));
    }
  }
}
