/**
 * What the calls of ReaderWriterQueue answer, and that they are wait-free: every call returns after a
 * bounded number of its own steps, whatever the other side does; an enqueue has added its value or
 * found the queue full, a dequeue or a peek has got the oldest value or found the queue empty.
 */
module ReaderWriterCalls {
  import opened ReaderWriterQueue

  // ------------------------------------------------------------------------------------------
  // What a call returns
  // ------------------------------------------------------------------------------------------

  /** Inside a peek; a dequeue otherwise. */
  predicate Peeking(p: ConsumerPc)
  {
    if p.Idle? || p.StoreFrontBlock? || p.StoreFront? then false else if p.ReadNext? then true else p.peek
  }

  /** A call of the consumer stays the call it is. */
  lemma ConsumerCall(s: State, s': State, peek: bool)
    requires Dequeue(s, s', peek) || (Consume(s, s') && s.cpc != Idle && Peeking(s.cpc) == peek)
    ensures s'.cpc != Idle ==> Peeking(s'.cpc) == peek
    ensures peek || s'.cpc != Idle ==> s'.deq == s.deq
  {
  }

  /** A dequeue returns the oldest element and removes it, a peek returns it, and both fail only on an empty queue. */
  lemma ConsumerAnswer(s: State, s': State)
    requires Reachable(s) && s.cap >= 1 && Consume(s, s') && s'.cpc == Idle
    ensures s'.result.Failed? ==> s.cpc.LoadTailBlock? && s'.result == Failed(0) && s'.deq == s.deq
    ensures !s'.result.Failed? ==>
      && |s.deq| < |s.enq|
      && s'.result == (if Peeking(s.cpc) then Peeked(s.enq[|s.deq|]) else Got(s.enq[|s.deq|]))
      && s'.deq == if Peeking(s.cpc) then s.deq else s.deq + [s.enq[|s.deq|]]
  {
    hide Reachable;
    OldestIsReturned(s, s');
    if s.cpc.LoadTailBlock? {
      EmptyWasEmpty(s, s');
    }
  }

  /** The value an enqueue is about. */
  function ValueOf(p: ProducerPc): Value
    requires p != Ready
  {
    p.v
  }

  /** Inside a try_enqueue that has not found room yet. */
  predicate Trying(p: ProducerPc) { (p.LoadFront? || p.LoadFrontBlock?) && !p.alloc }

  /** An enqueue stays about its value until it returns, and then has added it or been refused with the queue full. */
  lemma ProducerAnswer(s: State, s': State)
    requires Reachable(s) && Produce(s, s')
    ensures if s.ppc == Ready then s'.ppc != Ready && s'.enq == s.enq && s'.refused == s.refused
            else if s'.ppc != Ready then ValueOf(s'.ppc) == ValueOf(s.ppc) && s'.enq == s.enq
            else if s.ppc.LoadFrontBlock? then s'.refused.Failed? && s'.refused.seen >= s.cap && s'.enq == s.enq
            else s'.enq == s.enq + [ValueOf(s.ppc)] && s'.refused == s.refused
  {
    hide Reachable;
    if s.ppc.LoadFrontBlock? {
      FullAnswer(s, s');
    } else if s.ppc == Ready {
      StartsEnqueue(s, s');
    } else {
      hide ProduceFull;
    }
  }

  lemma FullAnswer(s: State, s': State)
    requires Reachable(s) && Produce(s, s') && s.ppc.LoadFrontBlock?
    ensures if s'.ppc != Ready then ValueOf(s'.ppc) == s.ppc.v && s'.enq == s.enq
            else s'.refused.Failed? && s'.refused.seen >= s.cap && s'.enq == s.enq
  {
    hide Reachable;
    var b, data :| ProduceFull(s, s', b, data);
    if s'.ppc == Ready {
      RefusedWhenFull(s, s', b, data);
    }
  }

  lemma StartsEnqueue(s: State, s': State)
    requires Produce(s, s') && s.ppc == Ready
    ensures s'.ppc != Ready && s'.enq == s.enq && s'.refused == s.refused
  {
  }

  /** A call of enqueue or try_enqueue can begin with any value, and is then about it. */
  lemma EnqueueBegins(s: State, v: Value, alloc: bool) returns (s': State)
    requires Reachable(s) && s.cap >= 1 && s.ppc == Ready
    ensures Enqueue(s, s', v, alloc) && s'.enq == s.enq && s'.ppc != Ready && ValueOf(s'.ppc) == v
    ensures Trying(s'.ppc) ==> !alloc
    ensures s'.ppc.LoadFront? && !alloc ==> Trying(s'.ppc)
  {
    hide Good, Reachable;
    ReachableInv(s);
    var g :| Good(s, g);
    BlockFacts(s, g, s.tailBlock);
    var k := s.blocks[s.tailBlock];
    s' := s.(ppc := if Succ(k.tail, k.size) != k.localFront then Write(v) else LoadFront(v, alloc));
  }

  /** A try_enqueue never makes a block. */
  lemma TryNeverGrows(s: State, s': State)
    requires Produce(s, s') && s.ppc != Ready
    ensures Trying(s.ppc) ==> s'.blocks.Keys == s.blocks.Keys && !s'.ppc.LinkNew?
    ensures Trying(s.ppc) && s'.ppc.LoadFrontBlock? ==> Trying(s'.ppc)
    ensures s'.blocks.Keys != s.blocks.Keys ==> s.ppc.LoadFrontBlock? && s.ppc.alloc && s'.ppc.LinkNew?
  {
  }

  // ------------------------------------------------------------------------------------------
  // The moments of the answers
  // ------------------------------------------------------------------------------------------

  /** What a dequeue or peek that has found the front block empty has seen, it has seen at a moment of the call. */
  lemma {:induction false} SeenByConsumer(run: seq<State>, i: nat) returns (j: nat)
    requires IsRun(run) && i < |run| && run[i].cpc.LoadTailBlock?
    ensures j < i && Present(run[j]) == run[i].cpc.seen && forall k | j <= k <= i :: run[k].cpc != Idle
  {
    hide Produce, Consume;
    var s, s' := run[i - 1], run[i];
    assert Step(s, s');
    ConsumerMoves(s, s');
    if s.cpc == s'.cpc {
      j := SeenByConsumer(run, i - 1);
    } else {
      j := i - 1;
    }
  }

  lemma ConsumerMoves(s: State, s': State)
    requires Step(s, s') && s'.cpc.LoadTailBlock?
    ensures s.cpc == s'.cpc || (s.cpc.LoadTail? && s'.cpc.seen == Present(s))
  {
  }

  /** A dequeue or a peek comes back empty only if the queue was empty at a moment of the call. */
  lemma FailedWasEmpty(run: seq<State>, i: nat) returns (j: nat)
    requires IsRun(run) && i + 1 < |run| && run[0].cap >= 1
    requires Consume(run[i], run[i + 1]) && run[i + 1].cpc == Idle && run[i + 1].result.Failed?
    ensures j < i && run[j].enq == run[j].deq && forall k | j <= k <= i :: run[k].cpc != Idle
  {
    hide Init, Consume, Produce;
    RunReaches(run, i);
    CapFixed(run, i);
    ConsumerAnswer(run[i], run[i + 1]);
    EmptyFound(run[i], run[i + 1]);
    j := SeenByConsumer(run, i);
    RunReaches(run, j);
    CapFixed(run, j);
    FirstInFirstOut(run[j]);
  }

  lemma EmptyFound(s: State, s': State)
    requires Consume(s, s') && s.cpc.LoadTailBlock? && s'.cpc == Idle && s'.result == Failed(0)
    ensures s.cpc.seen == 0
  {
  }

  lemma {:induction false} SeenByProducer(run: seq<State>, i: nat) returns (j: nat)
    requires IsRun(run) && i < |run| && run[i].ppc.LoadFrontBlock?
    ensures j < i && Present(run[j]) == run[i].ppc.seen && forall k | j <= k <= i :: run[k].ppc != Ready
  {
    hide Produce, Consume;
    var s, s' := run[i - 1], run[i];
    assert Step(s, s');
    ProducerMoves(s, s');
    if s.ppc == s'.ppc {
      j := SeenByProducer(run, i - 1);
    } else {
      j := i - 1;
    }
  }

  lemma ProducerMoves(s: State, s': State)
    requires Step(s, s') && s'.ppc.LoadFrontBlock?
    ensures s.ppc == s'.ppc || (s.ppc.LoadFront? && s'.ppc.seen == Present(s))
  {
  }

  /** An enqueue is refused only if `cap` elements were queued at a moment of the call. */
  lemma RefusedWasFull(run: seq<State>, i: nat) returns (j: nat)
    requires IsRun(run) && i + 1 < |run|
    requires Produce(run[i], run[i + 1]) && run[i].ppc.LoadFrontBlock? && run[i + 1].ppc == Ready
    ensures j < i && Present(run[j]) >= run[0].cap && forall k | j <= k <= i :: run[k].ppc != Ready
  {
    hide Init, Consume, Produce;
    RunReaches(run, i);
    CapFixed(run, i);
    ProducerAnswer(run[i], run[i + 1]);
    RefusedWith(run[i], run[i + 1]);
    j := SeenByProducer(run, i);
  }

  lemma RefusedWith(s: State, s': State)
    requires Produce(s, s') && s.ppc.LoadFrontBlock? && s'.ppc == Ready
    ensures s'.refused == Failed(s.ppc.seen)
  {
  }

  // ------------------------------------------------------------------------------------------
  // Wait-freedom: every call can take its next step, and has fewer than nine of them
  // ------------------------------------------------------------------------------------------

  function ProducerSteps(p: ProducerPc): nat
  {
    match p
    case Ready => 0
    case LoadFront(_, _) => 6
    case LoadFrontBlock(_, _, _) => 5
    case LoadNextFront(_) => 4
    case WriteNext(_) => 3
    case StoreNextTail(_) => 2
    case LinkNew(_, _) => 2
    case Write(_) => 2
    case StoreTailBlock(_) => 1
    case StoreNewBlock(_, _) => 1
    case StoreTail(_) => 1
  }

  function ConsumerSteps(p: ConsumerPc): nat
  {
    match p
    case Idle => 0
    case LoadTail(_) => 8
    case LoadTailBlock(_, _) => 7
    case ReloadTail(_) => 6
    case LoadNext(_) => 5
    case LoadNextTail(_, _) => 4
    case StoreFrontBlock(_) => 3
    case ReadNext(_) => 1
    case Read(_) => 2
    case StoreFront(_) => 1
  }

  lemma ProducerShrinks(s: State, s': State)
    requires Produce(s, s') && s.ppc != Ready
    ensures ProducerSteps(s'.ppc) < ProducerSteps(s.ppc) && s'.cpc == s.cpc
  {
  }

  lemma ConsumerShrinks(s: State, s': State)
    requires Consume(s, s') && s.cpc != Idle
    ensures ConsumerSteps(s'.cpc) < ConsumerSteps(s.cpc) && s'.ppc == s.ppc
  {
  }

  lemma ProducerLeaves(s: State, s': State)
    requires Produce(s, s')
    ensures s'.cpc == s.cpc
  {
  }

  lemma ConsumerLeaves(s: State, s': State)
    requires Consume(s, s')
    ensures s'.ppc == s.ppc
  {
  }

  /** Every step brings its own call closer to its end and leaves the other side where it is. */
  lemma WaitFree(s: State, s': State)
    requires Step(s, s')
    ensures Produce(s, s') ==> s'.cpc == s.cpc && (s.ppc != Ready ==> ProducerSteps(s'.ppc) < ProducerSteps(s.ppc))
    ensures Consume(s, s') ==> s'.ppc == s.ppc && (s.cpc != Idle ==> ConsumerSteps(s'.cpc) < ConsumerSteps(s.cpc))
  {
    hide Produce, Consume;
    if Produce(s, s') {
      ProducerLeaves(s, s');
      if s.ppc != Ready {
        ProducerShrinks(s, s');
      }
    }
    if Consume(s, s') {
      ConsumerLeaves(s, s');
      if s.cpc != Idle {
        ConsumerShrinks(s, s');
      }
    }
  }

  lemma BlockFacts(s: State, g: Ghost, b: Id)
    requires Good(s, g)
    ensures s.tailBlock in s.blocks && s.tailBlock in s.next && s.next[s.tailBlock] in s.blocks && s.largest >= 2
    ensures s.frontBlock in s.blocks && s.frontBlock in s.next
    ensures b in s.blocks ==>
      && s.blocks[b].front < s.blocks[b].size == |s.blocks[b].data|
      && s.blocks[b].tail < s.blocks[b].size
  {
    hide Fill, Flat, Queue, BlockOk, ConsumerOk, ProducerOk;
    GoodIsQueue(s, g);
    if b in s.blocks {
      CellFacts(s, g, b);
      DataSize(s.blocks[b], g.cells[b]);
    }
    hide Blocks;
    NextOfTail(g.order, g.tb, s.next, s.blocks.Keys);
  }

  lemma DataSize(k: Block, c: Cell)
    requires BlockOk(k, c)
    ensures |k.data| == k.size > 0
  {
  }

  lemma {:induction false} Unused(used: set<Id>) returns (b: Id)
    ensures forall x | x in used :: x < b
  {
    if used == {} {
      b := 0;
    } else {
      var x :| x in used;
      var c := Unused(used - {x});
      b := if c > x then c else x + 1;
      forall y | y in used ensures y < b {
        if y != x {
          assert y in used - {x};
        }
      }
    }
  }

  lemma StartEnqueue(s: State, v: Value, alloc: bool) returns (s': State)
    requires s.ppc == Ready && s.tailBlock in s.blocks && s.blocks[s.tailBlock].size > 0
    ensures Produce(s, s') && s'.ppc != Ready
  {
    var k := s.blocks[s.tailBlock];
    s' := s.(ppc := if Succ(k.tail, k.size) != k.localFront then Write(v) else LoadFront(v, alloc));
    assert Enqueue(s, s', v, alloc);
  }

  lemma AdvanceHere(s: State) returns (s': State)
    requires s.ppc.LoadFront? || s.ppc.Write? || s.ppc.StoreTail?
    requires s.tailBlock in s.blocks
    requires s.blocks[s.tailBlock].tail < s.blocks[s.tailBlock].size == |s.blocks[s.tailBlock].data|
    ensures ProduceHere(s, s')
  {
    var k := s.blocks[s.tailBlock];
    match s.ppc {
      case LoadFront(v, alloc) =>
        s' := SetBlock(s, s.tailBlock, k.(localFront := k.front))
        .(ppc := if Succ(k.tail, k.size) != k.front then Write(v) else LoadFrontBlock(v, alloc, Present(s)));
      case Write(v) => s' := SetBlock(s, s.tailBlock, k.(data := k.data[k.tail := v])).(ppc := StoreTail(v));
      case StoreTail(v) =>
        s' := SetBlock(s, s.tailBlock, k.(tail := Succ(k.tail, k.size))).(ppc := Ready, enq := s.enq + [v]);
    }
  }

  /** An enqueue that may grow the queue is refused only by the allocator. */
  lemma AdvanceFull(s: State) returns (s': State)
    requires s.ppc.LoadFrontBlock? && s.tailBlock in s.next && s.next[s.tailBlock] in s.blocks && s.largest >= 1
    ensures Produce(s, s') && (s.ppc.alloc ==> s'.ppc != Ready)
  {
    hide ProduceHere, ProduceNext, Enqueue;
    if s.next[s.tailBlock] != s.frontBlock {
      s' := s.(ppc := LoadNextFront(s.ppc.v));
      assert ProduceFull(s, s', 0, []);
    } else if s.ppc.alloc {
      var b := Unused(s.blocks.Keys + s.next.Keys);
      var size := if s.largest >= s.max then s.largest else s.largest * 2;
      var data := seq(size, _ => s.ppc.v);
      assert b !in s.blocks && b !in s.next by {
        assert b !in s.blocks.Keys + s.next.Keys;
      }
      s' := s.(ppc := LinkNew(s.ppc.v, b), largest := size, blocks := s.blocks[b := Block(size, 0, 1, 0, 1, data)],
               next := s.next[b := s.next[s.tailBlock]]);
      assert ProduceFull(s, s', b, data);
    } else {
      s' := s.(ppc := Ready, refused := Failed(s.ppc.seen));
      assert ProduceFull(s, s', 0, []);
    }
  }

  lemma AdvanceNext(s: State) returns (s': State)
    requires Ahead(s.ppc) || s.ppc.LinkNew?
    requires s.tailBlock in s.next && s.next[s.tailBlock] in s.blocks
    requires var k := s.blocks[s.next[s.tailBlock]]; k.tail < k.size == |k.data|
    ensures ProduceNext(s, s')
  {
    var b := s.next[s.tailBlock];
    var k := s.blocks[b];
    match s.ppc {
      case LoadNextFront(v) => s' := SetBlock(s, b, k.(localFront := k.front)).(ppc := WriteNext(v));
      case WriteNext(v) => s' := SetBlock(s, b, k.(data := k.data[k.tail := v])).(ppc := StoreNextTail(v));
      case StoreNextTail(v) => s' := SetBlock(s, b, k.(tail := Succ(k.tail, k.size))).(ppc := StoreTailBlock(v));
      case StoreTailBlock(v) => s' := s.(ppc := Ready, tailBlock := b, enq := s.enq + [v]);
      case LinkNew(v, nb) => s' := s.(ppc := StoreNewBlock(v, nb), next := s.next[s.tailBlock := nb]);
      case StoreNewBlock(v, nb) => s' := s.(ppc := Ready, tailBlock := nb, enq := s.enq + [v]);
    }
  }

  /** An enqueue can begin and take every next step, whatever the consumer does; growing succeeds if memory is there. */
  lemma ProducerNeverStuck(s: State) returns (s': State)
    requires Reachable(s) && s.cap >= 1
    ensures Produce(s, s') && s'.cpc == s.cpc
    ensures if s.ppc == Ready then s'.ppc != Ready else ProducerSteps(s'.ppc) < ProducerSteps(s.ppc)
    ensures s.ppc.LoadFrontBlock? && s.ppc.alloc ==> s'.ppc != Ready
  {
    hide Good, Reachable, ProduceHere, ProduceNext;
    ReachableInv(s);
    var g :| Good(s, g);
    BlockFacts(s, g, s.tailBlock);
    if s.ppc == Ready {
      s' := StartEnqueue(s, 0, false);
    } else if s.ppc.LoadFront? || s.ppc.Write? || s.ppc.StoreTail? {
      s' := AdvanceHere(s);
    } else if s.ppc.LoadFrontBlock? {
      s' := AdvanceFull(s);
    } else {
      BlockFacts(s, g, s.next[s.tailBlock]);
      s' := AdvanceNext(s);
    }
    hide Produce;
    ProducerLeaves(s, s');
    if s.ppc != Ready {
      ProducerShrinks(s, s');
    }
  }

  lemma AdvanceFront(s: State) returns (s': State)
    requires s.cpc != Idle && !Leaving(s.cpc) && s.frontBlock in s.blocks
    requires s.blocks[s.frontBlock].front < s.blocks[s.frontBlock].size == |s.blocks[s.frontBlock].data|
    ensures ConsumeHere(s, s')
  {
    var k := s.blocks[s.frontBlock];
    match s.cpc {
      case LoadTail(peek) =>
        s' := SetBlock(s, s.frontBlock, k.(localTail := k.tail))
        .(cpc := if k.front != k.tail then Read(peek) else LoadTailBlock(peek, Present(s)));
      case LoadTailBlock(peek, seen) =>
        s' := if s.frontBlock != s.tailBlock then s.(cpc := ReloadTail(peek))
              else s.(cpc := Idle, result := Failed(seen));
      case ReloadTail(peek) =>
        s' := SetBlock(s, s.frontBlock, k.(localTail := k.tail))
        .(cpc := if k.front != k.tail then Read(peek) else LoadNext(peek));
      case Read(peek) =>
        s' := if peek then s.(cpc := Idle, result := Peeked(k.data[k.front]))
              else s.(cpc := StoreFront(k.data[k.front]));
      case StoreFront(v) =>
        s' := SetBlock(s, s.frontBlock, k.(front := Succ(k.front, k.size)))
        .(cpc := Idle, deq := s.deq + [v], result := Got(v));
    }
  }

  lemma AdvanceOn(s: State) returns (s': State)
    requires Leaving(s.cpc) && s.frontBlock in s.next
    requires !s.cpc.LoadNext? ==> s.cpc.b in s.blocks && s.blocks[s.cpc.b].front < |s.blocks[s.cpc.b].data|
    ensures ConsumeNext(s, s')
  {
    match s.cpc {
      case LoadNext(peek) => s' := s.(cpc := LoadNextTail(peek, s.next[s.frontBlock]));
      case LoadNextTail(peek, b) =>
        s' := if peek then s.(cpc := ReadNext(b))
              else SetBlock(s, b, s.blocks[b].(localTail := s.blocks[b].tail)).(cpc := StoreFrontBlock(b));
      case StoreFrontBlock(b) => s' := s.(cpc := Read(false), frontBlock := b);
      case ReadNext(b) => s' := s.(cpc := Idle, result := Peeked(s.blocks[b].data[s.blocks[b].front]));
    }
  }

  /** A dequeue or a peek can begin and take every next step, whatever the producer does. */
  lemma ConsumerNeverStuck(s: State, peek: bool) returns (s': State)
    requires Reachable(s) && s.cap >= 1
    ensures Consume(s, s') && s'.ppc == s.ppc
    ensures if s.cpc == Idle then s'.cpc != Idle && Peeking(s'.cpc) == peek
            else ConsumerSteps(s'.cpc) < ConsumerSteps(s.cpc)
  {
    hide Good, Reachable, ConsumeHere, ConsumeNext;
    ReachableInv(s);
    var g :| Good(s, g);
    BlockFacts(s, g, s.frontBlock);
    if s.cpc == Idle {
      var k := s.blocks[s.frontBlock];
      s' := s.(cpc := if k.front != k.localTail then Read(peek) else LoadTail(peek));
      assert Dequeue(s, s', peek);
    } else {
      if !Leaving(s.cpc) {
        s' := AdvanceFront(s);
      } else {
        if !s.cpc.LoadNext? {
          NextNotEmpty(s, g);
          BlockFacts(s, g, s.cpc.b);
        }
        s' := AdvanceOn(s);
      }
      hide Consume;
      ConsumerShrinks(s, s');
    }
  }
}
