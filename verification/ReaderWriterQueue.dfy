/**
 * ReaderWriterQueue: a ring of circular blocks between one producer and one consumer, with cached
 * indices on both sides and blocks inserted while the consumer runs. One step is one access to a
 * variable the other side writes or reads; reads of a side's own variables go with it.
 */
module ReaderWriterQueue {
  import opened Modular
  import Masks

  type Id = nat
  type Value = int

  /** A block; localFront belongs to the producer and localTail to the consumer. */
  datatype Block = Block(size: nat, front: nat, tail: nat, localFront: nat, localTail: nat, data: seq<Value>)

  datatype ProducerPc =
    | Ready
      // the cached front leaves no room: before loading the front of the tail block
    | LoadFront(v: Value, alloc: bool)
    | Write(v: Value)
    | StoreTail(v: Value)
      // the tail block was full when `seen` elements were queued: before loading frontBlock
    | LoadFrontBlock(v: Value, alloc: bool, seen: nat)
      // the next block is free
    | LoadNextFront(v: Value)
    | WriteNext(v: Value)
    | StoreNextTail(v: Value)
    | StoreTailBlock(v: Value)
      // a new block has been made: before linking it after the tail block
    | LinkNew(v: Value, b: Id)
    | StoreNewBlock(v: Value, b: Id)

  /** `peek` tells a peek from a dequeue. */
  datatype ConsumerPc =
    | Idle
      // the cached tail shows nothing: before loading the tail of the front block
    | LoadTail(peek: bool)
      // it was empty when `seen` elements were queued: before loading tailBlock
    | LoadTailBlock(peek: bool, seen: nat)
    | ReloadTail(peek: bool)
    | LoadNext(peek: bool)
    | LoadNextTail(peek: bool, b: Id)
    | StoreFrontBlock(b: Id)
    | Read(peek: bool)
    | ReadNext(b: Id)
    | StoreFront(v: Value)

  /** What the last call of each side returned. */
  datatype Result = NoResult | Failed(seen: nat) | Got(v: Value) | Peeked(v: Value)

  /** `enq` and `deq` list the values that have entered and left the queue; `cap` and `max` are fixed. */
  datatype State = State(
    cap: nat,
    max: nat,
    largest: nat,
    blocks: map<Id, Block>,
    next: map<Id, Id>,
    frontBlock: Id,
    tailBlock: Id,
    ppc: ProducerPc,
    cpc: ConsumerPc,
    enq: seq<Value>,
    deq: seq<Value>,
    refused: Result,
    result: Result)

  function Succ(i: nat, size: nat): nat
    requires size > 0
  {
    (i + 1) % size
  }

  function SetBlock(s: State, b: Id, k: Block): State { s.(blocks := s.blocks[b := k]) }

  function Present(s: State): nat { if |s.deq| <= |s.enq| then |s.enq| - |s.deq| else 0 }

  // ------------------------------------------------------------------------------------------
  // Construction
  // ------------------------------------------------------------------------------------------

  /** The least power of two that is at least x, as ceilToPow2 computes it (CeilIsRoundUp). */
  function CeilPow2(x: nat): (r: nat)
    ensures x <= r && r >= 1 && (x >= 1 ==> r < 2 * x)
  {
    var y := if x == 0 then 0 else x - 1;
    Masks.OnesBound(y);
    Masks.Ones(y) + 1
  }

  lemma CeilIsRoundUp(x: nat)
    requires x < Masks.Limit(6) && Masks.InRange(x, 6)
    ensures CeilPow2(x) == Masks.RoundUp(x, 6)
  {
    var k := Masks.RoundUpExact(x, 6);
  }

  /** Number and size of the blocks built for `cap` elements. */
  function InitialCount(cap: nat, max: nat): nat
    requires max >= 2
  {
    if CeilPow2(cap + 1) > 2 * max then (cap + 2 * max - 3) / (max - 1) else 1
  }

  function InitialSize(cap: nat, max: nat): nat
  {
    if CeilPow2(cap + 1) > 2 * max then max else CeilPow2(cap + 1)
  }

  /** The block after b in the constructor's ring. */
  function Following(b: nat, count: nat): nat { if b + 1 < count then b + 1 else 0 }

  ghost predicate Init(s: State)
  {
    && s.max >= 2 && InitialCount(s.cap, s.max) >= 1
    && s.ppc == Ready && s.cpc == Idle && s.enq == [] && s.deq == []
    && s.refused == NoResult && s.result == NoResult
    && s.frontBlock == s.tailBlock == 0
    && s.largest == InitialSize(s.cap, s.max)
    && (forall b: nat :: b in s.blocks <==> b < InitialCount(s.cap, s.max))
    && s.next.Keys == s.blocks.Keys
    && (forall b | b in s.blocks ::
          && s.next[b] == Following(b, InitialCount(s.cap, s.max))
          && s.blocks[b].size == |s.blocks[b].data| == InitialSize(s.cap, s.max)
          && s.blocks[b].front == s.blocks[b].tail == s.blocks[b].localFront == s.blocks[b].localTail == 0)
  }

  // ------------------------------------------------------------------------------------------
  // The producer: inner_enqueue
  // ------------------------------------------------------------------------------------------

  ghost predicate Enqueue(s: State, s': State, v: Value, alloc: bool)
  {
    && s.ppc == Ready && s.tailBlock in s.blocks && s.blocks[s.tailBlock].size > 0
    && var k := s.blocks[s.tailBlock];
    && s' == s.(ppc := if Succ(k.tail, k.size) != k.localFront then Write(v) else LoadFront(v, alloc))
  }

  ghost predicate ProduceHere(s: State, s': State)
  {
    && s.tailBlock in s.blocks && s.blocks[s.tailBlock].size > 0
    && var k := s.blocks[s.tailBlock];
    && (match s.ppc
        case LoadFront(v, alloc) =>
          s' == SetBlock(s, s.tailBlock, k.(localFront := k.front))
                .(ppc := if Succ(k.tail, k.size) != k.front then Write(v) else LoadFrontBlock(v, alloc, Present(s)))
        case Write(v) =>
          && k.tail < |k.data|
          && s' == SetBlock(s, s.tailBlock, k.(data := k.data[k.tail := v])).(ppc := StoreTail(v))
        case StoreTail(v) =>
          s' == SetBlock(s, s.tailBlock, k.(tail := Succ(k.tail, k.size))).(ppc := Ready, enq := s.enq + [v])
        case _ => false)
  }

  /** The tail block is full: use the free block ahead, make a new one, or give up. */
  ghost predicate ProduceFull(s: State, s': State, made: Id, data: seq<Value>)
  {
    && s.ppc.LoadFrontBlock? && s.tailBlock in s.next && s.next[s.tailBlock] in s.blocks
    && if s.next[s.tailBlock] != s.frontBlock then s' == s.(ppc := LoadNextFront(s.ppc.v))
       else
           // allocating is not allowed, or fails
         || s' == s.(ppc := Ready, refused := Failed(s.ppc.seen))
         || (s.ppc.alloc && NewBlock(s, s', made, data))
  }

  ghost predicate NewBlock(s: State, s': State, made: Id, data: seq<Value>)
    requires s.ppc.LoadFrontBlock? && s.tailBlock in s.next
  {
    && var size := if s.largest >= s.max then s.largest else s.largest * 2;
    && made !in s.blocks && made !in s.next && |data| == size > 0 && data[0] == s.ppc.v
    && s' == s.(ppc := LinkNew(s.ppc.v, made), largest := size,
                blocks := s.blocks[made := Block(size, 0, 1, 0, 1, data)],
                next := s.next[made := s.next[s.tailBlock]])
  }

  ghost predicate ProduceNext(s: State, s': State)
  {
    && s.tailBlock in s.next && s.next[s.tailBlock] in s.blocks && s.blocks[s.next[s.tailBlock]].size > 0
    && var b := s.next[s.tailBlock];
    && var k := s.blocks[b];
    && (match s.ppc
        case LoadNextFront(v) => s' == SetBlock(s, b, k.(localFront := k.front)).(ppc := WriteNext(v))
        case WriteNext(v) =>
          && k.tail < |k.data|
          && s' == SetBlock(s, b, k.(data := k.data[k.tail := v])).(ppc := StoreNextTail(v))
        case StoreNextTail(v) =>
          s' == SetBlock(s, b, k.(tail := Succ(k.tail, k.size))).(ppc := StoreTailBlock(v))
        case StoreTailBlock(v) => s' == s.(ppc := Ready, tailBlock := b, enq := s.enq + [v])
        case LinkNew(v, nb) => s' == s.(ppc := StoreNewBlock(v, nb), next := s.next[s.tailBlock := nb])
        case StoreNewBlock(v, nb) => s' == s.(ppc := Ready, tailBlock := nb, enq := s.enq + [v])
        case _ => false)
  }

  ghost predicate Produce(s: State, s': State)
  {
    || (exists v, alloc :: Enqueue(s, s', v, alloc))
    || ProduceHere(s, s') || ProduceNext(s, s')
    || (exists b, data :: ProduceFull(s, s', b, data))
  }

  // ------------------------------------------------------------------------------------------
  // The consumer: try_dequeue (pop is the same without the value) and peek
  // ------------------------------------------------------------------------------------------

  ghost predicate Dequeue(s: State, s': State, peek: bool)
  {
    && s.cpc == Idle && s.frontBlock in s.blocks
    && var k := s.blocks[s.frontBlock];
    && s' == s.(cpc := if k.front != k.localTail then Read(peek) else LoadTail(peek))
  }

  ghost predicate ConsumeHere(s: State, s': State)
  {
    && s.frontBlock in s.blocks && s.blocks[s.frontBlock].size > 0
    && var k := s.blocks[s.frontBlock];
    && (match s.cpc
        case LoadTail(peek) =>
          s' == SetBlock(s, s.frontBlock, k.(localTail := k.tail))
                .(cpc := if k.front != k.tail then Read(peek) else LoadTailBlock(peek, Present(s)))
        case LoadTailBlock(peek, seen) =>
          s' == if s.frontBlock != s.tailBlock then s.(cpc := ReloadTail(peek))
                else s.(cpc := Idle, result := Failed(seen))
        case ReloadTail(peek) =>
          s' == SetBlock(s, s.frontBlock, k.(localTail := k.tail))
                .(cpc := if k.front != k.tail then Read(peek) else LoadNext(peek))
        case Read(peek) =>
          && k.front < |k.data|
          && s' == if peek then s.(cpc := Idle, result := Peeked(k.data[k.front]))
                   else s.(cpc := StoreFront(k.data[k.front]))
        case StoreFront(v) =>
          s' == SetBlock(s, s.frontBlock, k.(front := Succ(k.front, k.size)))
                .(cpc := Idle, deq := s.deq + [v], result := Got(v))
        case _ => false)
  }

  ghost predicate ConsumeNext(s: State, s': State)
  {
    match s.cpc
    case LoadNext(peek) =>
      s.frontBlock in s.next && s' == s.(cpc := LoadNextTail(peek, s.next[s.frontBlock]))
    case LoadNextTail(peek, b) =>
      && b in s.blocks
      && s' == if peek then s.(cpc := ReadNext(b))
               else SetBlock(s, b, s.blocks[b].(localTail := s.blocks[b].tail)).(cpc := StoreFrontBlock(b))
    case StoreFrontBlock(b) => s' == s.(cpc := Read(false), frontBlock := b)
    case ReadNext(b) =>
      && b in s.blocks && s.blocks[b].front < |s.blocks[b].data|
      && s' == s.(cpc := Idle, result := Peeked(s.blocks[b].data[s.blocks[b].front]))
    case _ => false
  }

  ghost predicate Consume(s: State, s': State)
  {
    (exists peek :: Dequeue(s, s', peek)) || ConsumeHere(s, s') || ConsumeNext(s, s')
  }

  ghost predicate Step(s: State, s': State) { Produce(s, s') || Consume(s, s') }

  ghost predicate IsRun(run: seq<State>)
  {
    && |run| > 0
    && Init(run[0])
    && forall i :: 0 <= i < |run| - 1 ==> Step(run[i], run[i + 1])
  }

  // ------------------------------------------------------------------------------------------
  // The invariant. Every block gets absolute counts F of reads and T of writes, of which its
  // indices are remainders, and the values between them; LF and LT are what the caches stand for.
  // ------------------------------------------------------------------------------------------

  datatype Cell = Cell(F: nat, T: nat, LF: nat, LT: nat, vals: seq<Value>)

  /** The ring from the front block on; the tail block is at position tb. */
  datatype Ghost = Ghost(order: seq<Id>, tb: nat, cells: map<Id, Cell>)

  ghost predicate BlockOk(k: Block, c: Cell)
  {
    && k.size >= 1 && |k.data| == k.size
    && c.F <= c.T <= c.F + k.size - 1
    && k.front == c.F % k.size && k.tail == c.T % k.size
    && |c.vals| == c.T - c.F
    && forall i | 0 <= i < |c.vals| :: k.data[(c.F + i) % k.size] == c.vals[i]
  }

  ghost predicate Blocks(blocks: map<Id, Block>, cells: map<Id, Cell>)
  {
    blocks.Keys == cells.Keys && forall b | b in blocks :: BlockOk(blocks[b], cells[b])
  }

  ghost predicate Ring(order: seq<Id>, next: map<Id, Id>, keys: set<Id>)
  {
    && |order| > 0
    && (forall i, j | 0 <= i < j < |order| :: order[i] != order[j])
    && (forall i | 0 <= i < |order| :: order[i] in keys && order[i] in next)
    && (forall i | 0 <= i < |order| - 1 :: next[order[i]] == order[i + 1])
    && next[order[|order| - 1]] == order[0]
  }

  /** The front block's cached tail lies between its front and its tail. */
  predicate ReaderCache(k: Block, c: Cell)
  {
    k.size >= 1 && k.localTail == c.LT % k.size && c.F <= c.LT <= c.T
  }

  /** The tail block's cached front is a front of the past that still leaves the written part apart. */
  predicate WriterCache(k: Block, c: Cell)
  {
    k.size >= 1 && k.localFront == c.LF % k.size && c.LF <= c.F && c.T <= c.LF + k.size - 1
  }

  /** Blocks after the front up to the tail hold something, those before the tail are full, those beyond are empty. */
  ghost predicate Fill(blocks: map<Id, Block>, g: Ghost, pending: bool)
  {
    && g.tb < |g.order| && blocks.Keys == g.cells.Keys
    && (forall i | 0 <= i < |g.order| :: g.order[i] in blocks)
    && (forall i | 1 <= i <= g.tb :: g.cells[g.order[i]].vals != [])
    && (forall i | 1 <= i < g.tb :: |g.cells[g.order[i]].vals| == blocks[g.order[i]].size - 1)
    && (forall i | g.tb < i < |g.order| && !(pending && i == g.tb + 1) :: g.cells[g.order[i]].vals == [])
  }

  /** The values queued in the given blocks. */
  ghost function Flat(order: seq<Id>, cells: map<Id, Cell>): seq<Value>
    requires forall b | b in order :: b in cells
  {
    if order == [] then [] else cells[order[0]].vals + Flat(order[1..], cells)
  }

  /** The producer has seen the tail block full; unless the consumer is in it, it still is. */
  predicate SeenFull(k: Block, c: Cell, tb: nat) { c.T == c.LF + k.size - 1 && (tb >= 1 ==> c.F == c.LF) }

  predicate Past(p: ProducerPc)
  {
    p.LoadFrontBlock? || p.LoadNextFront? || p.WriteNext? || p.StoreNextTail? || p.StoreTailBlock? || p.LinkNew?
      || p.StoreNewBlock?
  }

  /** The producer is filling the block ahead of the tail, which is not the front block. */
  predicate Ahead(p: ProducerPc)
  {
    p.LoadNextFront? || p.WriteNext? || p.StoreNextTail? || p.StoreTailBlock? || p.StoreNewBlock?
  }

  /** The block ahead already holds the element that is about to become visible. */
  predicate Filled(p: ProducerPc) { p.StoreTailBlock? || p.StoreNewBlock? }

  ghost predicate ProducerOk(p: ProducerPc, tail: Id, blocks: map<Id, Block>, next: map<Id, Id>, present: nat, g: Ghost)
  {
    && tail in blocks && tail in g.cells && blocks.Keys == g.cells.Keys
    && var k, c := blocks[tail], g.cells[tail];
    && WriterCache(k, c)
    && (p.Write? || p.StoreTail? ==> c.T < c.LF + k.size - 1)
    && (p.StoreTail? ==> k.tail < |k.data| && k.data[k.tail] == p.v)
    && (Past(p) ==> SeenFull(k, c, g.tb))
    && (p.LoadFrontBlock? ==> p.seen >= present && p.seen >= k.size - 1)
    && (Ahead(p) ==> g.tb + 1 < |g.order|)
    && (Ahead(p) && !p.LoadNextFront? ==> AheadOk(p, g.order[g.tb + 1], blocks, g.cells))
    && (p.LinkNew? ==> NewOk(p, tail, blocks, next, g))
  }

  /** The block being filled ahead of the tail. */
  ghost predicate AheadOk(p: ProducerPc, b: Id, blocks: map<Id, Block>, cells: map<Id, Cell>)
  {
    && b in blocks && b in cells && WriterCache(blocks[b], cells[b])
    && (if Filled(p) then cells[b].vals == [p.v] else cells[b].LF == cells[b].F)
    && (p.StoreNewBlock? ==> b == p.b)
    && (p.StoreNextTail? ==> blocks[b].tail < |blocks[b].data| && blocks[b].data[blocks[b].tail] == p.v)
  }

  /** A block made but not yet linked: off the ring, holding just the new element. */
  ghost predicate NewOk(p: ProducerPc, tail: Id, blocks: map<Id, Block>, next: map<Id, Id>, g: Ghost)
  {
    && p.LinkNew? && p.b in blocks && p.b in g.cells && p.b !in g.order
    && p.b in next && tail in next && next[p.b] == next[tail]
    && g.cells[p.b].vals == [p.v] && WriterCache(blocks[p.b], g.cells[p.b])
  }

  ghost predicate ConsumerOk(p: ConsumerPc, front: Id, blocks: map<Id, Block>, g: Ghost)
  {
    && front in blocks && front in g.cells && blocks.Keys == g.cells.Keys
    && var k, c := blocks[front], g.cells[front];
    && ReaderCache(k, c)
    && (p.Read? || p.StoreFront? ==> c.F < c.LT)
    && (p.StoreFront? ==> c.vals != [] && p.v == c.vals[0])
    && (p.LoadTailBlock? ==> (g.tb == 0 ==> p.seen == 0))
    && (p.ReloadTail? || Leaving(p) ==> g.tb >= 1)
    && (Leaving(p) ==> c.vals == [])
    && (p.LoadNextTail? || p.StoreFrontBlock? || p.ReadNext? ==> |g.order| > 1 && p.b == g.order[1])
    && (p.StoreFrontBlock? ==>
          && p.b in blocks && p.b in g.cells && ReaderCache(blocks[p.b], g.cells[p.b])
          && g.cells[p.b].F < g.cells[p.b].LT)
  }

  /** The consumer has found the front block empty for good. */
  predicate Leaving(p: ConsumerPc) { p.LoadNext? || p.LoadNextTail? || p.StoreFrontBlock? || p.ReadNext? }

  /** The ring has room for `cap` elements outside any one block, or every block has. */
  ghost predicate Capacity(cap: nat, max: nat, largest: nat, blocks: map<Id, Block>, n: nat)
  {
    && max >= 2
    && exists m: nat :: 2 <= m <= largest && MinSize(blocks, m) && Enough(cap, n, m)
  }

  predicate MinSize(blocks: map<Id, Block>, m: nat) { forall b | b in blocks :: blocks[b].size >= m }

  predicate Enough(cap: nat, n: nat, m: nat) { m - 1 >= cap || (n - 1) * (m - 1) >= cap }

  ghost predicate Good(s: State, g: Ghost)
  {
    && Blocks(s.blocks, g.cells)
    && Ring(g.order, s.next, s.blocks.Keys)
    && g.tb < |g.order| && s.frontBlock == g.order[0] && s.tailBlock == g.order[g.tb]
    && Fill(s.blocks, g, Filled(s.ppc))
    && ProducerOk(s.ppc, s.tailBlock, s.blocks, s.next, Present(s), g)
    && ConsumerOk(s.cpc, s.frontBlock, s.blocks, g)
    && s.enq == s.deq + Flat(g.order[..g.tb + 1], g.cells)
    && Capacity(s.cap, s.max, s.largest, s.blocks, |g.order|)
  }

  ghost predicate Inv(s: State) { exists g: Ghost :: Good(s, g) }

  // ------------------------------------------------------------------------------------------
  // One block as a circular buffer
  // ------------------------------------------------------------------------------------------

  /** The cached or loaded front shows room exactly when the block is not full against it. */
  lemma RoomOrFull(T: nat, LF: nat, size: nat)
    requires size >= 1 && LF <= T <= LF + size - 1
    ensures Succ(T % size, size) != LF % size <==> T < LF + size - 1
  {
    RemAdd(T, 1, size);
    if T < LF + size - 1 {
      RemDistinct(LF, T + 1, size);
    } else {
      RemCycle(LF, size);
    }
  }

  lemma EqualOrLess(F: nat, T: nat, size: nat)
    requires size >= 1 && F <= T <= F + size - 1
    ensures F % size == T % size <==> F == T
  {
    if F < T {
      RemDistinct(F, T, size);
    }
  }

  /** Writing behind the tail changes nothing that is queued. */
  lemma WriteBlock(k: Block, c: Cell, v: Value)
    requires BlockOk(k, c) && c.T < c.F + k.size - 1
    ensures k.tail < |k.data| && BlockOk(k.(data := k.data[k.tail := v]), c)
  {
    forall i | 0 <= i < |c.vals| ensures k.data[k.tail := v][(c.F + i) % k.size] == c.vals[i] {
      RemDistinct(c.F + i, c.T, k.size);
    }
  }

  lemma PushBlock(k: Block, c: Cell, v: Value)
    requires BlockOk(k, c) && c.T < c.F + k.size - 1 && k.data[k.tail] == v
    ensures BlockOk(k.(tail := Succ(k.tail, k.size)), c.(T := c.T + 1, vals := c.vals + [v]))
  {
    RemAdd(c.T, 1, k.size);
  }

  lemma PopBlock(k: Block, c: Cell)
    requires BlockOk(k, c) && c.vals != []
    ensures k.front < |k.data| && k.data[k.front] == c.vals[0]
    ensures BlockOk(k.(front := Succ(k.front, k.size)), c.(F := c.F + 1, vals := c.vals[1..]))
  {
    RemAdd(c.F, 1, k.size);
    assert (c.F + 0) % k.size == k.front;
    forall i | 0 <= i < |c.vals| - 1 ensures k.data[(c.F + 1 + i) % k.size] == c.vals[1..][i] {
      assert (c.F + (i + 1)) % k.size == (c.F + 1 + i) % k.size;
    }
  }

  // ------------------------------------------------------------------------------------------
  // The queue as the concatenation of its blocks
  // ------------------------------------------------------------------------------------------

  lemma {:induction false} FlatFrame(order: seq<Id>, cells: map<Id, Cell>, cells': map<Id, Cell>)
    requires forall b | b in order :: b in cells && b in cells' && cells'[b].vals == cells[b].vals
    ensures Flat(order, cells') == Flat(order, cells)
  {
    if order != [] {
      FlatFrame(order[1..], cells, cells');
    }
  }

  lemma {:induction false} FlatExtend(order: seq<Id>, b: Id, cells: map<Id, Cell>)
    requires b in cells && forall x | x in order :: x in cells
    ensures (forall x | x in order + [b] :: x in cells)
    ensures Flat(order + [b], cells) == Flat(order, cells) + cells[b].vals
  {
    if order == [] {
      assert [b][1..] == [];
      assert Flat([b], cells) == cells[b].vals + Flat([], cells);
      assert [] + [b] == [b];
    } else {
      assert (order + [b])[1..] == order[1..] + [b];
      FlatExtend(order[1..], b, cells);
    }
  }

  /** Appending to the last block appends to the queue. */
  lemma FlatPush(order: seq<Id>, cells: map<Id, Cell>, c: Cell, v: Value)
    requires order != [] && (forall b | b in order :: b in cells)
    requires forall i, j | 0 <= i < j < |order| :: order[i] != order[j]
    requires c.vals == cells[order[|order| - 1]].vals + [v]
    ensures Flat(order, cells[order[|order| - 1] := c]) == Flat(order, cells) + [v]
  {
    var n := |order| - 1;
    var b := order[n];
    assert order == order[..n] + [b];
    FlatExtend(order[..n], b, cells);
    FlatExtend(order[..n], b, cells[b := c]);
    FlatFrame(order[..n], cells, cells[b := c]);
  }

  /** Removing from the first block removes from the queue. */
  lemma FlatPop(order: seq<Id>, cells: map<Id, Cell>, c: Cell)
    requires order != [] && (forall b | b in order :: b in cells)
    requires forall i, j | 0 <= i < j < |order| :: order[i] != order[j]
    requires cells[order[0]].vals != [] && c.vals == cells[order[0]].vals[1..]
    ensures Flat(order, cells) == [cells[order[0]].vals[0]] + Flat(order, cells[order[0] := c])
  {
    var cells' := cells[order[0] := c];
    FlatFrame(order[1..], cells, cells');
    var first, rest := cells[order[0]].vals, Flat(order[1..], cells);
    assert Flat(order, cells) == first + rest && Flat(order, cells') == first[1..] + rest;
    assert first == [first[0]] + first[1..];
  }

  lemma {:induction false} FlatAtLeast(order: seq<Id>, cells: map<Id, Cell>, i: nat)
    requires i < |order| && forall b | b in order :: b in cells
    ensures |cells[order[i]].vals| <= |Flat(order, cells)|
  {
    if i > 0 {
      FlatAtLeast(order[1..], cells, i - 1);
    }
  }

  /** If every block holds at least q values, the queue holds at least q times their number. */
  lemma {:induction false} FlatFull(order: seq<Id>, cells: map<Id, Cell>, q: nat)
    requires forall b | b in order :: b in cells && |cells[b].vals| >= q
    ensures |Flat(order, cells)| >= |order| * q
  {
    if order != [] {
      FlatFull(order[1..], cells, q);
      assert |order| * q == q + (|order| - 1) * q;
    }
  }

  // ------------------------------------------------------------------------------------------
  // Frames
  // ------------------------------------------------------------------------------------------

  /** Everything but the positions of the two sides. */
  ghost predicate Queue(s: State, g: Ghost, pending: bool)
  {
    && Blocks(s.blocks, g.cells)
    && Ring(g.order, s.next, s.blocks.Keys)
    && g.tb < |g.order| && s.frontBlock == g.order[0] && s.tailBlock == g.order[g.tb]
    && Fill(s.blocks, g, pending)
    && s.enq == s.deq + Flat(g.order[..g.tb + 1], g.cells)
    && Capacity(s.cap, s.max, s.largest, s.blocks, |g.order|)
  }

  lemma GoodIsQueue(s: State, g: Ghost)
    requires Good(s, g)
    ensures Queue(s, g, Filled(s.ppc)) && s.blocks.Keys == g.cells.Keys
    ensures s.tailBlock in s.blocks && s.frontBlock in s.blocks
      && ProducerOk(s.ppc, s.tailBlock, s.blocks, s.next, Present(s), g) && ConsumerOk(s.cpc, s.frontBlock, s.blocks, g)
    ensures forall x | x in g.order[..g.tb + 1] :: x in g.cells
    ensures Present(s) == |Flat(g.order[..g.tb + 1], g.cells)|
    ensures (s.frontBlock == s.tailBlock <==> g.tb == 0) && (Leaving(s.cpc) ==> g.tb >= 1)
  {
    assert g.order[0] in s.blocks && g.order[g.tb] in s.blocks;
  }

  lemma QueueIsGood(s: State, g: Ghost)
    requires Queue(s, g, Filled(s.ppc)) && ProducerOk(s.ppc, s.tailBlock, s.blocks, s.next, Present(s), g)
      && ConsumerOk(s.cpc, s.frontBlock, s.blocks, g)
    ensures Good(s, g)
  {
  }

  /** A block changes without changing what it holds. */
  lemma TouchQueue(s: State, s': State, g: Ghost, pending: bool, b: Id, c: Cell)
    requires Queue(s, g, pending) && b in s.blocks && b in g.cells && b in s'.blocks
    requires s'.blocks == s.blocks[b := s'.blocks[b]] && BlockOk(s'.blocks[b], c)
    requires c.vals == g.cells[b].vals && s'.blocks[b].size == s.blocks[b].size
    requires s'.next == s.next && s'.frontBlock == s.frontBlock && s'.tailBlock == s.tailBlock
      && s'.largest == s.largest
    requires s'.enq == s.enq && s'.deq == s.deq && s'.cap == s.cap && s'.max == s.max
    ensures Queue(s', g.(cells := g.cells[b := c]), pending)
    ensures s'.blocks.Keys == g.cells[b := c].Keys
  {
    assert s'.blocks.Keys == s.blocks.Keys;
    hide Capacity, Blocks, Ring, BlockOk;
    TouchCapacity(s, s', b, |g.order|);
    TouchBlocks(s.blocks, g.cells, b, s'.blocks[b], c);
    TouchFill(s.blocks, s'.blocks, g, pending, b, c);
    FlatFrame(g.order[..g.tb + 1], g.cells, g.cells[b := c]);
  }

  lemma TouchBlocks(blocks: map<Id, Block>, cells: map<Id, Cell>, b: Id, k: Block, c: Cell)
    requires Blocks(blocks, cells) && BlockOk(k, c)
    ensures Blocks(blocks[b := k], cells[b := c])
  {
  }

  lemma TouchFill(blocks: map<Id, Block>, blocks': map<Id, Block>, g: Ghost, pending: bool, b: Id, c: Cell)
    requires Fill(blocks, g, pending) && b in blocks && b in blocks' && b in g.cells
    requires blocks' == blocks[b := blocks'[b]] && blocks'[b].size == blocks[b].size && c.vals == g.cells[b].vals
    ensures Fill(blocks', g.(cells := g.cells[b := c]), pending)
  {
  }

  lemma TouchCapacity(s: State, s': State, b: Id, n: nat)
    requires Capacity(s.cap, s.max, s.largest, s.blocks, n) && b in s.blocks && b in s'.blocks
    requires s'.blocks == s.blocks[b := s'.blocks[b]] && s'.blocks[b].size == s.blocks[b].size
    requires s'.largest == s.largest && s'.cap == s.cap && s'.max == s.max
    ensures Capacity(s'.cap, s'.max, s'.largest, s'.blocks, n)
  {
    var m: nat :| 2 <= m <= s.largest && MinSize(s.blocks, m) && Enough(s.cap, n, m);
    assert MinSize(s'.blocks, m);
  }

  // ------------------------------------------------------------------------------------------
  // Producer steps in the tail block
  // ------------------------------------------------------------------------------------------

  lemma EnqueueKeeps(s: State, s': State, v: Value, alloc: bool, g: Ghost)
    requires Good(s, g) && Enqueue(s, s', v, alloc)
    ensures Good(s', g)
  {
    hide Blocks, Ring, Fill, Flat, Capacity, Queue, BlockOk, ConsumerOk;
    GoodIsQueue(s, g);
    var k, c := s.blocks[s.tailBlock], g.cells[s.tailBlock];
    CellFacts(s, g, s.tailBlock);
    RoomOrFull(c.T, c.LF, k.size);
  }

  /** What the producer does to block b is out of the consumer's way. */
  lemma ConsumerFrame(p: ConsumerPc, front: Id, blocks: map<Id, Block>, g: Ghost, b: Id, k: Block, c: Cell)
    requires ConsumerOk(p, front, blocks, g) && b in blocks && (b == front ==> !Leaving(p) || c.vals == g.cells[b].vals)
    requires k.size == blocks[b].size && k.localTail == blocks[b].localTail
    requires c.F == g.cells[b].F && c.LT == g.cells[b].LT && c.T >= g.cells[b].T && g.cells[b].vals <= c.vals
    ensures ConsumerOk(p, front, blocks[b := k], g.(cells := g.cells[b := c]))
  {
  }

  lemma CellFacts(s: State, g: Ghost, b: Id)
    requires Blocks(s.blocks, g.cells) && b in s.blocks
    ensures b in g.cells && BlockOk(s.blocks[b], g.cells[b]) && s.blocks[b].size >= 1
    ensures g.cells[b].F <= g.cells[b].T <= g.cells[b].F + s.blocks[b].size - 1
    ensures |g.cells[b].vals| == g.cells[b].T - g.cells[b].F
    ensures s.blocks[b].front == g.cells[b].F % s.blocks[b].size && s.blocks[b].tail == g.cells[b].T % s.blocks[b].size
  {
  }

  lemma LoadFrontKeeps(s: State, s': State, v: Value, alloc: bool, g: Ghost)
    requires Good(s, g) && s.ppc == LoadFront(v, alloc) && ProduceHere(s, s')
    ensures Inv(s')
  {
    hide Blocks, Ring, Fill, Flat, Capacity, Queue, BlockOk, ConsumerOk;
    GoodIsQueue(s, g);
    CellFacts(s, g, s.tailBlock);
    var k, c := s.blocks[s.tailBlock], g.cells[s.tailBlock];
    var c' := c.(LF := c.F);
    RoomOrFull(c.T, c.F, k.size);
    CacheOk(k, c, k.(localFront := k.front), c');
    if c.T == c.F + k.size - 1 {
      TailCounts(s, g);
    }
    TouchQueue(s, s', g, false, s.tailBlock, c');
    ConsumerFrame(s.cpc, s.frontBlock, s.blocks, g, s.tailBlock, s'.blocks[s.tailBlock], c');
    QueueIsGood(s', g.(cells := g.cells[s.tailBlock := c']));
  }

  lemma CacheOk(k: Block, c: Cell, k': Block, c': Cell)
    requires BlockOk(k, c) && c'.F == c.F && c'.T == c.T && c'.vals == c.vals
    requires k' == k.(localFront := k'.localFront, localTail := k'.localTail)
    ensures BlockOk(k', c')
  {
    forall i | 0 <= i < |c'.vals| ensures k'.data[(c'.F + i) % k'.size] == c'.vals[i] {
      assert k.data[(c.F + i) % k.size] == c.vals[i];
    }
  }

  lemma TailCounts(s: State, g: Ghost)
    requires Queue(s, g, false)
    ensures s.tailBlock in g.cells && (forall b | b in g.order[..g.tb + 1] :: b in g.cells)
    ensures |g.cells[s.tailBlock].vals| <= |Flat(g.order[..g.tb + 1], g.cells)|
  {
    FlatAtLeast(g.order[..g.tb + 1], g.cells, g.tb);
  }

  lemma WriteKeeps(s: State, s': State, v: Value, g: Ghost)
    requires Good(s, g) && s.ppc == Write(v) && ProduceHere(s, s')
    ensures Inv(s')
  {
    hide Blocks, Ring, Fill, Flat, Capacity, Queue, BlockOk, ConsumerOk;
    GoodIsQueue(s, g);
    CellFacts(s, g, s.tailBlock);
    var k, c := s.blocks[s.tailBlock], g.cells[s.tailBlock];
    WriteBlock(k, c, v);
    TouchQueue(s, s', g, false, s.tailBlock, c);
    ConsumerFrame(s.cpc, s.frontBlock, s.blocks, g, s.tailBlock, s'.blocks[s.tailBlock], c);
    QueueIsGood(s', g.(cells := g.cells[s.tailBlock := c]));
  }

  /** Storing the tail makes the element visible at the end of the queue. */
  lemma StoreTailKeeps(s: State, s': State, v: Value, g: Ghost)
    requires Good(s, g) && s.ppc == StoreTail(v) && ProduceHere(s, s')
    ensures Inv(s')
  {
    hide Blocks, Ring, Fill, Flat, Capacity, Queue, BlockOk, ConsumerOk;
    GoodIsQueue(s, g);
    CellFacts(s, g, s.tailBlock);
    var k, c := s.blocks[s.tailBlock], g.cells[s.tailBlock];
    var c' := c.(T := c.T + 1, vals := c.vals + [v]);
    PushBlock(k, c, v);
    PushQueue(s, s', g, c', v);
    ConsumerFrame(s.cpc, s.frontBlock, s.blocks, g, s.tailBlock, s'.blocks[s.tailBlock], c');
    QueueIsGood(s', g.(cells := g.cells[s.tailBlock := c']));
  }

  lemma PushQueue(s: State, s': State, g: Ghost, c: Cell, v: Value)
    requires Queue(s, g, false) && s.tailBlock in s.blocks && s.tailBlock in g.cells && s.tailBlock in s'.blocks
    requires s'.blocks == s.blocks[s.tailBlock := s'.blocks[s.tailBlock]] && BlockOk(s'.blocks[s.tailBlock], c)
    requires c.vals == g.cells[s.tailBlock].vals + [v] && s'.blocks[s.tailBlock].size == s.blocks[s.tailBlock].size
    requires s'.next == s.next && s'.frontBlock == s.frontBlock && s'.tailBlock == s.tailBlock
      && s'.largest == s.largest
    requires s'.enq == s.enq + [v] && s'.deq == s.deq && s'.cap == s.cap && s'.max == s.max
    ensures Queue(s', g.(cells := g.cells[s.tailBlock := c]), false)
    ensures s'.blocks.Keys == g.cells[s.tailBlock := c].Keys
  {
    hide Capacity, Blocks, BlockOk, Fill, Flat, Ring;
    assert s'.blocks.Keys == s.blocks.Keys;
    TouchCapacity(s, s', s.tailBlock, |g.order|);
    TouchBlocks(s.blocks, g.cells, s.tailBlock, s'.blocks[s.tailBlock], c);
    PushFlat(s, g, c, v);
    PushFill(s.blocks, s'.blocks, g, c);
  }

  lemma PushFlat(s: State, g: Ghost, c: Cell, v: Value)
    requires Blocks(s.blocks, g.cells) && Ring(g.order, s.next, s.blocks.Keys) && g.tb < |g.order|
      && s.tailBlock == g.order[g.tb]
    requires s.tailBlock in g.cells && c.vals == g.cells[s.tailBlock].vals + [v]
    ensures s.blocks.Keys == g.cells.Keys && (forall x | x in g.order[..g.tb + 1] :: x in g.cells)
    ensures Flat(g.order[..g.tb + 1], g.cells[s.tailBlock := c]) == Flat(g.order[..g.tb + 1], g.cells) + [v]
    ensures forall i, j | 0 <= i < j < |g.order| :: g.order[i] != g.order[j]
  {
    hide BlockOk, Flat;
    var active := g.order[..g.tb + 1];
    assert active[|active| - 1] == s.tailBlock;
    FlatPush(active, g.cells, c, v);
  }

  lemma PushFill(blocks: map<Id, Block>, blocks': map<Id, Block>, g: Ghost, c: Cell)
    requires Fill(blocks, g, false) && forall i, j | 0 <= i < j < |g.order| :: g.order[i] != g.order[j]
    requires var b := g.order[g.tb];
      b in blocks' && blocks' == blocks[b := blocks'[b]] && blocks'[b].size == blocks[b].size && c.vals != []
    ensures Fill(blocks', g.(cells := g.cells[g.order[g.tb] := c]), false)
  {
  }

  // ------------------------------------------------------------------------------------------
  // Producer steps beyond the tail block
  // ------------------------------------------------------------------------------------------

  /** The block after the tail block, if it is not the front block, is the next on the ring. */
  lemma NextOfTail(order: seq<Id>, tb: nat, next: map<Id, Id>, keys: set<Id>)
    requires Ring(order, next, keys) && tb < |order|
    ensures order[tb] in next
    ensures next[order[tb]] == (if tb + 1 < |order| then order[tb + 1] else order[0])
    ensures next[order[tb]] != order[0] <==> tb + 1 < |order|
  {
  }

  lemma FullKeeps(s: State, s': State, b: Id, data: seq<Value>, g: Ghost)
    requires Good(s, g) && ProduceFull(s, s', b, data)
    ensures Inv(s')
  {
    hide Blocks, Ring, Fill, Flat, Capacity, Queue, BlockOk, ConsumerOk;
    GoodIsQueue(s, g);
    NextOfTail(g.order, g.tb, s.next, s.blocks.Keys);
    if s'.ppc.LinkNew? {
      hide ProducerOk;
      NewBlockKeeps(s, s', b, data, g);
    } else {
      assert Good(s', g);
    }
  }

  lemma NewBlockKeeps(s: State, s': State, b: Id, data: seq<Value>, g: Ghost)
    requires Good(s, g) && ProduceFull(s, s', b, data) && s'.ppc.LinkNew?
    ensures Inv(s')
  {
    hide Blocks, Ring, Fill, Flat, Queue, BlockOk, ConsumerOk, ProducerOk, Capacity;
    GoodIsQueue(s, g);
    var v, k := s.ppc.v, s'.blocks[b];
    var c := Cell(0, 1, 0, 1, [v]);
    NewCapacity(s, s', b, |g.order|);
    NewBlockOk(k, v);
    TouchBlocks(s.blocks, g.cells, b, k, c);
    NewRing(g.order, s.next, s.blocks.Keys, b, s.next[s.tailBlock]);
    assert s'.blocks.Keys == s.blocks.Keys + {b};
    NewFill(s, s', b, g, c);
    ConsumerNew(s.cpc, s.frontBlock, s.blocks, g, b, k, c);
    NewProducer(s.ppc, s.tailBlock, s.blocks, s.next, Present(s), g, b, k, c);
    NewFlat(s, g, b, c);
    assert Good(s', g.(cells := g.cells[b := c]));
  }

  lemma NewFlat(s: State, g: Ghost, b: Id, c: Cell)
    requires Ring(g.order, s.next, s.blocks.Keys) && g.tb < |g.order| && s.blocks.Keys == g.cells.Keys && b !in s.blocks
    ensures (forall x | x in g.order[..g.tb + 1] :: x in g.cells && x in g.cells[b := c])
    ensures Flat(g.order[..g.tb + 1], g.cells[b := c]) == Flat(g.order[..g.tb + 1], g.cells)
  {
    FlatFrame(g.order[..g.tb + 1], g.cells, g.cells[b := c]);
  }

  lemma NewBlockOk(k: Block, v: Value)
    requires k.size >= 2 && |k.data| == k.size && k.front == 0 && k.tail == 1 && k.data[0] == v
    ensures BlockOk(k, Cell(0, 1, 0, 1, [v]))
  {
    RemSmall(0, k.size);
    RemSmall(1, k.size);
  }

  /** A new block is as large as the smallest, and more blocks never lower the capacity. */
  lemma NewCapacity(s: State, s': State, b: Id, n: nat)
    requires Capacity(s.cap, s.max, s.largest, s.blocks, n) && n >= 1 && b in s'.blocks && s'.cap == s.cap
      && s'.max == s.max
    requires s'.blocks == s.blocks[b := s'.blocks[b]] && s'.blocks[b].size == s'.largest
    requires s'.largest == if s.largest >= s.max then s.largest else s.largest * 2
    ensures Capacity(s'.cap, s'.max, s'.largest, s'.blocks, n) && s'.largest >= 2
  {
    var m: nat :| 2 <= m <= s.largest && MinSize(s.blocks, m) && Enough(s.cap, n, m);
    assert MinSize(s'.blocks, m) && 2 <= m <= s'.largest;
  }

  lemma NewRing(order: seq<Id>, next: map<Id, Id>, keys: set<Id>, b: Id, x: Id)
    requires Ring(order, next, keys) && b !in keys
    ensures Ring(order, next[b := x], keys + {b}) && b !in order
  {
  }

  lemma NewFill(s: State, s': State, b: Id, g: Ghost, c: Cell)
    requires Fill(s.blocks, g, false) && b !in s.blocks && b in s'.blocks && s'.blocks == s.blocks[b := s'.blocks[b]]
    ensures Fill(s'.blocks, g.(cells := g.cells[b := c]), false)
  {
  }

  lemma ConsumerNew(p: ConsumerPc, front: Id, blocks: map<Id, Block>, g: Ghost, b: Id, k: Block, c: Cell)
    requires ConsumerOk(p, front, blocks, g) && b !in blocks
    ensures ConsumerOk(p, front, blocks[b := k], g.(cells := g.cells[b := c]))
  {
  }

  lemma NewProducer(p: ProducerPc, tail: Id, blocks: map<Id, Block>, next: map<Id, Id>, present: nat, g: Ghost, b: Id,
      k: Block, c: Cell)
    requires ProducerOk(p, tail, blocks, next, present, g) && p.LoadFrontBlock? && tail in next
    requires b !in blocks && b !in g.order && k.size >= 2 && c == Cell(0, 1, 0, 1, [p.v]) && k.localFront == 0
    ensures ProducerOk(LinkNew(p.v, b), tail, blocks[b := k], next[b := next[tail]], present,
      g.(cells := g.cells[b := c]))
  {
    RemSmall(0, k.size);
  }

  /** The free block ahead: empty, on the ring, neither the front nor the tail block. */
  lemma AheadFacts(s: State, g: Ghost)
    requires Good(s, g) && Ahead(s.ppc)
    ensures g.tb + 1 < |g.order| && s.tailBlock in s.next
    ensures var b := g.order[g.tb + 1];
      && s.next[s.tailBlock] == b && b in s.blocks && b in g.cells && b != s.tailBlock && b != s.frontBlock
      && BlockOk(s.blocks[b], g.cells[b]) && s.blocks[b].size >= 2
      && (!Filled(s.ppc) ==> g.cells[b].vals == [] && g.cells[b].T == g.cells[b].F)
      && b !in g.order[..g.tb + 1]
  {
    hide Flat, ConsumerOk;
    NextOfTail(g.order, g.tb, s.next, s.blocks.Keys);
    assert g.order[g.tb + 1] in s.blocks;
  }

  lemma LoadNextFrontKeeps(s: State, s': State, v: Value, g: Ghost)
    requires Good(s, g) && s.ppc == LoadNextFront(v) && ProduceNext(s, s')
    ensures Inv(s')
  {
    hide Blocks, Ring, Fill, Flat, Capacity, Queue, BlockOk, ConsumerOk;
    GoodIsQueue(s, g);
    AheadFacts(s, g);
    var b := g.order[g.tb + 1];
    CellFacts(s, g, b);
    var k, c := s.blocks[b], g.cells[b];
    var c' := c.(LF := c.F);
    CacheOk(k, c, k.(localFront := k.front), c');
    TouchQueue(s, s', g, false, b, c');
    ConsumerFrame(s.cpc, s.frontBlock, s.blocks, g, b, s'.blocks[b], c');
    QueueIsGood(s', g.(cells := g.cells[b := c']));
  }

  lemma WriteNextKeeps(s: State, s': State, v: Value, g: Ghost)
    requires Good(s, g) && s.ppc == WriteNext(v) && ProduceNext(s, s')
    ensures Inv(s')
  {
    hide Blocks, Ring, Fill, Flat, Capacity, Queue, BlockOk, ConsumerOk;
    GoodIsQueue(s, g);
    AheadFacts(s, g);
    var b := g.order[g.tb + 1];
    CellFacts(s, g, b);
    var k, c := s.blocks[b], g.cells[b];
    WriteBlock(k, c, v);
    TouchQueue(s, s', g, false, b, c);
    ConsumerFrame(s.cpc, s.frontBlock, s.blocks, g, b, s'.blocks[b], c);
    QueueIsGood(s', g.(cells := g.cells[b := c]));
  }

  lemma StoreNextTailKeeps(s: State, s': State, v: Value, g: Ghost)
    requires Good(s, g) && s.ppc == StoreNextTail(v) && ProduceNext(s, s')
    ensures Inv(s')
  {
    hide Blocks, Ring, Fill, Flat, Capacity, Queue, BlockOk, ConsumerOk;
    GoodIsQueue(s, g);
    AheadFacts(s, g);
    var b := g.order[g.tb + 1];
    CellFacts(s, g, b);
    var k, c := s.blocks[b], g.cells[b];
    var c' := c.(T := c.T + 1, vals := c.vals + [v]);
    PushBlock(k, c, v);
    PrepareQueue(s, s', g, b, c');
    ConsumerFrame(s.cpc, s.frontBlock, s.blocks, g, b, s'.blocks[b], c');
    QueueIsGood(s', g.(cells := g.cells[b := c']));
  }

  lemma PrepareQueue(s: State, s': State, g: Ghost, b: Id, c: Cell)
    requires Queue(s, g, false) && g.tb + 1 < |g.order| && b == g.order[g.tb + 1] && b in s'.blocks
    requires b in s.blocks && s'.blocks == s.blocks[b := s'.blocks[b]] && BlockOk(s'.blocks[b], c)
    requires s'.blocks[b].size == s.blocks[b].size && b !in g.order[..g.tb + 1]
    requires s'.next == s.next && s'.frontBlock == s.frontBlock && s'.tailBlock == s.tailBlock
      && s'.largest == s.largest
    requires s'.enq == s.enq && s'.deq == s.deq && s'.cap == s.cap && s'.max == s.max
    ensures Queue(s', g.(cells := g.cells[b := c]), true)
  {
    assert s'.blocks.Keys == s.blocks.Keys;
    PrepareFill(s.blocks, s'.blocks, g, b, c);
    hide Capacity, Blocks, Ring, BlockOk, Fill;
    TouchCapacity(s, s', b, |g.order|);
    TouchBlocks(s.blocks, g.cells, b, s'.blocks[b], c);
    FlatFrame(g.order[..g.tb + 1], g.cells, g.cells[b := c]);
  }

  lemma PrepareFill(blocks: map<Id, Block>, blocks': map<Id, Block>, g: Ghost, b: Id, c: Cell)
    requires Fill(blocks, g, false) && g.tb + 1 < |g.order| && b == g.order[g.tb + 1] && b !in g.order[..g.tb + 1]
    requires b in blocks && b in blocks' && blocks' == blocks[b := blocks'[b]] && blocks'[b].size == blocks[b].size
    requires forall i, j | 0 <= i < j < |g.order| :: g.order[i] != g.order[j]
    ensures Fill(blocks', g.(cells := g.cells[b := c]), true)
  {
    forall i | 1 <= i <= g.tb ensures g.order[i] != b {
      assert g.order[i] == g.order[..g.tb + 1][i];
    }
  }

  /** Storing tailBlock makes the element in the block ahead visible, and leaves a full block behind. */
  lemma AdvanceTailKeeps(s: State, s': State, v: Value, g: Ghost)
    requires Good(s, g) && (s.ppc == StoreTailBlock(v) || (s.ppc.StoreNewBlock? && s.ppc.v == v)) && ProduceNext(s, s')
    ensures Inv(s')
  {
    hide Blocks, Ring, Fill, Flat, Capacity, Queue, BlockOk, ConsumerOk;
    GoodIsQueue(s, g);
    AheadFacts(s, g);
    var g' := g.(tb := g.tb + 1);
    assert s'.tailBlock == g'.order[g'.tb];
    AdvanceQueue(s, s', g, v);
    AdvanceConsumer(s.cpc, s.frontBlock, s.blocks, g);
    QueueIsGood(s', g');
  }

  lemma AdvanceConsumer(p: ConsumerPc, front: Id, blocks: map<Id, Block>, g: Ghost)
    requires ConsumerOk(p, front, blocks, g)
    ensures ConsumerOk(p, front, blocks, g.(tb := g.tb + 1))
  {
  }

  lemma AdvanceQueue(s: State, s': State, g: Ghost, v: Value)
    requires Queue(s, g, true) && s.tailBlock in s.blocks && s.tailBlock in g.cells
    requires SeenFull(s.blocks[s.tailBlock], g.cells[s.tailBlock], g.tb)
    requires g.tb + 1 < |g.order| && g.order[g.tb + 1] in g.cells && g.cells[g.order[g.tb + 1]].vals == [v]
    requires s' == s.(ppc := Ready, tailBlock := g.order[g.tb + 1], enq := s.enq + [v])
    ensures Queue(s', g.(tb := g.tb + 1), false)
  {
    assert BlockOk(s.blocks[s.tailBlock], g.cells[s.tailBlock]);
    assert g.tb >= 1 ==> |g.cells[s.tailBlock].vals| == s.blocks[s.tailBlock].size - 1;
    hide Capacity, Blocks, Ring, BlockOk;
    FlatExtend(g.order[..g.tb + 1], g.order[g.tb + 1], g.cells);
    assert g.order[..g.tb + 1] + [g.order[g.tb + 1]] == g.order[..g.tb + 2];
  }

  /** Linking a new block after the tail block. */
  lemma LinkNewKeeps(s: State, s': State, v: Value, b: Id, g: Ghost)
    requires Good(s, g) && s.ppc == LinkNew(v, b) && ProduceNext(s, s')
    ensures Inv(s')
  {
    hide Blocks, Ring, Fill, Flat, Capacity, Queue, BlockOk, ConsumerOk;
    GoodIsQueue(s, g);
    var order' := g.order[..g.tb + 1] + [b] + g.order[g.tb + 1..];
    var g' := g.(order := order');
    LinkRing(g.order, g.tb, s.next, s.blocks.Keys, b);
    LinkFill(s.blocks, g, b);
    LinkCapacity(s, |g.order|);
    LinkConsumer(s.cpc, s.frontBlock, s.blocks, g, b);
    assert order'[..g.tb + 1] == g.order[..g.tb + 1];
    assert order'[g.tb + 1] == b;
    assert Good(s', g');
  }

  /** The ring with b inserted after position tb. */
  function Spliced(order: seq<Id>, tb: nat, b: Id): seq<Id>
    requires tb < |order|
  {
    order[..tb + 1] + [b] + order[tb + 1..]
  }

  lemma SplicedAt(order: seq<Id>, tb: nat, b: Id, i: nat)
    requires tb < |order| && i <= |order|
    ensures |Spliced(order, tb, b)| == |order| + 1
    ensures Spliced(order, tb, b)[i] == if i <= tb then order[i] else if i == tb + 1 then b else order[i - 1]
  {
  }

  lemma SplicedDistinct(order: seq<Id>, tb: nat, b: Id, i: nat, j: nat)
    requires tb < |order| && b !in order && i < j <= |order|
    requires forall m, n | 0 <= m < n < |order| :: order[m] != order[n]
    ensures |Spliced(order, tb, b)| == |order| + 1 && Spliced(order, tb, b)[i] != Spliced(order, tb, b)[j]
  {
    hide Spliced;
    SplicedAt(order, tb, b, i);
    SplicedAt(order, tb, b, j);
  }

  lemma SplicedNext(order: seq<Id>, tb: nat, next: map<Id, Id>, keys: set<Id>, b: Id, i: nat)
    requires Ring(order, next, keys) && tb < |order| && b in keys && b !in order && b in next
      && next[b] == next[order[tb]] && i <= |order|
    ensures var order', next' := Spliced(order, tb, b), next[order[tb] := b];
      && |order'| == |order| + 1 && order'[i] in keys && order'[i] in next'
      && next'[order'[i]] == order'[if i < |order| then i + 1 else 0]
  {
    hide Spliced;
    SplicedAt(order, tb, b, i);
    SplicedAt(order, tb, b, if i < |order| then i + 1 else 0);
  }

  lemma LinkRing(order: seq<Id>, tb: nat, next: map<Id, Id>, keys: set<Id>, b: Id)
    requires Ring(order, next, keys) && tb < |order| && b in keys && b !in order && b in next
      && next[b] == next[order[tb]]
    ensures Ring(order[..tb + 1] + [b] + order[tb + 1..], next[order[tb] := b], keys)
  {
    var order', next' := Spliced(order, tb, b), next[order[tb] := b];
    assert order' == order[..tb + 1] + [b] + order[tb + 1..] && |order'| == |order| + 1;
    hide Spliced;
    forall i | 0 <= i < |order'|
      ensures order'[i] in keys && order'[i] in next' && next'[order'[i]] == order'[if i < |order| then i + 1 else 0]
    {
      SplicedNext(order, tb, next, keys, b, i);
    }
    forall i, j | 0 <= i < j < |order'| ensures order'[i] != order'[j] {
      SplicedDistinct(order, tb, b, i, j);
    }
  }

  lemma LinkFill(blocks: map<Id, Block>, g: Ghost, b: Id)
    requires Fill(blocks, g, false) && b in blocks
    ensures Fill(blocks, g.(order := g.order[..g.tb + 1] + [b] + g.order[g.tb + 1..]), true)
  {
  }

  lemma LinkCapacity(s: State, n: nat)
    requires Capacity(s.cap, s.max, s.largest, s.blocks, n) && n >= 1
    ensures Capacity(s.cap, s.max, s.largest, s.blocks, n + 1)
  {
    var m: nat :| 2 <= m <= s.largest && MinSize(s.blocks, m) && Enough(s.cap, n, m);
    assert n * (m - 1) == (n - 1) * (m - 1) + (m - 1);
    assert Enough(s.cap, n + 1, m);
  }

  lemma LinkConsumer(p: ConsumerPc, front: Id, blocks: map<Id, Block>, g: Ghost, b: Id)
    requires ConsumerOk(p, front, blocks, g) && g.tb < |g.order|
    ensures ConsumerOk(p, front, blocks, g.(order := g.order[..g.tb + 1] + [b] + g.order[g.tb + 1..]))
  {
  }

  lemma ProduceKeeps(s: State, s': State, g: Ghost)
    requires Good(s, g) && Produce(s, s')
    ensures Inv(s')
  {
    hide Good;
    if v, alloc :| Enqueue(s, s', v, alloc) {
      EnqueueKeeps(s, s', v, alloc, g);
    } else if b, data :| ProduceFull(s, s', b, data) {
      FullKeeps(s, s', b, data, g);
    } else {
      match s.ppc
      case LoadFront(v, alloc) => LoadFrontKeeps(s, s', v, alloc, g);
      case Write(v) => WriteKeeps(s, s', v, g);
      case StoreTail(v) => StoreTailKeeps(s, s', v, g);
      case LoadNextFront(v) => LoadNextFrontKeeps(s, s', v, g);
      case WriteNext(v) => WriteNextKeeps(s, s', v, g);
      case StoreNextTail(v) => StoreNextTailKeeps(s, s', v, g);
      case StoreTailBlock(v) => AdvanceTailKeeps(s, s', v, g);
      case LinkNew(v, b) => LinkNewKeeps(s, s', v, b, g);
      case StoreNewBlock(v, b) => AdvanceTailKeeps(s, s', v, g);
    }
  }

  // ------------------------------------------------------------------------------------------
  // Consumer steps
  // ------------------------------------------------------------------------------------------

  /** A new cached tail is none of the producer's business. */
  lemma CacheFrame(p: ProducerPc, tail: Id, blocks: map<Id, Block>, next: map<Id, Id>, present: nat, g: Ghost, b: Id,
      k: Block, c: Cell)
    requires ProducerOk(p, tail, blocks, next, present, g) && b in blocks
    requires k == blocks[b].(localTail := k.localTail) && c == g.cells[b].(LT := c.LT)
    ensures ProducerOk(p, tail, blocks[b := k], next, present, g.(cells := g.cells[b := c]))
  {
  }

  /** Reading from the front block does not disturb the producer, even in that block. */
  lemma PopFrame(p: ProducerPc, tail: Id, blocks: map<Id, Block>, next: map<Id, Id>, present: nat, g: Ghost, b: Id,
      k: Block, c: Cell)
    requires ProducerOk(p, tail, blocks, next, present, g) && b in blocks && present >= 1
    requires k == blocks[b].(front := k.front) && c.T == g.cells[b].T && c.LF == g.cells[b].LF && c.F >= g.cells[b].F
    requires b == tail ==> g.tb == 0
    requires Ahead(p) ==> b != g.order[g.tb + 1]
    requires p.LinkNew? ==> b != p.b
    ensures ProducerOk(p, tail, blocks[b := k], next, present - 1, g.(cells := g.cells[b := c]))
  {
  }

  lemma DequeueKeeps(s: State, s': State, peek: bool, g: Ghost)
    requires Good(s, g) && Dequeue(s, s', peek)
    ensures Good(s', g)
  {
    hide Blocks, Ring, Fill, Flat, Capacity, Queue, BlockOk, ProducerOk;
    GoodIsQueue(s, g);
    CellFacts(s, g, s.frontBlock);
    var k, c := s.blocks[s.frontBlock], g.cells[s.frontBlock];
    EqualOrLess(c.F, c.LT, k.size);
  }

  /** Loading the tail of the front block, for the first or the second time. */
  lemma LoadTailKeeps(s: State, s': State, g: Ghost)
    requires Good(s, g) && (s.cpc.LoadTail? || s.cpc.ReloadTail?) && ConsumeHere(s, s')
    ensures Inv(s')
  {
    hide Blocks, Ring, Fill, Flat, Capacity, Queue, BlockOk, ProducerOk, ConsumerOk, Succ;
    GoodIsQueue(s, g);
    var c := g.cells[s.frontBlock].(LT := g.cells[s.frontBlock].T);
    LoadTailConsumer(s, s', g, c);
    CacheKeeps(s, s', g, s.frontBlock, c);
  }

  /** Caching the tail of a block. */
  lemma CacheKeeps(s: State, s': State, g: Ghost, b: Id, c: Cell)
    requires Good(s, g) && b in s.blocks && b in g.cells && c == g.cells[b].(LT := g.cells[b].T)
    requires s' == SetBlock(s, b, s.blocks[b].(localTail := s.blocks[b].tail)).(cpc := s'.cpc)
    requires ConsumerOk(s'.cpc, s'.frontBlock, s'.blocks, g.(cells := g.cells[b := c]))
    ensures Inv(s')
  {
    hide Blocks, Ring, Fill, Flat, Capacity, Queue, BlockOk, ProducerOk, ConsumerOk;
    GoodIsQueue(s, g);
    CellFacts(s, g, b);
    var k := s.blocks[b].(localTail := s.blocks[b].tail);
    CacheOk(s.blocks[b], g.cells[b], k, c);
    TouchQueue(s, s', g, Filled(s.ppc), b, c);
    CacheFrame(s.ppc, s.tailBlock, s.blocks, s.next, Present(s), g, b, k, c);
    QueueIsGood(s', g.(cells := g.cells[b := c]));
  }

  lemma LoadTailConsumer(s: State, s': State, g: Ghost, c: Cell)
    requires Good(s, g) && (s.cpc.LoadTail? || s.cpc.ReloadTail?) && ConsumeHere(s, s')
    requires s.frontBlock in g.cells && c == g.cells[s.frontBlock].(LT := g.cells[s.frontBlock].T)
    ensures ConsumerOk(s'.cpc, s'.frontBlock, s'.blocks, g.(cells := g.cells[s.frontBlock := c]))
  {
    hide Blocks, Ring, Fill, Flat, Capacity, Queue, BlockOk, ProducerOk;
    GoodIsQueue(s, g);
    CellFacts(s, g, s.frontBlock);
    EqualOrLess(c.F, c.T, s.blocks[s.frontBlock].size);
    EmptyFront(s, g);
  }

  /** With one active block, the queue is what that block holds. */
  lemma EmptyFront(s: State, g: Ghost)
    requires Queue(s, g, Filled(s.ppc)) && s.frontBlock in g.cells
      && (forall x | x in g.order[..g.tb + 1] :: x in g.cells)
    ensures g.tb == 0 ==> |Flat(g.order[..g.tb + 1], g.cells)| == |g.cells[s.frontBlock].vals|
  {
    if g.tb == 0 {
      assert g.order[..1] == [s.frontBlock];
      assert [s.frontBlock][1..] == [];
    }
  }

  lemma LoadTailBlockKeeps(s: State, s': State, g: Ghost)
    requires Good(s, g) && s.cpc.LoadTailBlock? && ConsumeHere(s, s')
    ensures Good(s', g)
  {
    hide Blocks, Ring, Fill, Flat, Capacity, Queue, BlockOk, ProducerOk;
    GoodIsQueue(s, g);
  }

  lemma ReadKeeps(s: State, s': State, g: Ghost)
    requires Good(s, g) && s.cpc.Read? && ConsumeHere(s, s')
    ensures Good(s', g)
  {
    hide Blocks, Ring, Fill, Flat, Capacity, Queue, BlockOk, ProducerOk;
    GoodIsQueue(s, g);
    CellFacts(s, g, s.frontBlock);
    PopBlock(s.blocks[s.frontBlock], g.cells[s.frontBlock]);
  }

  /** Storing the front removes the first element of the queue. */
  lemma StoreFrontKeeps(s: State, s': State, v: Value, g: Ghost)
    requires Good(s, g) && s.cpc == StoreFront(v) && ConsumeHere(s, s')
    ensures Inv(s')
  {
    hide Blocks, Ring, Fill, Flat, Capacity, Queue, BlockOk, ProducerOk;
    GoodIsQueue(s, g);
    var b := s.frontBlock;
    CellFacts(s, g, b);
    var k, c := s.blocks[b], g.cells[b];
    var c' := c.(F := c.F + 1, vals := c.vals[1..]);
    PopBlock(k, c);
    PopQueue(s, s', g, c', v);
    FrontApart(s, g);
    PopFrame(s.ppc, s.tailBlock, s.blocks, s.next, Present(s), g, b, s'.blocks[b], c');
    QueueIsGood(s', g.(cells := g.cells[b := c']));
  }

  lemma FrontApart(s: State, g: Ghost)
    requires Good(s, g)
    ensures Ahead(s.ppc) ==> g.tb + 1 < |g.order| && s.frontBlock != g.order[g.tb + 1]
    ensures s.ppc.LinkNew? ==> s.frontBlock != s.ppc.b
  {
    hide Blocks, Fill, Flat, Capacity, BlockOk, ConsumerOk;
  }

  lemma PopQueue(s: State, s': State, g: Ghost, c: Cell, v: Value)
    requires Queue(s, g, Filled(s.ppc)) && s.blocks.Keys == g.cells.Keys && s.frontBlock in s.blocks
      && s.frontBlock in s'.blocks
    requires s'.blocks == s.blocks[s.frontBlock := s'.blocks[s.frontBlock]] && BlockOk(s'.blocks[s.frontBlock], c)
    requires g.cells[s.frontBlock].vals != [] && v == g.cells[s.frontBlock].vals[0]
      && c.vals == g.cells[s.frontBlock].vals[1..]
    requires s'.blocks[s.frontBlock].size == s.blocks[s.frontBlock].size
    requires s'.next == s.next && s'.frontBlock == s.frontBlock && s'.tailBlock == s.tailBlock
      && s'.largest == s.largest
    requires s'.enq == s.enq && s'.deq == s.deq + [v] && s'.cap == s.cap && s'.max == s.max
    ensures Queue(s', g.(cells := g.cells[s.frontBlock := c]), Filled(s.ppc))
    ensures Present(s') == Present(s) - 1
  {
    hide Capacity, Blocks, BlockOk, Fill, Flat, Ring;
    assert s'.blocks.Keys == s.blocks.Keys;
    TouchCapacity(s, s', s.frontBlock, |g.order|);
    TouchBlocks(s.blocks, g.cells, s.frontBlock, s'.blocks[s.frontBlock], c);
    PopFlat(s, g, c, v);
    PopFill(s.blocks, s'.blocks, g, Filled(s.ppc), c);
  }

  lemma PopFlat(s: State, g: Ghost, c: Cell, v: Value)
    requires s.blocks.Keys == g.cells.Keys && Ring(g.order, s.next, s.blocks.Keys) && g.tb < |g.order|
      && s.frontBlock == g.order[0]
    requires g.cells[s.frontBlock].vals != [] && v == g.cells[s.frontBlock].vals[0]
      && c.vals == g.cells[s.frontBlock].vals[1..]
    ensures forall x | x in g.order[..g.tb + 1] :: x in g.cells
    ensures Flat(g.order[..g.tb + 1], g.cells) == [v] + Flat(g.order[..g.tb + 1], g.cells[s.frontBlock := c])
    ensures forall i, j | 0 <= i < j < |g.order| :: g.order[i] != g.order[j]
  {
    var active := g.order[..g.tb + 1];
    assert active[0] == s.frontBlock;
    FlatPop(active, g.cells, c);
  }

  lemma PopFill(blocks: map<Id, Block>, blocks': map<Id, Block>, g: Ghost, pending: bool, c: Cell)
    requires Fill(blocks, g, pending) && forall i, j | 0 <= i < j < |g.order| :: g.order[i] != g.order[j]
    requires g.order[0] in blocks' && blocks' == blocks[g.order[0] := blocks'[g.order[0]]]
    requires blocks'[g.order[0]].size == blocks[g.order[0]].size
    ensures Fill(blocks', g.(cells := g.cells[g.order[0] := c]), pending)
  {
  }

  lemma LoadNextKeeps(s: State, s': State, g: Ghost)
    requires Good(s, g) && s.cpc.LoadNext? && ConsumeNext(s, s')
    ensures Good(s', g)
  {
    assert s.next[s.frontBlock] == g.order[1] && |g.order| > 1;
    hide Blocks, Ring, Fill, Flat, Capacity, Queue, BlockOk, ProducerOk;
  }

  /** The block the consumer moves to is not empty, as the code asserts. */
  lemma NextNotEmpty(s: State, g: Ghost)
    requires Good(s, g) && (s.cpc.LoadNextTail? || s.cpc.StoreFrontBlock? || s.cpc.ReadNext?)
    ensures var b := s.cpc.b;
      && b in s.blocks && b in g.cells && g.cells[b].vals != [] && s.blocks[b].front != s.blocks[b].tail
      && BlockOk(s.blocks[b], g.cells[b]) && b != s.frontBlock && g.order[0] != g.order[1]
  {
    hide Flat, Capacity, ProducerOk;
    var b := s.cpc.b;
    assert b == g.order[1] && BlockOk(s.blocks[b], g.cells[b]);
    EqualOrLess(g.cells[b].F, g.cells[b].T, s.blocks[b].size);
  }

  lemma LoadNextTailKeeps(s: State, s': State, g: Ghost)
    requires Good(s, g) && s.cpc.LoadNextTail? && ConsumeNext(s, s')
    ensures Inv(s')
  {
    hide Blocks, Ring, Fill, Flat, Capacity, Queue, BlockOk, ProducerOk;
    GoodIsQueue(s, g);
    NextNotEmpty(s, g);
    var b := s.cpc.b;
    CellFacts(s, g, b);
    if s.cpc.peek {
      assert Good(s', g);
    } else {
      var k, c := s.blocks[b], g.cells[b];
      var c' := c.(LT := c.T);
      CacheOk(k, c, k.(localTail := k.tail), c');
      TouchQueue(s, s', g, Filled(s.ppc), b, c');
      CacheFrame(s.ppc, s.tailBlock, s.blocks, s.next, Present(s), g, b, k.(localTail := k.tail), c');
      QueueIsGood(s', g.(cells := g.cells[b := c']));
    }
  }

  lemma ReadNextKeeps(s: State, s': State, g: Ghost)
    requires Good(s, g) && s.cpc.ReadNext? && ConsumeNext(s, s')
    ensures Good(s', g)
  {
    hide Blocks, Ring, Fill, Flat, Capacity, Queue, BlockOk, ProducerOk;
  }

  ghost function Rotated(g: Ghost): Ghost
    requires g.order != [] && g.tb >= 1
  {
    g.(order := g.order[1..] + [g.order[0]], tb := g.tb - 1)
  }

  /** Moving frontBlock on: the ring turns by one block, and the queue stays the same. */
  lemma StoreFrontBlockKeeps(s: State, s': State, b: Id, g: Ghost)
    requires Good(s, g) && s.cpc == StoreFrontBlock(b) && ConsumeNext(s, s')
    ensures Inv(s')
  {
    hide Blocks, Ring, Fill, Flat, Capacity, Queue, BlockOk, ProducerOk;
    GoodIsQueue(s, g);
    NextNotEmpty(s, g);
    FrontApart(s, g);
    var g' := Rotated(g);
    RotateRing(g.order, s.next, s.blocks.Keys);
    RotateFill(s.blocks, g, Filled(s.ppc));
    RotateFlat(g);
    RotateProducer(s.ppc, s.tailBlock, s.blocks, s.next, Present(s), g);
    assert g'.order[g'.tb] == g.order[g.tb] && g'.order[0] == b;
    assert Good(s', g');
  }

  lemma RotateRing(order: seq<Id>, next: map<Id, Id>, keys: set<Id>)
    requires Ring(order, next, keys) && |order| >= 2
    ensures Ring(order[1..] + [order[0]], next, keys)
  {
    var order' := order[1..] + [order[0]];
    forall i | 0 <= i < |order'| - 1 ensures next[order'[i]] == order'[i + 1] {
      assert order'[i] == order[i + 1];
    }
  }

  lemma RotateFill(blocks: map<Id, Block>, g: Ghost, pending: bool)
    requires Fill(blocks, g, pending) && g.tb >= 1 && g.order[0] in g.cells && g.cells[g.order[0]].vals == []
    requires pending ==> g.tb + 1 < |g.order|
    ensures Fill(blocks, Rotated(g), pending)
  {
    var g' := Rotated(g);
    forall i | 0 <= i < |g'.order| ensures g'.order[i] == (if i < |g.order| - 1 then g.order[i + 1] else g.order[0]) {
    }
  }

  lemma RotateFlat(g: Ghost)
    requires 1 <= g.tb < |g.order| && (forall x | x in g.order[..g.tb + 1] :: x in g.cells)
      && g.cells[g.order[0]].vals == []
    ensures forall x | x in Rotated(g).order[..Rotated(g).tb + 1] :: x in g.cells
    ensures Flat(Rotated(g).order[..Rotated(g).tb + 1], g.cells) == Flat(g.order[..g.tb + 1], g.cells)
  {
    assert Rotated(g).order[..g.tb] == g.order[..g.tb + 1][1..];
  }

  lemma RotateProducer(p: ProducerPc, tail: Id, blocks: map<Id, Block>, next: map<Id, Id>, present: nat, g: Ghost)
    requires ProducerOk(p, tail, blocks, next, present, g) && 1 <= g.tb < |g.order|
    ensures ProducerOk(p, tail, blocks, next, present, Rotated(g))
  {
    assert forall x :: x in Rotated(g).order <==> x in g.order;
    assert Ahead(p) ==> Rotated(g).order[g.tb] == g.order[g.tb + 1];
  }

  lemma ConsumeKeeps(s: State, s': State, g: Ghost)
    requires Good(s, g) && Consume(s, s')
    ensures Inv(s')
  {
    hide Good;
    if peek :| Dequeue(s, s', peek) {
      DequeueKeeps(s, s', peek, g);
    } else {
      match s.cpc
      case LoadTail(_) => LoadTailKeeps(s, s', g);
      case LoadTailBlock(_, _) => LoadTailBlockKeeps(s, s', g);
      case ReloadTail(_) => LoadTailKeeps(s, s', g);
      case LoadNext(_) => LoadNextKeeps(s, s', g);
      case LoadNextTail(_, _) => LoadNextTailKeeps(s, s', g);
      case StoreFrontBlock(b) => StoreFrontBlockKeeps(s, s', b, g);
      case Read(_) => ReadKeeps(s, s', g);
      case ReadNext(_) => ReadNextKeeps(s, s', g);
      case StoreFront(v) => StoreFrontKeeps(s, s', v, g);
    }
  }

  lemma StepKeeps(s: State, s': State)
    requires Inv(s) && Step(s, s')
    ensures Inv(s')
  {
    hide Good;
    var g :| Good(s, g);
    if Produce(s, s') {
      ProduceKeeps(s, s', g);
    } else {
      ConsumeKeeps(s, s', g);
    }
  }

  // ------------------------------------------------------------------------------------------
  // The constructor
  // ------------------------------------------------------------------------------------------

  /** The ceiling division leaves room for `cap` elements even when one block is set aside. */
  lemma InitialRoom(cap: nat, max: nat)
    requires max >= 2
    ensures InitialCount(cap, max) >= 1 && InitialSize(cap, max) >= 1
    ensures Enough(cap, InitialCount(cap, max), InitialSize(cap, max))
    ensures cap >= 1 ==> InitialSize(cap, max) >= 2
  {
    if CeilPow2(cap + 1) > 2 * max {
      var q, x := max - 1, cap + 2 * max - 3;
      var n := x / q;
      assert x == n * q + x % q;
      assert n * q >= cap + q;
      assert n >= 1;
      assert n * q == (n - 1) * q + q;
    }
  }

  /**
   * No more blocks than needed: one block that is large enough by itself, of at most twice the block
   * size; or else blocks of exactly the block size, of which one fewer would be too few.
   */
  lemma InitialLeast(cap: nat, max: nat)
    requires max >= 2
    ensures var n, size := InitialCount(cap, max), InitialSize(cap, max);
      if n == 1 then cap < size <= 2 * max && (cap >= 1 ==> size < 2 * (cap + 1))
      else cap >= max == size && n >= 2 && !Enough(cap, n - 1, size)
  {
    if CeilPow2(cap + 1) > 2 * max {
      CeilingIsLeast(cap, max - 1);
    }
  }

  lemma CeilingIsLeast(cap: nat, q: nat)
    requires q >= 1 && cap > q
    ensures var n := (cap + 2 * q - 1) / q; n >= 2 && (n - 2) * q < cap
  {
    var x := cap + 2 * q - 1;
    var n := x / q;
    assert x == n * q + x % q;
    assert n * q == (n - 2) * q + 2 * q;
  }

  function EmptyBlock(size: nat): Block { Block(size, 0, 0, 0, 0, seq(size, _ => 0)) }

  /** The constructor's loop: each new block is linked after the last and closes the ring. */
  method BuildRing(count: nat, size: nat) returns (blocks: map<Id, Block>, next: map<Id, Id>)
    requires count >= 1
    ensures forall b: nat :: b in blocks <==> b < count
    ensures next.Keys == blocks.Keys
    ensures forall b | b in blocks :: next[b] == Following(b, count)
    ensures forall b | b in blocks :: blocks[b] == EmptyBlock(size)
  {
    hide EmptyBlock;
    blocks, next := map[], map[];
    for i := 0 to count
      invariant forall b: nat :: b in blocks <==> b < i
      invariant next.Keys == blocks.Keys
      invariant forall b | b in blocks :: blocks[b] == EmptyBlock(size)
      invariant forall b | b in next :: next[b] == Following(b, i)
    {
      blocks := blocks[i := EmptyBlock(size)];
      if i > 0 {
        next := next[i - 1 := i];
      }
      next := next[i := 0];
    }
  }

  method Construct(cap: nat, max: nat) returns (s: State)
    requires max >= 2
    ensures Init(s) && s.cap == cap && s.max == max
  {
    InitialRoom(cap, max);
    var size := InitialSize(cap, max);
    var blocks, next := BuildRing(InitialCount(cap, max), size);
    s := State(cap, max, size, blocks, next, 0, 0, Ready, Idle, [], [], NoResult, NoResult);
  }

  ghost function InitialGhost(s: State): Ghost
    requires s.max >= 2
  {
    Ghost(seq(InitialCount(s.cap, s.max), i => i), 0, map b | b in s.blocks :: Cell(0, 0, 0, 0, []))
  }

  lemma InitBlocks(s: State)
    requires Init(s)
    ensures Blocks(s.blocks, InitialGhost(s).cells)
    ensures ConsumerOk(s.cpc, s.frontBlock, s.blocks, InitialGhost(s))
    ensures ProducerOk(s.ppc, s.tailBlock, s.blocks, s.next, Present(s), InitialGhost(s))
  {
    hide Ring, Flat, Capacity, Fill;
    InitialRoom(s.cap, s.max);
    RemSmall(0, InitialSize(s.cap, s.max));
    assert 0 in s.blocks;
  }

  lemma InitRing(s: State)
    requires Init(s)
    ensures Ring(InitialGhost(s).order, s.next, s.blocks.Keys) && Fill(s.blocks, InitialGhost(s), false)
  {
    hide InitialCount, InitialSize;
    var order := InitialGhost(s).order;
    assert forall i | 0 <= i < |order| :: order[i] == i;
    assert order[|order| - 1] in s.blocks;
  }

  lemma InitCapacity(s: State)
    requires Init(s) && s.cap >= 1
    ensures Capacity(s.cap, s.max, s.largest, s.blocks, |InitialGhost(s).order|)
  {
    InitialRoom(s.cap, s.max);
    var m := InitialSize(s.cap, s.max);
    assert MinSize(s.blocks, m);
  }

  lemma InitGood(s: State)
    requires Init(s) && s.cap >= 1
    ensures Good(s, InitialGhost(s))
  {
    var g := InitialGhost(s);
    InitBlocks(s);
    InitRing(s);
    InitCapacity(s);
    hide Ring, Capacity, Fill, Blocks, ProducerOk, ConsumerOk;
    assert g.order[..1] == [0];
    assert [0][1..] == [];
    assert Flat([0], g.cells) == g.cells[0].vals + Flat([], g.cells);
  }

  ghost predicate Reachable(s: State) { exists run :: IsRun(run) && run[|run| - 1] == s }

  lemma {:induction false} RunKeeps(run: seq<State>, i: nat)
    requires IsRun(run) && i < |run| && run[0].cap >= 1
    ensures Inv(run[i]) && run[i].cap == run[0].cap
  {
    hide Good;
    if i == 0 {
      InitGood(run[0]);
    } else {
      RunKeeps(run, i - 1);
      StepKeeps(run[i - 1], run[i]);
    }
  }

  // ------------------------------------------------------------------------------------------
  // What the queue promises
  // ------------------------------------------------------------------------------------------

  predicate Proper(k: Block) { k.size > 0 && |k.data| == k.size && k.front < k.size && k.tail < k.size }

  /** What lies between a block's front and tail. */
  function Contents(k: Block): seq<Value>
    requires Proper(k)
  {
    var n := if k.front <= k.tail then k.tail - k.front else k.tail + k.size - k.front;
    seq(n, i requires 0 <= i < n => k.data[(k.front + i) % k.size])
  }

  ghost function AllContents(order: seq<Id>, blocks: map<Id, Block>): seq<Value>
    requires forall b | b in order :: b in blocks && Proper(blocks[b])
  {
    if order == [] then [] else Contents(blocks[order[0]]) + AllContents(order[1..], blocks)
  }

  /**
   * The queue as the code lays it out, in the machine's own variables: `order` is the ring of next
   * pointers from the front block on. Blocks after the front block up to the tail block are not
   * empty, the rest are, and the elements in between are those enqueued and not yet dequeued.
   */
  ghost predicate Refines(s: State, order: seq<Id>, tb: nat)
  {
    && tb < |order| && order[0] == s.frontBlock && order[tb] == s.tailBlock
    && (forall b | b in order :: b in s.blocks && Proper(s.blocks[b]))
    && Ring(order, s.next, s.blocks.Keys)
    && (forall i | 1 <= i <= tb :: Contents(s.blocks[order[i]]) != [])
    && (forall i | tb < i < |order| && !(Filled(s.ppc) && i == tb + 1) :: Contents(s.blocks[order[i]]) == [])
    && s.enq == s.deq + AllContents(order[..tb + 1], s.blocks)
  }

  lemma BlockContents(k: Block, c: Cell)
    requires BlockOk(k, c)
    ensures Proper(k) && Contents(k) == c.vals
  {
    var n := c.T - c.F;
    RemAdd(c.F, n, k.size);
    if k.front + n < k.size {
      RemSmall(k.front + n, k.size);
    } else {
      RemCycle(k.front + n - k.size, k.size);
      RemSmall(k.front + n - k.size, k.size);
    }
    forall i | 0 <= i < n ensures k.data[(k.front + i) % k.size] == c.vals[i] {
      RemAdd(c.F, i, k.size);
    }
  }

  lemma {:induction false} FlatContents(order: seq<Id>, blocks: map<Id, Block>, cells: map<Id, Cell>)
    requires Blocks(blocks, cells) && forall b | b in order :: b in blocks
    ensures forall b | b in order :: Proper(blocks[b])
    ensures AllContents(order, blocks) == Flat(order, cells)
  {
    if order != [] {
      BlockContents(blocks[order[0]], cells[order[0]]);
      FlatContents(order[1..], blocks, cells);
    }
  }

  lemma GoodRefines(s: State, g: Ghost)
    requires Good(s, g)
    ensures Refines(s, g.order, g.tb)
  {
    hide ProducerOk, ConsumerOk, Capacity, BlockOk, Flat, AllContents, Contents, Proper;
    forall b | b in s.blocks ensures Proper(s.blocks[b]) && Contents(s.blocks[b]) == g.cells[b].vals {
      BlockContents(s.blocks[b], g.cells[b]);
    }
    FlatContents(g.order[..g.tb + 1], s.blocks, g.cells);
  }

  lemma ReachableInv(s: State)
    requires Reachable(s) && s.cap >= 1
    ensures Inv(s)
  {
    hide Inv;
    var run :| IsRun(run) && run[|run| - 1] == s;
    CapFixed(run, |run| - 1);
    RunKeeps(run, |run| - 1);
  }

  lemma {:induction false} CapFixed(run: seq<State>, i: nat)
    requires IsRun(run) && i < |run|
    ensures run[i].cap == run[0].cap
  {
    if i > 0 {
      CapFixed(run, i - 1);
      assert Step(run[i - 1], run[i]);
    }
  }

  /** Refinement: in every reachable state the queue is a plain sequence, and its blocks have the promised shape. */
  lemma RefinesSequence(s: State) returns (order: seq<Id>, tb: nat)
    requires Reachable(s) && s.cap >= 1
    ensures Refines(s, order, tb)
  {
    hide Good, Refines, Reachable;
    ReachableInv(s);
    var g :| Good(s, g);
    GoodRefines(s, g);
    order, tb := g.order, g.tb;
  }

  /** First in, first out: what has left is a prefix of what has entered. */
  lemma FirstInFirstOut(s: State)
    requires Reachable(s) && s.cap >= 1
    ensures s.deq <= s.enq
  {
    hide Reachable, AllContents, Contents, Proper, Ring;
    var order, tb := RefinesSequence(s);
  }

  // ------------------------------------------------------------------------------------------
  // The asserts in the code
  // ------------------------------------------------------------------------------------------

  /** The block the consumer moves or looks ahead to is not empty; the one the producer moves to is. */
  predicate AssertsHold(s: State)
  {
    && (s.cpc.LoadNextTail? || s.cpc.ReadNext? ==>
          s.cpc.b in s.blocks && s.blocks[s.cpc.b].front != s.blocks[s.cpc.b].tail)
    && (s.ppc.LoadNextFront? ==>
          && s.tailBlock in s.next && s.next[s.tailBlock] in s.blocks
          && s.blocks[s.next[s.tailBlock]].front == s.blocks[s.next[s.tailBlock]].tail)
  }

  lemma AssertsAlwaysHold(s: State)
    requires Reachable(s) && s.cap >= 1
    ensures AssertsHold(s)
  {
    hide Good, Reachable, BlockOk;
    ReachableInv(s);
    var g :| Good(s, g);
    if s.cpc.LoadNextTail? || s.cpc.ReadNext? {
      NextNotEmpty(s, g);
    }
    if s.ppc.LoadNextFront? {
      AheadFacts(s, g);
      AheadIndices(s, g);
    }
  }

  lemma AheadIndices(s: State, g: Ghost)
    requires Good(s, g) && s.ppc.LoadNextFront? && g.tb + 1 < |g.order|
    ensures var b := g.order[g.tb + 1]; b in s.blocks && s.blocks[b].front == s.blocks[b].tail
  {
    hide Ring, Flat, Capacity, ProducerOk, ConsumerOk;
    assert g.order[g.tb + 1] in s.blocks;
  }

  lemma ReachStep(s: State, s': State)
    requires Reachable(s) && Step(s, s')
    ensures Reachable(s')
  {
    hide Step, Init;
    var run :| IsRun(run) && run[|run| - 1] == s;
    var run' := run + [s'];
    forall i | 0 <= i < |run'| - 1 ensures Step(run'[i], run'[i + 1]) {
      if i < |run| - 1 {
        assert run'[i] == run[i] && run'[i + 1] == run[i + 1];
      }
    }
    assert IsRun(run') && run'[|run'| - 1] == s';
  }

  /** A queue built for no elements at all, once its first block, of size one, has got a second one. */
  function Zero(max: nat, k0: Block, k1: Block, front: Id, tail: Id, ppc: ProducerPc, cpc: ConsumerPc, enq: seq<Value>,
      deq: seq<Value>, result: Result): State
  {
    State(0, max, 2, map[0 := k0, 1 := k1], map[0 := 1, 1 := 0], front, tail, ppc, cpc, enq, deq, NoResult, result)
  }

  lemma ZeroInit(s: State)
    requires s.max >= 2
    requires s == State(0, s.max, 1, map[0 := Block(1, 0, 0, 0, 0, [0])], map[0 := 0], 0, 0, Ready, Idle, [], [],
      NoResult, NoResult)
    ensures Reachable(s)
  {
    assert Init(s);
    assert IsRun([s]) && [s][0] == s;
  }

  lemma ZeroFull(max: nat)
    requires max >= 2
    ensures Reachable(State(0, max, 1, map[0 := Block(1, 0, 0, 0, 0, [0])], map[0 := 0], 0, 0,
      LoadFrontBlock(7, true, 0), Idle, [], [], NoResult, NoResult))
  {
    hide Reachable, Init, ProduceFull, ProduceNext, Consume;
    var k0 := Block(1, 0, 0, 0, 0, [0]);
    var s0 := State(0, max, 1, map[0 := k0], map[0 := 0], 0, 0, Ready, Idle, [], [], NoResult, NoResult);
    ZeroInit(s0);
    var s1 := s0.(ppc := LoadFront(7, true));
    assert Enqueue(s0, s1, 7, true);
    ReachStep(s0, s1);
    var s2 := s1.(ppc := LoadFrontBlock(7, true, 0));
    assert map[0 := k0][0 := k0] == map[0 := k0];
    assert ProduceHere(s1, s2);
    ReachStep(s1, s2);
  }

  lemma ZeroFirst(max: nat)
    requires max >= 2
    ensures Reachable(Zero(max, Block(1, 0, 0, 0, 0, [0]), Block(2, 0, 1, 0, 1, [7, 0]), 0, 1, Ready, Idle, [7], [],
      NoResult))
  {
    hide Reachable, Init, Enqueue, ProduceHere, Consume;
    ZeroFull(max);
    var k0, k1 := Block(1, 0, 0, 0, 0, [0]), Block(2, 0, 1, 0, 1, [7, 0]);
    var s2 := State(0, max, 1, map[0 := k0], map[0 := 0], 0, 0, LoadFrontBlock(7, true, 0), Idle, [], [], NoResult,
        NoResult);
    var s3 := State(0, max, 2, map[0 := k0, 1 := k1], map[0 := 0, 1 := 0], 0, 0, LinkNew(7, 1), Idle, [], [], NoResult,
        NoResult);
    assert ProduceFull(s2, s3, 1, [7, 0]);
    ReachStep(s2, s3);
    var s4 := Zero(max, k0, k1, 0, 0, StoreNewBlock(7, 1), Idle, [], [], NoResult);
    assert ProduceNext(s3, s4);
    ReachStep(s3, s4);
    var s5 := Zero(max, k0, k1, 0, 1, Ready, Idle, [7], [], NoResult);
    assert ProduceNext(s4, s5);
    ReachStep(s4, s5);
  }

  /** The consumer goes on to the second block, up to reading the element there. */
  lemma ZeroAdvance(max: nat)
    requires max >= 2
    ensures Reachable(Zero(max, Block(1, 0, 0, 0, 0, [0]), Block(2, 0, 1, 0, 1, [7, 0]), 1, 1, Ready, Read(false), [7],
      [], NoResult))
  {
    hide Reachable;
    ZeroFirst(max);
    var k0, k1 := Block(1, 0, 0, 0, 0, [0]), Block(2, 0, 1, 0, 1, [7, 0]);
    var s0 := Zero(max, k0, k1, 0, 1, Ready, Idle, [7], [], NoResult);
    assert Dequeue(s0, s0.(cpc := LoadTail(false)), false);
    ReachStep(s0, s0.(cpc := LoadTail(false)));
    assert s0.blocks[0 := k0] == s0.blocks && s0.blocks[1 := k1] == s0.blocks;
    ReachStep(s0.(cpc := LoadTail(false)), s0.(cpc := LoadTailBlock(false, 1)));
    ReachStep(s0.(cpc := LoadTailBlock(false, 1)), s0.(cpc := ReloadTail(false)));
    ReachStep(s0.(cpc := ReloadTail(false)), s0.(cpc := LoadNext(false)));
    ReachStep(s0.(cpc := LoadNext(false)), s0.(cpc := LoadNextTail(false, 1)));
    ReachStep(s0.(cpc := LoadNextTail(false, 1)), s0.(cpc := StoreFrontBlock(1)));
    ReachStep(s0.(cpc := StoreFrontBlock(1)), s0.(cpc := Read(false), frontBlock := 1));
  }

  lemma ZeroAhead(max: nat)
    requires max >= 2
    ensures Reachable(Zero(max, Block(1, 0, 0, 0, 0, [0]), Block(2, 0, 1, 0, 1, [7, 0]), 1, 1, LoadNextFront(8),
      Read(false), [7], [], NoResult))
  {
    hide Reachable, ProduceNext, Consume;
    ZeroAdvance(max);
    var k0, k1 := Block(1, 0, 0, 0, 0, [0]), Block(2, 0, 1, 0, 1, [7, 0]);
    var s0 := Zero(max, k0, k1, 1, 1, Ready, Read(false), [7], [], NoResult);
    assert Enqueue(s0, s0.(ppc := LoadFront(8, false)), 8, false);
    ReachStep(s0, s0.(ppc := LoadFront(8, false)));
    assert s0.blocks[1 := k1] == s0.blocks;
    ReachStep(s0.(ppc := LoadFront(8, false)), s0.(ppc := LoadFrontBlock(8, false, 1)));
    assert ProduceFull(s0.(ppc := LoadFrontBlock(8, false, 1)), s0.(ppc := LoadNextFront(8)), 0, []);
    ReachStep(s0.(ppc := LoadFrontBlock(8, false, 1)), s0.(ppc := LoadNextFront(8)));
  }

  /** The next enqueue takes the block of size one for a free block, and its element disappears. */
  lemma ZeroSecond(max: nat)
    requires max >= 2
    ensures Reachable(Zero(max, Block(1, 0, 0, 0, 0, [8]), Block(2, 0, 1, 0, 1, [7, 0]), 1, 0, Ready, Read(false),
      [7, 8], [], NoResult))
  {
    hide Reachable, Enqueue, ProduceHere, ProduceFull, Consume;
    ZeroAhead(max);
    var k0, k1 := Block(1, 0, 0, 0, 0, [0]), Block(2, 0, 1, 0, 1, [7, 0]);
    var s0 := Zero(max, k0, k1, 1, 1, LoadNextFront(8), Read(false), [7], [], NoResult);
    assert s0.blocks[0 := k0] == s0.blocks;
    ReachStep(s0, s0.(ppc := WriteNext(8)));
    var s1 := Zero(max, k0.(data := [8]), k1, 1, 1, StoreNextTail(8), Read(false), [7], [], NoResult);
    assert [0][0 := 8] == [8];
    assert SetBlock(s0, 0, k0.(data := [8])).blocks == s1.blocks;
    ReachStep(s0.(ppc := WriteNext(8)), s1);
    assert s1.blocks[0 := k0.(data := [8])] == s1.blocks;
    ReachStep(s1, s1.(ppc := StoreTailBlock(8)));
    assert [7] + [8] == [7, 8];
    ReachStep(s1.(ppc := StoreTailBlock(8)), s1.(ppc := Ready, tailBlock := 0, enq := [7, 8]));
  }

  /** Built for no elements, the queue loses one, and the consumer's assert fails. */
  lemma AssertsFailAtZero(max: nat) returns (s: State)
    requires max >= 2
    ensures Reachable(s) && s.cap == 0 && s.max == max && !AssertsHold(s)
    ensures s.enq == [7, 8] && s.deq == [7] && forall b | b in s.blocks :: s.blocks[b].front == s.blocks[b].tail
  {
    hide Reachable;
    ZeroSecond(max);
    var k0, k1 := Block(1, 0, 0, 0, 0, [8]), Block(2, 0, 1, 0, 1, [7, 0]);
    var s0 := Zero(max, k0, k1, 1, 0, Ready, Read(false), [7, 8], [], NoResult);
    ReachStep(s0, s0.(cpc := StoreFront(7)));
    var k2 := k1.(front := 1);
    var s1 := Zero(max, k0, k2, 1, 0, Ready, Idle, [7, 8], [7], Got(7));
    assert SetBlock(s0, 1, k2).blocks == s1.blocks;
    assert [] + [7] == [7];
    ReachStep(s0.(cpc := StoreFront(7)), s1);
    assert Dequeue(s1, s1.(cpc := LoadTail(false)), false);
    ReachStep(s1, s1.(cpc := LoadTail(false)));
    assert s1.blocks[1 := k2] == s1.blocks;
    ReachStep(s1.(cpc := LoadTail(false)), s1.(cpc := LoadTailBlock(false, 1)));
    ReachStep(s1.(cpc := LoadTailBlock(false, 1)), s1.(cpc := ReloadTail(false)));
    ReachStep(s1.(cpc := ReloadTail(false)), s1.(cpc := LoadNext(false)));
    s := s1.(cpc := LoadNextTail(false, 0));
    ReachStep(s1.(cpc := LoadNext(false)), s);
  }

  /** The asserts hold in every run exactly when the queue is built for at least one element. */
  lemma AssertsHoldIff(cap: nat, max: nat)
    requires max >= 2
    ensures (forall s | Reachable(s) && s.cap == cap && s.max == max :: AssertsHold(s)) <==> cap >= 1
  {
    hide Reachable, AssertsHold;
    if cap == 0 {
      var s := AssertsFailAtZero(max);
    } else {
      forall s | Reachable(s) && s.cap == cap && s.max == max ensures AssertsHold(s) {
        AssertsAlwaysHold(s);
      }
    }
  }

  // ------------------------------------------------------------------------------------------
  // What calls return
  // ------------------------------------------------------------------------------------------

  /** Peek returns, and a dequeue removes, the oldest element of the queue. */
  lemma OldestIsReturned(s: State, s': State)
    requires Reachable(s) && s.cap >= 1 && Consume(s, s')
    ensures (s.cpc.Read? && s.cpc.peek) || s.cpc.ReadNext? ==> |s.deq| < |s.enq| && s'.result == Peeked(s.enq[|s.deq|])
    ensures s.cpc.StoreFront? ==>
      |s.deq| < |s.enq| && s'.result == Got(s.enq[|s.deq|]) && s'.deq == s.deq + [s.enq[|s.deq|]]
  {
    hide Good, Reachable;
    ReachableInv(s);
    var g :| Good(s, g);
    if s.cpc.Read? || s.cpc.StoreFront? {
      FirstInFront(s, g);
    } else if s.cpc.ReadNext? {
      FirstInNext(s, g);
    }
  }

  lemma FirstInFront(s: State, g: Ghost)
    requires Good(s, g) && (s.cpc.Read? || s.cpc.StoreFront?)
    ensures s.frontBlock in s.blocks && |s.deq| < |s.enq|
      && s.blocks[s.frontBlock].front < |s.blocks[s.frontBlock].data|
    ensures s.blocks[s.frontBlock].data[s.blocks[s.frontBlock].front] == s.enq[|s.deq|]
    ensures s.cpc.StoreFront? ==> s.cpc.v == s.enq[|s.deq|]
  {
    hide Blocks, Ring, Fill, Capacity, Queue, BlockOk, ProducerOk;
    GoodIsQueue(s, g);
    CellFacts(s, g, s.frontBlock);
    PopBlock(s.blocks[s.frontBlock], g.cells[s.frontBlock]);
    assert g.order[..g.tb + 1][0] == s.frontBlock;
  }

  lemma FirstInNext(s: State, g: Ghost)
    requires Good(s, g) && s.cpc.ReadNext?
    ensures s.cpc.b in s.blocks && |s.deq| < |s.enq| && s.blocks[s.cpc.b].front < |s.blocks[s.cpc.b].data|
    ensures s.blocks[s.cpc.b].data[s.blocks[s.cpc.b].front] == s.enq[|s.deq|]
  {
    hide Blocks, Ring, Fill, Capacity, Queue, BlockOk, ProducerOk;
    GoodIsQueue(s, g);
    NextNotEmpty(s, g);
    PopBlock(s.blocks[s.cpc.b], g.cells[s.cpc.b]);
    var active := g.order[..g.tb + 1];
    assert active[0] == s.frontBlock && active[1] == s.cpc.b && active[1..][0] == s.cpc.b;
  }

  lemma {:induction false} EnqGrows(run: seq<State>, i: nat, j: nat)
    requires IsRun(run) && i <= j < |run|
    ensures run[i].enq <= run[j].enq
  {
    hide Init, Step;
    if i < j {
      EnqGrows(run, i, j - 1);
      EnqStep(run[j - 1], run[j]);
    }
  }

  lemma EnqStep(s: State, s': State)
    requires Step(s, s')
    ensures s.enq <= s'.enq
  {
    if Produce(s, s') {
      hide Consume;
      ProduceGrows(s, s');
    } else {
      hide Produce;
    }
  }

  lemma ProduceGrows(s: State, s': State)
    requires Produce(s, s')
    ensures s.enq <= s'.enq
  {
  }

  /** What peek shows is what the next dequeue removes, whatever the producer does in between. */
  lemma PeekIsNextDequeue(run: seq<State>, i: nat, j: nat)
    requires IsRun(run) && run[0].cap >= 1 && i < j < |run| - 1
    requires ((run[i].cpc.Read? && run[i].cpc.peek) || run[i].cpc.ReadNext?) && Consume(run[i], run[i + 1])
    requires run[j].deq == run[i].deq && run[j].cpc.StoreFront? && Consume(run[j], run[j + 1])
    ensures run[i + 1].result.Peeked? && run[j + 1].result == Got(run[i + 1].result.v)
  {
    hide Consume, Produce, Init;
    RunReaches(run, i);
    RunReaches(run, j);
    CapFixed(run, i);
    CapFixed(run, j);
    OldestIsReturned(run[i], run[i + 1]);
    OldestIsReturned(run[j], run[j + 1]);
    EnqGrows(run, i, j);
  }

  lemma RunReaches(run: seq<State>, i: nat)
    requires IsRun(run) && i < |run|
    ensures Reachable(run[i])
  {
    hide Step, Init;
    var pre := run[..i + 1];
    assert IsRun(pre) && pre[|pre| - 1] == run[i];
  }

  /** A dequeue or a peek comes back empty only if the queue was empty at a moment during the call. */
  lemma EmptyWasEmpty(s: State, s': State)
    requires Reachable(s) && s.cap >= 1 && ConsumeHere(s, s') && s.cpc.LoadTailBlock? && s'.cpc == Idle
    ensures s'.result == Failed(0)
  {
    hide Reachable;
    ReachableInv(s);
    hide Blocks, Ring, Fill, Flat, Capacity, BlockOk, ProducerOk;
    var g :| Good(s, g);
    GoodIsQueue(s, g);
  }

  /**
   * The capacity guarantee: an enqueue that does not get a new block is refused only with `cap`
   * elements in the queue.
   */
  lemma RefusedWhenFull(s: State, s': State, b: Id, data: seq<Value>)
    requires Reachable(s) && ProduceFull(s, s', b, data) && s'.ppc == Ready
    ensures s'.refused.Failed? && s'.refused.seen >= s.cap
  {
    hide Reachable, Good;
    if s.cap >= 1 {
      ReachableInv(s);
      var g :| Good(s, g);
      SeenEnough(s, g);
    }
  }

  lemma SeenEnough(s: State, g: Ghost)
    requires Good(s, g) && s.ppc.LoadFrontBlock? && s.tailBlock in s.next && s.next[s.tailBlock] == s.frontBlock
    ensures s.ppc.seen >= s.cap
  {
    hide Blocks, Fill, Flat, Queue, BlockOk, ConsumerOk, Ring;
    GoodIsQueue(s, g);
    NextOfTail(g.order, g.tb, s.next, s.blocks.Keys);
    var m: nat :| 2 <= m <= s.largest && MinSize(s.blocks, m) && Enough(s.cap, |g.order|, m);
    assert s.ppc.seen >= m - 1;
    if m - 1 < s.cap {
      CellFacts(s, g, s.tailBlock);
      FullRing(s, g, m - 1);
    }
  }

  /** With the tail block just behind the front block, every block but the front block is full. */
  lemma FullRing(s: State, g: Ghost, q: nat)
    requires Blocks(s.blocks, g.cells) && Fill(s.blocks, g, false) && g.tb == |g.order| - 1 && MinSize(s.blocks, q + 1)
    requires g.order[g.tb] in s.blocks
    requires g.tb >= 1 ==> |g.cells[g.order[g.tb]].vals| == s.blocks[g.order[g.tb]].size - 1
    requires forall x | x in g.order[..g.tb + 1] :: x in g.cells
    ensures |Flat(g.order[..g.tb + 1], g.cells)| >= (|g.order| - 1) * q
  {
    hide Blocks, BlockOk;
    var active := g.order[..g.tb + 1];
    var rest := active[1..];
    forall x | x in rest ensures x in g.cells && |g.cells[x].vals| >= q {
      var i :| 0 <= i < |rest| && rest[i] == x;
      assert x == g.order[i + 1] && x in s.blocks;
    }
    FlatFull(rest, g.cells, q);
  }
}
