/**
 * One explicit producer of ConcurrentQueue: its ring of blocks, the circular block index that
 * consumers search while the producer overwrites and doubles it, the empty flags by which blocks
 * are handed back, and the elements themselves. The producer enqueues one element at a time; any
 * number of consumers dequeue singly or in bulk through the counters of OptimisticDequeue. Blocks
 * have any size and keep one flag per element.
 */
module BlockIndex {
  import opened Modular
  import opened Epochs
  import OD = OptimisticDequeue

  type Block = nat
  type Value = int

  datatype Entry = Entry(base: int, block: Block)

  /** A block index; `front` is the slot of its newest entry. */
  datatype Header = Header(size: nat, front: int, entries: seq<Entry>)

  /** The producer's position in enqueue(v): each constructor stands before one access. */
  datatype ProducerPc =
    | Ready
    | Scan(v: Value, j: nat)
    | NeedBlock(v: Value)
    | Reset(v: Value, j: nat)
    | EntryBase(v: Value)
    | EntryBlock(v: Value)
    | PublishFront(v: Value)
    | Construct(v: Value)
    | PublishTail(v: Value)

  /** A consumer's walk over the blocks of the range it has claimed. */
  datatype Walk =
    | Out
      // a bulk dequeue of nothing looks the head up in the index all the same
    | GlanceIndex
    | GlanceFront(h: nat)
    | GlanceBase(h: nat, f: int)
    | GlanceBlock(h: nat, slot: int)
    | LoadIndex
    | LoadFront(h: nat)
    | LoadBase(h: nat, f: int)
    | LoadBlock(h: nat, slot: int, idx: nat)
    | Move(h: nat, slot: int, b: Block, from: nat, idx: nat)
    | Mark(h: nat, slot: int, b: Block, from: nat, end: nat, j: nat)

  /**
   * `empty` holds the (block, flag) pairs whose flag is set, `mine` the blocks of this producer.
   * The current index is the last header; older ones stay readable. `log` lists the values whose
   * enqueue has returned, `out` the value delivered for each dequeued index.
   */
  datatype State = State(
    cnt: OD.State,
    ppc: ProducerPc,
    tailBlock: Block,
    next: map<Block, Block>,
    mine: set<Block>,
    used: nat,
    prFront: int,
    headers: seq<Header>,
    empty: set<(Block, nat)>,
    data: map<(Block, nat), Value>,
    walks: seq<Walk>,
    log: seq<Value>,
    out: map<nat, Value>)

  function Flag(i: nat): nat { BLOCK_SIZE - 1 - Place(i) }

  /** Where the part of a claimed range that lies in the block of `from` ends. */
  function PartEnd(from: nat, end: nat): nat
  {
    var blockEnd := Start(Epoch(from)) + BLOCK_SIZE;
    if end < blockEnd then end else blockEnd
  }

  ghost predicate Init(s: State)
  {
    && OD.Init(s.cnt)
    && s.ppc == Ready && s.used == 0 && s.prFront == 0 && s.mine == {} && s.log == [] && s.out == map[]
    && |s.headers| == 1 && s.headers[0].size >= 2 && |s.headers[0].entries| == s.headers[0].size
    && s.walks == seq(|s.cnt.pcs|, _ => Out)
  }

  // ------------------------------------------------------------------------------------------
  // The producer
  // ------------------------------------------------------------------------------------------

  function Cur(s: State): nat
    requires s.headers != []
  {
    |s.headers| - 1
  }

  function SetHeader(s: State, hd: Header): State
    requires s.headers != []
  {
    s.(headers := s.headers[Cur(s) := hd])
  }

  /** `n` entries of a circular array, from slot `start` on. */
  function Unrolled(entries: seq<Entry>, start: int, n: nat): (r: seq<Entry>)
    requires |entries| > 0
    ensures |r| == n
    ensures forall j | 0 <= j < n :: r[j] == entries[(start + j) % |entries|]
  {
    seq(n, j => entries[(start + j) % |entries|])
  }

  /** new_block_index: twice the size, the used entries copied in order to the start. */
  ghost predicate IsGrown(hd: Header, hd': Header, prFront: int, used: nat)
  {
    && |hd.entries| == hd.size > 0
    && hd'.size == 2 * hd.size && |hd'.entries| == hd'.size && used <= hd'.size
    && hd'.entries[..used] == Unrolled(hd.entries, prFront - used, used)
    && hd'.front == used - 1
  }

  ghost predicate Begin(s: State, s': State, v: Value)
  {
    && s.ppc == Ready
    && s' == s.(ppc := if Place(s.cnt.tail) != 0 then Construct(v)
                       else if s.used == 0 then NeedBlock(v) else Scan(v, 0))
  }

  /** Looking at one flag of the block ahead. */
  ghost predicate Look(s: State, s': State)
  {
    && s.ppc.Scan? && s.ppc.j < BLOCK_SIZE && s.tailBlock in s.next
    && s' == s.(ppc := if (s.next[s.tailBlock], s.ppc.j) in s.empty then Scan(s.ppc.v, s.ppc.j + 1)
                       else NeedBlock(s.ppc.v))
  }

  /** All flags were set: move on to the block ahead. */
  ghost predicate Reuse(s: State, s': State)
  {
    && s.ppc.Scan? && s.ppc.j == BLOCK_SIZE && s.tailBlock in s.next
    && s' == s.(ppc := Reset(s.ppc.v, 0), tailBlock := s.next[s.tailBlock])
  }

  /** No leeway, no index or no block: the enqueue fails. */
  ghost predicate Refuse(s: State, s': State) { s.ppc.NeedBlock? && s' == s.(ppc := Ready) }

  ghost predicate Grow(s: State, s': State)
  {
    && s.ppc.NeedBlock? && s.headers != [] && s.used == s.headers[Cur(s)].size
    && |s'.headers| == |s.headers| + 1
    && IsGrown(s.headers[Cur(s)], s'.headers[|s.headers|], s.prFront, s.used)
    && s' == s.(headers := s.headers + [s'.headers[|s.headers|]], prFront := s.used)
  }

  /** A requisitioned block, which is nobody else's, joins the ring after the tail block. */
  ghost predicate Link(s: State, s': State, b: Block)
  {
    && s.ppc.NeedBlock? && s.headers != [] && s.used < s.headers[Cur(s)].size
    && b !in s.mine && (s.used > 0 ==> s.tailBlock in s.next)
    && s' == s.(ppc := Reset(s.ppc.v, 0), tailBlock := b, mine := s.mine + {b}, used := s.used + 1,
                next := if s.used == 0 then s.next[b := b]
                        else s.next[b := s.next[s.tailBlock]][s.tailBlock := b])
  }

  ghost predicate ResetFlag(s: State, s': State)
  {
    && s.ppc.Reset?
    && if s.ppc.j < BLOCK_SIZE
       then s' == s.(ppc := Reset(s.ppc.v, s.ppc.j + 1), empty := s.empty - {(s.tailBlock, s.ppc.j)})
       else s' == s.(ppc := EntryBase(s.ppc.v))
  }

  /** Filling in the next index slot, then exposing it. */
  ghost predicate FillIndex(s: State, s': State)
  {
    && s.headers != []
    && var hd := s.headers[Cur(s)];
    && 0 <= s.prFront < |hd.entries| && hd.size > 0
    && (match s.ppc
        case EntryBase(v) =>
          s' == SetHeader(s, hd.(entries := hd.entries[s.prFront := hd.entries[s.prFront].(base := s.cnt.tail)]))
                .(ppc := EntryBlock(v))
        case EntryBlock(v) =>
          s' == SetHeader(s, hd.(entries := hd.entries[s.prFront := hd.entries[s.prFront].(block := s.tailBlock)]))
                .(ppc := PublishFront(v))
        case PublishFront(v) =>
          s' == SetHeader(s, hd.(front := s.prFront)).(ppc := Construct(v), prFront := (s.prFront + 1) % hd.size)
        case _ => false)
  }

  ghost predicate Store(s: State, s': State)
  {
    match s.ppc
    case Construct(v) =>
      s' == s.(ppc := PublishTail(v), data := s.data[(s.tailBlock, Place(s.cnt.tail)) := v])
    case PublishTail(v) =>
      s' == s.(ppc := Ready, cnt := s.cnt.(tail := s.cnt.tail + 1), log := s.log + [v])
    case _ => false
  }

  ghost predicate Produce(s: State, s': State)
  {
    || (exists v :: Begin(s, s', v))
    || Look(s, s') || Reuse(s, s') || Refuse(s, s') || Grow(s, s') || (exists b :: Link(s, s', b))
    || ResetFlag(s, s') || FillIndex(s, s') || Store(s, s')
  }

  // ------------------------------------------------------------------------------------------
  // The consumers
  // ------------------------------------------------------------------------------------------

  /** A step on the counters that claims nothing. */
  ghost predicate Count(s: State, s': State, t: nat)
  {
    && t < |s.cnt.pcs| && !s.cnt.pcs[t].Claim? && !s.cnt.pcs[t].Claimed?
    && s' == s.(cnt := s'.cnt)
    && ((exists max :: OD.Begin(s.cnt, s'.cnt, t, max)) || OD.Dequeue(s.cnt, s'.cnt, t))
  }

  ghost predicate ClaimRange(s: State, s': State, t: nat)
  {
    && t < |s.cnt.pcs| && t < |s.walks| && s.cnt.pcs[t].Claim? && s.cnt.pcs[t].got >= 1
    && OD.Dequeue(s.cnt, s'.cnt, t)
    && s' == s.(cnt := s'.cnt, walks := s.walks[t := LoadIndex])
  }

  /** A bulk dequeue of at most zero elements claims none of the elements it has seen. */
  ghost predicate ClaimNothing(s: State, s': State, t: nat)
  {
    && t < |s.cnt.pcs| && t < |s.walks| && s.cnt.pcs[t].Claim? && s.cnt.pcs[t].got == 0
    && OD.Dequeue(s.cnt, s'.cnt, t)
    && s' == s.(cnt := s'.cnt, walks := s.walks[t := GlanceIndex])
  }

  function GotoWalk(s: State, t: nat, w: Walk): State
    requires t < |s.walks|
  {
    s.(walks := s.walks[t := w])
  }

  /** Finding the block of the first claimed index. */
  ghost predicate Search(s: State, s': State, t: nat)
  {
    && t < |s.walks| && t < |s.cnt.pcs| && s.cnt.pcs[t].Claimed?
    && (match s.walks[t]
        case LoadIndex => s.headers != [] && s' == GotoWalk(s, t, LoadFront(Cur(s)))
        case LoadFront(h) => h < |s.headers| && s' == GotoWalk(s, t, LoadBase(h, s.headers[h].front))
        case LoadBase(h, f) =>
          && h < |s.headers| && 0 <= f < |s.headers[h].entries| && s.headers[h].size > 0
          && var first := s.cnt.pcs[t].first;
          && var offset := Blocks(Start(Epoch(first)) - s.headers[h].entries[f].base);
          && s' == GotoWalk(s, t, LoadBlock(h, (f + offset) % s.headers[h].size, first))
        case _ => false)
  }

  /** Moving the elements of one block out, then setting their flags, last index first. */
  ghost predicate Drain(s: State, s': State, t: nat)
  {
    && t < |s.walks| && t < |s.cnt.pcs| && s.cnt.pcs[t].Claimed?
    && var end := s.cnt.pcs[t].first + s.cnt.pcs[t].count;
    && (match s.walks[t]
        case LoadBlock(h, slot, idx) =>
          && h < |s.headers| && 0 <= slot < |s.headers[h].entries|
          && s' == GotoWalk(s, t, Move(h, slot, s.headers[h].entries[slot].block, idx, idx))
        case Move(h, slot, b, from, idx) =>
          && (b, Place(idx)) in s.data
          && s' == GotoWalk(s, t, if idx + 1 == PartEnd(from, end) then Mark(h, slot, b, from, idx + 1, 0)
                                  else Move(h, slot, b, from, idx + 1))
                   .(out := s.out[idx := s.data[(b, Place(idx))]])
        case Mark(h, slot, b, from, e, j) =>
          && from < e && j < e - from
          && s' == GotoWalk(s, t, Mark(h, slot, b, from, e, j + 1))
                   .(empty := s.empty + {(b, Flag(e - 1 - j))})
        case _ => false)
  }

  /** After a block: go on to the next slot, or return. */
  ghost predicate Leave(s: State, s': State, t: nat)
  {
    && t < |s.walks| && t < |s.cnt.pcs| && s.cnt.pcs[t].Claimed?
    && s.walks[t].Mark? && s.walks[t].j == s.walks[t].end - s.walks[t].from
    && var w := s.walks[t];
    && if w.end < s.cnt.pcs[t].first + s.cnt.pcs[t].count
       then w.h < |s.headers| && s.headers[w.h].size > 0
            && s' == GotoWalk(s, t, LoadBlock(w.h, (w.slot + 1) % s.headers[w.h].size, w.end))
       else s' == GotoWalk(s, t, Out).(cnt := s'.cnt) && OD.Dequeue(s.cnt, s'.cnt, t)
  }

  /** Having claimed nothing: the same search, the load of a block that is not used, and the return. */
  ghost predicate Glance(s: State, s': State, t: nat)
  {
    && t < |s.walks| && t < |s.cnt.pcs| && s.cnt.pcs[t].Claimed?
    && (match s.walks[t]
        case GlanceIndex => s.headers != [] && s' == GotoWalk(s, t, GlanceFront(Cur(s)))
        case GlanceFront(h) => h < |s.headers| && s' == GotoWalk(s, t, GlanceBase(h, s.headers[h].front))
        case GlanceBase(h, f) =>
          && h < |s.headers| && 0 <= f < |s.headers[h].entries| && s.headers[h].size > 0
          && var offset := Blocks(Start(Epoch(s.cnt.pcs[t].first)) - s.headers[h].entries[f].base);
          && s' == GotoWalk(s, t, GlanceBlock(h, (f + offset) % s.headers[h].size))
        case GlanceBlock(h, slot) =>
          && h < |s.headers| && 0 <= slot < |s.headers[h].entries| && OD.Dequeue(s.cnt, s'.cnt, t)
          && s' == GotoWalk(s, t, Out).(cnt := s'.cnt)
        case _ => false)
  }

  ghost predicate Consume(s: State, s': State, t: nat)
  {
    || Count(s, s', t) || ClaimRange(s, s', t) || Search(s, s', t) || Drain(s, s', t) || Leave(s, s', t)
    || ClaimNothing(s, s', t) || Glance(s, s', t)
  }

  ghost predicate Step(s: State, s': State) { Produce(s, s') || exists t :: Consume(s, s', t) }

  ghost predicate IsRun(run: seq<State>)
  {
    && |run| > 0
    && Init(run[0])
    && forall i :: 0 <= i < |run| - 1 ==> Step(run[i], run[i + 1])
  }

  // ------------------------------------------------------------------------------------------
  // The invariant. Epoch k is the use of a block for the indices from Start(k) on; `hist` lists the
  // block of every epoch so far, and a window says which epochs a header can find.
  // ------------------------------------------------------------------------------------------

  datatype Window = Window(lo: int, hi: int, org: int)
  datatype Ghost = Ghost(hist: seq<Block>, win: seq<Window>)

  function Slot(w: Window, size: nat, k: int): int
    requires size > 0
  {
    (k - w.org) % size
  }

  /** A new epoch has been opened but its index entry is not exposed yet. */
  predicate Opening(p: ProducerPc) { p.Reset? || p.EntryBase? || p.EntryBlock? || p.PublishFront? }

  predicate TailOk(p: ProducerPc, tail: int, n: int)
  {
    match p
    case Ready => Start(n - 1) < tail <= Start(n)
    case Scan(_, _) => tail == Start(n) && n > 0
    case NeedBlock(_) => tail == Start(n)
    case Construct(_) => Start(n - 1) <= tail < Start(n)
    case PublishTail(_) => Start(n - 1) <= tail < Start(n)
    case _ => tail == Start(n - 1)
  }

  /** The ring is the last `used` blocks of the history, in order, ending at the tail block. */
  ghost predicate Ring(hist: seq<Block>, used: nat, tailBlock: Block, next: map<Block, Block>, mine: set<Block>)
  {
    && used <= |hist| && (used == 0 <==> |hist| == 0)
    && (forall i, j | |hist| - used <= i < j < |hist| :: hist[i] != hist[j])
    && (forall i | |hist| - used <= i < |hist| :: hist[i] in mine)
    && (used > 0 ==> tailBlock == hist[|hist| - 1])
    && (forall i | |hist| - used <= i < |hist| - 1 :: hist[i] in next && next[hist[i]] == hist[i + 1])
    && (used > 0 ==> tailBlock in next && next[tailBlock] == hist[|hist| - used])
  }

  /** A header finds the block of every epoch in its window. */
  ghost predicate HeaderOk(hd: Header, w: Window, hist: seq<Block>)
  {
    && hd.size > 0 && |hd.entries| == hd.size
    && 0 <= w.lo && w.hi < |hist| && w.hi - w.lo < hd.size
    && (forall k | w.lo <= k <= w.hi :: hd.entries[Slot(w, hd.size, k)] == Entry(Start(k), hist[k]))
    && (w.lo <= w.hi ==> hd.front == Slot(w, hd.size, w.hi))
  }

  ghost predicate Headers(headers: seq<Header>, win: seq<Window>, hist: seq<Block>)
  {
    && |headers| == |win| > 0
    && forall h | 0 <= h < |headers| :: HeaderOk(headers[h], win[h], hist)
  }

  /** The current header lists exactly the ring, bar the epoch that is being opened. */
  ghost predicate Current(hd: Header, w: Window, n: nat, used: nat, prFront: int, p: ProducerPc, tail: int,
      tailBlock: Block)
  {
    && hd.size > 0 && |hd.entries| == hd.size && used <= hd.size
    && w.lo == n - used && w.hi == (if Opening(p) then n - 2 else n - 1)
    && prFront == Slot(w, hd.size, w.hi + 1)
    && (p.EntryBlock? ==> hd.entries[prFront].base == tail)
    && (p.PublishFront? ==> hd.entries[prFront] == Entry(tail, tailBlock))
  }

  /** Thread position (p, w) has claimed i and not yet set its flag. */
  predicate Pending(p: OD.Pc, w: Walk, i: nat)
  {
    && p.Claimed? && p.first <= i < p.first + p.count
    && (match w
        case Out => false
        case LoadBlock(_, _, idx) => idx <= i
        case Move(_, _, _, from, _) => from <= i
        case Mark(_, _, _, from, e, j) => from <= i < e - j || e <= i
        case _ => true)
  }

  /** Thread position (p, w) has claimed i and not yet moved its element out. */
  predicate Unmoved(p: OD.Pc, w: Walk, i: nat)
  {
    && p.Claimed? && p.first <= i < p.first + p.count
    && (match w
        case Out => false
        case LoadBlock(_, _, idx) => idx <= i
        case Move(_, _, _, _, idx) => idx <= i
        case Mark(_, _, _, _, e, _) => e <= i
        case _ => true)
  }

  predicate Covers(w: Window, a: int, b: int)
  {
    a < b ==> Start(w.lo) <= a && b <= Start(w.hi + 1)
  }

  ghost predicate WalkOk(p: OD.Pc, w: Walk, headers: seq<Header>, win: seq<Window>, hist: seq<Block>)
    requires |headers| == |win| && forall h | 0 <= h < |headers| :: headers[h].size > 0
  {
    if w == Out then !p.Claimed?
    else if Glancing(w) then p.Claimed? && p.count == 0 && (w.GlanceIndex? || w.h < |win|)
    else
      && p.Claimed? && p.count >= 1
      && var end := p.first + p.count;
      && (match w
          case LoadIndex => true
          case LoadFront(h) => h < |win| && Covers(win[h], p.first, end)
          case LoadBase(h, f) =>
            && h < |win| && Covers(win[h], p.first, end)
            && exists k :: Epoch(p.first) <= k <= win[h].hi && f == Slot(win[h], headers[h].size, k)
          case LoadBlock(h, slot, idx) =>
            && h < |win| && p.first <= idx < end && Covers(win[h], idx, end)
            && slot == Slot(win[h], headers[h].size, Epoch(idx))
          case Move(h, slot, b, from, idx) =>
            && h < |win| && p.first <= from <= idx < PartEnd(from, end) && Covers(win[h], from, end)
            && slot == Slot(win[h], headers[h].size, Epoch(from))
            && 0 <= Epoch(from) < |hist| && b == hist[Epoch(from)]
          case Mark(h, slot, b, from, e, j) =>
            && h < |win| && p.first <= from < e == PartEnd(from, end) && j <= e - from && Covers(win[h], e, end)
            && (j < e - from ==> win[h].lo <= Epoch(from))
            && slot == Slot(win[h], headers[h].size, Epoch(from))
            && 0 <= Epoch(from) < |hist| && b == hist[Epoch(from)]
          case _ => true)
  }

  predicate Glancing(w: Walk) { w.GlanceIndex? || w.GlanceFront? || w.GlanceBase? || w.GlanceBlock? }

  ghost predicate Walks(pcs: seq<OD.Pc>, walks: seq<Walk>, headers: seq<Header>, win: seq<Window>, hist: seq<Block>)
  {
    && |pcs| == |walks| && |headers| == |win| && (forall h | 0 <= h < |headers| :: headers[h].size > 0)
    && forall t | 0 <= t < |pcs| :: WalkOk(pcs[t], walks[t], headers, win, hist)
  }

  /** No claimed index is smaller than the oldest epoch of the ring. */
  ghost predicate Low(pcs: seq<OD.Pc>, walks: seq<Walk>, head: nat, lo: int)
  {
    && Start(lo) <= head
    && forall t, i: nat | 0 <= t < |pcs| && t < |walks| && Pending(pcs[t], walks[t], i) :: Start(lo) <= i
  }

  /** i has been claimed and its flag set by the claimant. */
  ghost predicate Done(pcs: seq<OD.Pc>, walks: seq<Walk>, head: nat, i: nat)
  {
    i < head && forall t | 0 <= t < |pcs| && t < |walks| :: !Pending(pcs[t], walks[t], i)
  }

  /** A flag of a block in the ring is set exactly when its index is done. */
  ghost predicate Flags(empty: set<(Block, nat)>, pcs: seq<OD.Pc>, walks: seq<Walk>, head: nat, hist: seq<Block>,
      lo: int, hi: int)
  {
    forall i: nat | Start(lo) <= i < Start(hi + 1) ::
      && 0 <= Epoch(i) < |hist|
      && ((hist[Epoch(i)], Flag(i)) in empty <==> Done(pcs, walks, head, i))
  }

  /** The flags of a block being opened, and those seen set in the block ahead. */
  ghost predicate FlagScan(p: ProducerPc, empty: set<(Block, nat)>, tailBlock: Block, next: map<Block, Block>)
  {
    && (p.Scan? ==> p.j <= BLOCK_SIZE && tailBlock in next && forall j: nat | j < p.j :: (next[tailBlock], j) in empty)
    && (p.Reset? ==> p.j <= BLOCK_SIZE && forall j: nat | j < p.j :: (tailBlock, j) !in empty)
    && (Opening(p) && !p.Reset? ==> forall j: nat | j < BLOCK_SIZE :: (tailBlock, j) !in empty)
  }

  /** The blocks of the ring hold the elements from their oldest epoch up to the tail. */
  ghost predicate Data(data: map<(Block, nat), Value>, hist: seq<Block>, lo: int, tail: nat, log: seq<Value>)
  {
    && |log| == tail
    && forall i: nat | Start(lo) <= i < tail ::
         && 0 <= Epoch(i) < |hist| && (hist[Epoch(i)], Place(i)) in data
         && data[(hist[Epoch(i)], Place(i))] == log[i]
  }

  ghost predicate Pushed(p: ProducerPc, data: map<(Block, nat), Value>, tailBlock: Block, tail: nat)
  {
    p.PublishTail? ==> (tailBlock, Place(tail)) in data && data[(tailBlock, Place(tail))] == p.v
  }

  /** Delivered values are the enqueued ones; an index is delivered exactly when it is no longer unmoved. */
  ghost predicate Delivered(out: map<nat, Value>, log: seq<Value>, head: nat, pcs: seq<OD.Pc>, walks: seq<Walk>)
  {
    && (forall i | i in out :: i < head && i < |log| && out[i] == log[i])
    && (forall t, i: nat | 0 <= t < |pcs| && t < |walks| && Unmoved(pcs[t], walks[t], i) :: i !in out)
    && (forall i: nat | i < head && i !in out ::
          exists t :: 0 <= t < |pcs| && t < |walks| && Unmoved(pcs[t], walks[t], i))
  }

  ghost predicate Counters(cnt: OD.State) { OD.Inv(cnt) }

  ghost predicate Good(s: State, g: Ghost)
  {
    var n := |g.hist|;
    && Counters(s.cnt)
    && TailOk(s.ppc, s.cnt.tail, n)
    && Ring(g.hist, s.used, s.tailBlock, s.next, s.mine)
    && Headers(s.headers, g.win, g.hist)
    && Current(s.headers[|s.headers| - 1], g.win[|s.headers| - 1], n, s.used, s.prFront, s.ppc, s.cnt.tail, s.tailBlock)
    && Walks(s.cnt.pcs, s.walks, s.headers, g.win, g.hist)
    && Low(s.cnt.pcs, s.walks, s.cnt.head, n - s.used)
    && Flags(s.empty, s.cnt.pcs, s.walks, s.cnt.head, g.hist, n - s.used, g.win[|s.headers| - 1].hi)
    && FlagScan(s.ppc, s.empty, s.tailBlock, s.next)
    && Data(s.data, g.hist, n - s.used, s.cnt.tail, s.log)
    && Pushed(s.ppc, s.data, s.tailBlock, s.cnt.tail)
    && Delivered(s.out, s.log, s.cnt.head, s.cnt.pcs, s.walks)
  }

  ghost predicate Inv(s: State) { exists g: Ghost :: Good(s, g) }

  // ------------------------------------------------------------------------------------------
  // Producer steps that open no epoch
  // ------------------------------------------------------------------------------------------

  lemma StartKeeps(s: State, s': State, v: Value, g: Ghost)
    requires Good(s, g) && Begin(s, s', v)
    ensures Good(s', g)
  {
    hide Epoch, Start, Place;
    Layout();
    hide Walks, Headers, Low, Flags, Data, Delivered, Counters;
  }

  lemma LookKeeps(s: State, s': State, g: Ghost)
    requires Good(s, g) && Look(s, s')
    ensures Good(s', g)
  {
    hide Epoch, Start, Place, Walks, Headers, Low, Flags, Data, Delivered, Counters, Ring;
  }

  lemma RefuseKeeps(s: State, s': State, g: Ghost)
    requires Good(s, g) && Refuse(s, s')
    ensures Good(s', g)
  {
    hide Epoch, Start, Place, Walks, Headers, Low, Flags, Data, Delivered, Counters, Ring;
    StartNext(|g.hist| - 1);
  }

  lemma GrowKeeps(s: State, s': State, g: Ghost)
    requires Good(s, g) && Grow(s, s')
    ensures Inv(s')
  {
    hide Epoch, Start, Place, Walks, Headers, Low, Flags, Data, Delivered, Counters, Ring, HeaderOk;
    CurrentOk(s, g);
    var n, c := |g.hist|, |s.headers| - 1;
    var w' := Window(n - s.used, n - 1, n - s.used);
    var g' := g.(win := g.win + [w']);
    GrownHeaderOk(s.headers[c], s'.headers[c + 1], g.win[c], w', g.hist, s.used, s.prFront);
    GrownWalks(s, s', g, w');
    GrownHeaders(s, s', g, w');
    assert Good(s', g');
  }

  lemma GrownHeaders(s: State, s': State, g: Ghost, w: Window)
    requires Headers(s.headers, g.win, g.hist) && |s'.headers| == |s.headers| + 1
    requires s'.headers == s.headers + [s'.headers[|s.headers|]]
    requires HeaderOk(s'.headers[|s.headers|], w, g.hist)
    ensures Headers(s'.headers, g.win + [w], g.hist)
  {
    hide Epoch, Start, Place;
  }

  lemma GrownWalks(s: State, s': State, g: Ghost, w: Window)
    requires Walks(s.cnt.pcs, s.walks, s.headers, g.win, g.hist) && |s'.headers| == |s.headers| + 1
    requires s'.headers == s.headers + [s'.headers[|s.headers|]] && s'.headers[|s.headers|].size > 0
    requires s'.cnt == s.cnt && s'.walks == s.walks
    ensures Walks(s'.cnt.pcs, s'.walks, s'.headers, g.win + [w], g.hist)
  {
    hide Epoch, Start, Place;
    forall t | 0 <= t < |s.walks| ensures WalkOk(s.cnt.pcs[t], s.walks[t], s'.headers, g.win + [w], g.hist) {
      WalkOkStable(s.cnt.pcs[t], s.walks[t], s.headers, g.win, s'.headers, g.win + [w], g.hist);
    }
  }

  /** A walk depends on the headers only through their sizes and windows, whose upper ends may grow. */
  lemma WalkOkStable(p: OD.Pc, w: Walk, headers: seq<Header>, win: seq<Window>, headers': seq<Header>,
      win': seq<Window>, hist: seq<Block>)
    requires |headers| == |win| <= |headers'| == |win'|
    requires (forall h | 0 <= h < |headers| :: headers[h].size > 0)
      && (forall h | 0 <= h < |headers'| :: headers'[h].size > 0)
    requires forall h | 0 <= h < |win| ::
        headers'[h].size == headers[h].size && win'[h].lo == win[h].lo && win'[h].org == win[h].org
          && win[h].hi <= win'[h].hi
    requires WalkOk(p, w, headers, win, hist)
    ensures WalkOk(p, w, headers', win', hist)
  {
    hide Epoch, Start, Place;
    Layout();
    if w.LoadBase? {
      var k :| Epoch(p.first) <= k <= win[w.h].hi && w.f == Slot(win[w.h], headers[w.h].size, k);
      assert w.f == Slot(win'[w.h], headers'[w.h].size, k);
    }
  }

  /** The doubled index lists the same epochs, in order, from slot 0 on. */
  lemma GrownHeaderOk(hd: Header, hd': Header, w: Window, w': Window, hist: seq<Block>, used: nat, prFront: int)
    requires HeaderOk(hd, w, hist) && IsGrown(hd, hd', prFront, used) && used == hd.size
    requires w.lo == |hist| - used && w.hi == |hist| - 1 && prFront == Slot(w, hd.size, |hist|)
    requires w' == Window(|hist| - used, |hist| - 1, |hist| - used)
    ensures HeaderOk(hd', w', hist)
    ensures used == Slot(w', hd'.size, |hist|)
  {
    hide Epoch, Start, Place;
    forall k | w'.lo <= k <= w'.hi ensures hd'.entries[Slot(w', hd'.size, k)] == Entry(Start(k), hist[k]) {
      var j := k - w'.lo;
      RemSmall(j, hd'.size);
      assert hd'.entries[j] == hd'.entries[..used][j];
      RemAdd(|hist| - w.org, j - used, hd.size);
    }
    RemSmall(used - 1, hd'.size);
    RemSmall(used, hd'.size);
  }

  // ------------------------------------------------------------------------------------------
  // Producer steps that open an epoch
  // ------------------------------------------------------------------------------------------

  lemma HeadersAppend(headers: seq<Header>, win: seq<Window>, hist: seq<Block>, b: Block)
    requires Headers(headers, win, hist)
    ensures Headers(headers, win, hist + [b])
  {
    hide Epoch, Start, Place;
    forall h | 0 <= h < |headers| ensures HeaderOk(headers[h], win[h], hist + [b]) {
      assert HeaderOk(headers[h], win[h], hist);
    }
  }

  lemma WalksAppend(pcs: seq<OD.Pc>, walks: seq<Walk>, headers: seq<Header>, win: seq<Window>, hist: seq<Block>,
      b: Block)
    requires Walks(pcs, walks, headers, win, hist)
    ensures Walks(pcs, walks, headers, win, hist + [b])
  {
    hide Epoch, Start, Place;
    forall t | 0 <= t < |pcs| ensures WalkOk(pcs[t], walks[t], headers, win, hist + [b]) {
      assert WalkOk(pcs[t], walks[t], headers, win, hist);
    }
  }

  lemma FlagsAppend(empty: set<(Block, nat)>, pcs: seq<OD.Pc>, walks: seq<Walk>, head: nat, hist: seq<Block>, lo: int,
      lo': int, hi: int, b: Block)
    requires Flags(empty, pcs, walks, head, hist, lo, hi) && lo <= lo'
    ensures Flags(empty, pcs, walks, head, hist + [b], lo', hi)
  {
    hide Epoch, Start, Place;
    Layout();
  }

  lemma DataAppend(data: map<(Block, nat), Value>, hist: seq<Block>, lo: int, lo': int, tail: nat, log: seq<Value>,
      b: Block)
    requires Data(data, hist, lo, tail, log) && lo <= lo'
    ensures Data(data, hist + [b], lo', tail, log)
  {
    hide Epoch, Start, Place;
    Layout();
  }

  lemma LinkKeeps(s: State, s': State, b: Block, g: Ghost)
    requires Good(s, g) && Link(s, s', b)
    ensures Inv(s')
  {
    hide Epoch, Start, Place, Walks, Headers, Low, Flags, Data, Delivered, Counters, Ring;
    CurrentOk(s, g);
    var n, c := |g.hist|, |s.headers| - 1;
    var g' := g.(hist := g.hist + [b]);
    RingLink(s, s', b, g);
    HeadersAppend(s.headers, g.win, g.hist, b);
    WalksAppend(s.cnt.pcs, s.walks, s.headers, g.win, g.hist, b);
    FlagsAppend(s.empty, s.cnt.pcs, s.walks, s.cnt.head, g.hist, n - s.used, n - s.used, g.win[c].hi, b);
    DataAppend(s.data, g.hist, n - s.used, n - s.used, s.cnt.tail, s.log, b);
    assert Good(s', g');
  }

  lemma RingLink(s: State, s': State, b: Block, g: Ghost)
    requires Ring(g.hist, s.used, s.tailBlock, s.next, s.mine) && Link(s, s', b)
    ensures Ring(g.hist + [b], s'.used, s'.tailBlock, s'.next, s'.mine)
  {
    hide Epoch, Start, Place;
  }

  ghost function Reused(s: State, g: Ghost): Ghost
    requires g.win != [] && s.tailBlock in s.next
  {
    var c := |g.win| - 1;
    Ghost(g.hist + [s.next[s.tailBlock]], g.win[c := g.win[c].(lo := g.win[c].lo + 1)])
  }

  lemma ReuseKeeps(s: State, s': State, g: Ghost)
    requires Good(s, g) && Reuse(s, s')
    ensures Inv(s')
  {
    hide Epoch, Start, Place, Walks, Headers, Low, Flags, Data, Delivered, Counters, Ring;
    ReuseLow(s, s', g);
    ReuseRest(s, s', g);
    StartNext(|g.hist|);
    assert Good(s', Reused(s, g));
  }

  /** The block ahead was seen empty: every index of the oldest epoch is done, so nobody needs it. */
  lemma ReuseLow(s: State, s': State, g: Ghost)
    requires Good(s, g) && Reuse(s, s')
    ensures |g.win| == |s.headers| > 0 && s.used > 0
    ensures Low(s.cnt.pcs, s.walks, s.cnt.head, |g.hist| + 1 - s.used)
    ensures Ring(Reused(s, g).hist, s'.used, s'.tailBlock, s'.next, s'.mine)
  {
    hide Epoch, Start, Place, Walks, Headers, Low, Flags, Data, Delivered, Counters, Pushed;
    var lo, b := |g.hist| - s.used, s.next[s.tailBlock];
    CurrentOk(s, g);
    assert b == g.hist[lo] && s.used > 0;
    assert forall j: nat | j < BLOCK_SIZE :: (b, j) in s.empty;
    hide Ring;
    OldestDone(s.empty, s.cnt.pcs, s.walks, s.cnt.head, g.hist, lo, g.win[|s.headers| - 1].hi);
    RingReuse(s, s', g);
  }

  lemma ReuseRest(s: State, s': State, g: Ghost)
    requires Good(s, g) && Reuse(s, s') && |g.win| == |s.headers| > 0
    requires Low(s.cnt.pcs, s.walks, s.cnt.head, |g.hist| + 1 - s.used)
    ensures var g' := Reused(s, g);
      && Headers(s.headers, g'.win, g'.hist) && Walks(s.cnt.pcs, s.walks, s.headers, g'.win, g'.hist)
      && Flags(s.empty, s.cnt.pcs, s.walks, s.cnt.head, g'.hist, |g.hist| + 1 - s.used, g'.win[|s.headers| - 1].hi)
      && Data(s.data, g'.hist, |g.hist| + 1 - s.used, s.cnt.tail, s.log)
  {
    hide Epoch, Start, Place, Walks, Headers, Low, Flags, Data, Delivered, Counters, Ring, FlagScan, Pushed;
    var lo, b, c := |g.hist| - s.used, s.next[s.tailBlock], |s.headers| - 1;
    HeadersAppend(s.headers, g.win, g.hist, b);
    ShrinkHeaders(s.headers, g.win, c, g.hist + [b]);
    WalksAppend(s.cnt.pcs, s.walks, s.headers, g.win, g.hist, b);
    WalksShrink(s.cnt.pcs, s.walks, s.cnt.head, s.headers, g.win, c, g.hist + [b]);
    FlagsAppend(s.empty, s.cnt.pcs, s.walks, s.cnt.head, g.hist, lo, lo + 1, g.win[c].hi, b);
    DataAppend(s.data, g.hist, lo, lo + 1, s.cnt.tail, s.log, b);
  }

  lemma OldestDone(empty: set<(Block, nat)>, pcs: seq<OD.Pc>, walks: seq<Walk>, head: nat, hist: seq<Block>, lo: int,
      hi: int)
    requires Flags(empty, pcs, walks, head, hist, lo, hi) && Low(pcs, walks, head, lo)
    requires 0 <= lo <= hi && lo < |hist| && forall j: nat | j < BLOCK_SIZE :: (hist[lo], j) in empty
    ensures Low(pcs, walks, head, lo + 1)
  {
    hide Epoch, Start, Place;
    Layout();
    StartIsNat(lo);
    StartNext(lo);
    forall i: nat | Start(lo) <= i < Start(lo + 1)
      ensures Done(pcs, walks, head, i)
    {
      assert Epoch(i) == lo;
      assert (hist[lo], Flag(i)) in empty;
    }
    assert Done(pcs, walks, head, Start(lo) + BLOCK_SIZE - 1);
    forall t, i: nat | 0 <= t < |pcs| && t < |walks| && Pending(pcs[t], walks[t], i)
      ensures Start(lo + 1) <= i
    {
      assert !Done(pcs, walks, head, i);
    }
  }

  lemma RingReuse(s: State, s': State, g: Ghost)
    requires Ring(g.hist, s.used, s.tailBlock, s.next, s.mine) && Reuse(s, s') && s.used > 0
    ensures Ring(g.hist + [s'.tailBlock], s.used, s'.tailBlock, s'.next, s'.mine)
  {
    hide Epoch, Start, Place;
  }

  lemma ShrinkHeaders(headers: seq<Header>, win: seq<Window>, c: nat, hist: seq<Block>)
    requires Headers(headers, win, hist) && c < |win|
    ensures Headers(headers, win[c := win[c].(lo := win[c].lo + 1)], hist)
  {
    hide Epoch, Start, Place;
    var win' := win[c := win[c].(lo := win[c].lo + 1)];
    forall h | 0 <= h < |headers| ensures HeaderOk(headers[h], win'[h], hist) {
      assert HeaderOk(headers[h], win[h], hist);
      assert forall k :: Slot(win'[h], headers[h].size, k) == Slot(win[h], headers[h].size, k);
    }
  }

  lemma WalksShrink(pcs: seq<OD.Pc>, walks: seq<Walk>, head: nat, headers: seq<Header>, win: seq<Window>, c: nat,
      hist: seq<Block>)
    requires Walks(pcs, walks, headers, win, hist) && c < |win| && Low(pcs, walks, head, win[c].lo + 1)
    ensures Walks(pcs, walks, headers, win[c := win[c].(lo := win[c].lo + 1)], hist)
  {
    hide Epoch, Start, Place;
    var win' := win[c := win[c].(lo := win[c].lo + 1)];
    forall t | 0 <= t < |pcs| ensures WalkOk(pcs[t], walks[t], headers, win', hist) {
      WalkShrink(pcs[t], walks[t], headers, win, c, hist);
    }
  }

  lemma WalkShrink(p: OD.Pc, w: Walk, headers: seq<Header>, win: seq<Window>, c: nat, hist: seq<Block>)
    requires |headers| == |win| && (forall h | 0 <= h < |headers| :: headers[h].size > 0)
    requires WalkOk(p, w, headers, win, hist) && c < |win|
    requires forall i: nat | Pending(p, w, i) :: Start(win[c].lo + 1) <= i
    ensures WalkOk(p, w, headers, win[c := win[c].(lo := win[c].lo + 1)], hist)
  {
    hide Epoch, Start, Place, Covers, PartEnd;
    var win' := win[c := win[c].(lo := win[c].lo + 1)];
    assert forall h, k | 0 <= h < |win| :: Slot(win'[h], headers[h].size, k) == Slot(win[h], headers[h].size, k);
    if !w.Out? && p.Claimed? {
      var end := p.first + p.count;
      forall h, x: nat | 0 <= h < |win| && (x < end ==> Pending(p, w, x)) && Covers(win[h], x, end)
          ensures Covers(win'[h], x, end) {
        if h == c {
          CoversShrink(win[c], x, end);
        }
      }
    }
    match w
    case LoadFront(h) => assert Pending(p, w, p.first);
    case LoadBase(h, f) => assert Pending(p, w, p.first);
    case LoadBlock(h, slot, idx) => assert Pending(p, w, idx);
    case Move(h, slot, b, from, idx) =>
      PartBelow(from, p.first + p.count);
      assert Pending(p, w, from);
    case Mark(h, slot, b, from, e, j) =>
      PartBelow(from, p.first + p.count);
      assert j < e - from ==> Pending(p, w, from);
      assert e < p.first + p.count ==> Pending(p, w, e);
      AtOrAfter(win[c].lo + 1, from);
      assert j < e - from ==> win'[h].lo <= Epoch(from);
      CoversShrink(win[c], if h == c then e else p.first + p.count, p.first + p.count);
    case _ =>
  }

  lemma PartBelow(from: nat, end: nat)
    ensures PartEnd(from, end) <= end
  {
    hide Epoch, Start, Place;
  }

  lemma CoversShrink(w: Window, a: int, b: int)
    requires (a < b ==> Covers(w, a, b)) && (a < b ==> Start(w.lo + 1) <= a)
    ensures Covers(w.(lo := w.lo + 1), a, b)
  {
    hide Epoch, Start, Place;
  }

  lemma ResetFlagKeeps(s: State, s': State, g: Ghost)
    requires Good(s, g) && ResetFlag(s, s')
    ensures Good(s', g)
  {
    hide Epoch, Start, Place, Walks, Headers, Low, Flags, Data, Delivered, Counters, Ring;
    ResetFlags(s, s', g);
  }

  lemma ResetFlags(s: State, s': State, g: Ghost)
    requires Good(s, g) && ResetFlag(s, s')
    ensures Flags(s'.empty, s.cnt.pcs, s.walks, s.cnt.head, g.hist, |g.hist| - s.used, g.win[|s.headers| - 1].hi)
  {
    hide Epoch, Start, Place;
    Layout();
    hide Walks, Headers, Low, Data, Delivered, Counters, Done;
  }

  // ------------------------------------------------------------------------------------------
  // Filling the index and storing the element
  // ------------------------------------------------------------------------------------------

  /** The slot being filled belongs to no epoch the header can find. */
  lemma FillHeader(headers: seq<Header>, win: seq<Window>, hist: seq<Block>, hd': Header, prFront: int, p: ProducerPc,
                   used: nat, tail: int, tailBlock: Block, e: Entry)
    requires Headers(headers, win, hist) && Opening(p) && 0 <= prFront < |headers[|headers| - 1].entries|
    requires Current(headers[|headers| - 1], win[|headers| - 1], |hist|, used, prFront, p, tail, tailBlock)
    requires hd' == headers[|headers| - 1].(entries := headers[|headers| - 1].entries[prFront := e])
    ensures Headers(headers[|headers| - 1 := hd'], win, hist)
  {
    hide Epoch, Start, Place;
    var c := |headers| - 1;
    var hd, w := headers[c], win[c];
    assert HeaderOk(hd, w, hist);
    assert HeaderOk(hd', w, hist) by {
      forall k | w.lo <= k <= w.hi ensures hd'.entries[Slot(w, hd'.size, k)] == Entry(Start(k), hist[k]) {
        RemDistinct(k - w.org, w.hi + 1 - w.org, hd.size);
      }
    }
  }

  lemma SameWalks(s: State, s': State, g: Ghost, win': seq<Window>)
    requires Walks(s.cnt.pcs, s.walks, s.headers, g.win, g.hist) && s'.cnt == s.cnt && s'.walks == s.walks
    requires |s'.headers| == |s.headers| == |win'| && |s.headers| > 0
    requires s'.headers == s.headers[|s.headers| - 1 := s'.headers[|s.headers| - 1]]
    requires s'.headers[|s.headers| - 1].size == s.headers[|s.headers| - 1].size
    requires forall h | 0 <= h < |win'| ::
        win'[h].lo == g.win[h].lo && win'[h].org == g.win[h].org && g.win[h].hi <= win'[h].hi
    ensures Walks(s'.cnt.pcs, s'.walks, s'.headers, win', g.hist)
  {
    hide Epoch, Start, Place;
    forall t | 0 <= t < |s.walks| ensures WalkOk(s.cnt.pcs[t], s.walks[t], s'.headers, win', g.hist) {
      WalkOkStable(s.cnt.pcs[t], s.walks[t], s.headers, g.win, s'.headers, win', g.hist);
    }
  }

  /** Either half of an entry is written: e is what the slot then holds. */
  lemma FillKeeps(s: State, s': State, g: Ghost, hd: Header, e: Entry, p: ProducerPc)
    requires Good(s, g) && s.headers != [] && hd == s.headers[Cur(s)] && 0 <= s.prFront < |hd.entries|
    requires s' == SetHeader(s, hd.(entries := hd.entries[s.prFront := e])).(ppc := p)
    requires Opening(s.ppc) && !s.ppc.Reset? && Opening(p) && !p.Reset?
    requires p.EntryBlock? ==> e.base == s.cnt.tail
    requires p.PublishFront? ==> e == Entry(s.cnt.tail, s.tailBlock)
    ensures Good(s', g)
  {
    hide Epoch, Start, Place, Walks, Headers, Low, Flags, Data, Delivered, Counters, Ring, FlagScan, Current;
    SameShape(s, g);
    FillParts(s, s', g, hd, e, p);
    FillHeader(s.headers, g.win, g.hist, s'.headers[Cur(s)], s.prFront, s.ppc, s.used, s.cnt.tail, s.tailBlock, e);
    SameWalks(s, s', g, g.win);
  }

  lemma SameShape(s: State, g: Ghost)
    requires Headers(s.headers, g.win, g.hist)
    ensures |g.win| == |s.headers| > 0
  {
    hide Epoch, Start, Place;
  }

  lemma FillParts(s: State, s': State, g: Ghost, hd: Header, e: Entry, p: ProducerPc)
    requires s.headers != [] && hd == s.headers[Cur(s)] && 0 <= s.prFront < |hd.entries| && |g.win| == |s.headers|
    requires Current(hd, g.win[Cur(s)], |g.hist|, s.used, s.prFront, s.ppc, s.cnt.tail, s.tailBlock)
    requires FlagScan(s.ppc, s.empty, s.tailBlock, s.next) && TailOk(s.ppc, s.cnt.tail, |g.hist|)
    requires s' == SetHeader(s, hd.(entries := hd.entries[s.prFront := e])).(ppc := p)
    requires Opening(s.ppc) && !s.ppc.Reset? && Opening(p) && !p.Reset?
    requires p.EntryBlock? ==> e.base == s.cnt.tail
    requires p.PublishFront? ==> e == Entry(s.cnt.tail, s.tailBlock)
    ensures Current(s'.headers[Cur(s)], g.win[Cur(s)], |g.hist|, s'.used, s'.prFront, p, s'.cnt.tail, s'.tailBlock)
    ensures FlagScan(p, s'.empty, s'.tailBlock, s'.next) && TailOk(p, s'.cnt.tail, |g.hist|)
    ensures Pushed(p, s'.data, s'.tailBlock, s'.cnt.tail)
  {
    hide Epoch, Start, Place;
  }

  lemma FillIndexKeeps(s: State, s': State, g: Ghost)
    requires Good(s, g) && FillIndex(s, s')
    ensures Inv(s')
  {
    hide Epoch, Start, Place;
    assert Current(s.headers[Cur(s)], g.win[Cur(s)], |g.hist|, s.used, s.prFront, s.ppc, s.cnt.tail, s.tailBlock);
    hide Walks, Headers, Low, Flags, Data, Delivered, Counters, Ring;
    var hd := s.headers[Cur(s)];
    match s.ppc
    case EntryBase(v) => FillKeeps(s, s', g, hd, hd.entries[s.prFront].(base := s.cnt.tail), EntryBlock(v));
    case EntryBlock(v) => FillKeeps(s, s', g, hd, hd.entries[s.prFront].(block := s.tailBlock), PublishFront(v));
    case PublishFront(v) => ExposeKeeps(s, s', g, hd, v);
  }

  ghost function Exposed(g: Ghost): Ghost
    requires g.win != []
  {
    g.(win := g.win[|g.win| - 1 := g.win[|g.win| - 1].(hi := |g.hist| - 1)])
  }

  lemma ExposeKeeps(s: State, s': State, g: Ghost, hd: Header, v: Value)
    requires Good(s, g) && s.ppc == PublishFront(v) && s.headers != [] && hd == s.headers[Cur(s)] && hd.size > 0
    requires s' == SetHeader(s, hd.(front := s.prFront)).(ppc := Construct(v), prFront := (s.prFront + 1) % hd.size)
    ensures Inv(s')
  {
    hide Epoch, Start, Place, Walks, Low, Flags, Data, Delivered, Counters, Ring, Headers, FlagScan, Current;
    StartNext(|g.hist| - 1);
    SameShape(s, g);
    ExposeParts(s, s', g, hd, v);
    ExposeFlags(s, g);
    ExposeCurrent(s, s', g, hd, v);
    assert Good(s', Exposed(g));
  }

  lemma ExposeCurrent(s: State, s': State, g: Ghost, hd: Header, v: Value)
    requires s.ppc == PublishFront(v) && s.headers != [] && hd == s.headers[Cur(s)] && hd.size > 0
      && |g.win| == |s.headers|
    requires Current(hd, g.win[Cur(s)], |g.hist|, s.used, s.prFront, s.ppc, s.cnt.tail, s.tailBlock)
    requires FlagScan(s.ppc, s.empty, s.tailBlock, s.next)
    requires s' == SetHeader(s, hd.(front := s.prFront)).(ppc := Construct(v), prFront := (s.prFront + 1) % hd.size)
    ensures Current(s'.headers[Cur(s)], Exposed(g).win[Cur(s)], |g.hist|, s'.used, s'.prFront, s'.ppc, s'.cnt.tail,
      s'.tailBlock)
    ensures FlagScan(s'.ppc, s'.empty, s'.tailBlock, s'.next)
  {
    hide Epoch, Start, Place;
    assert FlagScan(s'.ppc, s'.empty, s'.tailBlock, s'.next);
    hide FlagScan;
    RemAdd(|g.hist| - 1 - g.win[Cur(s)].org, 1, hd.size);
  }

  lemma ExposeParts(s: State, s': State, g: Ghost, hd: Header, v: Value)
    requires Good(s, g) && s.ppc == PublishFront(v) && s.headers != [] && hd == s.headers[Cur(s)] && hd.size > 0
    requires s' == SetHeader(s, hd.(front := s.prFront)).(ppc := Construct(v), prFront := (s.prFront + 1) % hd.size)
    ensures |g.win| == |s.headers|
    ensures Headers(s'.headers, Exposed(g).win, g.hist)
    ensures Walks(s'.cnt.pcs, s'.walks, s'.headers, Exposed(g).win, g.hist)
  {
    hide Epoch, Start, Place, Walks, Low, Flags, Data, Delivered, Counters, Ring, Headers, FlagScan, Current;
    SameShape(s, g);
    ExposeFacts(s, g);
    ExposeHeader(s.headers, g.win, g.hist, s'.headers[Cur(s)], s.prFront, s.ppc, s.used, s.cnt.tail, s.tailBlock);
    SameWalks(s, s', g, Exposed(g).win);
  }

  lemma ExposeFacts(s: State, g: Ghost)
    requires Ring(g.hist, s.used, s.tailBlock, s.next, s.mine) && s.ppc.PublishFront? && s.headers != []
      && |g.win| == |s.headers|
    requires TailOk(s.ppc, s.cnt.tail, |g.hist|)
    requires Current(s.headers[Cur(s)], g.win[Cur(s)], |g.hist|, s.used, s.prFront, s.ppc, s.cnt.tail, s.tailBlock)
    ensures 0 < s.used <= |g.hist| && s.tailBlock == g.hist[|g.hist| - 1] && g.win[Cur(s)].hi == |g.hist| - 2
  {
    hide Epoch, Start, Place;
    StartIsNat(0);
    StartNext(-1);
  }

  lemma ExposeHeader(headers: seq<Header>, win: seq<Window>, hist: seq<Block>, hd': Header, prFront: int, p: ProducerPc,
                     used: nat, tail: int, tailBlock: Block)
    requires Headers(headers, win, hist) && p.PublishFront? && 0 < used <= |hist| && tailBlock == hist[|hist| - 1]
    requires Current(headers[|headers| - 1], win[|headers| - 1], |hist|, used, prFront, p, tail, tailBlock)
    requires TailOk(p, tail, |hist|) && hd' == headers[|headers| - 1].(front := prFront)
    ensures Headers(headers[|headers| - 1 := hd'], win[|headers| - 1 := win[|headers| - 1].(hi := |hist| - 1)], hist)
  {
    hide Epoch, Start, Place;
    var c := |headers| - 1;
    var w' := win[c].(hi := |hist| - 1);
    assert HeaderOk(headers[c], win[c], hist);
    assert HeaderOk(hd', w', hist) by {
      forall k | w'.lo <= k <= w'.hi ensures hd'.entries[Slot(w', hd'.size, k)] == Entry(Start(k), hist[k]) {
        assert Slot(w', hd'.size, k) == Slot(win[c], headers[c].size, k);
      }
    }
    var headers', win' := headers[c := hd'], win[c := w'];
    forall h | 0 <= h < |headers'| ensures HeaderOk(headers'[h], win'[h], hist) {
      assert HeaderOk(headers[h], win[h], hist);
    }
  }

  lemma ExposeFlags(s: State, g: Ghost)
    requires Good(s, g) && s.ppc.PublishFront?
    ensures Flags(s.empty, s.cnt.pcs, s.walks, s.cnt.head, g.hist, |g.hist| - s.used, |g.hist| - 1)
  {
    hide Epoch, Start, Place;
    Layout();
    OD.InvSafe(s.cnt);
    hide Walks, Headers, Low, Data, Delivered, Counters;
    forall i: nat | Start(|g.hist| - s.used) <= i < Start(|g.hist|)
      ensures 0 <= Epoch(i) < |g.hist|
      ensures (g.hist[Epoch(i)], Flag(i)) in s.empty <==> Done(s.cnt.pcs, s.walks, s.cnt.head, i)
    {
      if i >= Start(|g.hist| - 1) {
        assert Epoch(i) == |g.hist| - 1 && (s.tailBlock, Flag(i)) !in s.empty;
      }
    }
  }

  lemma ConstructKeeps(s: State, s': State, g: Ghost)
    requires Good(s, g) && s.ppc.Construct? && Store(s, s')
    ensures Good(s', g)
  {
    hide Epoch, Start, Place, Walks, Headers, Low, Flags, Delivered, Counters, Data;
    ConstructUsed(s, g);
    ConstructData(s, s', g);
    hide Ring;
  }

  lemma ConstructUsed(s: State, g: Ghost)
    requires Ring(g.hist, s.used, s.tailBlock, s.next, s.mine) && TailOk(s.ppc, s.cnt.tail, |g.hist|)
      && s.ppc.Construct?
    ensures s.used > 0
  {
    hide Epoch, Start, Place;
    StartIsNat(0);
    hide Start;
  }

  lemma ConstructData(s: State, s': State, g: Ghost)
    requires Data(s.data, g.hist, |g.hist| - s.used, s.cnt.tail, s.log) && s.used > 0
    requires Ring(g.hist, s.used, s.tailBlock, s.next, s.mine) && TailOk(s.ppc, s.cnt.tail, |g.hist|)
    requires s.ppc.Construct? && Store(s, s')
    ensures Data(s'.data, g.hist, |g.hist| - s.used, s.cnt.tail, s.log)
  {
    hide Epoch, Start, Place;
    Layout();
  }

  lemma PublishTailKeeps(s: State, s': State, g: Ghost)
    requires Good(s, g) && s.ppc.PublishTail? && Store(s, s')
    ensures Good(s', g)
  {
    hide Epoch, Start, Place, Walks, Headers, Low, Flags, Delivered, Data, Ring, Counters, FlagScan, Current;
    HasBlock(s, g);
    EnqueueCounters(s.cnt);
    ReadyParts(s, s', g);
    PublishData(s, s', g);
    PublishOut(s, s');
  }

  lemma HasBlock(s: State, g: Ghost)
    requires Ring(g.hist, s.used, s.tailBlock, s.next, s.mine) && TailOk(s.ppc, s.cnt.tail, |g.hist|)
    requires Headers(s.headers, g.win, g.hist) && (s.ppc.Construct? || s.ppc.PublishTail?)
    ensures s.used > 0 && |g.win| == |s.headers| > 0
  {
    hide Epoch, Start, Place;
    StartIsNat(0);
  }

  lemma ReadyParts(s: State, s': State, g: Ghost)
    requires s.ppc.PublishTail? && Store(s, s') && |g.win| == |s.headers| > 0
    requires TailOk(s.ppc, s.cnt.tail, |g.hist|) && FlagScan(s.ppc, s.empty, s.tailBlock, s.next)
    requires Current(s.headers[|s.headers| - 1], g.win[|s.headers| - 1], |g.hist|, s.used, s.prFront, s.ppc,
      s.cnt.tail, s.tailBlock)
    ensures TailOk(s'.ppc, s'.cnt.tail, |g.hist|) && FlagScan(s'.ppc, s'.empty, s'.tailBlock, s'.next)
    ensures Current(s'.headers[|s.headers| - 1], g.win[|s.headers| - 1], |g.hist|, s'.used, s'.prFront, s'.ppc,
      s'.cnt.tail, s'.tailBlock)
  {
    hide Epoch, Start, Place;
  }

  lemma EnqueueCounters(c: OD.State)
    requires Counters(c)
    ensures Counters(c.(tail := c.tail + 1))
  {
    hide Epoch, Start, Place;
    assert OD.Enqueue(c, c.(tail := c.tail + 1), 1);
    OD.StepKeeps(c, c.(tail := c.tail + 1));
  }

  lemma PublishData(s: State, s': State, g: Ghost)
    requires Data(s.data, g.hist, |g.hist| - s.used, s.cnt.tail, s.log)
      && Pushed(s.ppc, s.data, s.tailBlock, s.cnt.tail)
    requires Ring(g.hist, s.used, s.tailBlock, s.next, s.mine) && TailOk(s.ppc, s.cnt.tail, |g.hist|) && s.used > 0
    requires s.ppc.PublishTail? && Store(s, s')
    ensures Data(s'.data, g.hist, |g.hist| - s'.used, s'.cnt.tail, s'.log)
  {
    hide Epoch, Start, Place;
    Layout();
  }

  lemma PublishOut(s: State, s': State)
    requires Delivered(s.out, s.log, s.cnt.head, s.cnt.pcs, s.walks) && s.ppc.PublishTail? && Store(s, s')
    ensures Delivered(s'.out, s'.log, s'.cnt.head, s'.cnt.pcs, s'.walks)
  {
    hide Epoch, Start, Place;
  }

  lemma ProduceKeeps(s: State, s': State, g: Ghost)
    requires Good(s, g) && Produce(s, s')
    ensures Inv(s')
  {
    hide Epoch, Start, Place, Good;
    if v :| Begin(s, s', v) {
      StartKeeps(s, s', v, g);
    } else if Look(s, s') {
      LookKeeps(s, s', g);
    } else if Reuse(s, s') {
      ReuseKeeps(s, s', g);
    } else if Refuse(s, s') {
      RefuseKeeps(s, s', g);
    } else if Grow(s, s') {
      GrowKeeps(s, s', g);
    } else if b :| Link(s, s', b) {
      LinkKeeps(s, s', b, g);
    } else if ResetFlag(s, s') {
      ResetFlagKeeps(s, s', g);
    } else if FillIndex(s, s') {
      FillIndexKeeps(s, s', g);
    } else if s.ppc.Construct? {
      ConstructKeeps(s, s', g);
    } else {
      PublishTailKeeps(s, s', g);
    }
  }

  // ------------------------------------------------------------------------------------------
  // Consumer steps
  // ------------------------------------------------------------------------------------------

  /** Thread t moves without changing what it has pending or unmoved. */
  ghost predicate SameClaims(s: State, s': State, t: nat)
  {
    && |s.cnt.pcs| == |s.walks| == |s'.cnt.pcs| == |s'.walks| && t < |s.walks|
    && s'.cnt.pcs == s.cnt.pcs[t := s'.cnt.pcs[t]] && s'.walks == s.walks[t := s'.walks[t]]
    && s'.cnt.head == s.cnt.head
    && (forall i :: Pending(s'.cnt.pcs[t], s'.walks[t], i) == Pending(s.cnt.pcs[t], s.walks[t], i))
    && (forall i :: Unmoved(s'.cnt.pcs[t], s'.walks[t], i) == Unmoved(s.cnt.pcs[t], s.walks[t], i))
  }

  lemma SameClaimsKeep(s: State, s': State, t: nat, hist: seq<Block>, lo: int, hi: int)
    requires SameClaims(s, s', t) && s'.out == s.out && s'.log == s.log && s'.empty == s.empty
    requires Low(s.cnt.pcs, s.walks, s.cnt.head, lo) && Delivered(s.out, s.log, s.cnt.head, s.cnt.pcs, s.walks)
    requires Flags(s.empty, s.cnt.pcs, s.walks, s.cnt.head, hist, lo, hi)
    ensures Low(s'.cnt.pcs, s'.walks, s'.cnt.head, lo) && Delivered(s'.out, s'.log, s'.cnt.head, s'.cnt.pcs, s'.walks)
    ensures Flags(s'.empty, s'.cnt.pcs, s'.walks, s'.cnt.head, hist, lo, hi)
  {
    hide Epoch, Start, Place;
    SameUnmoved(s, s', t);
    assert forall i :: Done(s'.cnt.pcs, s'.walks, s'.cnt.head, i) == Done(s.cnt.pcs, s.walks, s.cnt.head, i) by {
      SameDone(s, s', t);
    }
  }

  lemma SameDone(s: State, s': State, t: nat)
    requires SameClaims(s, s', t)
    ensures forall i :: Done(s'.cnt.pcs, s'.walks, s'.cnt.head, i) == Done(s.cnt.pcs, s.walks, s.cnt.head, i)
  {
    hide Epoch, Start, Place;
    assert forall u, i: nat | 0 <= u < |s.walks| :: Pending(s'.cnt.pcs[u], s'.walks[u], i) == Pending(s.cnt.pcs[u],
        s.walks[u], i);
  }

  lemma SameUnmoved(s: State, s': State, t: nat)
    requires SameClaims(s, s', t) && s'.out == s.out && s'.log == s.log
    requires Delivered(s.out, s.log, s.cnt.head, s.cnt.pcs, s.walks)
    ensures Delivered(s'.out, s'.log, s'.cnt.head, s'.cnt.pcs, s'.walks)
  {
    hide Epoch, Start, Place;
    assert forall u, i: nat | 0 <= u < |s.walks| :: Unmoved(s'.cnt.pcs[u], s'.walks[u], i) == Unmoved(s.cnt.pcs[u],
        s.walks[u], i);
    forall i: nat | i < s.cnt.head && i !in s.out
      ensures exists u :: 0 <= u < |s'.cnt.pcs| && u < |s'.walks| && Unmoved(s'.cnt.pcs[u], s'.walks[u], i)
    {
      var u :| 0 <= u < |s.cnt.pcs| && u < |s.walks| && Unmoved(s.cnt.pcs[u], s.walks[u], i);
      assert Unmoved(s'.cnt.pcs[u], s'.walks[u], i);
    }
  }

  lemma OneWalk(s: State, s': State, t: nat, g: Ghost)
    requires Walks(s.cnt.pcs, s.walks, s.headers, g.win, g.hist) && t < |s.walks|
    requires |s'.cnt.pcs| == |s.cnt.pcs| && |s'.walks| == |s.walks| && s'.headers == s.headers
    requires s'.cnt.pcs == s.cnt.pcs[t := s'.cnt.pcs[t]] && s'.walks == s.walks[t := s'.walks[t]]
    requires WalkOk(s'.cnt.pcs[t], s'.walks[t], s.headers, g.win, g.hist)
    ensures Walks(s'.cnt.pcs, s'.walks, s'.headers, g.win, g.hist)
  {
    hide Epoch, Start, Place;
    forall u | 0 <= u < |s.walks| ensures WalkOk(s'.cnt.pcs[u], s'.walks[u], s'.headers, g.win, g.hist) {
      assert u != t ==> WalkOk(s.cnt.pcs[u], s.walks[u], s.headers, g.win, g.hist);
    }
  }

  /** A consumer step that moves only its own position on. */
  lemma WalkStep(s: State, s': State, t: nat, g: Ghost)
    requires Good(s, g) && SameClaims(s, s', t)
    requires s' == s.(cnt := s'.cnt, walks := s'.walks) && s'.cnt.tail == s.cnt.tail && Counters(s'.cnt)
    requires |s.headers| == |g.win| > 0 && (forall h | 0 <= h < |s.headers| :: s.headers[h].size > 0)
    requires WalkOk(s'.cnt.pcs[t], s'.walks[t], s.headers, g.win, g.hist)
    ensures Good(s', g)
  {
    hide Epoch, Start, Place, Walks, Headers, Low, Flags, Data, Delivered, Counters, Ring, SameClaims, WalkOk,
        FlagScan, Current;
    SameClaimsKeep(s, s', t, g.hist, |g.hist| - s.used, g.win[|s.headers| - 1].hi);
    WalkStepWalks(s, s', t, g);
  }

  lemma WalkStepWalks(s: State, s': State, t: nat, g: Ghost)
    requires SameClaims(s, s', t) && Walks(s.cnt.pcs, s.walks, s.headers, g.win, g.hist) && s'.headers == s.headers
    requires WalkOk(s'.cnt.pcs[t], s'.walks[t], s.headers, g.win, g.hist)
    ensures Walks(s'.cnt.pcs, s'.walks, s'.headers, g.win, g.hist)
  {
    hide Epoch, Start, Place;
    OneWalk(s, s', t, g);
  }

  /** What the invariant says about thread t. */
  lemma WalkFacts(s: State, t: nat, g: Ghost)
    requires Good(s, g) && t < |s.walks|
    ensures |s.headers| == |g.win| > 0 && |s.walks| == |s.cnt.pcs|
      && (forall h | 0 <= h < |s.headers| :: s.headers[h].size > 0)
    ensures WalkOk(s.cnt.pcs[t], s.walks[t], s.headers, g.win, g.hist)
    ensures OD.Inv(s.cnt)
    ensures s.cnt.head <= s.cnt.tail <= Start(g.win[|g.win| - 1].hi + 1)
    ensures s.cnt.pcs[t].Claimed? ==> s.cnt.pcs[t].first + s.cnt.pcs[t].count <= s.cnt.head
    ensures forall i | Pending(s.cnt.pcs[t], s.walks[t], i) :: Start(g.win[|g.win| - 1].lo) <= i
  {
    hide Epoch, Start, Place, Headers, Flags, Data, Delivered, Ring, WalkOk, FlagScan;
    OD.InvSafe(s.cnt);
  }

  lemma CountKeeps(s: State, s': State, t: nat, g: Ghost)
    requires Good(s, g) && Count(s, s', t)
    ensures Good(s', g)
  {
    hide Epoch, Start, Place;
    assert |s.walks| == |s.cnt.pcs|;
    hide Walks, Headers, Low, Flags, Data, Delivered, Ring;
    WalkFacts(s, t, g);
    CountOnly(s, s', t);
    WalkStep(s, s', t, g);
  }

  lemma CountOnly(s: State, s': State, t: nat)
    requires Count(s, s', t) && |s.walks| == |s.cnt.pcs| && s.walks[t] == Out && Counters(s.cnt)
    ensures SameClaims(s, s', t) && !s'.cnt.pcs[t].Claimed? && s'.cnt.tail == s.cnt.tail && Counters(s'.cnt)
  {
    hide Epoch, Start, Place;
    assert OD.Step(s.cnt, s'.cnt);
    OD.StepKeeps(s.cnt, s'.cnt);
    hide OD.Inv, OD.Step;
    CountFrame(s.cnt, s'.cnt, t);
  }

  lemma CountFrame(c: OD.State, c': OD.State, t: nat)
    requires t < |c.pcs| && !c.pcs[t].Claim? && !c.pcs[t].Claimed?
    requires (exists max :: OD.Begin(c, c', t, max)) || OD.Dequeue(c, c', t)
    ensures |c'.pcs| == |c.pcs| && c'.pcs == c.pcs[t := c'.pcs[t]] && c'.head == c.head && c'.tail == c.tail
    ensures !c'.pcs[t].Claimed?
  {
    hide Epoch, Start, Place;
  }

  lemma SearchKeeps(s: State, s': State, t: nat, g: Ghost)
    requires Good(s, g) && Search(s, s', t)
    ensures Good(s', g)
  {
    hide Epoch, Start, Place, Walks, Headers, Low, Flags, Data, Delivered, Ring, FlagScan, Current, Counters, WalkOk;
    WalkFacts(s, t, g);
    match s.walks[t]
    case LoadIndex =>
      IndexFinds(s, t, g);
      PositionKeeps(s, s', t, LoadFront(Cur(s)), g);
    case LoadFront(h) =>
      FrontFinds(s, t, h, g);
      PositionKeeps(s, s', t, LoadBase(h, s.headers[h].front), g);
    case LoadBase(h, f) =>
      BaseFinds(s, t, h, f, g);
      PositionKeeps(s, s', t, s'.walks[t], g);
  }

  predicate Searching(w: Walk, first: nat) { w.LoadIndex? || w.LoadFront? || w.LoadBase?
      || (w.LoadBlock? && w.idx == first) }

  /** The search changes nothing but the position. */
  lemma PositionKeeps(s: State, s': State, t: nat, w: Walk, g: Ghost)
    requires Good(s, g) && t < |s.walks| && s' == GotoWalk(s, t, w)
    requires |s.headers| == |g.win| > 0 && |s.walks| == |s.cnt.pcs|
      && (forall h | 0 <= h < |s.headers| :: s.headers[h].size > 0)
    requires s.cnt.pcs[t].Claimed? && Searching(s.walks[t], s.cnt.pcs[t].first) && Searching(w, s.cnt.pcs[t].first)
    requires WalkOk(s.cnt.pcs[t], w, s.headers, g.win, g.hist)
    ensures Good(s', g)
  {
    hide Epoch, Start, Place, Walks, Headers, Low, Flags, Data, Delivered, Ring, WalkOk, FlagScan, Current, Counters,
        SameClaims;
    PositionSame(s, s', t, w);
    WalkStep(s, s', t, g);
  }

  lemma PositionSame(s: State, s': State, t: nat, w: Walk)
    requires |s.walks| == |s.cnt.pcs| && t < |s.walks| && s.cnt.pcs[t].Claimed? && s' == GotoWalk(s, t, w)
    requires Searching(s.walks[t], s.cnt.pcs[t].first) && Searching(w, s.cnt.pcs[t].first)
    ensures SameClaims(s, s', t)
  {
    hide Epoch, Start, Place;
  }

  lemma IndexFinds(s: State, t: nat, g: Ghost)
    requires Good(s, g) && t < |s.walks| && s.walks[t] == LoadIndex
    requires |s.headers| == |g.win| > 0 && t < |s.cnt.pcs| && (forall h | 0 <= h < |s.headers| :: s.headers[h].size > 0)
    ensures WalkOk(s.cnt.pcs[t], LoadFront(Cur(s)), s.headers, g.win, g.hist)
  {
    hide Epoch, Start, Place, Walks, Headers, Low, Flags, Data, Delivered, Ring, FlagScan, Current, Counters;
    WalkFacts(s, t, g);
    assert Pending(s.cnt.pcs[t], LoadIndex, s.cnt.pcs[t].first);
  }

  lemma FrontFinds(s: State, t: nat, h: nat, g: Ghost)
    requires Headers(s.headers, g.win, g.hist) && (forall h | 0 <= h < |s.headers| :: s.headers[h].size > 0)
    requires t < |s.walks| && t < |s.cnt.pcs| && s.walks[t] == LoadFront(h)
    requires WalkOk(s.cnt.pcs[t], s.walks[t], s.headers, g.win, g.hist)
    ensures WalkOk(s.cnt.pcs[t], LoadBase(h, s.headers[h].front), s.headers, g.win, g.hist)
  {
    hide Epoch, Start, Place;
    Layout();
    assert HeaderOk(s.headers[h], g.win[h], g.hist);
    assert Epoch(s.cnt.pcs[t].first) <= g.win[h].hi;
    assert s.headers[h].front == Slot(g.win[h], s.headers[h].size, g.win[h].hi);
  }

  /** The index arithmetic leads from the front slot to the slot of the claimed index. */
  lemma BaseFinds(s: State, t: nat, h: nat, f: int, g: Ghost)
    requires Headers(s.headers, g.win, g.hist) && (forall h | 0 <= h < |s.headers| :: s.headers[h].size > 0)
    requires t < |s.walks| && t < |s.cnt.pcs| && s.walks[t] == LoadBase(h, f)
    requires WalkOk(s.cnt.pcs[t], s.walks[t], s.headers, g.win, g.hist)
    ensures 0 <= f < |s.headers[h].entries|
    ensures var first := s.cnt.pcs[t].first;
            var offset := Blocks(Start(Epoch(first)) - s.headers[h].entries[f].base);
            WalkOk(s.cnt.pcs[t], LoadBlock(h, (f + offset) % s.headers[h].size, first), s.headers, g.win, g.hist)
  {
    hide Epoch, Start, Place, HeaderOk, Blocks, Slot;
    var first := s.cnt.pcs[t].first;
    var k :| Epoch(first) <= k <= g.win[h].hi && f == Slot(g.win[h], s.headers[h].size, k);
    AtOrAfter(g.win[h].lo, first);
    EntryOf(s.headers[h], g.win[h], g.hist, k);
    SlotOfOffset(s.headers[h], g.win[h], g.hist, k, Epoch(first), f);
  }

  lemma SlotOfOffset(hd: Header, w: Window, hist: seq<Block>, k: int, e: int, f: int)
    requires HeaderOk(hd, w, hist) && w.lo <= e <= k <= w.hi && f == Slot(w, hd.size, k)
    ensures (f + Blocks(Start(e) - hd.entries[f].base)) % hd.size == Slot(w, hd.size, e)
  {
    hide Epoch, Start, Place, HeaderOk, Blocks;
    EntryOf(hd, w, hist, k);
    BlocksBetween(e, k);
    RemAdd(k - w.org, e - k, hd.size);
  }

  lemma LoadBlockKeeps(s: State, s': State, t: nat, g: Ghost)
    requires Good(s, g) && t < |s.walks| && s.walks[t].LoadBlock? && Drain(s, s', t)
    ensures Good(s', g)
  {
    hide Epoch, Start, Place, Walks, Headers, Low, Flags, Data, Delivered, Ring, WalkOk, HeaderOk, FlagScan, Current;
    WalkFacts(s, t, g);
    LoadBlockWalk(s, s', t, g);
    assert SameClaims(s, s', t);
    hide SameClaims;
    WalkStep(s, s', t, g);
  }

  lemma LoadBlockWalk(s: State, s': State, t: nat, g: Ghost)
    requires Headers(s.headers, g.win, g.hist) && t < |s.walks| && s.walks[t].LoadBlock? && Drain(s, s', t)
    requires |s.headers| == |g.win| > 0 && (forall h | 0 <= h < |s.headers| :: s.headers[h].size > 0)
    requires WalkOk(s.cnt.pcs[t], s.walks[t], s.headers, g.win, g.hist)
    ensures WalkOk(s'.cnt.pcs[t], s'.walks[t], s.headers, g.win, g.hist)
  {
    hide Epoch, Start, Place;
    Layout();
    var w := s.walks[t];
    assert HeaderOk(s.headers[w.h], g.win[w.h], g.hist);
    PartNotEmpty(w.idx, s.cnt.pcs[t].first + s.cnt.pcs[t].count);
    EntryOf(s.headers[w.h], g.win[w.h], g.hist, Epoch(w.idx));
    hide HeaderOk, Headers;
  }

  lemma PartNotEmpty(from: nat, end: nat)
    requires from < end
    ensures from < PartEnd(from, end) <= end
  {
    hide Epoch, Start, Place;
    Layout();
  }

  lemma EntryOf(hd: Header, w: Window, hist: seq<Block>, k: int)
    requires HeaderOk(hd, w, hist) && w.lo <= k <= w.hi
    ensures hd.size > 0 && 0 <= Slot(w, hd.size, k) < |hd.entries|
      && hd.entries[Slot(w, hd.size, k)] == Entry(Start(k), hist[k])
  {
    hide Epoch, Start, Place;
  }

  lemma LeaveKeeps(s: State, s': State, t: nat, g: Ghost)
    requires Good(s, g) && Leave(s, s', t)
    ensures Good(s', g)
  {
    hide Epoch, Start, Place;
    WalkFacts(s, t, g);
    LeaveSame(s, s', t, g);
    LeaveOk(s, s', t, g);
    hide Walks, Headers, Low, Flags, Data, Delivered, Ring, FlagScan, Current, SameClaims, WalkOk, Counters, OD.Dequeue;
    WalkStep(s, s', t, g);
  }

  lemma LeaveOk(s: State, s': State, t: nat, g: Ghost)
    requires Leave(s, s', t) && Counters(s.cnt)
    requires |s.headers| == |g.win| > 0 && (forall h | 0 <= h < |s.headers| :: s.headers[h].size > 0)
    requires WalkOk(s.cnt.pcs[t], s.walks[t], s.headers, g.win, g.hist)
    ensures Counters(s'.cnt) && s'.cnt.tail == s.cnt.tail && t < |s'.cnt.pcs|
    ensures WalkOk(s'.cnt.pcs[t], s'.walks[t], s.headers, g.win, g.hist)
  {
    hide Epoch, Start, Place, OD.Inv, Counters;
    if s.walks[t].end < s.cnt.pcs[t].first + s.cnt.pcs[t].count {
      NextSlot(s, t, s.walks[t], g);
    } else {
      hide OD.Dequeue;
      LeaveEnd(s, s', t);
    }
  }

  lemma LeaveEnd(s: State, s': State, t: nat)
    requires Counters(s.cnt) && t < |s.cnt.pcs| && s.cnt.pcs[t].Claimed? && OD.Dequeue(s.cnt, s'.cnt, t)
    ensures Counters(s'.cnt) && s'.cnt.tail == s.cnt.tail && t < |s'.cnt.pcs| && !s'.cnt.pcs[t].Claimed?
  {
    OD.StepKeeps(s.cnt, s'.cnt);
    LeaveCounters(s, s', t);
  }

  lemma LeaveCounters(s: State, s': State, t: nat)
    requires Counters(s.cnt) && t < |s.cnt.pcs| && s.cnt.pcs[t].Claimed? && OD.Dequeue(s.cnt, s'.cnt, t)
      && OD.Inv(s'.cnt)
    ensures Counters(s'.cnt) && s'.cnt.tail == s.cnt.tail
  {
    hide Epoch, Start, Place, OD.Inv;
  }

  lemma LeaveSame(s: State, s': State, t: nat, g: Ghost)
    requires Leave(s, s', t) && |s.walks| == |s.cnt.pcs|
    requires |s.headers| == |g.win| > 0 && (forall h | 0 <= h < |s.headers| :: s.headers[h].size > 0)
    requires WalkOk(s.cnt.pcs[t], s.walks[t], s.headers, g.win, g.hist)
    ensures SameClaims(s, s', t)
  {
    hide Epoch, Start, Place;
  }

  /** A part of a range lies in one block, and if the range goes on, it goes on in the next block. */
  lemma PartIn(from: nat, end: nat, idx: nat)
    requires from <= idx < PartEnd(from, end)
    ensures 0 <= Epoch(idx) == Epoch(from)
  {
    hide Epoch, Start, Place;
    Layout();
    StartNext(Epoch(from));
    StartIsNat(0);
  }

  lemma PartOut(from: nat, end: nat)
    requires PartEnd(from, end) < end
    ensures Epoch(PartEnd(from, end)) == Epoch(from) + 1
  {
    hide Epoch, Start, Place;
    Layout();
    StartNext(Epoch(from));
  }

  lemma NextSlot(s: State, t: nat, w: Walk, g: Ghost)
    requires t < |s.walks| && t < |s.cnt.pcs| && w == s.walks[t] && w.Mark?
    requires |s.headers| == |g.win| > 0 && (forall h | 0 <= h < |s.headers| :: s.headers[h].size > 0)
    requires WalkOk(s.cnt.pcs[t], w, s.headers, g.win, g.hist)
    requires w.end < s.cnt.pcs[t].first + s.cnt.pcs[t].count
    ensures WalkOk(s.cnt.pcs[t], LoadBlock(w.h, (w.slot + 1) % s.headers[w.h].size, w.end), s.headers, g.win, g.hist)
  {
    hide Epoch, Start, Place;
    RemAdd(Epoch(w.from) - g.win[w.h].org, 1, s.headers[w.h].size);
    PartOut(w.from, s.cnt.pcs[t].first + s.cnt.pcs[t].count);
  }

  /** Claiming: the new range starts at the head, above everything claimed before. */
  lemma ClaimKeeps(s: State, s': State, t: nat, g: Ghost)
    requires Good(s, g) && ClaimRange(s, s', t)
    ensures Good(s', g)
  {
    hide Epoch, Start, Place, Walks, Low, Flags, Delivered, Counters, Headers, Data, Ring, FlagScan, Current, Pushed,
        TailOk, OD.Inv, OD.Dequeue, WalkOk;
    ClaimReady(s, s', t, g);
    ClaimSets(s, s', t, g.hist, |g.hist| - s.used, g.win[|s.headers| - 1].hi);
    OneWalk(s, s', t, g);
  }

  lemma ClaimReady(s: State, s': State, t: nat, g: Ghost)
    requires Good(s, g) && ClaimRange(s, s', t)
    ensures |s.walks| == |s.cnt.pcs| && |s'.walks| == |s.walks| && |s'.cnt.pcs| == |s.cnt.pcs|
      && |s.headers| == |g.win| > 0
    ensures Counters(s'.cnt) && s'.cnt.tail == s.cnt.tail && s'.cnt.head == s.cnt.head + s.cnt.pcs[t].got
    ensures s.cnt.pcs[t].got >= 1
    ensures s'.cnt.pcs == s.cnt.pcs[t := OD.Claimed(s.cnt.head, s.cnt.pcs[t].got)]
    ensures WalkOk(s'.cnt.pcs[t], s'.walks[t], s.headers, g.win, g.hist)
  {
    hide Epoch, Start, Place, Walks, Low, Flags, Delivered, Counters, Headers, Data, Ring, FlagScan, Current, Pushed,
        TailOk, OD.Inv, OD.Dequeue;
    ClaimShape(s, g);
    WalkFacts(s, t, g);
    OD.StepKeeps(s.cnt, s'.cnt);
    ClaimCounters(s, s', t);
  }

  lemma ClaimShape(s: State, g: Ghost)
    requires Walks(s.cnt.pcs, s.walks, s.headers, g.win, g.hist)
    ensures |s.walks| == |s.cnt.pcs|
  {
    hide Epoch, Start, Place;
  }

  lemma ClaimCounters(s: State, s': State, t: nat)
    requires Counters(s.cnt) && ClaimRange(s, s', t) && OD.Inv(s'.cnt)
    ensures Counters(s'.cnt) && s'.cnt.tail == s.cnt.tail && s'.cnt.head == s.cnt.head + s.cnt.pcs[t].got
    ensures s.cnt.pcs[t].got >= 1
    ensures s'.cnt.pcs == s.cnt.pcs[t := OD.Claimed(s.cnt.head, s.cnt.pcs[t].got)]
  {
    hide Epoch, Start, Place, OD.Inv;
  }

  lemma ClaimSets(s: State, s': State, t: nat, hist: seq<Block>, lo: int, hi: int)
    requires |s.cnt.pcs| == |s.walks| && t < |s.walks| && s.cnt.pcs[t].Claim? && s.cnt.pcs[t].got >= 1
    requires s'.cnt.pcs == s.cnt.pcs[t := OD.Claimed(s.cnt.head, s.cnt.pcs[t].got)]
      && s'.walks == s.walks[t := LoadIndex]
    requires s'.cnt.head == s.cnt.head + s.cnt.pcs[t].got && s'.out == s.out && s'.log == s.log && s'.empty == s.empty
    requires Low(s.cnt.pcs, s.walks, s.cnt.head, lo) && Delivered(s.out, s.log, s.cnt.head, s.cnt.pcs, s.walks)
    requires Flags(s.empty, s.cnt.pcs, s.walks, s.cnt.head, hist, lo, hi)
    ensures Low(s'.cnt.pcs, s'.walks, s'.cnt.head, lo) && Delivered(s'.out, s'.log, s'.cnt.head, s'.cnt.pcs, s'.walks)
    ensures Flags(s'.empty, s'.cnt.pcs, s'.walks, s'.cnt.head, hist, lo, hi)
  {
    hide Epoch, Start, Place;
    assert forall i: nat :: Done(s'.cnt.pcs, s'.walks, s'.cnt.head, i) == Done(s.cnt.pcs, s.walks, s.cnt.head, i) by {
      ClaimDone(s, s', t);
    }
    assert Flags(s'.empty, s'.cnt.pcs, s'.walks, s'.cnt.head, hist, lo, hi);
    hide Flags, Done;
    ClaimDelivered(s, s', t);
  }

  lemma ClaimDone(s: State, s': State, t: nat)
    requires |s.cnt.pcs| == |s.walks| && t < |s.walks| && s.cnt.pcs[t].Claim?
    requires s'.cnt.pcs == s.cnt.pcs[t := OD.Claimed(s.cnt.head, s.cnt.pcs[t].got)]
      && s'.walks == s.walks[t := LoadIndex]
    requires s'.cnt.head == s.cnt.head + s.cnt.pcs[t].got
    ensures forall i: nat :: Done(s'.cnt.pcs, s'.walks, s'.cnt.head, i) == Done(s.cnt.pcs, s.walks, s.cnt.head, i)
  {
    hide Epoch, Start, Place;
    forall i: nat ensures Done(s'.cnt.pcs, s'.walks, s'.cnt.head, i) == Done(s.cnt.pcs, s.walks, s.cnt.head, i) {
      assert s.cnt.head <= i < s'.cnt.head ==> Pending(s'.cnt.pcs[t], s'.walks[t], i);
      assert forall u | 0 <= u < |s.walks| && u != t :: Pending(s'.cnt.pcs[u], s'.walks[u], i) == Pending(s.cnt.pcs[u],
          s.walks[u], i);
      assert i < s.cnt.head ==> !Pending(s'.cnt.pcs[t], s'.walks[t], i) && !Pending(s.cnt.pcs[t], s.walks[t], i);
    }
  }

  lemma ClaimDelivered(s: State, s': State, t: nat)
    requires |s.cnt.pcs| == |s.walks| && t < |s.walks| && s.cnt.pcs[t].Claim?
    requires s'.cnt.pcs == s.cnt.pcs[t := OD.Claimed(s.cnt.head, s.cnt.pcs[t].got)]
      && s'.walks == s.walks[t := LoadIndex]
    requires s'.cnt.head == s.cnt.head + s.cnt.pcs[t].got && s'.out == s.out && s'.log == s.log
    requires Delivered(s.out, s.log, s.cnt.head, s.cnt.pcs, s.walks)
    ensures Delivered(s'.out, s'.log, s'.cnt.head, s'.cnt.pcs, s'.walks)
  {
    hide Epoch, Start, Place;
    forall i: nat | i < s'.cnt.head && i !in s'.out
      ensures exists u :: 0 <= u < |s'.cnt.pcs| && u < |s'.walks| && Unmoved(s'.cnt.pcs[u], s'.walks[u], i)
    {
      if i >= s.cnt.head {
        assert Unmoved(s'.cnt.pcs[t], s'.walks[t], i);
      } else {
        var u :| 0 <= u < |s.cnt.pcs| && u < |s.walks| && Unmoved(s.cnt.pcs[u], s.walks[u], i);
        assert Unmoved(s'.cnt.pcs[u], s'.walks[u], i);
      }
    }
  }

  /** Moving an element out delivers exactly the value enqueued at its index, and only once. */
  lemma MoveKeeps(s: State, s': State, t: nat, g: Ghost)
    requires Good(s, g) && t < |s.walks| && s.walks[t].Move? && Drain(s, s', t)
    ensures Good(s', g)
  {
    hide Epoch, Start, Place, Walks, Headers, Low, Flags, Data, Delivered, Ring, FlagScan, Current, Counters, WalkOk,
        Pushed;
    WalkFacts(s, t, g);
    MoveFinds(s, t, g);
    MoveWalk(s, s', t, g);
    OneWalk(s, s', t, g);
    SamePending(s, s', t, g.hist, |g.hist| - s.used, g.win[|s.headers| - 1].hi);
    MoveDelivered(s, s', t);
  }

  lemma MoveFinds(s: State, t: nat, g: Ghost)
    requires Good(s, g) && t < |s.walks| && s.walks[t].Move?
    ensures var w := s.walks[t];
      && (w.b, Place(w.idx)) in s.data && w.idx < |s.log| && s.data[(w.b, Place(w.idx))] == s.log[w.idx]
      && w.idx < s.cnt.head
  {
    hide Epoch, Start, Place, Headers, Flags, Delivered, Counters, Pushed, FlagScan, Low, Ring, TailOk;
    WalkFacts(s, t, g);
    var w := s.walks[t];
    var p := s.cnt.pcs[t];
    PartIn(w.from, p.first + p.count, w.idx);
    assert Pending(p, w, w.idx);
    hide Walks;
  }

  lemma MoveWalk(s: State, s': State, t: nat, g: Ghost)
    requires t < |s.walks| && s.walks[t].Move? && Drain(s, s', t)
    requires |s.headers| == |g.win| > 0 && (forall h | 0 <= h < |s.headers| :: s.headers[h].size > 0)
    requires WalkOk(s.cnt.pcs[t], s.walks[t], s.headers, g.win, g.hist)
    ensures WalkOk(s'.cnt.pcs[t], s'.walks[t], s.headers, g.win, g.hist)
    ensures forall i :: Pending(s'.cnt.pcs[t], s'.walks[t], i) == Pending(s.cnt.pcs[t], s.walks[t], i)
    ensures forall i ::
              Unmoved(s'.cnt.pcs[t], s'.walks[t], i) == (Unmoved(s.cnt.pcs[t], s.walks[t], i) && i != s.walks[t].idx)
    ensures Unmoved(s.cnt.pcs[t], s.walks[t], s.walks[t].idx)
  {
    hide Epoch, Start, Place;
    Layout();
  }

  lemma SamePending(s: State, s': State, t: nat, hist: seq<Block>, lo: int, hi: int)
    requires |s.walks| == |s.cnt.pcs| && t < |s.walks| && s'.cnt == s.cnt && |s'.walks| == |s.walks|
    requires s'.walks == s.walks[t := s'.walks[t]] && s'.empty == s.empty
    requires forall i :: Pending(s'.cnt.pcs[t], s'.walks[t], i) == Pending(s.cnt.pcs[t], s.walks[t], i)
    requires Low(s.cnt.pcs, s.walks, s.cnt.head, lo) && Flags(s.empty, s.cnt.pcs, s.walks, s.cnt.head, hist, lo, hi)
    ensures Low(s'.cnt.pcs, s'.walks, s'.cnt.head, lo) && Flags(s'.empty, s'.cnt.pcs, s'.walks, s'.cnt.head, hist, lo,
      hi)
  {
    hide Epoch, Start, Place;
    assert forall u, i: nat | 0 <= u < |s.walks| :: Pending(s'.cnt.pcs[u], s'.walks[u], i) == Pending(s.cnt.pcs[u],
        s.walks[u], i);
    assert forall i :: Done(s'.cnt.pcs, s'.walks, s'.cnt.head, i) == Done(s.cnt.pcs, s.walks, s.cnt.head, i);
  }

  lemma MoveDelivered(s: State, s': State, t: nat)
    requires Delivered(s.out, s.log, s.cnt.head, s.cnt.pcs, s.walks) && OD.Inv(s.cnt)
    requires |s.walks| == |s.cnt.pcs| && t < |s.walks| && s'.cnt == s.cnt && |s'.walks| == |s.walks|
    requires s'.walks == s.walks[t := s'.walks[t]] && s'.log == s.log
    requires s.walks[t].Move? && Unmoved(s.cnt.pcs[t], s.walks[t], s.walks[t].idx)
    requires forall i ::
               Unmoved(s'.cnt.pcs[t], s'.walks[t], i) == (Unmoved(s.cnt.pcs[t], s.walks[t], i) && i != s.walks[t].idx)
    requires s.walks[t].idx < s.cnt.head && s.walks[t].idx < |s.log|
      && s'.out == s.out[s.walks[t].idx := s.log[s.walks[t].idx]]
    ensures Delivered(s'.out, s'.log, s'.cnt.head, s'.cnt.pcs, s'.walks)
  {
    hide Epoch, Start, Place, OD.Inv, OD.Ranges;
    var idx := s.walks[t].idx;
    OD.InvSafe(s.cnt);
    NobodyElseClaims(s.cnt, t, idx);
    forall u, i: nat | 0 <= u < |s.walks| && Unmoved(s'.cnt.pcs[u], s'.walks[u], i) ensures i !in s'.out {
      assert Unmoved(s.cnt.pcs[u], s.walks[u], i);
    }
    forall i: nat | i < s.cnt.head && i !in s'.out
      ensures exists u :: 0 <= u < |s'.cnt.pcs| && u < |s'.walks| && Unmoved(s'.cnt.pcs[u], s'.walks[u], i)
    {
      var u :| 0 <= u < |s.cnt.pcs| && u < |s.walks| && Unmoved(s.cnt.pcs[u], s.walks[u], i);
      assert Unmoved(s'.cnt.pcs[u], s'.walks[u], i);
    }
  }

  /** An index in the claimed range of thread t is in no other thread's. */
  lemma NobodyElseClaims(c: OD.State, t: nat, i: nat)
    requires OD.Ranges(c) && t < |c.pcs| && c.pcs[t].Claimed? && c.pcs[t].first <= i < c.pcs[t].first + c.pcs[t].count
    ensures forall u | 0 <= u < |c.pcs| && u != t && c.pcs[u].Claimed? ::
      !(c.pcs[u].first <= i < c.pcs[u].first + c.pcs[u].count)
  {
    hide Epoch, Start, Place;
  }

  /** Setting a flag, which was clear: the index becomes done and no other flag is touched. */
  lemma MarkKeeps(s: State, s': State, t: nat, g: Ghost)
    requires Good(s, g) && t < |s.walks| && s.walks[t].Mark? && Drain(s, s', t)
    ensures Good(s', g)
  {
    hide Epoch, Start, Place, Walks, Headers, Low, Flags, Data, Delivered, Ring, FlagScan, Current, Counters, Done,
        WalkOk, Pushed, FlagWasClear, TailOk;
    WalkFacts(s, t, g);
    MarkScan(s, s', t, g);
    MarkWalk(s, s', t, g);
    MarkFlags(s, s', t, g);
    OneWalk(s, s', t, g);
    MarkRest(s, s', t, |g.hist| - s.used);
  }

  lemma MarkWalk(s: State, s': State, t: nat, g: Ghost)
    requires t < |s.walks| && s.walks[t].Mark? && Drain(s, s', t)
    requires |s.headers| == |g.win| > 0 && (forall h | 0 <= h < |s.headers| :: s.headers[h].size > 0)
    requires WalkOk(s.cnt.pcs[t], s.walks[t], s.headers, g.win, g.hist)
    ensures WalkOk(s'.cnt.pcs[t], s'.walks[t], s.headers, g.win, g.hist)
    ensures var x := s.walks[t].end - 1 - s.walks[t].j;
      && x >= 0 && Pending(s.cnt.pcs[t], s.walks[t], x)
      && 0 <= Epoch(x) < |g.hist| && s.walks[t].b == g.hist[Epoch(x)]
          && s'.empty == s.empty + {(g.hist[Epoch(x)], Flag(x))}
      && (forall i :: Pending(s'.cnt.pcs[t], s'.walks[t], i) == (Pending(s.cnt.pcs[t], s.walks[t], i) && i != x))
    ensures forall i :: Unmoved(s'.cnt.pcs[t], s'.walks[t], i) == Unmoved(s.cnt.pcs[t], s.walks[t], i)
  {
    hide Epoch, Start, Place;
    var p, w := s.cnt.pcs[t], s.walks[t];
    PartIn(w.from, p.first + p.count, w.end - 1 - w.j);
  }

  lemma MarkRest(s: State, s': State, t: nat, lo: int)
    requires |s.walks| == |s.cnt.pcs| && t < |s.walks| && s'.cnt == s.cnt && |s'.walks| == |s.walks|
    requires s'.walks == s.walks[t := s'.walks[t]] && s'.out == s.out && s'.log == s.log
    requires forall i :: Pending(s'.cnt.pcs[t], s'.walks[t], i) ==> Pending(s.cnt.pcs[t], s.walks[t], i)
    requires forall i :: Unmoved(s'.cnt.pcs[t], s'.walks[t], i) == Unmoved(s.cnt.pcs[t], s.walks[t], i)
    requires Low(s.cnt.pcs, s.walks, s.cnt.head, lo) && Delivered(s.out, s.log, s.cnt.head, s.cnt.pcs, s.walks)
    ensures Low(s'.cnt.pcs, s'.walks, s'.cnt.head, lo) && Delivered(s'.out, s'.log, s'.cnt.head, s'.cnt.pcs, s'.walks)
  {
    hide Epoch, Start, Place;
    forall u, i: nat | 0 <= u < |s.walks| && Pending(s'.cnt.pcs[u], s'.walks[u], i) ensures Start(lo) <= i {
      assert Pending(s.cnt.pcs[u], s.walks[u], i);
    }
    forall i: nat | i < s.cnt.head && i !in s'.out
      ensures exists u :: 0 <= u < |s'.cnt.pcs| && u < |s'.walks| && Unmoved(s'.cnt.pcs[u], s'.walks[u], i)
    {
      var u :| 0 <= u < |s.cnt.pcs| && u < |s.walks| && Unmoved(s.cnt.pcs[u], s.walks[u], i);
      assert Unmoved(s'.cnt.pcs[u], s'.walks[u], i);
    }
  }

  lemma MarkScan(s: State, s': State, t: nat, g: Ghost)
    requires Good(s, g) && t < |s.walks| && s.walks[t].Mark? && Drain(s, s', t)
    ensures FlagScan(s'.ppc, s'.empty, s'.tailBlock, s'.next)
  {
    hide Epoch, Start, Place, Walks, Headers, Low, Flags, Data, Delivered, Ring, Current, Counters, WalkOk, Flag;
    MarkAway(s, s', t, g);
  }

  /** A block being opened is not the block whose flags a consumer sets. */
  lemma MarkAway(s: State, s': State, t: nat, g: Ghost)
    requires Good(s, g) && t < |s.walks| && s.walks[t].Mark? && Drain(s, s', t)
    ensures Opening(s.ppc) ==> s.walks[t].b != s.tailBlock
  {
    hide Epoch, Start, Place, Walks, Headers, Low, Flags, Data, Delivered, Counters, WalkOk, FlagScan, Pushed, TailOk;
    Layout();
    WalkFacts(s, t, g);
    MarkWalk(s, s', t, g);
    var x := s.walks[t].end - 1 - s.walks[t].j;
    assert Pending(s.cnt.pcs[t], s.walks[t], x);
    assert Epoch(x) <= g.win[|g.win| - 1].hi;
  }

  lemma MarkFlags(s: State, s': State, t: nat, g: Ghost)
    requires Good(s, g) && t < |s.walks| && s.walks[t].Mark? && Drain(s, s', t) && |s.headers| == |g.win| > 0
    ensures Flags(s'.empty, s'.cnt.pcs, s'.walks, s'.cnt.head, g.hist, |g.hist| - s.used, g.win[|s.headers| - 1].hi)
    ensures FlagWasClear(s, t)
  {
    hide Epoch, Start, Place, Walks, Headers, Low, Data, Delivered, Counters, FlagScan, Flags, Done, WalkOk, OD.Inv,
        OD.Ranges, Ring, Current, Pushed, TailOk;
    WalkFacts(s, t, g);
    MarkWalk(s, s', t, g);
    OD.InvSafe(s.cnt);
    MarkRing(s, g);
    var x := s.walks[t].end - 1 - s.walks[t].j;
    MarkDone(s, s', t, x);
    MarkClear(s, t, g, x);
    MarkOne(s.empty, s.cnt.pcs, s.walks, s'.walks, s.cnt.head, g.hist, |g.hist| - s.used, g.win[|s.headers| - 1].hi, x);
  }

  /** The assertion in set_empty: the flag about to be set is clear. */
  ghost predicate FlagWasClear(s: State, t: nat)
  {
    t < |s.walks| && s.walks[t].Mark? && s.walks[t].end > s.walks[t].j ==>
      (s.walks[t].b, Flag(s.walks[t].end - 1 - s.walks[t].j)) !in s.empty
  }

  lemma MarkClear(s: State, t: nat, g: Ghost, x: nat)
    requires |s.walks| == |s.cnt.pcs| && t < |s.walks| && Pending(s.cnt.pcs[t], s.walks[t], x) && |g.win| > 0
    requires Flags(s.empty, s.cnt.pcs, s.walks, s.cnt.head, g.hist, |g.hist| - s.used, g.win[|g.win| - 1].hi)
    requires s.walks[t].Mark? && x == s.walks[t].end - 1 - s.walks[t].j && Epoch(x) < |g.hist|
      && s.walks[t].b == g.hist[Epoch(x)]
    requires Start(|g.hist| - s.used) <= x < Start(g.win[|g.win| - 1].hi + 1)
    ensures FlagWasClear(s, t)
  {
    hide Epoch, Start, Place;
    assert !Done(s.cnt.pcs, s.walks, s.cnt.head, x);
  }

  lemma MarkRing(s: State, g: Ghost)
    requires Ring(g.hist, s.used, s.tailBlock, s.next, s.mine) && s.headers != [] && |g.win| == |s.headers|
    requires Current(s.headers[|s.headers| - 1], g.win[|s.headers| - 1], |g.hist|, s.used, s.prFront, s.ppc,
      s.cnt.tail, s.tailBlock)
    ensures forall i, j | |g.hist| - s.used <= i < j < |g.hist| :: g.hist[i] != g.hist[j]
    ensures g.win[|g.win| - 1].lo == |g.hist| - s.used >= 0 && g.win[|g.win| - 1].hi < |g.hist|
  {
    hide Epoch, Start, Place;
  }

  lemma MarkOne(empty: set<(Block, nat)>, pcs: seq<OD.Pc>, walks: seq<Walk>, walks': seq<Walk>, head: nat,
      hist: seq<Block>, lo: int, hi: int, x: nat)
    requires Flags(empty, pcs, walks, head, hist, lo, hi) && 0 <= lo && Start(lo) <= x < Start(hi + 1) && hi < |hist|
    requires forall i, j | lo <= i < j < |hist| :: hist[i] != hist[j]
    requires forall i: nat :: Done(pcs, walks', head, i) == (Done(pcs, walks, head, i) || i == x)
    ensures Flags(empty + {(hist[Epoch(x)], Flag(x))}, pcs, walks', head, hist, lo, hi)
  {
    hide Epoch, Start, Place;
    Layout();
    hide Done;
    forall i: nat | Start(lo) <= i < Start(hi + 1) && i != x
      ensures (hist[Epoch(i)], Flag(i)) != (hist[Epoch(x)], Flag(x))
    {
      assert Epoch(i) != Epoch(x) || Flag(i) != Flag(x);
    }
  }

  lemma MarkDone(s: State, s': State, t: nat, x: nat)
    requires OD.Ranges(s.cnt) && |s.walks| == |s.cnt.pcs| && t < |s.walks| && s'.cnt == s.cnt && |s'.walks| == |s.walks|
    requires s'.walks == s.walks[t := s'.walks[t]] && Pending(s.cnt.pcs[t], s.walks[t], x)
    requires s.cnt.pcs[t].first + s.cnt.pcs[t].count <= s.cnt.head
    requires forall i :: Pending(s'.cnt.pcs[t], s'.walks[t], i) == (Pending(s.cnt.pcs[t], s.walks[t], i) && i != x)
    ensures forall i: nat ::
              Done(s'.cnt.pcs, s'.walks, s'.cnt.head, i) == (Done(s.cnt.pcs, s.walks, s.cnt.head, i) || i == x)
  {
    hide Epoch, Start, Place;
    NobodyElseClaims(s.cnt, t, x);
    assert forall u | 0 <= u < |s.walks| :: !Pending(s'.cnt.pcs[u], s'.walks[u], x);
    assert forall u, i: nat | 0 <= u < |s.walks| && i != x ::
        Pending(s'.cnt.pcs[u], s'.walks[u], i) == Pending(s.cnt.pcs[u], s.walks[u], i);
  }

  // ------------------------------------------------------------------------------------------
  // Runs
  // ------------------------------------------------------------------------------------------

  lemma ClaimNothingKeeps(s: State, s': State, t: nat, g: Ghost)
    requires Good(s, g) && ClaimNothing(s, s', t)
    ensures Good(s', g)
  {
    hide Epoch, Start, Place, Walks, Low, Flags, Delivered, Counters, Headers, Data, Ring, FlagScan, Current, Pushed,
        TailOk, OD.Inv;
    WalkFacts(s, t, g);
    assert SameClaims(s, s', t);
    assert WalkOk(s'.cnt.pcs[t], s'.walks[t], s.headers, g.win, g.hist);
    hide SameClaims, WalkOk, OD.Dequeue;
    StepCounters(s.cnt, s'.cnt, t);
    WalkStep(s, s', t, g);
  }

  lemma StepCounters(c: OD.State, c': OD.State, t: nat)
    requires Counters(c) && t < |c.pcs| && OD.Dequeue(c, c', t)
    ensures Counters(c')
  {
    hide OD.Inv, OD.Dequeue;
    OD.StepKeeps(c, c');
  }

  /** Looking without having claimed changes nothing but the consumer's position. */
  lemma GlanceKeeps(s: State, s': State, t: nat, g: Ghost)
    requires Good(s, g) && Glance(s, s', t)
    ensures Good(s', g)
  {
    hide Epoch, Start, Place, Blocks, Walks, Low, Flags, Delivered, Headers, Data, Ring, FlagScan, Current, Pushed,
        TailOk, OD.Inv, Counters;
    WalkFacts(s, t, g);
    GlanceMoves(s, s', t, g);
    hide SameClaims, WalkOk, OD.Dequeue, Glance;
    WalkStep(s, s', t, g);
  }

  lemma GlanceMoves(s: State, s': State, t: nat, g: Ghost)
    requires Glance(s, s', t) && |s.walks| == |s.cnt.pcs| && Counters(s.cnt) && |s.headers| == |g.win| > 0
    requires (forall h | 0 <= h < |s.headers| :: s.headers[h].size > 0)
    requires WalkOk(s.cnt.pcs[t], s.walks[t], s.headers, g.win, g.hist)
    ensures SameClaims(s, s', t) && WalkOk(s'.cnt.pcs[t], s'.walks[t], s.headers, g.win, g.hist)
    ensures s' == s.(cnt := s'.cnt, walks := s'.walks) && s'.cnt.tail == s.cnt.tail && Counters(s'.cnt)
  {
    hide Epoch, Start, Place, Blocks, OD.Inv, Counters;
    if s.walks[t].GlanceBlock? {
      StepCounters(s.cnt, s'.cnt, t);
    }
  }

  lemma ConsumeKeeps(s: State, s': State, t: nat, g: Ghost)
    requires Good(s, g) && Consume(s, s', t)
    ensures Inv(s')
  {
    hide Epoch, Start, Place, Good;
    if Count(s, s', t) {
      CountKeeps(s, s', t, g);
    } else if ClaimRange(s, s', t) {
      ClaimKeeps(s, s', t, g);
    } else if Search(s, s', t) {
      SearchKeeps(s, s', t, g);
    } else if Leave(s, s', t) {
      LeaveKeeps(s, s', t, g);
    } else if ClaimNothing(s, s', t) {
      ClaimNothingKeeps(s, s', t, g);
    } else if Glance(s, s', t) {
      GlanceKeeps(s, s', t, g);
    } else if s.walks[t].LoadBlock? {
      LoadBlockKeeps(s, s', t, g);
    } else if s.walks[t].Move? {
      MoveKeeps(s, s', t, g);
    } else {
      MarkKeeps(s, s', t, g);
    }
  }

  lemma StepKeeps(s: State, s': State)
    requires Inv(s) && Step(s, s')
    ensures Inv(s')
  {
    hide Epoch, Start, Place;
    var g :| Good(s, g);
    hide Good;
    if Produce(s, s') {
      ProduceKeeps(s, s', g);
    } else {
      var t :| Consume(s, s', t);
      ConsumeKeeps(s, s', t, g);
    }
  }

  lemma InitGood(s: State)
    requires Init(s)
    ensures Inv(s)
  {
    hide Epoch, Start, Place;
    StartIsNat(0);
    StartNext(-1);
    OD.InitGood(s.cnt);
    var g := Ghost([], [Window(0, -1, 0)]);
    hide OD.Inv;
    RemSmall(0, s.headers[0].size);
    assert Good(s, g);
  }

  lemma {:induction false} RunKeeps(run: seq<State>, i: nat)
    requires IsRun(run) && i < |run|
    ensures Inv(run[i])
  {
    hide Epoch, Start, Place, Inv;
    if i == 0 {
      InitGood(run[0]);
    } else {
      RunKeeps(run, i - 1);
      assert Step(run[i - 1], run[i]);
      hide Step;
      StepKeeps(run[i - 1], run[i]);
    }
  }

  // ------------------------------------------------------------------------------------------
  // What every run guarantees
  // ------------------------------------------------------------------------------------------

  /** The j-th of the `used` newest entries of the current index. */
  function Listed(s: State, j: int): Entry
    requires s.headers != [] && |s.headers[Cur(s)].entries| > 0
  {
    var entries := s.headers[Cur(s)].entries;
    entries[(s.prFront - s.used + j) % |entries|]
  }

  /**
   * Between enqueues that open a block, the `used` newest index entries list the block ring in
   * order: consecutive bases, each block linked to the next, the last one the tail block, whose
   * link closes the ring.
   */
  lemma IndexListsRing(run: seq<State>, i: nat)
    requires IsRun(run) && i < |run| && !Opening(run[i].ppc) && run[i].used > 0
    ensures var s := run[i];
      && s.headers != [] && s.used <= s.headers[Cur(s)].size == |s.headers[Cur(s)].entries|
      && Listed(s, s.used - 1).block == s.tailBlock
      && s.tailBlock in s.next && s.next[s.tailBlock] == Listed(s, 0).block
      && s.cnt.tail <= Listed(s, s.used - 1).base + BLOCK_SIZE
      && (forall j | 0 <= j < s.used - 1 ::
            && Listed(s, j + 1).base == Listed(s, j).base + BLOCK_SIZE
            && Listed(s, j).block in s.next && s.next[Listed(s, j).block] == Listed(s, j + 1).block)
  {
    hide Epoch, Start, Place, Good, Init, Step, Listed;
    RunKeeps(run, i);
    var g :| Good(run[i], g);
    GoodListsRing(run[i], g);
  }

  lemma GoodListsRing(s: State, g: Ghost)
    requires Good(s, g) && !Opening(s.ppc) && s.used > 0
    ensures s.headers != [] && s.used <= s.headers[Cur(s)].size == |s.headers[Cur(s)].entries|
    ensures Listed(s, s.used - 1).block == s.tailBlock
    ensures s.tailBlock in s.next && s.next[s.tailBlock] == Listed(s, 0).block
    ensures s.cnt.tail <= Listed(s, s.used - 1).base + BLOCK_SIZE
    ensures forall j | 0 <= j < s.used - 1 ::
              && Listed(s, j + 1).base == Listed(s, j).base + BLOCK_SIZE
              && Listed(s, j).block in s.next && s.next[Listed(s, j).block] == Listed(s, j + 1).block
  {
    CurrentOk(s, g);
    hide Epoch, Start, Place, Walks, Headers, Low, Flags, Data, Delivered, Counters, FlagScan, Pushed, HeaderOk, Listed;
    var lo := |g.hist| - s.used;
    forall j | 0 <= j < s.used ensures Listed(s, j) == Entry(Start(lo + j), g.hist[lo + j]) {
      ListedEntry(s, g, j);
    }
    TailInLast(s, g);
    forall j | 0 <= j < s.used - 1 ensures Listed(s, j + 1).base == Listed(s, j).base + BLOCK_SIZE {
      StartNext(lo + j);
    }
  }

  lemma CurrentOk(s: State, g: Ghost)
    requires Good(s, g)
    ensures s.headers != [] && |g.win| == |s.headers| && s.used <= |g.hist|
    ensures HeaderOk(s.headers[Cur(s)], g.win[Cur(s)], g.hist)
    ensures s.used <= s.headers[Cur(s)].size == |s.headers[Cur(s)].entries| && s.headers[Cur(s)].size > 0
  {
    hide Epoch, Start, Place, Walks, Low, Flags, Data, Delivered, Counters, FlagScan, Pushed, HeaderOk;
  }

  lemma TailInLast(s: State, g: Ghost)
    requires TailOk(s.ppc, s.cnt.tail, |g.hist|) && !Opening(s.ppc)
    ensures s.cnt.tail <= Start(|g.hist| - 1) + BLOCK_SIZE
  {
    hide Epoch, Start, Place;
    StartNext(|g.hist| - 1);
  }

  lemma ListedEntry(s: State, g: Ghost, j: int)
    requires s.headers != [] && |g.win| == |s.headers| && 0 <= j < s.used <= |g.hist| && !Opening(s.ppc)
    requires HeaderOk(s.headers[Cur(s)], g.win[Cur(s)], g.hist)
    requires Current(s.headers[Cur(s)], g.win[Cur(s)], |g.hist|, s.used, s.prFront, s.ppc, s.cnt.tail, s.tailBlock)
    ensures Listed(s, j) == Entry(Start(|g.hist| - s.used + j), g.hist[|g.hist| - s.used + j])
  {
    hide Epoch, Start, Place, HeaderOk;
    EntryOf(s.headers[Cur(s)], g.win[Cur(s)], g.hist, |g.hist| - s.used + j);
    RemAdd(|g.hist| - g.win[Cur(s)].org, j - s.used, s.headers[Cur(s)].size);
  }

  /** The index slot that a dequeue starting at index `first` computes from the current header. */
  function SlotFor(s: State, first: int): int
    requires s.headers != [] && s.headers[Cur(s)].size > 0
    requires 0 <= s.headers[Cur(s)].front < |s.headers[Cur(s)].entries|
  {
    var hd := s.headers[Cur(s)];
    (hd.front + Blocks(Start(Epoch(first)) - hd.entries[hd.front].base)) % hd.size
  }

  /** The current index can be searched. */
  predicate Searchable(s: State)
  {
    && s.headers != [] && s.headers[Cur(s)].size == |s.headers[Cur(s)].entries| > 0
    && 0 <= s.headers[Cur(s)].front < s.headers[Cur(s)].size
  }

  /**
   * A bulk dequeue of at most zero elements claims nothing but looks the head up in the index all the
   * same. Unless the head is at the end of the tail block it reads the entry of the block that holds
   * the head; otherwise every element has been claimed, no entry in use holds the head, and it reads
   * the slot that the producer fills next.
   */
  lemma EmptyClaimReads(run: seq<State>, i: nat)
    requires IsRun(run) && i < |run| && !Opening(run[i].ppc) && run[i].used > 0
    ensures Searchable(run[i])
    ensures var s := run[i]; var end := Listed(s, s.used - 1).base + BLOCK_SIZE;
      && (s.cnt.head < end <==>
          exists j :: 0 <= j < s.used && Holding(s, j) && EntryAt(s, SlotFor(s, s.cnt.head)) == Listed(s, j))
      && (s.cnt.head >= end ==> s.cnt.head == s.cnt.tail && SlotFor(s, s.cnt.head) == s.prFront)
  {
    hide Good, Init, Step, Listed, SlotFor, Epoch, Start, Place;
    RunKeeps(run, i);
    var g :| Good(run[i], g);
    HeadIsListed(run[i], g);
    HeadSlot(run[i], g);
  }

  function EntryAt(s: State, slot: int): Entry
    requires Searchable(s)
  {
    if 0 <= slot < s.headers[Cur(s)].size then s.headers[Cur(s)].entries[slot] else Entry(0, 0)
  }

  /** The j-th block listed holds the head. */
  predicate Holding(s: State, j: int)
    requires Searchable(s)
  {
    Listed(s, j).base <= s.cnt.head < Listed(s, j).base + BLOCK_SIZE
  }

  lemma HeadSlot(s: State, g: Ghost)
    requires Good(s, g) && !Opening(s.ppc) && s.used > 0
    ensures Searchable(s)
    ensures s.cnt.head < Listed(s, s.used - 1).base + BLOCK_SIZE ==>
      exists j :: 0 <= j < s.used && Holding(s, j) && EntryAt(s, SlotFor(s, s.cnt.head)) == Listed(s, j)
    ensures s.cnt.head >= Listed(s, s.used - 1).base + BLOCK_SIZE ==> SlotFor(s, s.cnt.head) == s.prFront
  {
    hide Epoch, Start, Place, Good, Listed, Opening, SlotFor;
    var lo, n := |g.hist| - s.used, |g.hist|;
    var e := Epoch(s.cnt.head);
    HeadIsListed(s, g);
    HeadInRing(s, g);
    ListedBase(s, g, s.used - 1);
    SlotIs(s, g);
    if s.cnt.head < Listed(s, s.used - 1).base + BLOCK_SIZE {
      HeadBlock(s.cnt.head, lo, n - 1);
      ListedBase(s, g, e - lo);
      ListedIsAt(s, g, e - lo);
      assert Holding(s, e - lo);
    } else {
      StartNext(n - 1);
      EpochOfStart(n);
      NextSlotIs(s, g);
    }
  }

  /** The slot computed for the head is the slot of its block in the window. */
  lemma SlotIs(s: State, g: Ghost)
    requires Good(s, g) && !Opening(s.ppc) && s.used > 0
    ensures Searchable(s) && |g.win| == |s.headers|
    ensures SlotFor(s, s.cnt.head) == Slot(g.win[Cur(s)], s.headers[Cur(s)].size, Epoch(s.cnt.head))
  {
    CurrentOk(s, g);
    hide Epoch, Start, Place, Walks, Headers, Low, Flags, Data, Delivered, Counters, FlagScan, Pushed, Ring, TailOk;
    var hd, w, k, e := s.headers[Cur(s)], g.win[Cur(s)], |g.hist| - 1, Epoch(s.cnt.head);
    EntryOf(hd, w, g.hist, k);
    BlocksBetween(e, k);
    RemAdd(k - w.org, e - k, hd.size);
  }

  lemma ListedIsAt(s: State, g: Ghost, j: int)
    requires Good(s, g) && !Opening(s.ppc) && 0 <= j < s.used && Searchable(s) && |g.win| == |s.headers|
    ensures EntryAt(s, Slot(g.win[Cur(s)], s.headers[Cur(s)].size, |g.hist| - s.used + j)) == Listed(s, j)
  {
    CurrentOk(s, g);
    hide Epoch, Start, Place, Walks, Headers, Low, Flags, Data, Delivered, Counters, FlagScan, Pushed, Ring, TailOk,
        HeaderOk, Listed;
    ListedEntry(s, g, j);
    EntryOf(s.headers[Cur(s)], g.win[Cur(s)], g.hist, |g.hist| - s.used + j);
  }

  lemma NextSlotIs(s: State, g: Ghost)
    requires Good(s, g) && !Opening(s.ppc) && s.used > 0 && Searchable(s) && |g.win| == |s.headers|
    ensures Slot(g.win[Cur(s)], s.headers[Cur(s)].size, |g.hist|) == s.prFront
  {
    hide Epoch, Start, Place, Walks, Headers, Low, Flags, Data, Delivered, Counters, FlagScan, Pushed, Ring, TailOk,
        HeaderOk;
  }

  lemma HeadIsListed(s: State, g: Ghost)
    requires Good(s, g) && !Opening(s.ppc) && s.used > 0
    ensures s.headers != [] && |s.headers[Cur(s)].entries| > 0
      && s.cnt.head <= s.cnt.tail <= Listed(s, s.used - 1).base + BLOCK_SIZE
    ensures (exists j :: 0 <= j < s.used && Listed(s, j).base <= s.cnt.head < Listed(s, j).base + BLOCK_SIZE)
            <==> s.cnt.head < Listed(s, s.used - 1).base + BLOCK_SIZE
  {
    hide Epoch, Start, Place, Good, Listed, Opening;
    GoodListsRing(s, g);
    HeadInRing(s, g);
    ListedBase(s, g, s.used - 1);
    if s.cnt.head < Listed(s, s.used - 1).base + BLOCK_SIZE {
      var j := Epoch(s.cnt.head) - (|g.hist| - s.used);
      HeadBlock(s.cnt.head, |g.hist| - s.used, |g.hist| - 1);
      ListedBase(s, g, j);
    }
    if j :| 0 <= j < s.used && Listed(s, j).base <= s.cnt.head < Listed(s, j).base + BLOCK_SIZE {
      ListedBase(s, g, j);
      if j < s.used - 1 {
        StartsApart(|g.hist| - s.used + j, |g.hist| - 1);
      }
    }
  }

  lemma HeadBlock(head: int, lo: int, hi: int)
    requires Start(lo) <= head < Start(hi) + BLOCK_SIZE
    ensures lo <= Epoch(head) <= hi && Start(Epoch(head)) <= head < Start(Epoch(head)) + BLOCK_SIZE
  {
    hide Epoch, Start, Place;
    AtOrAfter(lo, head);
    StartNext(hi);
    AtOrAfter(hi + 1, head);
    StartOfEpoch(head);
  }

  lemma ListedBase(s: State, g: Ghost, j: int)
    requires Good(s, g) && !Opening(s.ppc) && 0 <= j < s.used
    ensures s.headers != [] && |s.headers[Cur(s)].entries| > 0 && Listed(s, j).base == Start(|g.hist| - s.used + j)
  {
    CurrentOk(s, g);
    hide Epoch, Start, Place, Walks, Headers, Low, Flags, Data, Delivered, Counters, FlagScan, Pushed, HeaderOk,
        Listed, Ring, TailOk;
    ListedEntry(s, g, j);
  }

  lemma HeadInRing(s: State, g: Ghost)
    requires Good(s, g)
    ensures Start(|g.hist| - s.used) <= s.cnt.head <= s.cnt.tail
  {
    hide Epoch, Start, Place, Walks, Headers, Flags, Data, Delivered, FlagScan, Pushed, Ring, TailOk, Current;
    OD.InvSafe(s.cnt);
  }

  /** Every value a consumer gets for index i is the i-th enqueued value, and i was claimed below the tail. */
  lemma DequeuedIsEnqueued(run: seq<State>, i: nat)
    requires IsRun(run) && i < |run|
    ensures run[i].cnt.head <= run[i].cnt.tail == |run[i].log|
    ensures forall k | k in run[i].out :: k < run[i].cnt.head && run[i].out[k] == run[i].log[k]
  {
    hide Epoch, Start, Place;
    RunKeeps(run, i);
    var g :| Good(run[i], g);
    OD.InvSafe(run[i].cnt);
  }

  /**
   * A consumer that moves an element out finds it: the slot holds the value enqueued at the index,
   * and no consumer has delivered that index before.
   */
  lemma DeliveredOnce(run: seq<State>, i: nat, t: nat)
    requires IsRun(run) && i < |run| && t < |run[i].walks| && run[i].walks[t].Move?
    ensures var w := run[i].walks[t];
      && w.idx !in run[i].out && w.idx < |run[i].log|
      && (w.b, Place(w.idx)) in run[i].data && run[i].data[(w.b, Place(w.idx))] == run[i].log[w.idx]
  {
    hide Epoch, Start, Place, Init, Step, Walks, Headers, Low, Flags, Data, Ring, FlagScan, Current, Counters, Pushed,
        TailOk;
    RunKeeps(run, i);
    var s := run[i];
    var g :| Good(s, g);
    MoveFinds(s, t, g);
    WalkFacts(s, t, g);
    assert Unmoved(s.cnt.pcs[t], s.walks[t], s.walks[t].idx);
  }

  /** A block is reused only when no consumer is still moving or marking any element of it. */
  lemma ReuseIsSafe(run: seq<State>, i: nat, t: nat)
    requires IsRun(run) && i + 1 < |run| && Reuse(run[i], run[i + 1]) && t < |run[i].walks|
    requires run[i].walks[t].Move? || (run[i].walks[t].Mark?
      && run[i].walks[t].j < run[i].walks[t].end - run[i].walks[t].from)
    ensures run[i].walks[t].b != run[i + 1].tailBlock
  {
    hide Epoch, Start, Place;
    RunKeeps(run, i);
    var g :| Good(run[i], g);
    hide IsRun;
    ReuseAway(run[i], run[i + 1], t, g);
  }

  lemma ReuseAway(s: State, s': State, t: nat, g: Ghost)
    requires Good(s, g) && Reuse(s, s') && t < |s.walks|
    requires s.walks[t].Move? || (s.walks[t].Mark? && s.walks[t].j < s.walks[t].end - s.walks[t].from)
    ensures s.walks[t].b != s'.tailBlock
  {
    hide Epoch, Start, Place;
    Layout();
    hide Walks, Headers, Flags, Data, Delivered, Counters, Pushed, Current, FlagScan;
    WalkFacts(s, t, g);
    ReuseLow(s, s', g);
    var w := s.walks[t];
    assert Pending(s.cnt.pcs[t], w, w.from);
    assert |g.hist| - s.used < Epoch(w.from) < |g.hist| && s'.tailBlock == g.hist[|g.hist| - s.used];
  }

  /** The flag a consumer sets is clear beforehand, as the code asserts. */
  lemma FlagIsClear(run: seq<State>, i: nat, t: nat)
    requires IsRun(run) && i + 1 < |run| && t < |run[i].walks| && run[i].walks[t].Mark? && Drain(run[i], run[i + 1], t)
    ensures var w := run[i].walks[t];
      w.j < w.end && (w.b, Flag(w.end - 1 - w.j)) !in run[i].empty
  {
    hide Epoch, Start, Place, Init, Step, Flag, Good;
    RunKeeps(run, i);
    var g :| Good(run[i], g);
    CurrentOk(run[i], g);
    MarkFlags(run[i], run[i + 1], t, g);
  }

  /** When no dequeue is in flight, exactly the claimed indices have been delivered. */
  lemma NothingLost(run: seq<State>, i: nat)
    requires IsRun(run) && i < |run| && forall t | 0 <= t < |run[i].walks| :: run[i].walks[t] == Out
    ensures forall k: nat :: k in run[i].out <==> k < run[i].cnt.head
  {
    hide Epoch, Start, Place;
    RunKeeps(run, i);
    var g :| Good(run[i], g);
    hide Headers, Flags, Data, Counters, FlagScan, Pushed, Ring, Low;
  }

  /** The copy loop of new_block_index: the used entries, oldest first, to the start of the new array. */
  method CopyEntries(entries: array<Entry>, front: nat, used: nat) returns (copied: array<Entry>)
    requires entries.Length > 0 && front < entries.Length && used <= entries.Length
    ensures fresh(copied) && copied.Length == 2 * entries.Length
    ensures copied[..used] == Unrolled(entries[..], front - used, used)
  {
    copied := new Entry[2 * entries.Length](_ => Entry(0, 0));
    var j := 0;
    if used != 0 {
      var i := (front - used) % entries.Length;
      RemAdd(front - used, 0, entries.Length);
      while true
        invariant 0 <= j < used && 0 <= i < entries.Length
        invariant i == (front - used + j) % entries.Length
        invariant forall k | 0 <= k < j :: copied[k] == entries[(front - used + k) % entries.Length]
        decreases used - j
      {
        copied[j] := entries[i];
        j := j + 1;
        RemAdd(front - used + j - 1, 1, entries.Length);
        i := (i + 1) % entries.Length;
        if i == front {
          ComesRound(front, used, j, entries.Length);
          break;
        }
        NotRoundYet(front, used, j, entries.Length);
      }
    }
  }

  lemma ComesRound(front: nat, used: nat, j: nat, n: nat)
    requires front < n && 0 < j <= used <= n && (front - used + j) % n == front
    ensures j == used
  {
    hide Epoch, Start, Place;
    RemSmall(front, n);
    if j < used {
      RemDistinct(front - used + j, front, n);
      assert false;
    }
  }

  lemma NotRoundYet(front: nat, used: nat, j: nat, n: nat)
    requires front < n && 0 < j <= used <= n && (front - used + j) % n != front
    ensures j < used
  {
    hide Epoch, Start, Place;
    RemSmall(front, n);
  }
}
