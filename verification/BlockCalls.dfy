/**
 * What the calls of an explicit producer answer: an enqueue is of its value and asks for a block only
 * when the block ahead is still in use, a dequeue that returns has delivered its whole claim, and every
 * call can take its next step.
 */
module BlockCalls {
  import opened BlockIndex
  import opened Epochs
  import OD = OptimisticDequeue
  import Dequeues = OptimisticCalls
  import BlockGlance

  // ------------------------------------------------------------------------------------------
  // Enqueue
  // ------------------------------------------------------------------------------------------

  /** An enqueue stays about its value until it returns, having appended it unless no block was to be had. */
  lemma EnqueueIsOfItsValue(s: State, s': State)
    requires Produce(s, s') && s.ppc != Ready
    ensures s'.ppc != Ready ==> s'.ppc.v == s.ppc.v && s'.log == s.log && s'.cnt.tail == s.cnt.tail
    ensures s'.ppc == Ready ==>
      if s.ppc.NeedBlock? then s'.log == s.log && s'.cnt.tail == s.cnt.tail
      else s'.log == s.log + [s.ppc.v] && s'.cnt.tail == s.cnt.tail + 1
    ensures Refuse(s, s') ==> s'.ppc == Ready
  {
    hide Epoch, Start, Place;
  }

  /** An enqueue can begin with any value, and is then about it. */
  lemma EnqueueBegins(s: State, v: Value) returns (s': State)
    requires s.ppc == Ready
    ensures Begin(s, s', v) && s'.ppc != Ready && s'.ppc.v == v && s'.log == s.log
  {
    s' := s.(ppc := if Place(s.cnt.tail) != 0 then Construct(v) else if s.used == 0 then NeedBlock(v) else Scan(v, 0));
  }

  /** The index whose flag the producer looks at: one of the oldest block's, the last one first. */
  function Watched(s: State): int
    requires s.ppc.Scan?
  {
    s.cnt.tail - Start(s.used) + BLOCK_SIZE - 1 - s.ppc.j
  }

  /** A flag seen clear means an element of the block ahead that has not been dequeued yet, and only that. */
  lemma BlockAheadInUse(run: seq<State>, i: nat)
    requires IsRun(run) && i + 1 < |run| && Look(run[i], run[i + 1])
    ensures var s := run[i];
      && 0 <= Watched(s)
      && (run[i + 1].ppc.NeedBlock? <==> !Done(s.cnt.pcs, s.walks, s.cnt.head, Watched(s)))
      && (run[i + 1].ppc.NeedBlock? || run[i + 1].ppc == Scan(s.ppc.v, s.ppc.j + 1))
  {
    hide Epoch, Start, Place, Good, Init, Step, Done;
    RunKeeps(run, i);
    var g :| Good(run[i], g);
    WatchedFlag(run[i], g);
  }

  lemma WatchedFlag(s: State, g: Ghost)
    requires Good(s, g) && s.ppc.Scan? && s.ppc.j < BLOCK_SIZE
    ensures 0 <= Watched(s) && s.tailBlock in s.next
    ensures (s.next[s.tailBlock], s.ppc.j) in s.empty <==> Done(s.cnt.pcs, s.walks, s.cnt.head, Watched(s))
  {
    hide Epoch, Start, Place, Done, Walks, Headers, Low, Data, Delivered, Counters, Pushed;
    CurrentOk(s, g);
    var n, lo := |g.hist|, |g.hist| - s.used;
    StartIsNat(lo);
    StartsDiffer(n, s.used);
    StartNext(lo);
    var x := Watched(s);
    assert Start(lo) <= x < Start(lo + 1);
    InEpoch(x, lo);
    if lo + 1 < n {
      StartsApart(lo + 1, n);
    }
  }

  lemma StartsDiffer(n: int, used: int)
    ensures Start(n - used) == Start(n) - Start(used)
  {
  }

  lemma InEpoch(x: int, k: int)
    requires Start(k) <= x < Start(k + 1)
    ensures Epoch(x) == k && Place(x) == x - Start(k)
  {
    hide Epoch, Start, Place;
    Layout();
  }

  /** What the producer's next step needs. */
  lemma ProducerFacts(s: State, g: Ghost)
    requires Good(s, g)
    ensures s.headers != [] && 0 <= s.prFront < s.headers[Cur(s)].size == |s.headers[Cur(s)].entries|
    ensures s.used <= s.headers[Cur(s)].size && (s.used > 0 ==> s.tailBlock in s.next)
    ensures s.ppc.Scan? ==> s.ppc.j <= BLOCK_SIZE && s.tailBlock in s.next
  {
    hide Epoch, Start, Place, Walks, Headers, Low, Flags, Data, Delivered, Counters, Pushed;
    CurrentOk(s, g);
  }

  lemma {:induction false} Unused(used: set<Block>) returns (b: Block)
    ensures forall x | x in used :: x < b
  {
    if used == {} {
      b := 0;
    } else {
      var x :| x in used;
      var c := Unused(used - {x});
      b := if c > x then c else x + 1;
      forall y | y in used ensures y < b {
        if y != x {
          assert y in used - {x};
        }
      }
    }
  }

  /** A full index is doubled, and otherwise a block is linked; neither has to fail. */
  lemma GetBlock(s: State) returns (s': State)
    requires s.ppc.NeedBlock? && s.headers != [] && s.used <= s.headers[Cur(s)].size == |s.headers[Cur(s)].entries|
    requires s.headers[Cur(s)].size > 0 && (s.used > 0 ==> s.tailBlock in s.next)
    ensures if s.used == s.headers[Cur(s)].size then Grow(s, s') && s'.used < s'.headers[Cur(s')].size
            else exists b :: Link(s, s', b)
  {
    var hd := s.headers[Cur(s)];
    if s.used == hd.size {
      var entries := Unrolled(hd.entries, s.prFront - s.used, s.used) + seq(hd.size, _ => Entry(0, 0));
      var hd' := Header(2 * hd.size, s.used - 1, entries);
      assert hd'.entries[..s.used] == Unrolled(hd.entries, s.prFront - s.used, s.used);
      s' := s.(headers := s.headers + [hd'], prFront := s.used);
      assert s'.headers[|s.headers|] == hd';
    } else {
      var b := Unused(s.mine);
      s' := s.(ppc := Reset(s.ppc.v, 0), tailBlock := b, mine := s.mine + {b}, used := s.used + 1,
               next := if s.used == 0 then s.next[b := b] else s.next[b := s.next[s.tailBlock]][s.tailBlock := b]);
      assert Link(s, s', b);
    }
  }

  lemma NextFill(s: State) returns (s': State)
    requires s.ppc.EntryBase? || s.ppc.EntryBlock? || s.ppc.PublishFront?
    requires s.headers != [] && 0 <= s.prFront < s.headers[Cur(s)].size == |s.headers[Cur(s)].entries|
    ensures FillIndex(s, s') && s'.ppc != Ready
  {
    var hd := s.headers[Cur(s)];
    match s.ppc {
      case EntryBase(v) =>
        s' := SetHeader(s, hd.(entries := hd.entries[s.prFront := hd.entries[s.prFront].(base := s.cnt.tail)]))
        .(ppc := EntryBlock(v));
      case EntryBlock(v) =>
        s' := SetHeader(s, hd.(entries := hd.entries[s.prFront := hd.entries[s.prFront].(block := s.tailBlock)]))
        .(ppc := PublishFront(v));
      case PublishFront(v) =>
        s' := SetHeader(s, hd.(front := s.prFront)).(ppc := Construct(v), prFront := (s.prFront + 1) % hd.size);
    }
  }

  lemma NextScan(s: State) returns (s': State)
    requires s.ppc.Scan? && s.ppc.j <= BLOCK_SIZE && s.tailBlock in s.next
    ensures (Look(s, s') || Reuse(s, s')) && s'.ppc != Ready
  {
    if s.ppc.j == BLOCK_SIZE {
      s' := s.(ppc := Reset(s.ppc.v, 0), tailBlock := s.next[s.tailBlock]);
    } else {
      s' := s.(ppc := if (s.next[s.tailBlock], s.ppc.j) in s.empty then Scan(s.ppc.v, s.ppc.j + 1)
                      else NeedBlock(s.ppc.v));
    }
  }

  /** An enqueue can take its next step without being refused, whatever the consumers do. */
  lemma ProducerNeverStuck(run: seq<State>, i: nat) returns (s': State)
    requires IsRun(run) && i < |run| && run[i].ppc != Ready
    ensures Produce(run[i], s') && !Refuse(run[i], s')
    ensures s'.ppc == Ready ==> s'.log == run[i].log + [run[i].ppc.v]
  {
    hide Epoch, Start, Place, Good, Init, Step;
    RunKeeps(run, i);
    var s := run[i];
    var g :| Good(s, g);
    ProducerFacts(s, g);
    hide IsRun;
    if s.ppc.NeedBlock? {
      s' := GetBlock(s);
    } else if s.ppc.Scan? {
      s' := NextScan(s);
    } else if s.ppc.Reset? {
      s' := if s.ppc.j < BLOCK_SIZE
            then s.(ppc := Reset(s.ppc.v, s.ppc.j + 1), empty := s.empty - {(s.tailBlock, s.ppc.j)})
            else s.(ppc := EntryBase(s.ppc.v));
      assert ResetFlag(s, s');
    } else if s.ppc.Construct? {
      s' := s.(ppc := PublishTail(s.ppc.v), data := s.data[(s.tailBlock, Place(s.cnt.tail)) := s.ppc.v]);
      assert Store(s, s');
    } else if s.ppc.PublishTail? {
      s' := s.(ppc := Ready, cnt := s.cnt.(tail := s.cnt.tail + 1), log := s.log + [s.ppc.v]);
      assert Store(s, s');
    } else {
      s' := NextFill(s);
    }
  }

  // ------------------------------------------------------------------------------------------
  // Dequeue
  // ------------------------------------------------------------------------------------------

  /** A dequeue that returns has delivered every element it claimed. */
  lemma ClaimIsDelivered(run: seq<State>, i: nat, t: nat, k: nat)
    requires IsRun(run) && i + 1 < |run| && Leave(run[i], run[i + 1], t) && run[i + 1].walks[t] == Out
    requires var p := run[i].cnt.pcs[t]; p.first <= k < p.first + p.count
    ensures k in run[i].out && k < |run[i].log| && run[i].out[k] == run[i].log[k]
  {
    hide Epoch, Start, Place, Good, Init, Step, OD.Dequeue;
    RunKeeps(run, i);
    var g :| Good(run[i], g);
    WalkFacts(run[i], t, g);
    ClaimMoved(run[i], t, g, k);
    hide Leave;
  }

  lemma ClaimMoved(s: State, t: nat, g: Ghost, k: nat)
    requires Good(s, g) && t < |s.walks| == |s.cnt.pcs| && s.walks[t].Mark? && s.cnt.pcs[t].Claimed?
    requires s.cnt.pcs[t].first <= k < s.cnt.pcs[t].first + s.cnt.pcs[t].count <= s.walks[t].end
    requires s.cnt.pcs[t].first + s.cnt.pcs[t].count <= s.cnt.head
    ensures k in s.out && k < |s.log| && s.out[k] == s.log[k]
  {
    hide Epoch, Start, Place, Walks, Headers, Low, Flags, Data, Ring, FlagScan, Current, Pushed, TailOk;
    OD.InvSafe(s.cnt);
    NobodyElseClaims(s.cnt, t, k);
    hide Counters, OD.Inv;
  }

  /** At most so many steps are left of a walk: two per element moved and marked, two per block, three to begin. */
  function StepsLeft(p: OD.Pc, w: Walk): int
    requires p.Claimed?
  {
    var end := p.first + p.count;
    match w
    case Out => 0
    case GlanceIndex => 4
    case GlanceFront(_) => 3
    case GlanceBase(_, _) => 2
    case GlanceBlock(_, _) => 1
    case LoadIndex => 4 * p.count + 3
    case LoadFront(_) => 4 * p.count + 2
    case LoadBase(_, _) => 4 * p.count + 1
    case LoadBlock(_, _, idx) => 4 * (end - idx)
    case Move(_, _, _, from, idx) =>
      PartEnd(from, end) - idx + PartEnd(from, end) - from + 1 + 4 * (end - PartEnd(from, end))
    case Mark(_, _, _, from, e, j) => e - from - j + 1 + 4 * (end - e)
  }

  /** A dequeue that has claimed its elements returns after a number of steps that only its claim bounds. */
  lemma WalkShrinks(run: seq<State>, i: nat, t: nat)
    requires IsRun(run) && i + 1 < |run| && Consume(run[i], run[i + 1], t)
    requires t < |run[i].cnt.pcs| && run[i].cnt.pcs[t].Claimed? && t < |run[i].walks|
    ensures t < |run[i + 1].walks| && t < |run[i + 1].cnt.pcs|
    ensures run[i + 1].cnt.pcs[t].Claimed? ==>
      && run[i + 1].cnt.pcs[t] == run[i].cnt.pcs[t]
      && 0 <= StepsLeft(run[i + 1].cnt.pcs[t], run[i + 1].walks[t]) < StepsLeft(run[i].cnt.pcs[t], run[i].walks[t])
  {
    hide Epoch, Start, Place, Good, Init, Step, Consume, StepsLeft;
    RunKeeps(run, i);
    RunKeeps(run, i + 1);
    var s, s' := run[i], run[i + 1];
    var g :| Good(s, g);
    var g' :| Good(s', g');
    WalkFacts(s, t, g);
    StepShrinks(s, s', t, g);
    WalkFacts(s', t, g');
    hide IsRun;
    if s'.cnt.pcs[t].Claimed? {
      StepsLeftIsNat(s', t, g');
    }
  }

  lemma StepShrinks(s: State, s': State, t: nat, g: Ghost)
    requires t < |s.walks| && t < |s.cnt.pcs| && s.cnt.pcs[t].Claimed? && Consume(s, s', t)
    requires |s.headers| == |g.win| && (forall h | 0 <= h < |s.headers| :: s.headers[h].size > 0)
    requires WalkOk(s.cnt.pcs[t], s.walks[t], s.headers, g.win, g.hist)
    ensures t < |s'.walks| && t < |s'.cnt.pcs|
    ensures s'.cnt.pcs[t].Claimed? ==>
      s'.cnt.pcs[t] == s.cnt.pcs[t] && StepsLeft(s'.cnt.pcs[t], s'.walks[t]) < StepsLeft(s.cnt.pcs[t], s.walks[t])
  {
    hide Epoch, Start, Place, WalkOk, StepsLeft, Search, Drain, Leave, Glance;
    if Drain(s, s', t) {
      DrainShrinks(s, s', t, g);
    } else if Leave(s, s', t) {
      LeaveShrinks(s, s', t, g);
    } else if Search(s, s', t) {
      SearchShrinks(s, s', t);
    } else {
      GlanceShrinks(s, s', t);
    }
  }

  lemma DrainShrinks(s: State, s': State, t: nat, g: Ghost)
    requires t < |s.walks| && t < |s.cnt.pcs| && s.cnt.pcs[t].Claimed? && Drain(s, s', t)
    requires |s.headers| == |g.win| && (forall h | 0 <= h < |s.headers| :: s.headers[h].size > 0)
    requires WalkOk(s.cnt.pcs[t], s.walks[t], s.headers, g.win, g.hist)
    ensures t < |s'.walks| && t < |s'.cnt.pcs|
    ensures s'.cnt.pcs[t].Claimed? ==>
      s'.cnt.pcs[t] == s.cnt.pcs[t] && StepsLeft(s'.cnt.pcs[t], s'.walks[t]) < StepsLeft(s.cnt.pcs[t], s.walks[t])
  {
    hide Epoch, Start, Place, PartEnd, Blocks, Flag;
    if s.walks[t].LoadBlock? {
      PartNotEmpty(s.walks[t].idx, s.cnt.pcs[t].first + s.cnt.pcs[t].count);
    }
  }

  lemma LeaveShrinks(s: State, s': State, t: nat, g: Ghost)
    requires t < |s.walks| && t < |s.cnt.pcs| && s.cnt.pcs[t].Claimed? && Leave(s, s', t)
    requires |s.headers| == |g.win| && (forall h | 0 <= h < |s.headers| :: s.headers[h].size > 0)
    requires WalkOk(s.cnt.pcs[t], s.walks[t], s.headers, g.win, g.hist)
    ensures t < |s'.walks| && t < |s'.cnt.pcs|
    ensures s'.cnt.pcs[t].Claimed? ==>
      s'.cnt.pcs[t] == s.cnt.pcs[t] && StepsLeft(s'.cnt.pcs[t], s'.walks[t]) < StepsLeft(s.cnt.pcs[t], s.walks[t])
  {
    hide Epoch, Start, Place, PartEnd, Blocks, Flag;
  }

  lemma SearchShrinks(s: State, s': State, t: nat)
    requires t < |s.walks| && t < |s.cnt.pcs| && s.cnt.pcs[t].Claimed? && Search(s, s', t)
    ensures t < |s'.walks| && t < |s'.cnt.pcs|
    ensures s'.cnt.pcs[t].Claimed? ==>
      s'.cnt.pcs[t] == s.cnt.pcs[t] && StepsLeft(s'.cnt.pcs[t], s'.walks[t]) < StepsLeft(s.cnt.pcs[t], s.walks[t])
  {
    hide Epoch, Start, Place, PartEnd, Blocks, Flag;
  }

  lemma GlanceShrinks(s: State, s': State, t: nat)
    requires t < |s.walks| && t < |s.cnt.pcs| && s.cnt.pcs[t].Claimed? && Glance(s, s', t)
    ensures t < |s'.walks| && t < |s'.cnt.pcs|
    ensures s'.cnt.pcs[t].Claimed? ==>
      s'.cnt.pcs[t] == s.cnt.pcs[t] && StepsLeft(s'.cnt.pcs[t], s'.walks[t]) < StepsLeft(s.cnt.pcs[t], s.walks[t])
  {
    hide Epoch, Start, Place, PartEnd, Blocks, Flag;
    if !s.walks[t].GlanceBlock? {
      hide OD.Dequeue;
    }
  }

  lemma StepsLeftIsNat(s: State, t: nat, g: Ghost)
    requires t < |s.walks| && t < |s.cnt.pcs| && s.cnt.pcs[t].Claimed?
    requires |s.headers| == |g.win| && (forall h | 0 <= h < |s.headers| :: s.headers[h].size > 0)
    requires WalkOk(s.cnt.pcs[t], s.walks[t], s.headers, g.win, g.hist)
    ensures StepsLeft(s.cnt.pcs[t], s.walks[t]) >= 0
  {
    hide Epoch, Start, Place;
  }

  /** Every consumer inside a call can take its next step, whatever the others do. */
  lemma ConsumerNeverStuck(run: seq<State>, i: nat, t: nat) returns (s': State)
    requires IsRun(run) && i < |run| && t < |run[i].cnt.pcs| && run[i].cnt.pcs[t] != OD.Idle
    ensures Consume(run[i], s', t)
  {
    hide Epoch, Start, Place, Good, Init, Step, Counters;
    hide Count, ClaimRange, ClaimNothing, Search, Drain, Leave, Glance, OD.Dequeue;
    RunKeeps(run, i);
    var s := run[i];
    var g :| Good(s, g);
    OneWalkEach(s, g);
    WalkFacts(s, t, g);
    BlockGlance.RunIsInside(run, i);
    hide IsRun, BlockGlance.Inside;
    if s.cnt.pcs[t].Claimed? {
      if Glancing(s.walks[t]) {
        s' := NextGlance(s, t);
      } else {
        s' := NextWalk(s, t, g);
      }
    } else {
      s' := NextCount(s, t);
    }
  }

  lemma OneWalkEach(s: State, g: Ghost)
    requires Good(s, g)
    ensures |s.walks| == |s.cnt.pcs|
  {
    hide Epoch, Start, Place, Headers, Low, Flags, Data, Delivered, Ring, FlagScan, Current, Pushed, TailOk, Counters,
        WalkOk;
  }

  lemma NextCount(s: State, t: nat) returns (s': State)
    requires t < |s.cnt.pcs| == |s.walks| && s.cnt.pcs[t] != OD.Idle && !s.cnt.pcs[t].Claimed? && OD.Inv(s.cnt)
    ensures Count(s, s', t) || ClaimRange(s, s', t) || ClaimNothing(s, s', t)
  {
    hide OD.Inv, OD.Dequeue;
    if s.cnt.pcs[t].GiveBack? {
      Dequeues.GaveNoMore(s.cnt, t);
    }
    var c := Dequeues.Advance(s.cnt, t);
    s' := s.(cnt := c);
    if s.cnt.pcs[t].Claim? {
      s' := s'.(walks := s.walks[t := if s.cnt.pcs[t].got >= 1 then LoadIndex else GlanceIndex]);
    }
  }

  lemma NextGlance(s: State, t: nat) returns (s': State)
    requires t < |s.cnt.pcs| == |s.walks| && s.cnt.pcs[t].Claimed? && Glancing(s.walks[t]) && BlockGlance.Inside(s)
    ensures Glance(s, s', t)
  {
    hide Epoch, Start, Place, Blocks;
    assert BlockGlance.ThreadIn(s.cnt.pcs[t], s.walks[t], s.headers, s.cnt.tail);
    match s.walks[t] {
      case GlanceIndex => s' := GotoWalk(s, t, GlanceFront(Cur(s)));
      case GlanceFront(h) => s' := GotoWalk(s, t, GlanceBase(h, s.headers[h].front));
      case GlanceBase(h, f) =>
        var offset := Blocks(Start(Epoch(s.cnt.pcs[t].first)) - s.headers[h].entries[f].base);
        s' := GotoWalk(s, t, GlanceBlock(h, (f + offset) % s.headers[h].size));
      case GlanceBlock(h, slot) => s' := GotoWalk(s, t, Out).(cnt := OD.Goto(s.cnt, t, OD.Idle));
    }
  }

  lemma NextWalk(s: State, t: nat, g: Ghost) returns (s': State)
    requires Good(s, g) && t < |s.cnt.pcs| == |s.walks| && s.cnt.pcs[t].Claimed? && !Glancing(s.walks[t])
    requires |s.headers| == |g.win| > 0 && (forall h | 0 <= h < |s.headers| :: s.headers[h].size > 0)
    requires WalkOk(s.cnt.pcs[t], s.walks[t], s.headers, g.win, g.hist)
    ensures Search(s, s', t) || Drain(s, s', t) || Leave(s, s', t)
  {
    hide Epoch, Start, Place, Good, WalkOk, Search, Drain, Leave;
    if s.walks[t].LoadIndex? || s.walks[t].LoadFront? || s.walks[t].LoadBase? {
      s' := NextSearch(s, t, g);
    } else if s.walks[t].Move? {
      MoveFinds(s, t, g);
      s' := NextMove(s, t);
    } else {
      s' := NextDrain(s, t, g);
    }
  }

  lemma HeadersOf(s: State, g: Ghost)
    requires Good(s, g)
    ensures Headers(s.headers, g.win, g.hist)
  {
    hide Epoch, Start, Place, Walks, Headers, Low, Flags, Data, Delivered, Ring, FlagScan, Current, Pushed, TailOk,
        Counters;
  }

  lemma NextSearch(s: State, t: nat, g: Ghost) returns (s': State)
    requires Good(s, g) && t < |s.cnt.pcs| == |s.walks| && s.cnt.pcs[t].Claimed?
    requires s.walks[t].LoadIndex? || s.walks[t].LoadFront? || s.walks[t].LoadBase?
    requires |s.headers| == |g.win| > 0 && (forall h | 0 <= h < |s.headers| :: s.headers[h].size > 0)
    requires WalkOk(s.cnt.pcs[t], s.walks[t], s.headers, g.win, g.hist)
    ensures Search(s, s', t)
  {
    hide Epoch, Start, Place, Good, Blocks, Slot;
    match s.walks[t] {
      case LoadIndex => s' := GotoWalk(s, t, LoadFront(Cur(s)));
      case LoadFront(h) => s' := GotoWalk(s, t, LoadBase(h, s.headers[h].front));
      case LoadBase(h, f) =>
        HeadersOf(s, g);
        BaseFinds(s, t, h, f, g);
        var first := s.cnt.pcs[t].first;
        var offset := Blocks(Start(Epoch(first)) - s.headers[h].entries[f].base);
        s' := GotoWalk(s, t, LoadBlock(h, (f + offset) % s.headers[h].size, first));
    }
  }

  lemma NextMove(s: State, t: nat) returns (s': State)
    requires t < |s.cnt.pcs| == |s.walks| && s.cnt.pcs[t].Claimed? && s.walks[t].Move?
    requires (s.walks[t].b, Place(s.walks[t].idx)) in s.data
    ensures Drain(s, s', t)
  {
    hide Epoch, Start, Place, PartEnd, Flag;
    var w, end := s.walks[t], s.cnt.pcs[t].first + s.cnt.pcs[t].count;
    s' := GotoWalk(s, t, if w.idx + 1 == PartEnd(w.from, end) then Mark(w.h, w.slot, w.b, w.from, w.idx + 1, 0)
                         else Move(w.h, w.slot, w.b, w.from, w.idx + 1))
    .(out := s.out[w.idx := s.data[(w.b, Place(w.idx))]]);
  }

  lemma NextDrain(s: State, t: nat, g: Ghost) returns (s': State)
    requires Good(s, g) && t < |s.cnt.pcs| == |s.walks| && s.cnt.pcs[t].Claimed?
    requires s.walks[t].LoadBlock? || s.walks[t].Mark? || s.walks[t] == Out
    requires |s.headers| == |g.win| > 0 && (forall h | 0 <= h < |s.headers| :: s.headers[h].size > 0)
    requires WalkOk(s.cnt.pcs[t], s.walks[t], s.headers, g.win, g.hist)
    ensures Drain(s, s', t) || Leave(s, s', t)
  {
    hide Epoch, Start, Place, Good, Slot, PartEnd, Flag;
    var w, p := s.walks[t], s.cnt.pcs[t];
    if w.LoadBlock? {
      HeadersOf(s, g);
      assert HeaderOk(s.headers[w.h], g.win[w.h], g.hist);
      SlotIn(g.win[w.h], s.headers[w.h].size, Epoch(w.idx));
      s' := GotoWalk(s, t, Move(w.h, w.slot, s.headers[w.h].entries[w.slot].block, w.idx, w.idx));
    } else if w.j < w.end - w.from {
      s' := GotoWalk(s, t, Mark(w.h, w.slot, w.b, w.from, w.end, w.j + 1))
      .(empty := s.empty + {(w.b, Flag(w.end - 1 - w.j))});
    } else if w.end < p.first + p.count {
      s' := GotoWalk(s, t, LoadBlock(w.h, (w.slot + 1) % s.headers[w.h].size, w.end));
    } else {
      s' := GotoWalk(s, t, Out).(cnt := OD.Goto(s.cnt, t, OD.Idle));
    }
  }

  lemma SlotIn(w: Window, size: nat, k: int)
    requires size > 0
    ensures 0 <= Slot(w, size, k) < size
  {
  }
}
