/**
 * A bulk dequeue of at most zero elements searches the block index without having claimed anything.
 * What it reads is always inside the index arrays, though not always in use (BlockIndex.EmptyClaimReads).
 */
module BlockGlance {
  import opened BlockIndex
  import opened Epochs
  import OD = OptimisticDequeue

  predicate FrontIn(hd: Header) { 0 <= hd.front < hd.size == |hd.entries| }

  /** Replaced indices have a newest entry, and so has the current one once something was enqueued. */
  predicate Fronts(headers: seq<Header>, tail: nat)
  {
    && |headers| > 0
    && (forall h | 0 <= h < |headers| - 1 :: FrontIn(headers[h]))
    && (tail > 0 ==> FrontIn(headers[|headers| - 1]))
  }

  /** A consumer that claims nothing has seen an element, and looks inside the arrays. */
  predicate ThreadIn(p: OD.Pc, w: Walk, headers: seq<Header>, tail: nat)
  {
    && (p.Recheck? ==> p.over <= p.my)
    && (p.Claim? && p.got == 0 ==> tail > 0)
    && (Glancing(w) ==> tail > 0)
    && (w.GlanceFront? ==> w.h < |headers|)
    && (w.GlanceBase? ==> w.h < |headers| && 0 <= w.f < |headers[w.h].entries| == headers[w.h].size)
    && (w.GlanceBlock? ==> w.h < |headers| && 0 <= w.slot < |headers[w.h].entries|)
  }

  ghost predicate Inside(s: State)
  {
    && Fronts(s.headers, s.cnt.tail) && |s.cnt.pcs| == |s.walks|
    && forall t | 0 <= t < |s.walks| :: ThreadIn(s.cnt.pcs[t], s.walks[t], s.headers, s.cnt.tail)
  }

  // ------------------------------------------------------------------------------------------
  // Producer steps
  // ------------------------------------------------------------------------------------------

  /** Between openings the current index has a newest entry. */
  lemma CurrentFront(s: State, g: Ghost)
    requires Good(s, g) && !Opening(s.ppc) && s.used > 0
    ensures s.headers != [] && FrontIn(s.headers[Cur(s)])
  {
    hide Good, SlotFor, Epoch, Start, Place, Opening;
    SlotIs(s, g);
  }

  lemma GrowFronts(s: State, s': State, g: Ghost)
    requires Good(s, g) && Grow(s, s') && Fronts(s.headers, s.cnt.tail)
    ensures Fronts(s'.headers, s'.cnt.tail)
  {
    hide Good, Epoch, Start, Place;
    CurrentOk(s, g);
    CurrentFront(s, g);
  }

  lemma StoreFronts(s: State, s': State, g: Ghost)
    requires Good(s, g) && Store(s, s') && Fronts(s.headers, s.cnt.tail)
    ensures Fronts(s'.headers, s'.cnt.tail)
  {
    hide Epoch, Start, Place;
    StoreUsed(s, g);
    hide Good;
    CurrentFront(s, g);
  }

  lemma StoreUsed(s: State, g: Ghost)
    requires Good(s, g) && (s.ppc.Construct? || s.ppc.PublishTail?)
    ensures s.used > 0
  {
    hide Epoch, Start, Place, Walks, Low, Flags, Data, Delivered, Counters, FlagScan, Pushed, Ring, TailOk, Headers,
        Current;
    HasBlock(s, g);
  }

  lemma IndexFronts(s: State, s': State, g: Ghost)
    requires Good(s, g) && FillIndex(s, s') && Fronts(s.headers, s.cnt.tail)
    ensures Fronts(s'.headers, s'.cnt.tail) && s'.cnt == s.cnt && s'.walks == s.walks && |s'.headers| == |s.headers|
    ensures forall h | 0 <= h < |s.headers| :: |s'.headers[h].entries| == |s.headers[h].entries|
    ensures forall h | 0 <= h < |s.headers| :: s'.headers[h].size == s.headers[h].size
  {
    CurrentOk(s, g);
    hide Good, Epoch, Start, Place;
  }

  /** Headers only grow in number, and keep their lengths. */
  ghost predicate Longer(s: State, s': State)
  {
    && |s.headers| <= |s'.headers| && s.cnt.tail <= s'.cnt.tail
    && forall h | 0 <= h < |s.headers| ::
         |s'.headers[h].entries| == |s.headers[h].entries| && s'.headers[h].size == s.headers[h].size
  }

  lemma ProduceFronts(s: State, s': State, g: Ghost)
    requires Good(s, g) && Produce(s, s') && Fronts(s.headers, s.cnt.tail)
    ensures Fronts(s'.headers, s'.cnt.tail) && Longer(s, s') && s'.cnt.pcs == s.cnt.pcs && s'.walks == s.walks
  {
    hide Good, Fronts, Epoch, Start, Place;
    if Grow(s, s') {
      GrowFronts(s, s', g);
    } else if Store(s, s') {
      StoreFronts(s, s', g);
    } else if FillIndex(s, s') {
      IndexFronts(s, s', g);
      hide FillIndex;
    }
  }

  lemma ProduceInside(s: State, s': State, g: Ghost)
    requires Good(s, g) && Produce(s, s') && Inside(s)
    ensures Inside(s')
  {
    hide Good, Fronts, Produce;
    ProduceFronts(s, s', g);
    forall t | 0 <= t < |s'.walks| ensures ThreadIn(s'.cnt.pcs[t], s'.walks[t], s'.headers, s'.cnt.tail) {
      assert ThreadIn(s.cnt.pcs[t], s.walks[t], s.headers, s.cnt.tail);
    }
  }

  // ------------------------------------------------------------------------------------------
  // Consumer steps
  // ------------------------------------------------------------------------------------------

  lemma CountIn(s: State, s': State, t: nat)
    requires Counters(s.cnt) && Count(s, s', t) && t < |s.walks|
      && ThreadIn(s.cnt.pcs[t], s.walks[t], s.headers, s.cnt.tail)
    ensures s'.cnt.pcs == s.cnt.pcs[t := s'.cnt.pcs[t]] && s'.cnt.tail == s.cnt.tail
    ensures ThreadIn(s'.cnt.pcs[t], s'.walks[t], s'.headers, s'.cnt.tail)
  {
    hide OD.Inv;
    if s.cnt.pcs[t].Ticket? {
      OD.TicketOver(s.cnt, t);
    }
  }

  lemma GlanceIn(s: State, s': State, t: nat)
    requires (Glance(s, s', t) || ClaimNothing(s, s', t)) && Fronts(s.headers, s.cnt.tail)
    requires ThreadIn(s.cnt.pcs[t], s.walks[t], s.headers, s.cnt.tail)
    ensures s'.cnt.pcs == s.cnt.pcs[t := s'.cnt.pcs[t]] && s'.cnt.tail == s.cnt.tail && s'.headers == s.headers
    ensures |s'.walks| == |s.walks| && s'.walks == s.walks[t := s'.walks[t]]
    ensures ThreadIn(s'.cnt.pcs[t], s'.walks[t], s'.headers, s'.cnt.tail)
  {
    hide Epoch, Start, Place, Blocks;
  }

  lemma SearchIn(s: State, s': State, t: nat)
    requires Search(s, s', t)
    ensures |s'.cnt.pcs| == |s.cnt.pcs| && s'.cnt.pcs == s.cnt.pcs[t := s'.cnt.pcs[t]] && s'.cnt.tail == s.cnt.tail
    ensures s'.headers == s.headers && |s'.walks| == |s.walks| && s'.walks == s.walks[t := s'.walks[t]]
    ensures ThreadIn(s'.cnt.pcs[t], s'.walks[t], s'.headers, s'.cnt.tail)
  {
    hide Epoch, Start, Place, Blocks, Flag;
  }

  lemma DrainIn(s: State, s': State, t: nat)
    requires Drain(s, s', t)
    ensures |s'.cnt.pcs| == |s.cnt.pcs| && s'.cnt.pcs == s.cnt.pcs[t := s'.cnt.pcs[t]] && s'.cnt.tail == s.cnt.tail
    ensures s'.headers == s.headers && |s'.walks| == |s.walks| && s'.walks == s.walks[t := s'.walks[t]]
    ensures ThreadIn(s'.cnt.pcs[t], s'.walks[t], s'.headers, s'.cnt.tail)
  {
    hide Epoch, Start, Place, Blocks, Flag;
  }

  lemma LeaveIn(s: State, s': State, t: nat)
    requires ClaimRange(s, s', t) || Leave(s, s', t)
    ensures |s'.cnt.pcs| == |s.cnt.pcs| && s'.cnt.pcs == s.cnt.pcs[t := s'.cnt.pcs[t]] && s'.cnt.tail == s.cnt.tail
    ensures s'.headers == s.headers && |s'.walks| == |s.walks| && s'.walks == s.walks[t := s'.walks[t]]
    ensures ThreadIn(s'.cnt.pcs[t], s'.walks[t], s'.headers, s'.cnt.tail)
  {
    hide Epoch, Start, Place, Blocks, Flag;
  }

  lemma ConsumeInside(s: State, s': State, t: nat, g: Ghost)
    requires Good(s, g) && Consume(s, s', t) && Inside(s)
    ensures Inside(s')
  {
    CountersOf(s, g);
    hide Good, Fronts, ThreadIn, Count, ClaimRange, Search, Drain, Leave, ClaimNothing, Glance, Counters;
    InRange(s, s', t);
    assert ThreadIn(s.cnt.pcs[t], s.walks[t], s.headers, s.cnt.tail);
    if Count(s, s', t) {
      CountIn(s, s', t);
      CountKeepsWalks(s, s', t);
    } else if Glance(s, s', t) || ClaimNothing(s, s', t) {
      GlanceIn(s, s', t);
    } else if Search(s, s', t) {
      SearchIn(s, s', t);
    } else if Drain(s, s', t) {
      DrainIn(s, s', t);
    } else {
      LeaveIn(s, s', t);
    }
  }

  lemma CountersOf(s: State, g: Ghost)
    requires Good(s, g)
    ensures Counters(s.cnt)
  {
    hide Counters;
  }

  lemma CountKeepsWalks(s: State, s': State, t: nat)
    requires Count(s, s', t)
    ensures s'.walks == s.walks && s'.headers == s.headers
  {
  }

  lemma InRange(s: State, s': State, t: nat)
    requires Consume(s, s', t) && |s.cnt.pcs| == |s.walks|
    ensures t < |s.walks|
  {
  }

  lemma InitInside(s: State)
    requires Init(s)
    ensures Inside(s)
  {
    hide Epoch, Start, Place;
  }

  lemma {:induction false} RunIsInside(run: seq<State>, i: nat)
    requires IsRun(run) && i < |run|
    ensures Inside(run[i])
  {
    hide Inside, Good, Produce, Consume, Init;
    if i == 0 {
      InitInside(run[0]);
    } else {
      RunIsInside(run, i - 1);
      BlockIndex.RunKeeps(run, i - 1);
      var g :| Good(run[i - 1], g);
      assert Step(run[i - 1], run[i]);
      if Produce(run[i - 1], run[i]) {
        ProduceInside(run[i - 1], run[i], g);
      } else {
        var t: nat :| Consume(run[i - 1], run[i], t);
        ConsumeInside(run[i - 1], run[i], t, g);
      }
    }
  }

  /**
   * Every array access of a dequeue that claimed nothing is in range, and at the moment of its claim
   * something had been enqueued.
   */
  lemma GlanceIsInRange(run: seq<State>, i: nat, t: nat)
    requires IsRun(run) && i < |run| && t < |run[i].walks|
    ensures var s := run[i]; var w := s.walks[t];
      && (Glancing(w) ==> s.cnt.tail > 0)
      && (w.GlanceBase? ==> w.h < |s.headers| && 0 <= w.f < |s.headers[w.h].entries|)
      && (w.GlanceBlock? ==> w.h < |s.headers| && 0 <= w.slot < |s.headers[w.h].entries|)
  {
    hide Init, Step;
    RunIsInside(run, i);
    assert ThreadIn(run[i].cnt.pcs[t], run[i].walks[t], run[i].headers, run[i].cnt.tail);
  }
}
