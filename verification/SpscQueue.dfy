/**
 * SPSCQueue: a circular array with one slack slot between one producer and one consumer, each of
 * which keeps a cached copy of the other's index. One step is one access to a variable that the
 * other side uses.
 */
module SpscQueue {
  import opened Modular

  type Value = int

  datatype Producer =
    | Ready
      // the cached read index shows no room: before loading readIdx_; `spin` for emplace
    | LoadRead(v: Value, spin: bool)
    | Write(v: Value)
    | StoreWrite(v: Value)

  datatype Consumer =
    | Away
      // empty() has just returned false
    | NotEmpty
      // front() with the cached write index showing nothing: before loading writeIdx_
    | LoadWrite(sure: bool)
      // front() has returned a pointer
    | AtFront

  /** What the last front() returned. */
  datatype Front = NoCall | Null | Element(v: Value)

  /** `pushed` and `popped` list the values published and removed. */
  datatype State = State(
    slots: seq<Value>,
    writeIdx: nat,
    readIdx: nat,
    readCache: nat,
    writeCache: nat,
    ppc: Producer,
    cpc: Consumer,
    pushed: seq<Value>,
    popped: seq<Value>,
    front: Front,
    dropped: nat)

  /** One slot stays unused; the constructor asks for at least two. */
  function Capacity(s: State): int { |s.slots| - 1 }

  ghost predicate Init(s: State)
  {
    && |s.slots| >= 2
    && s.writeIdx == 0 && s.readIdx == 0 && s.readCache == 0 && s.writeCache == 0 && s.dropped == 0
    && s.ppc == Ready && s.cpc == Away && s.pushed == [] && s.popped == [] && s.front == NoCall
  }

  function Next(i: nat, size: nat): nat { if i + 1 == size then 0 else i + 1 }

  // ------------------------------------------------------------------------------------------
  // emplace and try_emplace
  // ------------------------------------------------------------------------------------------

  ghost predicate StartPush(s: State, s': State, v: Value, spin: bool)
  {
    && s.ppc == Ready
    && s' == s.(ppc := if Next(s.writeIdx, |s.slots|) == s.readCache then LoadRead(v, spin) else Write(v))
  }

  ghost predicate Produce(s: State, s': State)
  {
    match s.ppc
    case Ready => false
    case LoadRead(v, spin) =>
      s' == if Next(s.writeIdx, |s.slots|) != s.readIdx then s.(readCache := s.readIdx, ppc := Write(v))
            else if spin then s.(readCache := s.readIdx)
            else s.(readCache := s.readIdx, ppc := Ready, dropped := s.dropped + 1)
    case Write(v) =>
      s.writeIdx < |s.slots| && s' == s.(slots := s.slots[s.writeIdx := v], ppc := StoreWrite(v))
    case StoreWrite(v) => s' == s.(writeIdx := Next(s.writeIdx, |s.slots|), pushed := s.pushed + [v], ppc := Ready)
  }

  // ------------------------------------------------------------------------------------------
  // empty, front and pop
  // ------------------------------------------------------------------------------------------

  ghost predicate CheckEmpty(s: State, s': State)
  {
    s.cpc == Away && s' == if s.writeIdx == s.readIdx then s else s.(cpc := NotEmpty)
  }

  ghost predicate StartFront(s: State, s': State)
  {
    && (s.cpc == Away || s.cpc == NotEmpty)
    && if s.readIdx == s.writeCache then s' == s.(cpc := LoadWrite(s.cpc == NotEmpty))
       else s.readIdx < |s.slots| && s' == s.(cpc := AtFront, front := Element(s.slots[s.readIdx]))
  }

  ghost predicate RefreshFront(s: State, s': State)
  {
    && s.cpc.LoadWrite?
    && if s.readIdx == s.writeIdx then s' == s.(writeCache := s.writeIdx, cpc := Away, front := Null)
       else
         && s.readIdx < |s.slots|
         && s' == s.(writeCache := s.writeIdx, cpc := AtFront, front := Element(s.slots[s.readIdx]))
  }

  /** The element is moved out and destroyed, and the slot given back. */
  ghost predicate Pop(s: State, s': State)
  {
    && s.cpc == AtFront && s.readIdx < |s.slots|
    && s' == s.(readIdx := Next(s.readIdx, |s.slots|), popped := s.popped + [s.slots[s.readIdx]], cpc := Away)
  }

  ghost predicate Consume(s: State, s': State)
  {
    CheckEmpty(s, s') || StartFront(s, s') || RefreshFront(s, s') || Pop(s, s')
  }

  ghost predicate Step(s: State, s': State)
  {
    (exists v, spin :: StartPush(s, s', v, spin)) || Produce(s, s') || Consume(s, s')
  }

  ghost predicate IsRun(run: seq<State>)
  {
    && |run| > 0
    && Init(run[0])
    && forall i :: 0 <= i < |run| - 1 ==> Step(run[i], run[i + 1])
  }

  // ------------------------------------------------------------------------------------------
  // The invariant: every index is the remainder of a count; R and W are the counts of reads and
  // writes the caches stand for
  // ------------------------------------------------------------------------------------------

  ghost predicate Indices(s: State, R: nat, W: nat)
  {
    && |s.slots| >= 2
    && |s.popped| <= |s.pushed| <= |s.popped| + Capacity(s)
    && s.writeIdx == |s.pushed| % |s.slots| && s.readIdx == |s.popped| % |s.slots|
      // the read cache is a past value, behind which the writes have not run a full lap
    && s.readCache == R % |s.slots| && R <= |s.popped| && |s.pushed| <= R + Capacity(s)
    && s.writeCache == W % |s.slots| && |s.popped| <= W <= |s.pushed|
  }

  ghost predicate Places(s: State, R: nat, W: nat)
  {
    && (s.ppc.Write? || s.ppc.StoreWrite? ==> |s.pushed| < R + Capacity(s))
    && (s.ppc.StoreWrite? ==> s.writeIdx < |s.slots| && s.slots[s.writeIdx] == s.ppc.v)
    && (s.cpc == NotEmpty || s.cpc == LoadWrite(true) ==> |s.popped| < |s.pushed|)
    && (s.cpc == AtFront ==> |s.popped| < W && |s.popped| < |s.pushed| && s.front == Element(s.pushed[|s.popped|]))
  }

  ghost predicate Contents(slots: seq<Value>, pushed: seq<Value>, popped: seq<Value>)
  {
    && |slots| > 0 && |popped| <= |pushed| && popped == pushed[..|popped|]
    && forall i: nat | |popped| <= i < |pushed| :: slots[i % |slots|] == pushed[i]
  }

  ghost predicate Good(s: State, R: nat, W: nat)
  {
    Indices(s, R, W) && Places(s, R, W) && Contents(s.slots, s.pushed, s.popped)
  }

  ghost predicate Inv(s: State) { exists R: nat, W: nat :: Good(s, R, W) }

  lemma NextIsSucc(n: nat, size: nat)
    requires size >= 2
    ensures n % size < size && Next(n % size, size) == (n + 1) % size
  {
    RemAdd(n, 1, size);
    if n % size + 1 < size {
      RemSmall(n % size + 1, size);
    } else {
      RemCycle(0, size);
      RemSmall(0, size);
    }
  }

  /** The next write index meets a read index exactly when the writes are a full lap ahead of it. */
  lemma FullIffMeets(n: nat, r: nat, size: nat)
    requires size >= 2 && r <= n <= r + size - 1
    ensures Next(n % size, size) == r % size <==> n == r + size - 1
  {
    NextIsSucc(n, size);
    if n < r + size - 1 {
      RemDistinct(r, n + 1, size);
    } else {
      RemCycle(r, size);
    }
  }

  lemma EmptyIffMeets(n: nat, r: nat, size: nat)
    requires size >= 2 && r <= n <= r + size - 1
    ensures r % size == n % size <==> n == r
  {
    if r < n {
      RemDistinct(r, n, size);
    }
  }

  lemma StartPushKeeps(s: State, s': State, v: Value, spin: bool, R: nat, W: nat)
    requires Good(s, R, W) && StartPush(s, s', v, spin)
    ensures Good(s', R, W)
  {
    hide Contents;
    FullIffMeets(|s.pushed|, R, |s.slots|);
  }

  lemma LoadReadKeeps(s: State, s': State, R: nat, W: nat)
    requires Good(s, R, W) && s.ppc.LoadRead? && Produce(s, s')
    ensures Good(s', |s.popped|, W)
    ensures s'.dropped != s.dropped ==> |s.pushed| == |s.popped| + Capacity(s)
  {
    hide Contents;
    FullIffMeets(|s.pushed|, |s.popped|, |s.slots|);
  }

  /** The slot being written holds nothing that is queued. */
  lemma WriteKeeps(s: State, s': State, R: nat, W: nat)
    requires Good(s, R, W) && s.ppc.Write? && Produce(s, s')
    ensures Good(s', R, W)
  {
    forall i: nat | |s.popped| <= i < |s.pushed| ensures i % |s.slots| != s.writeIdx {
      RemDistinct(i, |s.pushed|, |s.slots|);
    }
  }

  lemma StoreWriteKeeps(s: State, s': State, R: nat, W: nat)
    requires Good(s, R, W) && s.ppc.StoreWrite? && Produce(s, s')
    ensures Good(s', R, W)
  {
    NextIsSucc(|s.pushed|, |s.slots|);
    ContentsGrow(s.slots, s.pushed, s.popped, s.ppc.v);
    hide Contents;
  }

  lemma ContentsGrow(slots: seq<Value>, pushed: seq<Value>, popped: seq<Value>, v: Value)
    requires Contents(slots, pushed, popped) && slots[|pushed| % |slots|] == v
    ensures Contents(slots, pushed + [v], popped)
  {
  }

  lemma CheckEmptyKeeps(s: State, s': State, R: nat, W: nat)
    requires Good(s, R, W) && CheckEmpty(s, s')
    ensures Good(s', R, W) && (s'.cpc == NotEmpty <==> |s.popped| < |s.pushed|)
  {
    hide Contents;
    EmptyIffMeets(|s.pushed|, |s.popped|, |s.slots|);
  }

  lemma FrontIsOldest(s: State, R: nat, W: nat)
    requires Good(s, R, W) && |s.popped| < |s.pushed|
    ensures s.readIdx < |s.slots| && s.slots[s.readIdx] == s.pushed[|s.popped|]
  {
  }

  lemma StartFrontKeeps(s: State, s': State, R: nat, W: nat)
    requires Good(s, R, W) && StartFront(s, s')
    ensures Good(s', R, W)
  {
    EmptyIffMeets(W, |s.popped|, |s.slots|);
    if s.readIdx != s.writeCache {
      FrontIsOldest(s, R, W);
    }
    hide Contents;
  }

  lemma RefreshFrontKeeps(s: State, s': State, R: nat, W: nat)
    requires Good(s, R, W) && RefreshFront(s, s')
    ensures Good(s', R, |s.pushed|)
    ensures s'.front == Null <==> |s.popped| == |s.pushed|
    ensures s.cpc == LoadWrite(true) ==> s'.front != Null
  {
    EmptyIffMeets(|s.pushed|, |s.popped|, |s.slots|);
    if |s.popped| < |s.pushed| {
      FrontIsOldest(s, R, W);
    }
    hide Contents;
  }

  lemma PopKeeps(s: State, s': State, R: nat, W: nat)
    requires Good(s, R, W) && Pop(s, s')
    ensures Good(s', R, W) && s'.popped == s.popped + [s.pushed[|s.popped|]]
  {
    NextIsSucc(|s.popped|, |s.slots|);
    FrontIsOldest(s, R, W);
    assert Contents(s'.slots, s'.pushed, s'.popped);
    hide Contents;
  }

  lemma ProduceKeeps(s: State, s': State)
    requires Inv(s) && Produce(s, s')
    ensures Inv(s')
  {
    hide Good;
    var R: nat, W: nat :| Good(s, R, W);
    match s.ppc
    case LoadRead(_, _) => LoadReadKeeps(s, s', R, W);
    case Write(_) => WriteKeeps(s, s', R, W);
    case StoreWrite(_) => StoreWriteKeeps(s, s', R, W);
  }

  lemma StartKeeps(s: State, s': State, v: Value, spin: bool)
    requires Inv(s) && StartPush(s, s', v, spin)
    ensures Inv(s')
  {
    hide Good;
    var R: nat, W: nat :| Good(s, R, W);
    StartPushKeeps(s, s', v, spin, R, W);
  }

  lemma ConsumeKeeps(s: State, s': State)
    requires Inv(s) && Consume(s, s')
    ensures Inv(s')
  {
    hide Good;
    var R: nat, W: nat :| Good(s, R, W);
    if CheckEmpty(s, s') {
      CheckEmptyKeeps(s, s', R, W);
    } else if StartFront(s, s') {
      StartFrontKeeps(s, s', R, W);
    } else if RefreshFront(s, s') {
      RefreshFrontKeeps(s, s', R, W);
    } else {
      PopKeeps(s, s', R, W);
    }
  }

  lemma StepKeeps(s: State, s': State)
    requires Inv(s) && Step(s, s')
    ensures Inv(s') && |s'.slots| == |s.slots|
  {
    hide Inv;
    if v, spin :| StartPush(s, s', v, spin) {
      StartKeeps(s, s', v, spin);
    } else if Produce(s, s') {
      ProduceKeeps(s, s');
    } else {
      ConsumeKeeps(s, s');
    }
  }

  lemma InitKeeps(s: State)
    requires Init(s)
    ensures Inv(s)
  {
    RemSmall(0, |s.slots|);
    assert Contents(s.slots, [], []);
    hide Contents;
    assert Good(s, 0, 0);
  }

  lemma {:induction false} RunKeeps(run: seq<State>, i: nat)
    requires IsRun(run) && i < |run|
    ensures Inv(run[i]) && |run[i].slots| == |run[0].slots|
  {
    hide Inv, Step;
    if i == 0 {
      InitKeeps(run[0]);
    } else {
      RunKeeps(run, i - 1);
      StepKeeps(run[i - 1], run[i]);
    }
  }

  // ------------------------------------------------------------------------------------------
  // What the queue promises
  // ------------------------------------------------------------------------------------------

  /** A bounded first-in first-out queue of capacity() elements. */
  lemma BoundedFifo(run: seq<State>, i: nat)
    requires IsRun(run) && i < |run|
    ensures run[i].popped <= run[i].pushed && |run[i].pushed| - |run[i].popped| <= Capacity(run[0])
  {
    hide Init, Step, Places;
    RunKeeps(run, i);
    var R: nat, W: nat :| Good(run[i], R, W);
  }

  /** The element handed out by front is the oldest, and it is the one pop removes. */
  lemma FrontThenPop(run: seq<State>, i: nat)
    requires IsRun(run) && i < |run| - 1 && run[i].cpc == AtFront
    ensures |run[i].popped| < |run[i].pushed| && run[i].front == Element(run[i].pushed[|run[i].popped|])
    ensures run[i].writeIdx != run[i].readIdx
    ensures Pop(run[i], run[i + 1]) ==> run[i + 1].popped == run[i].popped + [run[i].pushed[|run[i].popped|]]
  {
    hide Init, Step;
    RunKeeps(run, i);
    var s := run[i];
    var R: nat, W: nat :| Good(s, R, W);
    FrontIsOldest(s, R, W);
    EmptyIffMeets(|s.pushed|, |s.popped|, |s.slots|);
    hide Contents;
  }

  /** A write never touches a slot that is queued, whatever the caches say. */
  lemma NoOverwrite(run: seq<State>, i: nat, k: nat)
    requires IsRun(run) && i < |run| && run[i].ppc.Write? && |run[i].popped| <= k < |run[i].pushed|
    ensures k % |run[0].slots| != run[i].writeIdx
  {
    hide Init, Step, Contents;
    RunKeeps(run, i);
    var s := run[i];
    var R: nat, W: nat :| Good(s, R, W);
    RemDistinct(k, |s.pushed|, |s.slots|);
  }

  /** Each cache is a past value of the index it copies, inside the window of the present indices. */
  lemma CachesArePast(run: seq<State>, i: nat) returns (R: nat, W: nat)
    requires IsRun(run) && i < |run|
    ensures R <= |run[i].popped| && run[i].readCache == R % |run[0].slots| && |run[i].pushed| <= R + Capacity(run[0])
    ensures |run[i].popped| <= W <= |run[i].pushed| && run[i].writeCache == W % |run[0].slots|
  {
    hide Step, Contents, Places;
    RunKeeps(run, i);
    R, W :| Good(run[i], R, W);
  }

  /** try_emplace drops its element only at a moment when the queue is full. */
  lemma DropsWhenFull(run: seq<State>, i: nat)
    requires IsRun(run) && i < |run| - 1 && Produce(run[i], run[i + 1]) && run[i + 1].dropped != run[i].dropped
    ensures |run[i].pushed| == |run[i].popped| + Capacity(run[0])
  {
    hide Step, Good;
    RunKeeps(run, i);
    var R: nat, W: nat :| Good(run[i], R, W);
    LoadReadKeeps(run[i], run[i + 1], R, W);
  }

  /** front returns null only at a moment when the queue is empty, and never after empty() has said otherwise. */
  lemma NullWhenEmpty(run: seq<State>, i: nat)
    requires IsRun(run) && i < |run| - 1 && RefreshFront(run[i], run[i + 1])
    ensures run[i + 1].front == Null <==> |run[i].popped| == |run[i].pushed|
    ensures run[i].cpc == LoadWrite(true) ==> run[i + 1].front != Null
  {
    hide Init, Step, Good;
    RunKeeps(run, i);
    var R: nat, W: nat :| Good(run[i], R, W);
    RefreshFrontKeeps(run[i], run[i + 1], R, W);
  }

  /** What size computes from the two indices it loads. */
  function SizeOf(writeIdx: nat, readIdx: nat, slots: nat): int
  {
    if writeIdx < readIdx then writeIdx - readIdx + slots else writeIdx - readIdx
  }

  /**
   * Called by any thread, with the write index loaded at one moment and the read index at another: the
   * result is the difference of the counts at those moments, up to whole laps, and exact if and only if
   * that difference is from zero to the capacity.
   */
  lemma SizeFromTwoLoads(run: seq<State>, i: nat, j: nat)
    requires IsRun(run) && i < |run| && j < |run|
    ensures |run[0].slots| > 0
    ensures var size, d := SizeOf(run[i].writeIdx, run[j].readIdx, |run[0].slots|), |run[i].pushed| - |run[j].popped|;
      size == d % |run[0].slots| && (size == d <==> 0 <= d <= Capacity(run[0]))
  {
    hide Init, Step, Contents, Places;
    IndexOf(run, i);
    IndexOf(run, j);
    var w, r, n := run[i].writeIdx, run[j].readIdx, |run[0].slots|;
    RemSubtract(|run[i].pushed|, |run[j].popped|, n);
    if w < r {
      RemCycle(w - r, n);
      RemSmall(w - r + n, n);
    } else {
      RemSmall(w - r, n);
    }
    var d := |run[i].pushed| - |run[j].popped|;
    if 0 <= d < n {
      RemSmall(d, n);
    }
  }

  lemma IndexOf(run: seq<State>, i: nat)
    requires IsRun(run) && i < |run|
    ensures |run[0].slots| >= 2
    ensures run[i].writeIdx == |run[i].pushed| % |run[0].slots| && run[i].readIdx == |run[i].popped| % |run[0].slots|
  {
    hide Init, Step, Contents, Places;
    RunKeeps(run, i);
    var R: nat, W: nat :| Good(run[i], R, W);
  }

  /** Called by the producer or the consumer, whose own index does not change meanwhile, size is exact. */
  lemma SizeIsExact(run: seq<State>, i: nat)
    requires IsRun(run) && i < |run|
    ensures SizeOf(run[i].writeIdx, run[i].readIdx, |run[0].slots|) == |run[i].pushed| - |run[i].popped|
    ensures run[i].writeIdx == run[i].readIdx <==> run[i].pushed == run[i].popped
  {
    hide Init, Step;
    SizeFromTwoLoads(run, i, i);
    BoundedFifo(run, i);
    IndexOf(run, i);
    assert run[i].readIdx < |run[0].slots|;
    if |run[i].pushed| == |run[i].popped| {
      assert run[i].pushed == run[i].popped;
    }
  }
}
