/**
 * Blocks above the flag threshold: instead of flags, a block counts its finished elements. One addition
 * sets the flags of a whole part at once, one load tells whether all are set, one store clears them.
 * Every run of that kind is a run of BlockIndex seen at fewer moments, with the number of set flags as
 * the counter, so everything proved there holds here. It also holds a run that uses up a block.
 */
module BlockCounter {
  import opened BlockIndex
  import opened Epochs
  import OD = OptimisticDequeue
  import Modular

  ghost predicate Reachable(s: State) { exists run :: IsRun(run) && run[|run| - 1] == s }

  lemma ReachStep(s: State, s': State)
    requires Reachable(s) && Step(s, s')
    ensures Reachable(s')
  {
    hide Step, Init;
    var run :| IsRun(run) && run[|run| - 1] == s;
    var run' := run + [s'];
    forall i | 0 <= i < |run'| - 1 ensures Step(run'[i], run'[i + 1]) {
      if i < |run| - 1 {
        assert run'[i] == run[i] && run'[i + 1] == run[i + 1];
      }
    }
    assert IsRun(run') && run'[|run'| - 1] == s';
  }

  // ------------------------------------------------------------------------------------------
  // The counter
  // ------------------------------------------------------------------------------------------

  /** The flags of block b that are set. */
  ghost function Finished(empty: set<(Block, nat)>, b: Block): set<nat>
  {
    set j: nat | j < BLOCK_SIZE && (b, j) in empty
  }

  /** elementsCompletelyDequeued of block b. */
  ghost function Counter(empty: set<(Block, nat)>, b: Block): nat { |Finished(empty, b)| }

  ghost predicate AllSet(empty: set<(Block, nat)>, b: Block) { forall j: nat | j < BLOCK_SIZE :: (b, j) in empty }

  lemma {:induction false} Below(xs: set<nat>, n: nat)
    requires forall x | x in xs :: x < n
    ensures |xs| <= n && (|xs| == n <==> forall x: nat | x < n :: x in xs)
  {
    if n == 0 {
      assert xs == {};
    } else {
      var rest := xs - {n - 1};
      Below(rest, n - 1);
      if n - 1 in xs {
        assert xs == rest + {n - 1};
      } else {
        assert xs == rest;
      }
    }
  }

  /** The counter is full exactly when every flag is set. */
  lemma FullIff(empty: set<(Block, nat)>, b: Block)
    ensures Counter(empty, b) <= BLOCK_SIZE && (Counter(empty, b) == BLOCK_SIZE <==> AllSet(empty, b))
  {
    var done := Finished(empty, b);
    Below(done, BLOCK_SIZE);
    if AllSet(empty, b) {
      assert forall j: nat | j < BLOCK_SIZE :: j in done;
    } else {
      var j: nat :| j < BLOCK_SIZE && (b, j) !in empty;
      assert j !in done;
    }
  }

  lemma CounterAdd(empty: set<(Block, nat)>, b: Block, j: nat)
    requires j < BLOCK_SIZE && (b, j) !in empty
    ensures Counter(empty + {(b, j)}, b) == Counter(empty, b) + 1
    ensures forall c | c != b :: Finished(empty + {(b, j)}, c) == Finished(empty, c)
  {
    assert Finished(empty + {(b, j)}, b) == Finished(empty, b) + {j};
  }

  // ------------------------------------------------------------------------------------------
  // The steps on the counter
  // ------------------------------------------------------------------------------------------

  /** is_empty of the block ahead. */
  ghost predicate Check(s: State, s': State)
  {
    && s.ppc.Scan? && s.ppc.j == 0 && s.tailBlock in s.next
    && var full := Counter(s.empty, s.next[s.tailBlock]) == BLOCK_SIZE;
    && s' == s.(ppc := if full then Scan(s.ppc.v, BLOCK_SIZE) else NeedBlock(s.ppc.v))
  }

  ghost function FlagsOf(b: Block, n: nat): set<(Block, nat)> { set j: nat | j < n :: (b, j) }

  /** reset_empty. */
  ghost predicate ResetAll(s: State, s': State)
  {
    && s.ppc.Reset? && s.ppc.j == 0
    && s' == s.(ppc := Reset(s.ppc.v, BLOCK_SIZE), empty := s.empty - FlagsOf(s.tailBlock, BLOCK_SIZE))
  }

  /** The flags of the last j indices before `end`. */
  ghost function PartFlags(b: Block, end: nat, j: nat): set<(Block, nat)>
    requires j <= end
  {
    set i: nat | end - j <= i < end :: (b, Flag(i))
  }

  /** set_many_empty, for all elements of the part. */
  ghost predicate MarkAll(s: State, s': State, t: nat)
  {
    && t < |s.walks| && t < |s.cnt.pcs| && s.cnt.pcs[t].Claimed?
    && s.walks[t].Mark? && s.walks[t].j == 0 && s.walks[t].from < s.walks[t].end
    && var w := s.walks[t];
    && s' == GotoWalk(s, t, w.(j := w.end - w.from)).(empty := s.empty + PartFlags(w.b, w.end, w.end - w.from))
  }

  /** Steps that do not look at, set or clear single flags. */
  ghost predicate Plain(s: State, s': State)
  {
    || (exists v :: Begin(s, s', v)) || Reuse(s, s') || Refuse(s, s') || Grow(s, s') || (exists b :: Link(s, s', b))
    || (s.ppc.Reset? && s.ppc.j == BLOCK_SIZE && ResetFlag(s, s')) || FillIndex(s, s') || Store(s, s')
    || (exists t: nat :: Count(s, s', t) || ClaimRange(s, s', t) || Search(s, s', t) || Leave(s, s', t))
    || (exists t: nat :: ClaimNothing(s, s', t) || Glance(s, s', t))
    || (exists t: nat :: t < |s.walks| && !s.walks[t].Mark? && Drain(s, s', t))
  }

  ghost predicate CounterStep(s: State, s': State)
  {
    Plain(s, s') || Check(s, s') || ResetAll(s, s') || exists t: nat :: MarkAll(s, s', t)
  }

  ghost predicate IsCounterRun(run: seq<State>)
  {
    && |run| > 0
    && Init(run[0])
    && forall i :: 0 <= i < |run| - 1 ==> CounterStep(run[i], run[i + 1])
  }

  // ------------------------------------------------------------------------------------------
  // Each is a sequence of steps on flags
  // ------------------------------------------------------------------------------------------

  lemma PlainStep(s: State, s': State)
    requires Plain(s, s')
    ensures Step(s, s')
  {
    hide Begin, Reuse, Refuse, Grow, Link, ResetFlag, FillIndex, Store, Count, ClaimRange, Search, Leave, Drain,
        ClaimNothing, Glance;
    if t: nat :| Count(s, s', t) || ClaimRange(s, s', t) || Search(s, s', t) || Leave(s, s', t) {
      assert Consume(s, s', t);
    } else if t: nat :| ClaimNothing(s, s', t) || Glance(s, s', t) {
      assert Consume(s, s', t);
    } else if t: nat :| t < |s.walks| && !s.walks[t].Mark? && Drain(s, s', t) {
      assert Consume(s, s', t);
    }
  }

  /** Looking at flags that are all set. */
  lemma {:induction false} Scans(s: State, j: nat)
    requires Reachable(s) && s.ppc.Scan? && s.ppc.j == 0 && s.tailBlock in s.next && j <= BLOCK_SIZE
    requires forall i: nat | i < j :: (s.next[s.tailBlock], i) in s.empty
    ensures Reachable(s.(ppc := Scan(s.ppc.v, j)))
    decreases j
  {
    hide Reachable, Step;
    if j == 0 {
      assert s.(ppc := Scan(s.ppc.v, 0)) == s;
    } else {
      Scans(s, j - 1);
      Looks(s.(ppc := Scan(s.ppc.v, j - 1)), s.(ppc := Scan(s.ppc.v, j)));
    }
  }

  lemma Looks(s: State, s': State)
    requires Reachable(s) && Look(s, s')
    ensures Reachable(s')
  {
    assert Step(s, s') by {
      hide Look;
    }
    hide Reachable, Step, Look;
    ReachStep(s, s');
  }

  lemma CheckReaches(s: State, s': State)
    requires Reachable(s) && Check(s, s')
    ensures Reachable(s')
  {
    hide Reachable, Step;
    var b := s.next[s.tailBlock];
    FullIff(s.empty, b);
    if AllSet(s.empty, b) {
      Scans(s, BLOCK_SIZE);
    } else {
      var j := FirstClear(s.empty, b, BLOCK_SIZE);
      Scans(s, j);
      Looks(s.(ppc := Scan(s.ppc.v, j)), s');
    }
  }

  lemma {:induction false} FirstClear(empty: set<(Block, nat)>, b: Block, n: nat) returns (j: nat)
    requires exists i: nat :: i < n && (b, i) !in empty
    ensures j < n && (b, j) !in empty && forall i: nat | i < j :: (b, i) in empty
  {
    if i: nat :| i < n - 1 && (b, i) !in empty {
      j := FirstClear(empty, b, n - 1);
    } else {
      j := n - 1;
    }
  }

  lemma {:induction false} Resets(s: State, j: nat)
    requires Reachable(s) && s.ppc.Reset? && s.ppc.j == 0 && j <= BLOCK_SIZE
    ensures Reachable(s.(ppc := Reset(s.ppc.v, j), empty := s.empty - FlagsOf(s.tailBlock, j)))
    decreases j
  {
    hide Reachable, Step;
    if j == 0 {
      assert s.empty - FlagsOf(s.tailBlock, 0) == s.empty;
      assert s.(ppc := Reset(s.ppc.v, 0)) == s;
    } else {
      Resets(s, j - 1);
      var s1 := s.(ppc := Reset(s.ppc.v, j - 1), empty := s.empty - FlagsOf(s.tailBlock, j - 1));
      var s2 := s.(ppc := Reset(s.ppc.v, j), empty := s.empty - FlagsOf(s.tailBlock, j));
      assert s2.empty == s1.empty - {(s.tailBlock, j - 1)};
      assert ResetFlag(s1, s2);
      ResetReaches(s1, s2);
    }
  }

  lemma ResetReaches(s: State, s': State)
    requires Reachable(s) && ResetFlag(s, s')
    ensures Reachable(s')
  {
    assert Step(s, s') by {
      hide ResetFlag;
    }
    hide Reachable, Step, ResetFlag;
    ReachStep(s, s');
  }

  /** Marking the last j indices of the part, and what it does to the counter of the block. */
  lemma {:induction false} Marks(s: State, t: nat, j: nat) returns (s': State)
    requires Reachable(s) && t < |s.walks| && t < |s.cnt.pcs| && s.cnt.pcs[t].Claimed? && s.walks[t].Mark?
    requires s.walks[t].j == 0 && s.walks[t].from < s.walks[t].end && j <= s.walks[t].end - s.walks[t].from
    ensures var w := s.walks[t];
      && Reachable(s') && s' == GotoWalk(s, t, w.(j := j)).(empty := s.empty + PartFlags(w.b, w.end, j))
      && Counter(s'.empty, w.b) == Counter(s.empty, w.b) + j
    decreases j
  {
    hide Reachable, Step, Flag;
    var w := s.walks[t];
    if j == 0 {
      s' := s;
      assert s.walks[t := w] == s.walks && s.empty + PartFlags(w.b, w.end, 0) == s.empty;
    } else {
      var s1 := Marks(s, t, j - 1);
      s' := GotoWalk(s, t, w.(j := j)).(empty := s.empty + PartFlags(w.b, w.end, j));
      assert PartFlags(w.b, w.end, j) == PartFlags(w.b, w.end, j - 1) + {(w.b, Flag(w.end - j))};
      assert s'.empty == s1.empty + {(w.b, Flag(w.end - j))};
      assert s'.walks == s1.walks[t := w.(j := j)];
      MarkReaches(s1, s', t);
      FlagInRange(w.end - j);
      CounterAdd(s1.empty, w.b, Flag(w.end - j));
    }
  }

  lemma FlagInRange(i: nat)
    ensures Flag(i) < BLOCK_SIZE
  {
    StartOfEpoch(i);
  }

  lemma MarkReaches(s: State, s': State, t: nat)
    requires Reachable(s) && t < |s.walks| && s.walks[t].Mark? && Drain(s, s', t)
    ensures Reachable(s') && s.walks[t].j < s.walks[t].end
    ensures (s.walks[t].b, Flag(s.walks[t].end - 1 - s.walks[t].j)) !in s.empty
  {
    DrainIsStep(s, s', t);
    hide Step, Flag, Drain, Reachable;
    ReachStep(s, s');
    MarkIsClear(s, s', t);
  }

  lemma MarkIsClear(s: State, s': State, t: nat)
    requires Reachable(s) && Step(s, s') && t < |s.walks| && s.walks[t].Mark? && Drain(s, s', t)
    ensures s.walks[t].j < s.walks[t].end
    ensures (s.walks[t].b, Flag(s.walks[t].end - 1 - s.walks[t].j)) !in s.empty
  {
    hide Step, Flag, Drain, Init;
    var run :| IsRun(run) && run[|run| - 1] == s;
    RunExtends(run, s');
    var run', i := run + [s'], |run| - 1;
    assert run'[i] == s && run'[i + 1] == s';
    hide IsRun;
    FlagIsClear(run', i, t);
  }

  lemma DrainIsStep(s: State, s': State, t: nat)
    requires Drain(s, s', t)
    ensures Step(s, s')
  {
    hide Drain, Produce;
    assert Consume(s, s', t);
  }

  lemma RunExtends(run: seq<State>, s': State)
    requires IsRun(run) && Step(run[|run| - 1], s')
    ensures IsRun(run + [s'])
  {
    hide Step, Init;
    var run' := run + [s'];
    forall i | 0 <= i < |run'| - 1 ensures Step(run'[i], run'[i + 1]) {
      if i < |run| - 1 {
        assert run'[i] == run[i] && run'[i + 1] == run[i + 1];
      }
    }
  }

  lemma CounterReaches(s: State, s': State)
    requires Reachable(s) && CounterStep(s, s')
    ensures Reachable(s')
  {
    hide Reachable, Plain, Step;
    if Plain(s, s') {
      PlainStep(s, s');
      ReachStep(s, s');
    } else if Check(s, s') {
      CheckReaches(s, s');
    } else if ResetAll(s, s') {
      Resets(s, BLOCK_SIZE);
    } else {
      var t: nat :| MarkAll(s, s', t);
      var s1 := Marks(s, t, s.walks[t].end - s.walks[t].from);
    }
  }

  /** Every state of a run with counters is a state of a run with flags, of which everything is proved. */
  lemma {:induction false} CounterRunIsRun(run: seq<State>, i: nat)
    requires IsCounterRun(run) && i < |run|
    ensures Reachable(run[i])
  {
    hide CounterStep, Init;
    if i == 0 {
      assert IsRun([run[0]]) && [run[0]][0] == run[0];
    } else {
      CounterRunIsRun(run, i - 1);
      CounterReaches(run[i - 1], run[i]);
    }
  }

  /** set_many_empty adds the size of the part, and never beyond the block size, as the code asserts. */
  lemma CounterIsExact(run: seq<State>, i: nat, t: nat)
    requires IsCounterRun(run) && i < |run| - 1 && MarkAll(run[i], run[i + 1], t)
    ensures var w := run[i].walks[t];
      && Counter(run[i + 1].empty, w.b) == Counter(run[i].empty, w.b) + (w.end - w.from)
      && Counter(run[i + 1].empty, w.b) <= BLOCK_SIZE
  {
    hide CounterStep, Init, Counter;
    CounterRunIsRun(run, i);
    var w := run[i].walks[t];
    var s := Marks(run[i], t, w.end - w.from);
    FullIff(run[i + 1].empty, w.b);
  }

  /** reset_empty sets the counter to zero. */
  lemma ResetIsZero(s: State, s': State)
    requires ResetAll(s, s')
    ensures Counter(s'.empty, s.tailBlock) == 0
    ensures forall c | c != s.tailBlock :: Finished(s'.empty, c) == Finished(s.empty, c)
  {
    assert Finished(s'.empty, s.tailBlock) == {};
  }

  /** The values delivered in a run with counters are the enqueued ones. */
  lemma CounterDequeuesEnqueued(run: seq<State>, i: nat)
    requires IsCounterRun(run) && i < |run|
    ensures run[i].cnt.head <= run[i].cnt.tail == |run[i].log|
    ensures forall k | k in run[i].out :: k < run[i].cnt.head && run[i].out[k] == run[i].log[k]
  {
    hide CounterStep, Init, Step;
    CounterRunIsRun(run, i);
    var flags :| IsRun(flags) && flags[|flags| - 1] == run[i];
    DequeuedIsEnqueued(flags, |flags| - 1);
  }

  // ------------------------------------------------------------------------------------------
  // A run that uses up a block: the head is at the end of the tail block
  // ------------------------------------------------------------------------------------------

  /** Between enqueues, with n elements in the first block and a consumer that has done nothing yet. */
  ghost predicate Filled(s: State, n: nat)
  {
    && Reachable(s) && s.ppc == Ready && s.used == 1
    && s.cnt == OD.State(n, 0, 0, 0, [OD.Idle]) && s.walks == [Out]
  }

  lemma ProduceReaches(s: State, s': State)
    requires Reachable(s) && Produce(s, s')
    ensures Reachable(s')
  {
    hide Reachable, Produce;
    ReachStep(s, s');
  }

  lemma Opens() returns (s: State)
    ensures Reachable(s) && s.ppc == Reset(0, 0) && s.used == 1 && s.walks == [Out] && s.tailBlock == 0
    ensures s.cnt == OD.State(0, 0, 0, 0, [OD.Idle]) && s.headers == [Header(2, 0, [Entry(0, 0), Entry(0, 0)])]
      && s.prFront == 0
  {
    var cnt := OD.State(0, 0, 0, 0, [OD.Idle]);
    var hd := Header(2, 0, [Entry(0, 0), Entry(0, 0)]);
    var s0 := State(cnt, Ready, 0, map[], {}, 0, 0, [hd], {}, map[], [Out], [], map[]);
    assert Init(s0) && IsRun([s0]) && [s0][0] == s0;
    hide Reachable;
    RemZero();
    var s1 := s0.(ppc := NeedBlock(0));
    assert Begin(s0, s1, 0);
    ProduceReaches(s0, s1);
    s := s1.(ppc := Reset(0, 0), tailBlock := 0, mine := {0}, used := 1, next := s1.next[0 := 0]);
    assert s1.mine + {0} == {0} && Link(s1, s, 0);
    ProduceReaches(s1, s);
  }

  lemma RemZero()
    ensures Place(0) == 0
  {
    StartIsNat(0);
    EpochOfStart(0);
  }

  lemma FirstElement() returns (s: State)
    ensures Filled(s, 1)
  {
    hide Reachable;
    var s0 := Opens();
    Resets(s0, BLOCK_SIZE);
    var s1 := s0.(ppc := Reset(0, BLOCK_SIZE), empty := s0.empty - FlagsOf(0, BLOCK_SIZE));
    var s2 := s1.(ppc := EntryBase(0));
    assert ResetFlag(s1, s2);
    ResetReaches(s1, s2);
    var hd := s2.headers[0];
    var s3 := SetHeader(s2, hd.(entries := hd.entries[0 := hd.entries[0].(base := 0)])).(ppc := EntryBlock(0));
    assert FillIndex(s2, s3);
    ProduceReaches(s2, s3);
    var hd' := s3.headers[0];
    var s4 := SetHeader(s3, hd'.(entries := hd'.entries[0 := hd'.entries[0].(block := 0)])).(ppc := PublishFront(0));
    assert FillIndex(s3, s4);
    ProduceReaches(s3, s4);
    var s5 := SetHeader(s4, s4.headers[0].(front := 0)).(ppc := Construct(0), prFront := 1);
    assert FillIndex(s4, s5);
    ProduceReaches(s4, s5);
    s := Stores(s5);
  }

  lemma Stores(s: State) returns (s': State)
    requires Reachable(s) && s.ppc == Construct(0)
    ensures Reachable(s') && s'.ppc == Ready && s'.used == s.used && s'.walks == s.walks
    ensures s'.cnt == s.cnt.(tail := s.cnt.tail + 1)
  {
    hide Reachable, Place;
    var s1 := s.(ppc := PublishTail(0), data := s.data[(s.tailBlock, Place(s.cnt.tail)) := 0]);
    assert Store(s, s1);
    ProduceReaches(s, s1);
    s' := s1.(ppc := Ready, cnt := s1.cnt.(tail := s1.cnt.tail + 1), log := s1.log + [0]);
    assert Store(s1, s');
    ProduceReaches(s1, s');
  }

  lemma {:induction false} Fills(n: nat) returns (s: State)
    requires 1 <= n <= BLOCK_SIZE
    ensures Filled(s, n)
    decreases n
  {
    hide Reachable;
    if n == 1 {
      s := FirstElement();
    } else {
      var s0 := Fills(n - 1);
      Modular.RemSmall(n - 1, BLOCK_SIZE);
      var s1 := s0.(ppc := Construct(0));
      assert Begin(s0, s1, 0);
      ProduceReaches(s0, s1);
      s := Stores(s1);
    }
  }

  /** A block's worth of enqueues, then one bulk claim of all of them. */
  lemma UsedUpBlock() returns (s: State)
    ensures Reachable(s) && !Opening(s.ppc) && s.used == 1 && s.cnt.head == BLOCK_SIZE && s.cnt.tail == BLOCK_SIZE
  {
    hide Reachable;
    var n: nat := BLOCK_SIZE;
    var s0 := Fills(n);
    var c := s0.cnt.(pcs := [OD.LoadTail(n)], optimistic := s0.cnt.optimistic + 0);
    assert c == OD.Goto(s0.cnt, 0, OD.LoadTail(n)) && n >= 1 && OD.Begin(s0.cnt, c, 0, n);
    var s1 := Counts(s0, OD.LoadTail(n), 0);
    var s2 := Counts(s1, OD.LoadOvercommit(n, n), 0);
    var s3 := Counts(s2, OD.LoadOptimistic(n, n, 0), 0);
    var s4 := Counts(s3, OD.Ticket(n, 0), 0);
    var s5 := Counts(s4, OD.Recheck(n, 0, 0), n);
    var s6 := Counts(s5, OD.Claim(n), 0);
    s := s6.(cnt := OD.State(n, n, n, 0, [OD.Claimed(0, n)]), walks := [LoadIndex]);
    assert s6.walks[0 := LoadIndex] == [LoadIndex] && [OD.Claim(n)][0 := OD.Claimed(0, n)] == [OD.Claimed(0, n)];
    assert ClaimRange(s6, s, 0);
    Consumes(s6, s);
  }

  /** The consumer's next position before it claims; `more` is added to the optimistic count. */
  lemma Counts(s: State, p: OD.Pc, more: nat) returns (s': State)
    requires Reachable(s) && |s.cnt.pcs| == 1 && !s.cnt.pcs[0].Claim? && !s.cnt.pcs[0].Claimed?
    requires var c := s.cnt.(pcs := [p], optimistic := s.cnt.optimistic + more);
      (exists max :: OD.Begin(s.cnt, c, 0, max)) || OD.Dequeue(s.cnt, c, 0)
    ensures Reachable(s') && s' == s.(cnt := s.cnt.(pcs := [p], optimistic := s.cnt.optimistic + more))
  {
    s' := s.(cnt := s.cnt.(pcs := [p], optimistic := s.cnt.optimistic + more));
    assert Count(s, s', 0);
    hide Reachable;
    Consumes(s, s');
  }

  lemma Consumes(s: State, s': State)
    requires Reachable(s) && Consume(s, s', 0)
    ensures Reachable(s')
  {
    hide Reachable, Consume;
    ReachStep(s, s');
  }
}
