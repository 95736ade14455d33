/**
 * With counters in place of flags, too, every call of an explicit producer can take its next step.
 */
module CounterCalls {
  import opened BlockIndex
  import opened BlockCounter
  import opened Epochs
  import Calls = BlockCalls
  import OD = OptimisticDequeue

  /** The loops over flags are single steps on the counter: they have not begun or are over. */
  predicate WholeWalk(w: Walk) { w.Mark? ==> w.j == 0 || w.j == w.end - w.from }

  predicate WholePc(p: ProducerPc) { p.Scan? || p.Reset? ==> p.j == 0 || p.j == BLOCK_SIZE }

  ghost predicate Whole(s: State)
  {
    WholePc(s.ppc) && forall t | 0 <= t < |s.walks| :: WholeWalk(s.walks[t])
  }

  /** A step of consumer t in a run with counters. */
  ghost predicate ConsumerMoves(s: State, s': State, t: nat)
  {
    || Count(s, s', t) || ClaimRange(s, s', t) || Search(s, s', t) || Leave(s, s', t) || ClaimNothing(s, s', t)
    || Glance(s, s', t) || MarkAll(s, s', t) || (t < |s.walks| && !s.walks[t].Mark? && Drain(s, s', t))
  }

  lemma ConsumeWhole(s: State, s': State, t: nat)
    requires Whole(s) && ConsumerMoves(s, s', t)
    ensures Whole(s')
  {
    hide ConsumerMoves;
    OneMoves(s, s', t);
    forall u | 0 <= u < |s'.walks| ensures WholeWalk(s'.walks[u]) {
      if u != t {
        assert s'.walks[u] == s.walks[u] && WholeWalk(s.walks[u]);
      }
    }
  }

  ghost predicate StaysWhole(s: State, s': State, t: nat)
  {
    && |s'.walks| == |s.walks| && s'.ppc == s.ppc
    && (t >= |s.walks| ==> s'.walks == s.walks)
    && (t < |s.walks| ==> s'.walks == s.walks[t := s'.walks[t]] && (WholeWalk(s.walks[t]) ==> WholeWalk(s'.walks[t])))
  }

  lemma OneMoves(s: State, s': State, t: nat)
    requires ConsumerMoves(s, s', t)
    ensures StaysWhole(s, s', t)
  {
    hide Count, ClaimRange, Search, Leave, ClaimNothing, Glance, MarkAll, Drain, StaysWhole;
    if Search(s, s', t) {
      SearchMoves(s, s', t);
    } else if Leave(s, s', t) {
      LeaveMoves(s, s', t);
    } else if Count(s, s', t) || ClaimRange(s, s', t) || ClaimNothing(s, s', t) {
      CountMoves(s, s', t);
    } else if Glance(s, s', t) {
      GlanceMoves(s, s', t);
    } else {
      DrainMoves(s, s', t);
    }
  }

  lemma DrainMoves(s: State, s': State, t: nat)
    requires MarkAll(s, s', t) || (t < |s.walks| && !s.walks[t].Mark? && Drain(s, s', t))
    ensures StaysWhole(s, s', t)
  {
    hide Epoch, Start, Place, Blocks, Flag, PartEnd, PartFlags;
  }

  lemma SearchMoves(s: State, s': State, t: nat)
    requires Search(s, s', t)
    ensures StaysWhole(s, s', t)
  {
    hide Epoch, Start, Place, Blocks;
  }

  lemma LeaveMoves(s: State, s': State, t: nat)
    requires Leave(s, s', t)
    ensures StaysWhole(s, s', t)
  {
    hide OD.Dequeue;
  }

  lemma GlanceMoves(s: State, s': State, t: nat)
    requires Glance(s, s', t)
    ensures StaysWhole(s, s', t)
  {
    hide Epoch, Start, Place, Blocks, OD.Dequeue;
  }

  lemma CountMoves(s: State, s': State, t: nat)
    requires Count(s, s', t) || ClaimRange(s, s', t) || ClaimNothing(s, s', t)
    ensures StaysWhole(s, s', t)
  {
    hide Epoch, Start, Place, Blocks, OD.Dequeue, OD.Begin;
  }

  lemma ProduceWhole(s: State, s': State)
    requires Whole(s)
    requires (exists v :: Begin(s, s', v)) || Reuse(s, s') || Refuse(s, s') || Grow(s, s')
      || (exists b :: Link(s, s', b))
      || (s.ppc.Reset? && s.ppc.j == BLOCK_SIZE && ResetFlag(s, s')) || FillIndex(s, s') || Store(s, s')
      || Check(s, s') || ResetAll(s, s')
    ensures Whole(s')
  {
    hide Epoch, Start, Place, Counter, FlagsOf;
  }

  lemma StepWhole(s: State, s': State)
    requires Whole(s) && CounterStep(s, s')
    ensures Whole(s')
  {
    hide Whole, Begin, Reuse, Refuse, Grow, Link, ResetFlag, FillIndex, Store, Count, ClaimRange, Search, Leave, Drain,
        ClaimNothing, Glance, MarkAll, Check, ResetAll;
    if t: nat :| Count(s, s', t) || ClaimRange(s, s', t) || Search(s, s', t) || Leave(s, s', t) {
      ConsumeWhole(s, s', t);
    } else if t: nat :| ClaimNothing(s, s', t) || Glance(s, s', t) {
      ConsumeWhole(s, s', t);
    } else if t: nat :| t < |s.walks| && !s.walks[t].Mark? && Drain(s, s', t) {
      ConsumeWhole(s, s', t);
    } else if t: nat :| MarkAll(s, s', t) {
      ConsumeWhole(s, s', t);
    } else {
      ProduceWhole(s, s');
    }
  }

  lemma {:induction false} RunWhole(run: seq<State>, i: nat)
    requires IsCounterRun(run) && i < |run|
    ensures Whole(run[i])
  {
    hide CounterStep, Whole;
    if i == 0 {
      StartsWhole(run[0]);
    } else {
      RunWhole(run, i - 1);
      StepWhole(run[i - 1], run[i]);
    }
  }

  lemma StartsWhole(s: State)
    requires Init(s)
    ensures Whole(s)
  {
    hide Epoch, Start, Place;
  }

  /** Every dequeue in flight can take its next step on the counters. */
  lemma ConsumerNeverStuck(run: seq<State>, i: nat, t: nat) returns (s': State)
    requires IsCounterRun(run) && i < |run| && t < |run[i].cnt.pcs| && run[i].cnt.pcs[t] != OD.Idle
    ensures CounterStep(run[i], s')
  {
    hide CounterStep, Init, Step, Consume, Whole;
    RunWhole(run, i);
    CounterRunIsRun(run, i);
    var s := run[i];
    var flags :| IsRun(flags) && flags[|flags| - 1] == s;
    s' := Calls.ConsumerNeverStuck(flags, |flags| - 1, t);
    hide IsRun, IsCounterRun;
    s' := OnCounter(s, s', t);
  }

  /** A consumer's step on flags, or all of the marks it begins, on the counter. */
  lemma OnCounter(s: State, s1: State, t: nat) returns (s': State)
    requires Consume(s, s1, t) && Whole(s)
    ensures CounterStep(s, s')
  {
    hide Count, ClaimRange, Search, Leave, ClaimNothing, Glance;
    if Drain(s, s1, t) && s.walks[t].Mark? {
      var w := s.walks[t];
      assert WholeWalk(w);
      hide Drain;
      s' := GotoWalk(s, t, w.(j := w.end - w.from)).(empty := s.empty + PartFlags(w.b, w.end, w.end - w.from));
      assert MarkAll(s, s', t);
    } else {
      hide Drain;
      s' := s1;
      assert Plain(s, s1);
    }
  }

  /** An enqueue can take its next step on the counters without being refused. */
  lemma ProducerNeverStuck(run: seq<State>, i: nat) returns (s': State)
    requires IsCounterRun(run) && i < |run| && run[i].ppc != Ready
    ensures CounterStep(run[i], s') && !Refuse(run[i], s')
  {
    hide CounterStep, Init, Step, Produce, Refuse, Whole;
    RunWhole(run, i);
    CounterRunIsRun(run, i);
    var s := run[i];
    var flags :| IsRun(flags) && flags[|flags| - 1] == s;
    s' := Calls.ProducerNeverStuck(flags, |flags| - 1);
    hide IsRun, IsCounterRun;
    s' := OnWholeBlock(s, s');
  }

  lemma OnWholeBlock(s: State, s1: State) returns (s': State)
    requires Produce(s, s1) && !Refuse(s, s1) && Whole(s) && s.ppc != Ready
    ensures CounterStep(s, s') && !Refuse(s, s')
  {
    hide Begin, Reuse, Grow, Link, FillIndex, Store, Counter;
    if Look(s, s1) {
      var full := Counter(s.empty, s.next[s.tailBlock]) == BLOCK_SIZE;
      s' := s.(ppc := if full then Scan(s.ppc.v, BLOCK_SIZE) else NeedBlock(s.ppc.v));
      assert Check(s, s');
    } else if s.ppc.Reset? && s.ppc.j < BLOCK_SIZE {
      s' := s.(ppc := Reset(s.ppc.v, BLOCK_SIZE), empty := s.empty - FlagsOf(s.tailBlock, BLOCK_SIZE));
      assert ResetAll(s, s');
    } else {
      s' := s1;
      assert Plain(s, s1);
    }
  }
}
