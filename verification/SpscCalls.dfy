/**
 * What the calls of SPSCQueue answer, step by step: emplace never drops its element and waits only
 * while the queue is full, try_emplace never waits, and the consumer never waits.
 */
module SpscCalls {
  import opened SpscQueue

  predicate Full(s: State) { |s.pushed| == |s.popped| + Capacity(s) }

  predicate Empty(s: State) { |s.pushed| <= |s.popped| }

  // ------------------------------------------------------------------------------------------
  // emplace and try_emplace
  // ------------------------------------------------------------------------------------------

  /**
   * A push of any value can begin. It loads the other side's index only if the writes are a full lap
   * ahead of the past read count R that its cache stands for, and is about its value from then on.
   */
  lemma PushBegins(run: seq<State>, i: nat, v: Value, spin: bool) returns (s': State, R: nat)
    requires IsRun(run) && i < |run| && run[i].ppc == Ready
    ensures StartPush(run[i], s', v, spin) && forall x | StartPush(run[i], x, v, spin) :: x == s'
    ensures R <= |run[i].popped| && run[i].readCache == R % |run[0].slots|
    ensures s' == run[i].(ppc := if |run[i].pushed| == R + Capacity(run[0]) then LoadRead(v, spin) else Write(v))
  {
    hide Init, Step, Contents, Places;
    RunKeeps(run, i);
    var s := run[i];
    R, s' := BeginPush(s, v, spin);
  }

  lemma BeginPush(s: State, v: Value, spin: bool) returns (R: nat, s': State)
    requires Inv(s) && s.ppc == Ready
    ensures StartPush(s, s', v, spin) && R <= |s.popped| && s.readCache == R % |s.slots|
    ensures s' == s.(ppc := if |s.pushed| == R + Capacity(s) then LoadRead(v, spin) else Write(v))
  {
    hide Contents, Places;
    var W: nat;
    R, W :| Good(s, R, W);
    FullIffMeets(|s.pushed|, R, |s.slots|);
    s' := s.(ppc := if |s.pushed| == R + Capacity(s) then LoadRead(v, spin) else Write(v));
  }

  /**
   * A call is about its value until it returns, having published it, or dropped it if it is a
   * try_emplace on a full queue; it stays where it is only if it is an emplace on a full queue.
   */
  lemma ProducerAnswer(run: seq<State>, i: nat)
    requires IsRun(run) && i + 1 < |run| && Produce(run[i], run[i + 1])
    ensures var s, s' := run[i], run[i + 1];
      && s.ppc != Ready && s'.popped == s.popped && s'.cpc == s.cpc
      && (s.ppc.LoadRead? ==> s'.readCache == s.readIdx)
      && (s'.ppc == s.ppc ==> s.ppc.LoadRead? && s.ppc.spin && Full(s))
      && (s'.ppc != Ready ==> s'.ppc.v == s.ppc.v && s'.pushed == s.pushed && s'.dropped == s.dropped)
      && (s'.ppc == Ready ==>
            if s.ppc.LoadRead? then !s.ppc.spin && Full(s) && s'.pushed == s.pushed && s'.dropped == s.dropped + 1
            else s'.pushed == s.pushed + [s.ppc.v] && s'.dropped == s.dropped)
  {
    hide Init, Step, Contents, Places;
    RunKeeps(run, i);
    var s := run[i];
    var R: nat, W: nat :| Good(s, R, W);
    FullIffMeets(|s.pushed|, |s.popped|, |s.slots|);
  }

  /** Nothing but a try_emplace drops an element, and nothing but a producer's step ends its call. */
  lemma OnlyTryDrops(s: State, s': State)
    requires Step(s, s')
    ensures s'.dropped != s.dropped ==> s.ppc.LoadRead? && !s.ppc.spin && s'.ppc == Ready
    ensures !Produce(s, s') && s.ppc != Ready ==> s'.ppc == s.ppc && s'.pushed == s.pushed
  {
  }

  function ProducerSteps(p: Producer): nat
  {
    match p
    case Ready => 0
    case LoadRead(_, _) => 3
    case Write(_) => 2
    case StoreWrite(_) => 1
  }

  /** A push can take its next step, which brings it closer to its end unless it is an emplace on a full queue. */
  lemma ProducerNeverStuck(run: seq<State>, i: nat) returns (s': State)
    requires IsRun(run) && i < |run| && run[i].ppc != Ready
    ensures var s := run[i];
      && Produce(s, s')
      && (s'.ppc == s.ppc ==> s.ppc.LoadRead? && s.ppc.spin && Full(s))
      && (s'.ppc != s.ppc ==> ProducerSteps(s'.ppc) < ProducerSteps(s.ppc))
  {
    hide Step, Inv;
    RunKeeps(run, i);
    s' := ProducerStep(run[i]);
  }

  lemma ProducerStep(s: State) returns (s': State)
    requires Inv(s) && s.ppc != Ready
    ensures Produce(s, s')
    ensures s'.ppc == s.ppc ==> s.ppc.LoadRead? && s.ppc.spin && Full(s)
    ensures s'.ppc != s.ppc ==> ProducerSteps(s'.ppc) < ProducerSteps(s.ppc)
  {
    hide Contents, Places;
    var R: nat, W: nat :| Good(s, R, W);
    FullIffMeets(|s.pushed|, |s.popped|, |s.slots|);
    match s.ppc {
      case LoadRead(v, spin) =>
        s' := if Next(s.writeIdx, |s.slots|) != s.readIdx then s.(readCache := s.readIdx, ppc := Write(v))
              else if spin then s.(readCache := s.readIdx)
              else s.(readCache := s.readIdx, ppc := Ready, dropped := s.dropped + 1);
      case Write(v) => s' := s.(slots := s.slots[s.writeIdx := v], ppc := StoreWrite(v));
      case StoreWrite(v) =>
        s' := s.(writeIdx := Next(s.writeIdx, |s.slots|), pushed := s.pushed + [v], ppc := Ready);
    }
  }

  // ------------------------------------------------------------------------------------------
  // empty, front and pop
  // ------------------------------------------------------------------------------------------

  /**
   * The consumer is away after a pop of the oldest element, or after empty or front on an empty queue;
   * after front it is at the oldest element, or about to look at the write index itself.
   */
  lemma ConsumerAnswer(run: seq<State>, i: nat)
    requires IsRun(run) && i + 1 < |run| && Consume(run[i], run[i + 1])
    ensures var s, s' := run[i], run[i + 1];
      && s'.pushed == s.pushed && s'.ppc == s.ppc
      && (s'.cpc == Away && s.cpc != AtFront ==> Empty(s) && s'.popped == s.popped)
      && (s'.cpc == Away && s.cpc == AtFront ==> !Empty(s) && s'.popped == s.popped + [s.pushed[|s.popped|]])
      && (s'.cpc == NotEmpty ==> !Empty(s) && s'.popped == s.popped)
      && (s'.cpc == AtFront ==> !Empty(s) && s'.popped == s.popped && s'.front == Element(s.pushed[|s.popped|]))
      && (s'.cpc.LoadWrite? ==> !s.cpc.LoadWrite? && s'.popped == s.popped)
      && (s.cpc.LoadWrite? ==> s'.writeCache == s.writeIdx)
  {
    hide Init, Step, Good, CheckEmpty, StartFront, RefreshFront, Pop;
    RunKeeps(run, i);
    var s, s' := run[i], run[i + 1];
    var R: nat, W: nat :| Good(s, R, W);
    ConsumerFinds(s, s', R, W);
  }

  lemma ConsumerFinds(s: State, s': State, R: nat, W: nat)
    requires Good(s, R, W) && Consume(s, s')
    ensures
      && s'.pushed == s.pushed && s'.ppc == s.ppc
      && (s'.cpc == Away && s.cpc != AtFront ==> Empty(s) && s'.popped == s.popped)
      && (s'.cpc == Away && s.cpc == AtFront ==> !Empty(s) && s'.popped == s.popped + [s.pushed[|s.popped|]])
      && (s'.cpc == NotEmpty ==> !Empty(s) && s'.popped == s.popped)
      && (s'.cpc == AtFront ==> !Empty(s) && s'.popped == s.popped && s'.front == Element(s.pushed[|s.popped|]))
      && (s'.cpc.LoadWrite? ==> !s.cpc.LoadWrite? && s'.popped == s.popped)
      && (s.cpc.LoadWrite? ==> s'.writeCache == s.writeIdx)
  {
    EmptyIffMeets(|s.pushed|, |s.popped|, |s.slots|);
    EmptyIffMeets(W, |s.popped|, |s.slots|);
    if |s.popped| < |s.pushed| {
      FrontIsOldest(s, R, W);
    }
    hide Contents;
  }

  /** front and pop can take their next step, whatever the producer does. */
  lemma ConsumerNeverStuck(run: seq<State>, i: nat) returns (s': State)
    requires IsRun(run) && i < |run|
    ensures StartFront(run[i], s') || RefreshFront(run[i], s') || Pop(run[i], s')
    ensures s'.cpc != run[i].cpc
  {
    hide Step, Inv;
    RunKeeps(run, i);
    s' := ConsumerStep(run[i]);
  }

  lemma ConsumerStep(s: State) returns (s': State)
    requires Inv(s)
    ensures StartFront(s, s') || RefreshFront(s, s') || Pop(s, s')
    ensures s'.cpc != s.cpc
  {
    hide Contents, Places;
    var R: nat, W: nat :| Good(s, R, W);
    match s.cpc {
      case LoadWrite(_) =>
        s' := if s.readIdx == s.writeIdx then s.(writeCache := s.writeIdx, cpc := Away, front := Null)
              else s.(writeCache := s.writeIdx, cpc := AtFront, front := Element(s.slots[s.readIdx]));
      case AtFront =>
        s' := s.(readIdx := Next(s.readIdx, |s.slots|), popped := s.popped + [s.slots[s.readIdx]], cpc := Away);
      case _ =>
        s' := if s.readIdx == s.writeCache then s.(cpc := LoadWrite(s.cpc == NotEmpty))
              else s.(cpc := AtFront, front := Element(s.slots[s.readIdx]));
    }
  }
}
