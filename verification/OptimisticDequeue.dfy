/**
 * The counters by which consumers of one ConcurrentQueue producer claim indices: an attempt first
 * over-claims on dequeueOptimisticCount, gives back what it cannot have on dequeueOvercommit, and
 * only then claims a range of indices on headIndex. One producer, any number of consumers; a single
 * dequeue is a bulk dequeue of at most one element. Counters are unbounded here; Bits.CircularLessExact
 * shows when the wrapped comparisons of the code agree with these.
 */
module OptimisticDequeue {
  import opened Counting

  /** A consumer's position: each constructor stands before one atomic access. */
  datatype Pc =
    | Idle
    | LoadTail(max: nat)
    | LoadOvercommit(max: nat, tail: nat)
    | LoadOptimistic(max: nat, tail: nat, over: nat)
    | Ticket(want: nat, over: nat)
    | Recheck(want: nat, over: nat, my: nat)
    | GiveBack(want: nat, got: nat)
    | Claim(got: nat)
    | Claimed(first: nat, count: nat)

  datatype State = State(tail: nat, head: nat, optimistic: nat, overcommit: nat, pcs: seq<Pc>)

  function Min(a: int, b: int): int { if a < b then a else b }

  function Goto(s: State, t: nat, p: Pc): State
    requires t < |s.pcs|
  {
    s.(pcs := s.pcs[t := p])
  }

  ghost predicate Init(s: State)
  {
    && s.tail == s.head == s.optimistic == s.overcommit == 0
    && forall t | 0 <= t < |s.pcs| :: s.pcs[t] == Idle
  }

  /** The producer makes k more elements visible. */
  ghost predicate Enqueue(s: State, s': State, k: nat) { s' == s.(tail := s.tail + k) }

  ghost predicate Begin(s: State, s': State, t: nat, max: nat)
    requires t < |s.pcs|
  {
    s.pcs[t] == Idle && s' == Goto(s, t, LoadTail(max))
  }

  /** One access of a running dequeue. */
  ghost predicate Dequeue(s: State, s': State, t: nat)
    requires t < |s.pcs|
  {
    match s.pcs[t]
    case Idle => false
    case LoadTail(max) => s' == Goto(s, t, LoadOvercommit(max, s.tail))
    case LoadOvercommit(max, tail) => s' == Goto(s, t, LoadOptimistic(max, tail, s.overcommit))
    case LoadOptimistic(max, tail, over) =>
      var desired := tail - (s.optimistic - over);
      s' == Goto(s, t, if desired > 0 then Ticket(Min(desired, max), over) else Idle)
    case Ticket(want, over) =>
      s' == Goto(s, t, Recheck(want, over, s.optimistic)).(optimistic := s.optimistic + want)
    case Recheck(want, over, my) =>
      var actual := s.tail - (my - over);
      s' == Goto(s, t, if actual <= 0 then GiveBack(want, 0)
                       else if actual < want then GiveBack(want, actual)
                       else Claim(want))
    case GiveBack(want, got) =>
      && got <= want
      && s' == Goto(s, t, if got > 0 then Claim(got) else Idle).(overcommit := s.overcommit + want - got)
    case Claim(got) =>
      s' == Goto(s, t, Claimed(s.head, got)).(head := s.head + got)
    case Claimed(_, _) => s' == Goto(s, t, Idle)
  }

  ghost predicate Step(s: State, s': State)
  {
    || (exists k :: Enqueue(s, s', k))
    || (exists t, max :: 0 <= t < |s.pcs| && Begin(s, s', t, max))
    || (exists t :: 0 <= t < |s.pcs| && Dequeue(s, s', t))
  }

  ghost predicate IsRun(run: seq<State>)
  {
    && |run| > 0
    && Init(run[0])
    && forall i :: 0 <= i < |run| - 1 ==> Step(run[i], run[i + 1])
  }

  // ------------------------------------------------------------------------------------------
  // The invariant: attempts in the order of their tickets
  // ------------------------------------------------------------------------------------------

  /**
   * An attempt that has taken its ticket. `bound` is what it may still claim: all it wants until it
   * has reloaded the tail, then what it got. `gave` and `took` record its two later additions.
   */
  datatype Attempt = Attempt(t: nat, want: nat, bound: nat, decided: bool, gave: bool, took: bool)

  predicate AttemptOk(a: Attempt)
  {
    && a.bound <= a.want
    && (!a.decided ==> a.bound == a.want && !a.gave && !a.took)
    && (a.took ==> a.gave || a.bound == a.want)
  }

  predicate Closed(a: Attempt)
  {
    a.decided && (a.gave || a.bound == a.want) && (a.took || a.bound == 0)
  }

  ghost function Want(): Attempt -> nat { (a: Attempt) => a.want }
  ghost function Bound(): Attempt -> nat { (a: Attempt) => a.bound }
  ghost function Gave(): Attempt -> nat { (a: Attempt) => if a.gave && a.bound <= a.want then a.want - a.bound else 0 }
  ghost function Took(): Attempt -> nat { (a: Attempt) => if a.took then a.bound else 0 }

  /** The attempts by ticket, and for each thread the number of its current attempt. */
  datatype History = History(attempts: seq<Attempt>, of: seq<nat>)

  ghost predicate Sums(s: State, att: seq<Attempt>)
  {
    && s.optimistic == Total(att, Want())
    && s.overcommit == Total(att, Gave())
    && s.head == Total(att, Took())
  }

  /** A ticket that got something is covered, together with all earlier tickets, by the tail. */
  ghost predicate Covered(att: seq<Attempt>, tail: nat)
  {
    forall k | 0 <= k < |att| && att[k].decided && att[k].bound > 0 :: Total(att[..k + 1], Bound()) <= tail
  }

  ghost predicate Current(att: seq<Attempt>, i: nat, t: nat, p: Pc)
  {
    && i < |att| && att[i].t == t
    && (match p
        case Recheck(want, over, my) =>
          && att[i] == Attempt(t, want, want, false, false, false)
          && my == Total(att[..i], Want()) && over <= Total(att[..i], Gave())
        case GiveBack(want, got) => att[i] == Attempt(t, want, got, true, false, false)
        case Claim(got) => att[i].bound == got && att[i].decided && !att[i].took && (att[i].gave || got == att[i].want)
        case _ => true)
  }

  predicate Active(p: Pc) { p.Recheck? || p.GiveBack? || p.Claim? }

  ghost predicate Threads(s: State, h: History)
  {
    && |h.of| == |s.pcs|
    && (forall t | 0 <= t < |s.pcs| && Active(s.pcs[t]) :: Current(h.attempts, h.of[t], t, s.pcs[t]))
    && (forall t | 0 <= t < |s.pcs| ::
          match s.pcs[t]
          case LoadOptimistic(_, _, over) => over <= s.overcommit
          case Ticket(_, over) => over <= s.overcommit
          case _ => true)
  }

  ghost predicate Attempts(s: State, h: History)
  {
    && (forall a | a in h.attempts :: AttemptOk(a))
    && (forall i | 0 <= i < |h.attempts| && !Closed(h.attempts[i]) ::
          var t := h.attempts[i].t;
          t < |s.pcs| && t < |h.of| && h.of[t] == i && Active(s.pcs[t]))
  }

  /** The ranges now held by consumers lie below the head and are pairwise disjoint. */
  ghost predicate Ranges(s: State)
  {
    && (forall t | 0 <= t < |s.pcs| && s.pcs[t].Claimed? :: s.pcs[t].first + s.pcs[t].count <= s.head)
    && (forall t, u | 0 <= t < u < |s.pcs| && s.pcs[t].Claimed? && s.pcs[u].Claimed? ::
          || s.pcs[t].first + s.pcs[t].count <= s.pcs[u].first
          || s.pcs[u].first + s.pcs[u].count <= s.pcs[t].first)
  }

  ghost predicate Good(s: State, h: History)
  {
    Sums(s, h.attempts) && Covered(h.attempts, s.tail) && Threads(s, h) && Attempts(s, h) && Ranges(s)
  }

  ghost predicate Inv(s: State) { exists h: History :: Good(s, h) }

  // ------------------------------------------------------------------------------------------
  // Sums over tickets
  // ------------------------------------------------------------------------------------------

  /** Earlier tickets may still claim at most what was wanted minus what was given back. */
  lemma {:induction false} BoundBelowWant(att: seq<Attempt>)
    requires forall a | a in att :: AttemptOk(a)
    ensures Total(att, Bound()) + Total(att, Gave()) <= Total(att, Want())
  {
    if att != [] {
      var last := |att| - 1;
      assert att[last] in att;
      BoundBelowWant(att[..last]);
    }
  }

  /** What has been claimed never exceeds the tail: look back to the last ticket that got something. */
  lemma {:induction false} TookBelowTail(att: seq<Attempt>, tail: nat)
    requires Covered(att, tail) && forall a | a in att :: AttemptOk(a)
    ensures Total(att, Took()) <= tail
  {
    if att != [] {
      var last := |att| - 1;
      var a := att[last];
      assert a in att && att[..last + 1] == att;
      if a.took && a.bound > 0 {
        TookBelowBound(att);
      } else {
        assert Covered(att[..last], tail) by {
          forall k | 0 <= k < last && att[k].decided && att[k].bound > 0
            ensures Total(att[..last][..k + 1], Bound()) <= tail
          {
            assert att[..last][..k + 1] == att[..k + 1];
          }
        }
        TookBelowTail(att[..last], tail);
      }
    }
  }

  lemma {:induction false} TookBelowBound(att: seq<Attempt>)
    ensures Total(att, Took()) <= Total(att, Bound())
  {
    if att != [] {
      TookBelowBound(att[..|att| - 1]);
    }
  }

  lemma {:induction false} AllClosed(att: seq<Attempt>)
    requires forall a | a in att :: AttemptOk(a) && Closed(a)
    ensures Total(att, Took()) + Total(att, Gave()) == Total(att, Want())
  {
    if att != [] {
      var last := |att| - 1;
      assert att[last] in att;
      AllClosed(att[..last]);
    }
  }

  /** Changing ticket i leaves every prefix sum before it alone and moves later ones with it. */
  lemma PrefixUpdate(att: seq<Attempt>, i: nat, a: Attempt, k: nat, w: Attempt -> nat)
    requires i < |att| && k <= |att|
    ensures Total(att[i := a][..k], w) + (if i < k then w(att[i]) else 0)
            == Total(att[..k], w) + (if i < k then w(a) else 0)
  {
    if i < k {
      assert att[i := a][..k] == att[..k][i := a];
      TotalUpdate(att[..k], i, a, w);
    } else {
      assert att[i := a][..k] == att[..k];
    }
  }

  /** An update of ticket i that does not raise its bound keeps the coverage of the others. */
  lemma CoveredUpdate(att: seq<Attempt>, i: nat, a: Attempt, tail: nat)
    requires Covered(att, tail) && i < |att| && a.bound <= att[i].bound
    requires a.decided && a.bound > 0 ==> Total(att[..i], Bound()) + a.bound <= tail
    ensures Covered(att[i := a], tail)
  {
    var att' := att[i := a];
    forall k | 0 <= k < |att'| && att'[k].decided && att'[k].bound > 0
      ensures Total(att'[..k + 1], Bound()) <= tail
    {
      PrefixUpdate(att, i, a, k + 1, Bound());
      if k == i {
        assert att'[..i + 1][..i] == att[..i];
      }
    }
  }

  // ------------------------------------------------------------------------------------------
  // Every step keeps the invariant
  // ------------------------------------------------------------------------------------------

  predicate Overcommits(p: Pc) { p.LoadOptimistic? || p.Ticket? }

  /** A step of a thread outside its ticket: the attempts do not change. */
  lemma QuietKeeps(s: State, s': State, t: nat, p: Pc, h: History)
    requires Good(s, h) && t < |s.pcs| && s' == Goto(s, t, p)
    requires !Active(s.pcs[t]) && !Active(p) && !p.Claimed?
    requires Overcommits(p) ==> p.over <= s.overcommit
    ensures Good(s', h)
  {
  }

  lemma EnqueueKeeps(s: State, s': State, k: nat, h: History)
    requires Good(s, h) && Enqueue(s, s', k)
    ensures Good(s', h)
  {
  }

  lemma TicketKeeps(s: State, s': State, t: nat, want: nat, over: nat, h: History)
    requires Good(s, h) && t < |s.pcs| && s.pcs[t] == Ticket(want, over)
    requires s' == Goto(s, t, Recheck(want, over, s.optimistic)).(optimistic := s.optimistic + want)
    ensures Inv(s')
  {
    var a := Attempt(t, want, want, false, false, false);
    var h' := History(h.attempts + [a], h.of[t := |h.attempts|]);
    AppendSums(s, s', h.attempts, a);
    AppendAttempts(s, s', t, h, a);
    hide Attempts, Sums, Covered, Threads, Ranges;
    AppendCovered(h.attempts, a, s.tail);
    AppendThreads(s, s', t, h, a);
    RangesKeep(s, s', t);
    assert Good(s', h');
  }

  lemma AppendSums(s: State, s': State, att: seq<Attempt>, a: Attempt)
    requires Sums(s, att) && !a.gave && !a.took
    requires s'.optimistic == s.optimistic + a.want && s'.overcommit == s.overcommit && s'.head == s.head
    ensures Sums(s', att + [a])
    ensures s.optimistic == Total(att, Want()) && s.overcommit == Total(att, Gave())
  {
    assert (att + [a])[..|att|] == att;
  }

  lemma AppendAttempts(s: State, s': State, t: nat, h: History, a: Attempt)
    requires Attempts(s, h) && t < |s.pcs| == |s'.pcs| == |h.of| && !Active(s.pcs[t])
    requires a.t == t && AttemptOk(a) && s'.pcs == s.pcs[t := s'.pcs[t]] && Active(s'.pcs[t])
    ensures Attempts(s', History(h.attempts + [a], h.of[t := |h.attempts|]))
  {
  }

  lemma AppendCovered(att: seq<Attempt>, a: Attempt, tail: nat)
    requires Covered(att, tail) && !a.decided
    ensures Covered(att + [a], tail)
  {
    forall k | 0 <= k < |att| && att[k].decided && att[k].bound > 0
      ensures Total((att + [a])[..k + 1], Bound()) <= tail
    {
      assert (att + [a])[..k + 1] == att[..k + 1];
    }
  }

  lemma AppendThreads(s: State, s': State, t: nat, h: History, a: Attempt)
    requires Threads(s, h) && t < |s.pcs| && s.pcs[t].Ticket?
    requires s.optimistic == Total(h.attempts, Want()) && s.overcommit == Total(h.attempts, Gave())
    requires a == Attempt(t, s.pcs[t].want, s.pcs[t].want, false, false, false)
    requires s'.pcs == s.pcs[t := Recheck(s.pcs[t].want, s.pcs[t].over, s.optimistic)] && s'.overcommit == s.overcommit
    ensures Threads(s', History(h.attempts + [a], h.of[t := |h.attempts|]))
  {
    var att, att' := h.attempts, h.attempts + [a];
    var of' := h.of[t := |att|];
    assert att'[..|att|] == att;
    forall u | 0 <= u < |s'.pcs| && Active(s'.pcs[u]) ensures Current(att', of'[u], u, s'.pcs[u]) {
      if u != t {
        assert Current(att, h.of[u], u, s.pcs[u]);
        assert att'[..h.of[u]] == att[..h.of[u]];
      }
    }
  }

  /** The attempt of thread t changes to a: every other thread's attempt is as it was. */
  lemma UpdateThreads(s: State, s': State, t: nat, h: History, a: Attempt)
    requires Threads(s, h) && t < |s.pcs| == |s'.pcs| && Active(s.pcs[t]) && h.of[t] < |h.attempts|
    requires a.t == t && a.want == h.attempts[h.of[t]].want && Gave()(h.attempts[h.of[t]]) <= Gave()(a)
    requires s'.pcs == s.pcs[t := s'.pcs[t]] && s.overcommit <= s'.overcommit && !Overcommits(s'.pcs[t])
    requires Active(s'.pcs[t]) ==> !s'.pcs[t].Recheck? && Current(h.attempts[h.of[t] := a], h.of[t], t, s'.pcs[t])
    ensures Threads(s', h.(attempts := h.attempts[h.of[t] := a]))
  {
    var att, att' := h.attempts, h.attempts[h.of[t] := a];
    forall u | 0 <= u < |s'.pcs| && Active(s'.pcs[u]) ensures Current(att', h.of[u], u, s'.pcs[u]) {
      if u != t {
        assert Current(att, h.of[u], u, s.pcs[u]) && Current(att, h.of[t], t, s.pcs[t]);
        PrefixUpdate(att, h.of[t], a, h.of[u], Want());
        PrefixUpdate(att, h.of[t], a, h.of[u], Gave());
      }
    }
  }

  lemma UpdateAttempts(s: State, s': State, t: nat, h: History, a: Attempt)
    requires Attempts(s, h) && t < |s.pcs| == |s'.pcs| == |h.of| && h.of[t] < |h.attempts|
    requires a.t == t == h.attempts[h.of[t]].t && AttemptOk(a)
    requires s'.pcs == s.pcs[t := s'.pcs[t]] && (Closed(a) || Active(s'.pcs[t]))
    ensures Attempts(s', h.(attempts := h.attempts[h.of[t] := a]))
  {
    var att' := h.attempts[h.of[t] := a];
    forall b | b in att' ensures AttemptOk(b) {
      var k :| 0 <= k < |att'| && att'[k] == b;
      assert k != h.of[t] ==> h.attempts[k] in h.attempts;
    }
  }

  lemma UpdateSums(s: State, s': State, h: History, i: nat, a: Attempt)
    requires Sums(s, h.attempts) && i < |h.attempts| && a.want == h.attempts[i].want
    requires s'.optimistic == s.optimistic
    requires s'.overcommit + Gave()(h.attempts[i]) == s.overcommit + Gave()(a)
    requires s'.head + Took()(h.attempts[i]) == s.head + Took()(a)
    ensures Sums(s', h.attempts[i := a])
  {
    TotalUpdate(h.attempts, i, a, Want());
    TotalUpdate(h.attempts, i, a, Gave());
    TotalUpdate(h.attempts, i, a, Took());
  }

  /** Reloading the tail: what is left for this ticket is what earlier tickets cannot claim. */
  lemma RecheckKeeps(s: State, s': State, t: nat, want: nat, over: nat, my: nat, h: History)
    requires Good(s, h) && t < |s.pcs| && s.pcs[t] == Recheck(want, over, my)
    requires var actual := s.tail - (my - over);
             s' == Goto(s, t, if actual <= 0 then GiveBack(want, 0)
                              else if actual < want then GiveBack(want, actual)
                              else Claim(want))
    ensures Inv(s')
  {
    var i, att := h.of[t], h.attempts;
    assert Current(att, i, t, s.pcs[t]);
    var actual := s.tail - (my - over);
    var got := if actual <= 0 then 0 else if actual < want then actual else want;
    var a := Attempt(t, want, got, true, false, false);
    hide Attempts, Threads, Covered, Sums, Ranges;
    EarlierBound(s, h, i);
    CoveredUpdate(att, i, a, s.tail);
    UpdateSums(s, s', h, i, a);
    RecheckThreads(s, s', t, want, got, s'.pcs[t], h);
    UpdateAttempts(s, s', t, h, a);
    RangesKeep(s, s', t);
    assert Good(s', h.(attempts := att[i := a]));
  }

  lemma EarlierBound(s: State, h: History, i: nat)
    requires Good(s, h) && i <= |h.attempts|
    ensures |h.of| == |s.pcs|
    ensures Total(h.attempts[..i], Bound()) + Total(h.attempts[..i], Gave()) <= Total(h.attempts[..i], Want())
  {
    BoundBelowWant(h.attempts[..i]);
  }

  lemma RecheckThreads(s: State, s': State, t: nat, want: nat, got: nat, p: Pc, h: History)
    requires Threads(s, h) && t < |s.pcs| && s.pcs[t].Recheck? && s.pcs[t].want == want
    requires p == GiveBack(want, got) || (p == Claim(want) && got == want)
    requires s'.pcs == s.pcs[t := p] && s'.overcommit == s.overcommit
    requires h.of[t] < |h.attempts| && got <= want
    ensures Threads(s', h.(attempts := h.attempts[h.of[t] := Attempt(t, want, got, true, false, false)]))
  {
    assert Current(h.attempts, h.of[t], t, s.pcs[t]);
    UpdateThreads(s, s', t, h, Attempt(t, want, got, true, false, false));
  }

  lemma RangesKeep(s: State, s': State, t: nat)
    requires Ranges(s) && t < |s.pcs| == |s'.pcs| && s'.pcs == s.pcs[t := s'.pcs[t]]
    requires !s'.pcs[t].Claimed? && s.head <= s'.head
    ensures Ranges(s')
  {
  }

  lemma GiveBackKeeps(s: State, s': State, t: nat, want: nat, got: nat, h: History)
    requires Good(s, h) && t < |s.pcs| && s.pcs[t] == GiveBack(want, got) && got <= want
    requires s' == Goto(s, t, if got > 0 then Claim(got) else Idle).(overcommit := s.overcommit + want - got)
    ensures Inv(s')
  {
    var i, att := h.of[t], h.attempts;
    assert Current(att, i, t, s.pcs[t]);
    var a := Attempt(t, want, got, true, true, false);
    assert got > 0 ==> Total(att[..i], Bound()) + got <= s.tail by {
      assert got > 0 ==> Total(att[..i + 1], Bound()) <= s.tail;
      assert att[..i + 1][..i] == att[..i];
    }
    hide Attempts, Threads, Covered, Sums, Ranges;
    CoveredUpdate(att, i, a, s.tail);
    UpdateSums(s, s', h, i, a);
    UpdateThreads(s, s', t, h, a);
    UpdateAttempts(s, s', t, h, a);
    RangesKeep(s, s', t);
    assert Good(s', h.(attempts := att[i := a]));
  }

  lemma ClaimKeeps(s: State, s': State, t: nat, got: nat, h: History)
    requires Good(s, h) && t < |s.pcs| && s.pcs[t] == Claim(got)
    requires s' == Goto(s, t, Claimed(s.head, got)).(head := s.head + got)
    ensures Inv(s')
  {
    var i, att := h.of[t], h.attempts;
    assert Current(att, i, t, s.pcs[t]);
    var a := att[i].(took := true);
    assert got > 0 ==> Total(att[..i], Bound()) + got <= s.tail by {
      assert got > 0 ==> Total(att[..i + 1], Bound()) <= s.tail;
      assert att[..i + 1][..i] == att[..i];
    }
    assert att[i] in att;
    assert Ranges(s');
    hide Attempts, Threads, Covered, Sums, Ranges;
    CoveredUpdate(att, i, a, s.tail);
    UpdateSums(s, s', h, i, a);
    UpdateThreads(s, s', t, h, a);
    UpdateAttempts(s, s', t, h, a);
    assert Good(s', h.(attempts := att[i := a]));
  }

  /** The loads before the ticket, and the return after the claimed elements have been moved out. */
  lemma LoadKeeps(s: State, s': State, t: nat, h: History)
    requires Good(s, h) && t < |s.pcs| && Dequeue(s, s', t)
    requires !Active(s.pcs[t]) && !s.pcs[t].Ticket?
    ensures Inv(s')
  {
    assert s.pcs[t].LoadOptimistic? ==> s.pcs[t].over <= s.overcommit;
    assert s' == Goto(s, t, s'.pcs[t]);
    hide Attempts, Threads, Covered, Sums, Ranges;
    QuietKeeps(s, s', t, s'.pcs[t], h);
  }

  lemma DequeueKeeps(s: State, s': State, t: nat)
    requires Inv(s) && t < |s.pcs| && Dequeue(s, s', t)
    ensures Inv(s')
  {
    var h :| Good(s, h);
    hide Attempts, Threads, Covered, Sums, Ranges;
    match s.pcs[t]
    case Ticket(want, over) => TicketKeeps(s, s', t, want, over, h);
    case Recheck(want, over, my) => RecheckKeeps(s, s', t, want, over, my, h);
    case GiveBack(want, got) => GiveBackKeeps(s, s', t, want, got, h);
    case Claim(got) => ClaimKeeps(s, s', t, got, h);
    case _ => LoadKeeps(s, s', t, h);
  }

  lemma StepKeeps(s: State, s': State)
    requires Inv(s) && Step(s, s')
    ensures Inv(s')
  {
    if k :| Enqueue(s, s', k) {
      var h :| Good(s, h);
      EnqueueKeeps(s, s', k, h);
    } else if t, max :| 0 <= t < |s.pcs| && Begin(s, s', t, max) {
      var h :| Good(s, h);
      QuietKeeps(s, s', t, LoadTail(max), h);
    } else {
      var t :| 0 <= t < |s.pcs| && Dequeue(s, s', t);
      DequeueKeeps(s, s', t);
    }
  }

  lemma InitGood(s: State)
    requires Init(s)
    ensures Inv(s)
  {
    assert Good(s, History([], seq(|s.pcs|, _ => 0)));
  }

  lemma {:induction false} RunKeeps(run: seq<State>, i: nat)
    requires IsRun(run) && i < |run|
    ensures Inv(run[i])
  {
    if i == 0 {
      InitGood(run[0]);
    } else {
      RunKeeps(run, i - 1);
      StepKeeps(run[i - 1], run[i]);
    }
  }

  // ------------------------------------------------------------------------------------------
  // What every run guarantees
  // ------------------------------------------------------------------------------------------

  /** Claims never pass the tail, and the ranges held by different consumers are disjoint. */
  lemma InvSafe(s: State)
    requires Inv(s)
    ensures s.head <= s.tail && Ranges(s)
    ensures s.overcommit <= s.optimistic
  {
    var h :| Good(s, h);
    TookBelowTail(h.attempts, s.tail);
    BoundBelowWant(h.attempts);
  }

  /** An overcommit loaded before a ticket is at most the optimistic count the ticket starts from. */
  lemma TicketOver(s: State, t: nat)
    requires Inv(s) && t < |s.pcs| && s.pcs[t].Ticket?
    ensures s.pcs[t].over <= s.optimistic
  {
    InvSafe(s);
    var h :| Good(s, h);
    hide Attempts, Covered, Sums, Ranges;
  }

  lemma ClaimsAreSafe(run: seq<State>, i: nat)
    requires IsRun(run) && i < |run|
    ensures run[i].head <= run[i].tail
    ensures Ranges(run[i])
  {
    RunKeeps(run, i);
    InvSafe(run[i]);
  }

  lemma {:induction false} HeadMonotone(run: seq<State>, i: nat, j: nat)
    requires IsRun(run) && i <= j < |run|
    ensures run[i].head <= run[j].head && run[i].tail <= run[j].tail
    decreases j
  {
    if i < j {
      HeadMonotone(run, i, j - 1);
      assert Step(run[j - 1], run[j]);
    }
  }

  /** Over a whole run no index is claimed twice, by whatever consumers, and each lies below the tail. */
  lemma ClaimedOnce(run: seq<State>, i: nat, j: nat, t: nat, u: nat)
    requires IsRun(run) && i < j && j + 1 < |run|
    requires t < |run[i].pcs| && run[i].pcs[t].Claim? && Dequeue(run[i], run[i + 1], t)
    requires u < |run[j].pcs| && run[j].pcs[u].Claim? && Dequeue(run[j], run[j + 1], u)
    ensures run[i].head + run[i].pcs[t].got <= run[j].head
    ensures run[j].head + run[j].pcs[u].got <= run[j].tail
  {
    HeadMonotone(run, i + 1, j);
    ClaimsAreSafe(run, j + 1);
  }

  /** With no attempt in flight, the two optimistic counters agree exactly with the claimed head. */
  lemma CountersSettle(run: seq<State>, i: nat)
    requires IsRun(run) && i < |run|
    requires forall t | 0 <= t < |run[i].pcs| :: !Active(run[i].pcs[t])
    ensures run[i].optimistic - run[i].overcommit == run[i].head
  {
    RunKeeps(run, i);
    var h :| Good(run[i], h);
    AllClosed(h.attempts);
  }
}
