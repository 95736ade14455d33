/**
 * What the calls of the free list answer: try_get comes back empty only if the list was empty at a
 * moment of the call, every call in flight can take its next step, and a call that runs alone does
 * what a stack does.
 */
module FreeListCalls {
  import opened FreeList

  // ------------------------------------------------------------------------------------------
  // try_get comes back empty
  // ------------------------------------------------------------------------------------------

  /** Inside try_get, which may be putting a node back on behalf of somebody else. */
  predicate Getting(p: Pc)
  {
    match p
    case Idle => false
    case AddFlag(_) => false
    case PutLoad(_, ret) => ret.Resume?
    case PutNext(_, _, ret) => ret.Resume?
    case PutRefs(_, _, ret) => ret.Resume?
    case PutCas(_, _, ret) => ret.Resume?
    case PutFail(_, _, ret) => ret.Resume?
    case _ => true
  }

  /** The thread will go on with a head that it loaded earlier. */
  predicate Carries(p: Pc) { p.GetUndo? || (Getting(p) && RoleOf(p).Role? && !p.GetTake?) }

  function HeadOf(p: Pc): Ptr
    requires Carries(p)
  {
    if p.GetUndo? then p.h else p.ret.head
  }

  /** Thread t is inside one call from moment j to moment i. */
  predicate Busy(run: seq<State>, t: nat, j: nat, i: nat)
    requires j <= i < |run|
  {
    forall k | j <= k <= i :: t < |run[k].pcs| && run[k].pcs[t] != Idle
  }

  lemma CarriesFrom(s: State, s': State, t: nat)
    requires Step(s, s') && t < |s'.pcs| && Carries(s'.pcs[t])
    ensures t < |s.pcs| && s.pcs[t] != Idle
    ensures (Carries(s.pcs[t]) && HeadOf(s.pcs[t]) == HeadOf(s'.pcs[t])) || HeadOf(s'.pcs[t]) == s.head
  {
    var u :| 0 <= u < |s.pcs| && (Call(s, s', u) || Put(s, s', u) || Get(s, s', u));
    if Put(s, s', u) {
      PutCarries(s, s', u, t);
    } else if Get(s, s', u) {
      GetCarries(s, s', u, t);
    }
  }

  lemma PutCarries(s: State, s': State, u: nat, t: nat)
    requires u < |s.pcs| && Put(s, s', u) && t < |s'.pcs| && Carries(s'.pcs[t])
    ensures t < |s.pcs| && Carries(s.pcs[t]) && HeadOf(s.pcs[t]) == HeadOf(s'.pcs[t])
  {
  }

  lemma GetCarries(s: State, s': State, u: nat, t: nat)
    requires u < |s.pcs| && Get(s, s', u) && t < |s'.pcs| && Carries(s'.pcs[t])
    ensures t < |s.pcs| && s.pcs[t] != Idle
    ensures (Carries(s.pcs[t]) && HeadOf(s.pcs[t]) == HeadOf(s'.pcs[t])) || HeadOf(s'.pcs[t]) == s.head
  {
  }

  lemma StartsIdle(run: seq<State>)
    requires IsRun(run)
    ensures forall t | 0 <= t < |run[0].pcs| :: !Carries(run[0].pcs[t])
  {
  }

  /** A head carried along was the head at an earlier moment of the same call. */
  lemma {:induction false} CarriedWasHead(run: seq<State>, i: nat, t: nat) returns (j: nat)
    requires IsRun(run) && i < |run| && t < |run[i].pcs| && Carries(run[i].pcs[t])
    ensures j <= i && Busy(run, t, j, i) && run[j].head == HeadOf(run[i].pcs[t])
  {
    hide Step, HeadOf;
    StartsIdle(run);
    if i > 0 {
      var s, s' := run[i - 1], run[i];
      CarriesFrom(s, s', t);
      if Carries(s.pcs[t]) && HeadOf(s.pcs[t]) == HeadOf(s'.pcs[t]) {
        j := CarriedWasHead(run, i - 1, t);
      } else {
        j := i - 1;
      }
    }
  }

  lemma NullFrom(s: State, s': State, t: nat)
    requires Step(s, s') && t < |s.pcs| && t < |s'.pcs| && Getting(s.pcs[t]) && !s.pcs[t].GetTake? && s'.pcs[t] == Idle
    ensures (s.pcs[t] == GetLoad && s.head == Null) || (Carries(s.pcs[t]) && HeadOf(s.pcs[t]) == Null)
  {
    hide Call, Put, Get, Getting, Carries, HeadOf;
    var u :| 0 <= u < |s.pcs| && (Call(s, s', u) || Put(s, s', u) || Get(s, s', u));
    if Put(s, s', u) {
      PutNull(s, s', u, t);
    } else if Get(s, s', u) {
      GetNull(s, s', u, t);
    } else {
      CallNull(s, s', u, t);
      assert false;
    }
  }

  lemma CallNull(s: State, s': State, u: nat, t: nat)
    requires u < |s.pcs| && Call(s, s', u) && t < |s.pcs| && t < |s'.pcs| && Getting(s.pcs[t])
    ensures s'.pcs[t] != Idle
  {
  }

  lemma PutNull(s: State, s': State, u: nat, t: nat)
    requires u < |s.pcs| && Put(s, s', u) && t < |s.pcs| && t < |s'.pcs| && Getting(s.pcs[t]) && s'.pcs[t] == Idle
    ensures Carries(s.pcs[t]) && HeadOf(s.pcs[t]) == Null
  {
  }

  lemma GetNull(s: State, s': State, u: nat, t: nat)
    requires u < |s.pcs| && Get(s, s', u) && t < |s.pcs| && t < |s'.pcs|
    requires Getting(s.pcs[t]) && !s.pcs[t].GetTake? && s'.pcs[t] == Idle
    ensures (s.pcs[t] == GetLoad && s.head == Null) || (Carries(s.pcs[t]) && HeadOf(s.pcs[t]) == Null)
  {
  }

  /** try_get returns null only if the head was null, and so the list empty, at a moment of the call. */
  lemma NullWasEmpty(run: seq<State>, i: nat, t: nat) returns (j: nat)
    requires IsRun(run) && i + 1 < |run| && t < |run[i].pcs| && t < |run[i + 1].pcs|
    requires Getting(run[i].pcs[t]) && !run[i].pcs[t].GetTake? && run[i + 1].pcs[t] == Idle
    ensures j <= i && Busy(run, t, j, i) && run[j].head == Null && Leads(run[j], run[j].head, [])
  {
    NullFrom(run[i], run[i + 1], t);
    hide Step;
    if run[i].pcs[t] == GetLoad {
      j := i;
    } else {
      j := CarriedWasHead(run, i, t);
    }
  }

  // ------------------------------------------------------------------------------------------
  // Progress
  // ------------------------------------------------------------------------------------------

  /** Every thread inside a call can take its next step, whatever the others do. */
  lemma NeverStuck(run: seq<State>, i: nat, t: nat) returns (s': State)
    requires IsRun(run) && i < |run| && t < |run[i].pcs| && run[i].pcs[t] != Idle
    ensures Step(run[i], s') && |s'.pcs| == |run[i].pcs| && s'.pcs == run[i].pcs[t := s'.pcs[t]]
    ensures s'.pcs[t] != run[i].pcs[t]
  {
    hide Init, Step, Roles, Words, Chain;
    RunKeeps(run, i);
    var s := run[i];
    var chain, st :| Good(s, chain, st);
    assert PcOk(s, s.pcs[t]) && s.refs.Keys == s.next.Keys;
    hide Shape;
    s' := Advance(s, t);
  }

  lemma Advance(s: State, t: nat) returns (s': State)
    requires t < |s.pcs| && s.pcs[t] != Idle && PcOk(s, s.pcs[t]) && s.refs.Keys == s.next.Keys
    ensures Step(s, s') && |s'.pcs| == |s.pcs| && s'.pcs == s.pcs[t := s'.pcs[t]] && s'.pcs[t] != s.pcs[t]
  {
    match s.pcs[t] {
      case AddFlag(n) =>
        s' := Goto(s, t, if s.refs[n] == 0 then PutLoad(n, Done) else Idle)
        .(refs := s.refs[n := FetchAdd(s.refs[n], SHOULD_BE_ON_FREELIST)]);
        assert Put(s, s', t);
      case PutLoad(n, ret) =>
        s' := Goto(s, t, PutNext(n, s.head, ret));
        assert Put(s, s', t);
      case PutNext(n, h, ret) =>
        s' := Goto(s, t, PutRefs(n, h, ret)).(next := s.next[n := h]);
        assert Put(s, s', t);
      case PutRefs(n, h, ret) =>
        s' := Goto(s, t, PutCas(n, h, ret)).(refs := s.refs[n := 1]);
        assert Put(s, s', t);
      case PutCas(n, h, ret) =>
        s' := if s.head == h then Goto(s, t, After(ret)).(head := To(n)) else Goto(s, t, PutFail(n, s.head, ret));
        assert Put(s, s', t);
      case PutFail(n, h, ret) =>
        s' := Goto(s, t, if s.refs[n] == 1 then PutNext(n, h, ret) else After(ret))
        .(refs := s.refs[n := FetchAdd(s.refs[n], SHOULD_BE_ON_FREELIST - 1)]);
        assert Put(s, s', t);
      case GetLoad =>
        s' := Goto(s, t, Loop(s.head));
        assert Get(s, s', t);
      case GetRefs(n) =>
        s' := Goto(s, t, if Count(s.refs[n]) == 0 then GetLoad else GetInc(n, s.refs[n]));
        assert Get(s, s', t);
      case GetInc(n, r) =>
        s' := if s.refs[n] == r then Goto(s, t, GetNext(n)).(refs := s.refs[n := FetchAdd(r, 1)])
              else Goto(s, t, GetLoad);
        assert Get(s, s', t);
      case GetNext(n) =>
        s' := Goto(s, t, GetCas(n, s.next[n]));
        assert Get(s, s', t);
      case GetCas(n, nx) =>
        s' := if s.head == To(n) then Goto(s, t, GetTake(n)).(head := nx) else Goto(s, t, GetUndo(n, s.head));
        assert Get(s, s', t);
      case GetTake(n) =>
        s' := Goto(s, t, Idle).(refs := s.refs[n := FetchAdd(s.refs[n], -2)], owner := s.owner[n := t]);
        assert Get(s, s', t);
      case GetUndo(n, h) =>
        s' := Goto(s, t, if s.refs[n] == SHOULD_BE_ON_FREELIST + 1 then PutLoad(n, Resume(h)) else Loop(h))
        .(refs := s.refs[n := FetchAdd(s.refs[n], -1)]);
        assert Get(s, s', t);
    }
  }

  // ------------------------------------------------------------------------------------------
  // Calls that run alone
  // ------------------------------------------------------------------------------------------

  predicate Quiet(s: State) { forall t | 0 <= t < |s.pcs| :: s.pcs[t] == Idle }

  /** A sequence of steps of thread t. */
  ghost predicate Path(path: seq<State>, t: nat)
  {
    && |path| > 0 && (forall i | 0 <= i < |path| :: |path[i].pcs| > t)
    && forall i | 0 <= i < |path| - 1 :: Call(path[i], path[i + 1], t) || Put(path[i], path[i + 1], t)
        || Get(path[i], path[i + 1], t)
  }

  /** The words of a quiet list: one for a listed node, zero for an owned one. */
  lemma QuietWords(run: seq<State>, i: nat, chain: seq<Node>, n: Node)
    requires IsRun(run) && i < |run| && Quiet(run[i]) && Leads(run[i], run[i].head, chain) && n in run[i].refs
    ensures n in run[i].next
    ensures n in chain <==> n !in run[i].owner
    ensures run[i].refs[n] == if n in run[i].owner then 0 else 1
  {
    NothingLost(run, i, chain);
    RunKeeps(run, i);
    OwnedWord(run[i], n);
  }

  lemma OwnedWord(s: State, n: Node)
    requires Inv(s) && n in s.refs && Quiet(s)
    ensures n in s.next && (n in s.owner ==> s.refs[n] == 0)
  {
    hide Roles, Chain;
    var chain, st :| Good(s, chain, st);
    hide Shape;
    PlaceIsUnique(s, n, chain, st);
    StatusKnown(s, n, chain, st);
    assert WordFits(st[n], s.refs[n], Holders(s.pcs, n));
    hide Words;
    if Holders(s.pcs, n) > 0 {
      var t := Counting.TotalWitness(s.pcs, Weight(n));
      assert false;
    }
  }

  /** Alone on a non-empty list, try_get takes its first node and leaves the rest. */
  lemma GetAlone(run: seq<State>, i: nat, t: nat, chain: seq<Node>) returns (path: seq<State>)
    requires IsRun(run) && i < |run| && Quiet(run[i]) && t < |run[i].pcs|
    requires chain != [] && Leads(run[i], run[i].head, chain)
    ensures Path(path, t) && path[0] == run[i]
    ensures var s' := path[|path| - 1];
      && Quiet(s') && chain[0] in s'.owner && s'.owner[chain[0]] == t && Leads(s', s'.head, chain[1..])
      && s'.owner == run[i].owner[chain[0] := t]
  {
    FirstKnown(run, i, chain);
    QuietWords(run, i, chain, chain[0]);
    hide IsRun;
    path := TakeFirst(run[i], t, chain[0]);
    SameLinks(run[i], path[|path| - 1], run[i].next[chain[0]], chain[1..]);
  }

  lemma TakeFirst(s0: State, t: nat, n: Node) returns (path: seq<State>)
    requires Quiet(s0) && t < |s0.pcs| && s0.head == To(n) && n in s0.refs && n in s0.next && s0.refs[n] == 1
    ensures Path(path, t) && path[0] == s0
    ensures path[|path| - 1] == s0.(refs := s0.refs[n := 0], head := s0.next[n], owner := s0.owner[n := t])
  {
    var s1, s2, s3, s4 := HoldFirst(s0, t, n);
    var s5, s6, s7 := RemoveFirst(s0, s4, t, n);
    hide Call, Get, Put;
    path := [s0, s1, s2, s3, s4, s5, s6, s7];
  }

  /** The steps up to the counted reference. */
  lemma HoldFirst(s0: State, t: nat, n: Node) returns (s1: State, s2: State, s3: State, s4: State)
    requires Quiet(s0) && t < |s0.pcs| && s0.head == To(n) && n in s0.refs && n in s0.next && s0.refs[n] == 1
    ensures |s1.pcs| == |s2.pcs| == |s3.pcs| == |s0.pcs|
    ensures Call(s0, s1, t) && Get(s1, s2, t) && Get(s2, s3, t) && Get(s3, s4, t)
    ensures s4 == Goto(s0, t, GetNext(n)).(refs := s0.refs[n := 2])
  {
    hide Put;
    s1, s2, s3 := Goto(s0, t, GetLoad), Goto(s0, t, GetRefs(n)), Goto(s0, t, GetInc(n, 1));
    s4 := Goto(s0, t, GetNext(n)).(refs := s0.refs[n := 2]);
  }

  /** The steps that remove the node. */
  lemma RemoveFirst(s0: State, s4: State, t: nat, n: Node) returns (s5: State, s6: State, s7: State)
    requires Quiet(s0) && t < |s0.pcs| && s0.head == To(n) && n in s0.refs && n in s0.next
    requires s4 == Goto(s0, t, GetNext(n)).(refs := s0.refs[n := 2])
    ensures |s5.pcs| == |s6.pcs| == |s0.pcs| && Get(s4, s5, t) && Get(s5, s6, t) && Get(s6, s7, t)
    ensures s7 == s0.(refs := s0.refs[n := 0], head := s0.next[n], owner := s0.owner[n := t])
  {
    hide Put, Call;
    var nx := s0.next[n];
    s5, s6 := Goto(s4, t, GetCas(n, nx)), Goto(s4, t, GetTake(n)).(head := nx);
    s7 := s0.(refs := s0.refs[n := 0], head := nx, owner := s0.owner[n := t]);
    assert s0.pcs[t := Idle] == s0.pcs && s0.refs[n := 2][n := 0] == s0.refs[n := 0];
  }

  lemma FirstKnown(run: seq<State>, i: nat, chain: seq<Node>)
    requires IsRun(run) && i < |run| && chain != [] && Leads(run[i], run[i].head, chain)
    ensures chain[0] in run[i].refs
  {
    RunKeeps(run, i);
    hide Roles, Words, Chain;
  }

  lemma {:induction false} SameLinks(s: State, s': State, p: Ptr, chain: seq<Node>)
    requires Leads(s, p, chain) && s'.next == s.next
    ensures Leads(s', p, chain)
    decreases |chain|
  {
    if chain != [] {
      SameLinks(s, s', s.next[chain[0]], chain[1..]);
    }
  }

  lemma {:induction false} LinksWithout(s: State, s': State, p: Ptr, chain: seq<Node>, n: Node)
    requires Leads(s, p, chain) && n !in chain && n in s'.next && s'.next == s.next[n := s'.next[n]]
    ensures Leads(s', p, chain)
    decreases |chain|
  {
    if chain != [] {
      LinksWithout(s, s', s.next[chain[0]], chain[1..], n);
    }
  }

  /** Alone, add puts the node in front of the list. */
  lemma AddAlone(run: seq<State>, i: nat, t: nat, n: Node, chain: seq<Node>) returns (path: seq<State>)
    requires IsRun(run) && i < |run| && Quiet(run[i]) && t < |run[i].pcs| && Leads(run[i], run[i].head, chain)
    requires n in run[i].refs && n in run[i].owner && run[i].owner[n] == t
    ensures Path(path, t) && path[0] == run[i]
    ensures var s' := path[|path| - 1];
      && Quiet(s') && s'.owner == run[i].owner - {n} && Leads(s', s'.head, [n] + chain)
  {
    QuietWords(run, i, chain, n);
    hide IsRun;
    path := PutFirst(run[i], t, n);
    LinksWithout(run[i], path[|path| - 1], run[i].head, chain, n);
    assert ([n] + chain)[1..] == chain;
  }

  lemma PutFirst(s0: State, t: nat, n: Node) returns (path: seq<State>)
    requires Quiet(s0) && t < |s0.pcs| && n in s0.refs && n in s0.next && s0.refs[n] == 0
    requires n in s0.owner && s0.owner[n] == t
    ensures Path(path, t) && path[0] == s0
    ensures path[|path| - 1] == s0.(refs := s0.refs[n := 1], next := s0.next[n := s0.head], head := To(n),
                                    owner := s0.owner - {n})
  {
    hide Get;
    var h := s0.head;
    var flagged := s0.(refs := s0.refs[n := SHOULD_BE_ON_FREELIST], owner := s0.owner - {n});
    var s1 := Goto(s0, t, AddFlag(n)).(owner := s0.owner - {n});
    var s2 := Goto(flagged, t, PutLoad(n, Done));
    var s3 := Goto(flagged, t, PutNext(n, h, Done));
    var s4 := Goto(flagged, t, PutRefs(n, h, Done)).(next := s0.next[n := h]);
    var s5 := Goto(flagged, t, PutCas(n, h, Done)).(next := s0.next[n := h], refs := s0.refs[n := 1]);
    var s6 := flagged.(next := s0.next[n := h], refs := s0.refs[n := 1], head := To(n));
    assert s0.pcs[t := Idle] == s0.pcs && flagged.refs[n := 1] == s0.refs[n := 1];
    assert CallAdd(s0, s1, t, n) && Put(s1, s2, t) && Put(s2, s3, t) && Put(s3, s4, t);
    assert Put(s4, s5, t) && Put(s5, s6, t);
    assert Call(s0, s1, t);
    hide Call, Put;
    path := [s0, s1, s2, s3, s4, s5, s6];
  }
}
