/**
 * The lock-free free list of ConcurrentQueue: a CAS stack whose nodes carry a 32-bit word made of
 * a reference count and a "should be on freelist" bit. One step is one atomic access; any number
 * of threads (fewer than 2^31 - 1, so that counts fit their 31 bits) run add and try_get.
 */
module FreeList {
  import opened Counting

  const SHOULD_BE_ON_FREELIST: nat := 0x8000_0000
  const WORD: nat := 0x1_0000_0000

  type Node = nat
  datatype Ptr = Null | To(node: Node)

  /** Where add_knowing_refcount_is_zero returns to: the end of add, or the loop of try_get. */
  datatype Return = Done | Resume(head: Ptr)

  datatype Pc =
    | Idle
      // add: before the fetch_add of the flag
    | AddFlag(n: Node)
      // add_knowing_refcount_is_zero: before the load of the head, the store of next, the store of
      // the count, the CAS of the head, the fetch_add after a failed CAS
    | PutLoad(n: Node, ret: Return)
    | PutNext(n: Node, h: Ptr, ret: Return)
    | PutRefs(n: Node, h: Ptr, ret: Return)
    | PutCas(n: Node, h: Ptr, ret: Return)
    | PutFail(n: Node, h: Ptr, ret: Return)
      // try_get: before the load of the head, the load of the word, the CAS of the word, the load
      // of next, the CAS of the head, the final fetch_sub of 2, the undoing fetch_sub of 1
    | GetLoad
    | GetRefs(n: Node)
    | GetInc(n: Node, r: nat)
    | GetNext(n: Node)
    | GetCas(n: Node, nx: Ptr)
    | GetTake(n: Node)
    | GetUndo(n: Node, h: Ptr)

  /** `owner` records which caller owns a node outside the list. */
  datatype State = State(
    head: Ptr, refs: map<Node, nat>, next: map<Node, Ptr>, owner: map<Node, nat>, pcs: seq<Pc>)

  function Count(word: nat): nat { word % SHOULD_BE_ON_FREELIST }

  predicate Flagged(word: nat) { word / SHOULD_BE_ON_FREELIST % 2 == 1 }

  function FetchAdd(word: nat, d: int): (r: nat) { (word + d) % WORD }

  /** The head of try_get's loop: leave on null, otherwise read the word of the node. */
  function Loop(h: Ptr): Pc { if h == Null then Idle else GetRefs(h.node) }

  function After(ret: Return): Pc { if ret == Done then Idle else Loop(ret.head) }

  function Goto(s: State, t: nat, p: Pc): State
    requires t < |s.pcs|
  {
    s.(pcs := s.pcs[t := p])
  }

  ghost predicate Init(s: State)
  {
    && s.head == Null
    && s.refs.Keys == s.next.Keys == s.owner.Keys
    && (forall n | n in s.refs :: s.refs[n] == 0 && s.next[n] == Null && s.owner[n] < |s.pcs|)
    && (forall t | 0 <= t < |s.pcs| :: s.pcs[t] == Idle)
    && |s.pcs| + 1 < SHOULD_BE_ON_FREELIST
  }

  /** A caller that owns n starts add on it. */
  ghost predicate CallAdd(s: State, s': State, t: nat, n: Node)
    requires t < |s.pcs|
  {
    && s.pcs[t] == Idle && n in s.owner && s.owner[n] == t
    && s' == Goto(s, t, AddFlag(n)).(owner := s.owner - {n})
  }

  /** A caller that owns n hands it to another caller. */
  ghost predicate HandOver(s: State, s': State, t: nat, n: Node, u: nat)
  {
    && n in s.owner && s.owner[n] == t && u < |s.pcs|
    && s' == s.(owner := s.owner[n := u])
  }

  ghost predicate Call(s: State, s': State, t: nat)
    requires t < |s.pcs|
  {
    || (exists n :: CallAdd(s, s', t, n))
    || (s.pcs[t] == Idle && s' == Goto(s, t, GetLoad))
    || (exists n, u :: HandOver(s, s', t, n, u))
  }

  ghost predicate Put(s: State, s': State, t: nat)
    requires t < |s.pcs|
  {
    match s.pcs[t]
    case AddFlag(n) =>
      n in s.refs &&
      s' == Goto(s, t, if s.refs[n] == 0 then PutLoad(n, Done) else Idle)
            .(refs := s.refs[n := FetchAdd(s.refs[n], SHOULD_BE_ON_FREELIST)])
    case PutLoad(n, ret) => s' == Goto(s, t, PutNext(n, s.head, ret))
    case PutNext(n, h, ret) => s' == Goto(s, t, PutRefs(n, h, ret)).(next := s.next[n := h])
    case PutRefs(n, h, ret) => s' == Goto(s, t, PutCas(n, h, ret)).(refs := s.refs[n := 1])
    case PutCas(n, h, ret) =>
      if s.head == h then s' == Goto(s, t, After(ret)).(head := To(n))
      else s' == Goto(s, t, PutFail(n, s.head, ret))
    case PutFail(n, h, ret) =>
      n in s.refs &&
      s' == Goto(s, t, if s.refs[n] == 1 then PutNext(n, h, ret) else After(ret))
            .(refs := s.refs[n := FetchAdd(s.refs[n], SHOULD_BE_ON_FREELIST - 1)])
    case _ => false
  }

  ghost predicate Get(s: State, s': State, t: nat)
    requires t < |s.pcs|
  {
    match s.pcs[t]
    case GetLoad => s' == Goto(s, t, Loop(s.head))
    case GetRefs(n) =>
      n in s.refs &&
      s' == Goto(s, t, if Count(s.refs[n]) == 0 then GetLoad else GetInc(n, s.refs[n]))
    case GetInc(n, r) =>
      n in s.refs &&
      if s.refs[n] == r then s' == Goto(s, t, GetNext(n)).(refs := s.refs[n := FetchAdd(r, 1)])
      else s' == Goto(s, t, GetLoad)
    case GetNext(n) => n in s.next && s' == Goto(s, t, GetCas(n, s.next[n]))
    case GetCas(n, nx) =>
      if s.head == To(n) then s' == Goto(s, t, GetTake(n)).(head := nx)
      else s' == Goto(s, t, GetUndo(n, s.head))
    case GetTake(n) =>
      n in s.refs &&
      s' == Goto(s, t, Idle)
            .(refs := s.refs[n := FetchAdd(s.refs[n], -2)], owner := s.owner[n := t])
    case GetUndo(n, h) =>
      n in s.refs &&
      s' == Goto(s, t, if s.refs[n] == SHOULD_BE_ON_FREELIST + 1 then PutLoad(n, Resume(h)) else Loop(h))
            .(refs := s.refs[n := FetchAdd(s.refs[n], -1)])
    case _ => false
  }

  ghost predicate Step(s: State, s': State)
  {
    exists t :: 0 <= t < |s.pcs| && (Call(s, s', t) || Put(s, s', t) || Get(s, s', t))
  }

  ghost predicate IsRun(run: seq<State>)
  {
    && |run| > 0
    && Init(run[0])
    && forall i :: 0 <= i < |run| - 1 ==> Step(run[i], run[i + 1])
  }

  // ------------------------------------------------------------------------------------------
  // The invariant
  // ------------------------------------------------------------------------------------------

  /** The thread has counted a reference to n that it has not given back. */
  predicate Holds(p: Pc, n: Node)
  {
    match p
    case GetNext(m) => m == n
    case GetCas(m, _) => m == n
    case GetTake(m) => m == n
    case GetUndo(m, _) => m == n
    case _ => false
  }

  function Bit(b: bool): nat { if b then 1 else 0 }

  ghost function Weight(n: Node): Pc -> nat { p => Bit(Holds(p, n)) }

  /** The number of temporary references to n. */
  ghost function Holders(pcs: seq<Pc>, n: Node): nat { Total(pcs, Weight(n)) }

  /** What a thread may be doing exclusively with a node. */
  datatype Phase = Calling | Unpublished | Offered | Taken
  datatype Role = NoRole | Role(node: Node, phase: Phase)

  function RoleOf(p: Pc): Role
  {
    match p
    case AddFlag(n) => Role(n, Calling)
    case PutLoad(n, _) => Role(n, Unpublished)
    case PutNext(n, _, _) => Role(n, Unpublished)
    case PutRefs(n, _, _) => Role(n, Unpublished)
    case PutCas(n, _, _) => Role(n, Offered)
    case PutFail(n, _, _) => Role(n, Offered)
    case GetTake(n) => Role(n, Taken)
    case _ => NoRole
  }

  /** The exclusive states of a node. */
  datatype Status = Owned | Listed | Waiting | Busy(t: nat, phase: Phase)

  /** The word a node must carry in each state, given its number of temporary references. */
  predicate WordFits(st: Status, word: nat, holders: nat)
  {
    match st
    case Owned => word == holders
    case Listed => word == 1 + holders
    case Waiting => word == SHOULD_BE_ON_FREELIST + holders && holders >= 1
    case Busy(_, Calling) => word == holders
    case Busy(_, Unpublished) => word == SHOULD_BE_ON_FREELIST && holders == 0
    case Busy(_, Offered) => word == 1 + holders
    case Busy(_, Taken) => word == 1 + holders
  }

  ghost predicate PtrOk(s: State, p: Ptr) { p == Null || p.node in s.refs }

  ghost predicate PcOk(s: State, p: Pc)
  {
    match p
    case Idle => true
    case AddFlag(n) => n in s.refs
    case PutLoad(n, ret) => n in s.refs && (ret == Done || PtrOk(s, ret.head))
    case PutNext(n, h, ret) => n in s.refs && PtrOk(s, h) && (ret == Done || PtrOk(s, ret.head))
    case PutRefs(n, h, ret) => n in s.next && s.next[n] == h && n in s.refs && (ret == Done || PtrOk(s, ret.head))
    case PutCas(n, h, ret) => n in s.next && s.next[n] == h && n in s.refs && (ret == Done || PtrOk(s, ret.head))
    case PutFail(n, h, ret) => n in s.refs && PtrOk(s, h) && (ret == Done || PtrOk(s, ret.head))
    case GetLoad => true
    case GetRefs(n) => n in s.refs
    case GetInc(n, r) => n in s.refs && Count(r) != 0
    case GetNext(n) => n in s.refs
    case GetCas(n, nx) => n in s.next && s.next[n] == nx && n in s.refs
    case GetTake(n) => n in s.refs
    case GetUndo(n, h) => n in s.refs && PtrOk(s, h)
  }

  ghost predicate Shape(s: State)
  {
    && s.refs.Keys == s.next.Keys
    && s.owner.Keys <= s.refs.Keys
    && |s.pcs| + 1 < SHOULD_BE_ON_FREELIST
    && (forall n | n in s.next :: PtrOk(s, s.next[n]))
    && (forall t | 0 <= t < |s.pcs| :: PcOk(s, s.pcs[t]))
  }

  ghost predicate Roles(s: State, st: map<Node, Status>)
  {
    && st.Keys == s.refs.Keys
    && (forall n | n in st :: st[n] == Owned <==> n in s.owner)
    && (forall n | n in s.owner :: s.owner[n] < |s.pcs|)
    && (forall n | n in st :: st[n].Busy? ==> st[n].t < |s.pcs| && RoleOf(s.pcs[st[n].t]) == Role(n, st[n].phase))
    && (forall t | 0 <= t < |s.pcs| ::
          var r := RoleOf(s.pcs[t]);
          r.Role? ==> r.node in st && st[r.node] == Busy(t, r.phase))
  }

  ghost predicate Words(s: State, st: map<Node, Status>)
  {
    forall n | n in s.refs && n in st :: WordFits(st[n], s.refs[n], Holders(s.pcs, n))
  }

  /** The pointer to the i-th node of the chain, null past its end. */
  function At(chain: seq<Node>, i: nat): Ptr { if i < |chain| then To(chain[i]) else Null }

  ghost predicate Chain(s: State, chain: seq<Node>, st: map<Node, Status>)
  {
    && s.head == At(chain, 0)
    && (forall i | 0 <= i < |chain| :: chain[i] in s.next && chain[i] in st && s.next[chain[i]] == At(chain, i + 1))
    && (forall i, j | 0 <= i < j < |chain| :: chain[i] != chain[j])
    && (forall i | 0 <= i < |chain| :: st[chain[i]] == Listed)
    && (forall n | n in st :: st[n] == Listed ==> n in chain)
  }

  ghost predicate Good(s: State, chain: seq<Node>, st: map<Node, Status>)
  {
    Shape(s) && Roles(s, st) && Words(s, st) && Chain(s, chain, st)
  }

  ghost predicate Inv(s: State)
  {
    exists chain: seq<Node>, st: map<Node, Status> :: Good(s, chain, st)
  }

  // ------------------------------------------------------------------------------------------
  // Counting references
  // ------------------------------------------------------------------------------------------

  lemma HoldersMove(pcs: seq<Pc>, t: nat, p: Pc)
    requires t < |pcs|
    ensures forall n ::
      Holders(pcs[t := p], n) + Bit(Holds(pcs[t], n)) == Holders(pcs, n) + Bit(Holds(p, n))
  {
    forall n
      ensures Holders(pcs[t := p], n) + Bit(Holds(pcs[t], n)) == Holders(pcs, n) + Bit(Holds(p, n))
    {
      TotalUpdate(pcs, t, p, Weight(n));
    }
  }

  lemma HoldersBound(pcs: seq<Pc>, n: Node)
    ensures Holders(pcs, n) <= |pcs|
  {
    TotalBound(pcs, Weight(n));
  }

  lemma HolderCounts(pcs: seq<Pc>, t: nat, n: Node)
    requires t < |pcs| && Holds(pcs[t], n)
    ensures Holders(pcs, n) >= 1
  {
    TotalAtLeast(pcs, t, Weight(n));
  }

  /** No 32-bit overflow: the counts stay below 2^31. */
  lemma FetchAddExact(word: nat, d: int)
    requires 0 <= word + d < WORD
    ensures FetchAdd(word, d) == word + d
  {
  }

  lemma CountExact(st: Status, word: nat, holders: nat)
    requires WordFits(st, word, holders) && holders + 1 < SHOULD_BE_ON_FREELIST
    ensures Count(word) == if Flagged(word) then word - SHOULD_BE_ON_FREELIST else word
    ensures Flagged(word) <==> st == Waiting || (st.Busy? && st.phase == Unpublished)
  {
  }

  // ------------------------------------------------------------------------------------------
  // Moving one thread and one node
  // ------------------------------------------------------------------------------------------

  /** Only thread t and node n change. */
  ghost predicate Frame(s: State, s': State, t: nat, n: Node)
  {
    && t < |s.pcs| == |s'.pcs|
    && s'.pcs == s.pcs[t := s'.pcs[t]]
    && n in s.refs && s'.refs.Keys == s.refs.Keys && s'.next.Keys == s.next.Keys
    && (forall m | m in s.refs && m != n :: s'.refs[m] == s.refs[m])
    && (forall m | m in s.next && m != n :: s'.next[m] == s.next[m])
    && (forall m | m != n :: m in s'.owner <==> m in s.owner)
    && (forall m | m in s.owner && m != n :: s'.owner[m] == s.owner[m])
  }

  predicate About(p: Pc, n: Node)
  {
    && (RoleOf(p).Role? ==> RoleOf(p).node == n)
    && (match p
        case GetNext(m) => m == n
        case GetCas(m, _) => m == n
        case GetTake(m) => m == n
        case GetUndo(m, _) => m == n
        case _ => true)
  }

  /** Thread t leaves the status of n alone, or t alone had n and gives it the status of its new role. */
  predicate RoleChange(y: Status, x: Status, p: Pc, p': Pc, t: nat, n: Node)
  {
    || (y == x && RoleOf(p) == NoRole == RoleOf(p'))
    || (&& (y.Busy? ==> y.t == t)
        && (x.Busy? ==> x.t == t && RoleOf(p') == Role(n, x.phase))
        && (RoleOf(p').Role? ==> x.Busy?))
  }

  lemma ShapeMove(s: State, s': State, t: nat, n: Node)
    requires Shape(s) && Frame(s, s', t, n) && PcOk(s', s'.pcs[t])
    requires n in s.next && (s'.next[n] == s.next[n] || PtrOk(s, s'.next[n]))
    requires n in s'.owner ==> n in s'.refs
    requires s'.next[n] == s.next[n] || forall u | 0 <= u < |s.pcs| && u != t ::
        !Holds(s.pcs[u], n) && (RoleOf(s.pcs[u]).Role? ==> RoleOf(s.pcs[u]).node != n)
    ensures Shape(s')
  {
    forall u | 0 <= u < |s.pcs| ensures PcOk(s', s'.pcs[u]) {
      assert PcOk(s, s.pcs[u]);
    }
    forall m | m in s'.next ensures PtrOk(s', s'.next[m]) {
      assert PtrOk(s, s.next[m]);
    }
  }

  lemma RolesMove(s: State, s': State, t: nat, n: Node, st: map<Node, Status>, x: Status)
    requires Roles(s, st) && Frame(s, s', t, n)
    requires About(s.pcs[t], n) && About(s'.pcs[t], n)
    requires RoleChange(st[n], x, s.pcs[t], s'.pcs[t], t, n)
    requires x == Owned <==> n in s'.owner
    requires n in s'.owner ==> s'.owner[n] < |s.pcs|
    ensures Roles(s', st[n := x])
  {
    var st' := st[n := x];
    hide RoleChange, About, RoleOf;
    forall u | 0 <= u < |s'.pcs|
      ensures var r := RoleOf(s'.pcs[u]); r.Role? ==> r.node in st' && st'[r.node] == Busy(u, r.phase)
    {
      RoleKept(s, s', t, n, st, x, u);
    }
    forall m | m in st'
      ensures st'[m].Busy? ==> st'[m].t < |s'.pcs| && RoleOf(s'.pcs[st'[m].t]) == Role(m, st'[m].phase)
    {
      StatusKept(s, s', t, n, st, x, m);
    }
  }

  lemma RoleKept(s: State, s': State, t: nat, n: Node, st: map<Node, Status>, x: Status, u: nat)
    requires Roles(s, st) && Frame(s, s', t, n) && About(s.pcs[t], n) && About(s'.pcs[t], n)
    requires RoleChange(st[n], x, s.pcs[t], s'.pcs[t], t, n) && u < |s'.pcs|
    ensures var r := RoleOf(s'.pcs[u]); r.Role? ==> r.node in st[n := x] && st[n := x][r.node] == Busy(u, r.phase)
  {
  }

  lemma StatusKept(s: State, s': State, t: nat, n: Node, st: map<Node, Status>, x: Status, m: Node)
    requires Roles(s, st) && Frame(s, s', t, n) && About(s.pcs[t], n) && About(s'.pcs[t], n)
    requires RoleChange(st[n], x, s.pcs[t], s'.pcs[t], t, n) && m in st[n := x]
    ensures var y := st[n := x][m]; y.Busy? ==> y.t < |s'.pcs| && RoleOf(s'.pcs[y.t]) == Role(m, y.phase)
  {
  }

  lemma WordsMove(s: State, s': State, t: nat, n: Node, st: map<Node, Status>, x: Status)
    requires Words(s, st) && st.Keys == s.refs.Keys && Frame(s, s', t, n)
    requires About(s.pcs[t], n) && About(s'.pcs[t], n)
    requires WordFits(x, s'.refs[n], Holders(s'.pcs, n))
    ensures Words(s', st[n := x])
  {
    HoldersMove(s.pcs, t, s'.pcs[t]);
    forall m | m in s'.refs && m != n ensures WordFits(st[m], s'.refs[m], Holders(s'.pcs, m)) {
      assert !Holds(s.pcs[t], m) && !Holds(s'.pcs[t], m);
      assert WordFits(st[m], s.refs[m], Holders(s.pcs, m));
    }
  }

  /** The chain is untouched by steps on a node that is off the list. */
  lemma ChainMove(s: State, s': State, t: nat, n: Node, chain: seq<Node>, st: map<Node, Status>, x: Status)
    requires Chain(s, chain, st) && Frame(s, s', t, n) && st.Keys == s.refs.Keys == s.next.Keys
    requires s'.head == s.head
    requires (st[n] == Listed <==> x == Listed)
    requires x == Listed ==> s'.next[n] == s.next[n]
    ensures Chain(s', chain, st[n := x])
  {
  }

  lemma Assemble(s: State, s': State, t: nat, n: Node, chain: seq<Node>, st: map<Node, Status>, x: Status)
    requires Good(s, chain, st) && Frame(s, s', t, n) && s'.head == s.head && s'.next == s.next
    requires PcOk(s', s'.pcs[t]) && About(s.pcs[t], n) && About(s'.pcs[t], n)
    requires RoleChange(st[n], x, s.pcs[t], s'.pcs[t], t, n)
    requires x == Owned <==> n in s'.owner
    requires n in s'.owner ==> s'.owner[n] < |s.pcs|
    requires WordFits(x, s'.refs[n], Holders(s'.pcs, n))
    requires (st[n] == Listed <==> x == Listed)
    ensures Good(s', chain, st[n := x])
  {
    ShapeMove(s, s', t, n);
    RolesMove(s, s', t, n, st, x);
    WordsMove(s, s', t, n, st, x);
    ChainMove(s, s', t, n, chain, st, x);
  }

  /** A step of a thread that neither holds a reference nor has a role before or after it. */
  lemma Quiet(s: State, s': State, t: nat, chain: seq<Node>, st: map<Node, Status>)
    requires Good(s, chain, st) && t < |s.pcs| == |s'.pcs| && s' == Goto(s, t, s'.pcs[t])
    requires RoleOf(s.pcs[t]) == NoRole == RoleOf(s'.pcs[t]) && PcOk(s', s'.pcs[t])
    requires forall n :: !Holds(s.pcs[t], n) && !Holds(s'.pcs[t], n)
    ensures Good(s', chain, st)
  {
    HoldersMove(s.pcs, t, s'.pcs[t]);
    assert Words(s', st) by {
      forall n | n in s'.refs ensures WordFits(st[n], s'.refs[n], Holders(s'.pcs, n)) {
        assert Holders(s'.pcs, n) == Holders(s.pcs, n);
      }
    }
    assert Shape(s') by {
      forall u | 0 <= u < |s.pcs| ensures PcOk(s', s'.pcs[u]) {
        assert PcOk(s, s.pcs[u]);
      }
      forall m | m in s'.next ensures PtrOk(s', s'.next[m]) {
        assert PtrOk(s, s.next[m]);
      }
    }
  }

  /** What the invariant says about thread t and node n. */
  lemma Facts(s: State, t: nat, n: Node, chain: seq<Node>, st: map<Node, Status>)
    requires Good(s, chain, st) && t < |s.pcs| && n in s.refs
    ensures st.Keys == s.refs.Keys == s.next.Keys
    ensures PcOk(s, s.pcs[t]) && PtrOk(s, s.head)
    ensures RoleOf(s.pcs[t]).Role? && RoleOf(s.pcs[t]).node == n ==> st[n] == Busy(t, RoleOf(s.pcs[t]).phase)
    ensures st[n].Busy? && st[n].t == t ==> RoleOf(s.pcs[t]) == Role(n, st[n].phase)
    ensures st[n] == Owned <==> n in s.owner
    ensures n in s.owner ==> s.owner[n] < |s.pcs|
    ensures WordFits(st[n], s.refs[n], Holders(s.pcs, n))
    ensures Holders(s.pcs, n) + 1 < SHOULD_BE_ON_FREELIST
    ensures Holds(s.pcs[t], n) ==> Holders(s.pcs, n) >= 1
    ensures s.head == To(n) ==> chain != [] && chain[0] == n && st[n] == Listed
  {
    HoldersBound(s.pcs, n);
    if Holds(s.pcs[t], n) {
      HolderCounts(s.pcs, t, n);
    }
  }

  // ------------------------------------------------------------------------------------------
  // Every step keeps the invariant
  // ------------------------------------------------------------------------------------------

  lemma CallKeeps(s: State, s': State, t: nat, chain: seq<Node>, st: map<Node, Status>)
    requires Good(s, chain, st) && t < |s.pcs| && Call(s, s', t)
    ensures Inv(s')
  {
    if s.pcs[t] == Idle && s' == Goto(s, t, GetLoad) {
      Quiet(s, s', t, chain, st);
    } else if exists n :: CallAdd(s, s', t, n) {
      var n :| CallAdd(s, s', t, n);
      assert n in s.refs;
      CallAddKeeps(s, s', t, n, chain, st);
    } else {
      var n, u :| HandOver(s, s', t, n, u);
      HandOverKeeps(s, s', t, n, u, chain, st);
    }
  }

  lemma CallAddKeeps(s: State, s': State, t: nat, n: Node, chain: seq<Node>, st: map<Node, Status>)
    requires Good(s, chain, st) && t < |s.pcs| && n in s.refs && CallAdd(s, s', t, n)
    ensures Inv(s')
  {
    hide Shape, Roles, Words, Chain;
    Facts(s, t, n, chain, st);
    HoldersMove(s.pcs, t, AddFlag(n));
    Assemble(s, s', t, n, chain, st, Busy(t, Calling));
  }

  lemma HandOverKeeps(s: State, s': State, t: nat, n: Node, u: nat, chain: seq<Node>, st: map<Node, Status>)
    requires Good(s, chain, st) && HandOver(s, s', t, n, u)
    ensures Inv(s')
  {
    assert Shape(s') by {
      forall v | 0 <= v < |s.pcs| ensures PcOk(s', s'.pcs[v]) {
        assert PcOk(s, s.pcs[v]);
      }
      forall m | m in s'.next ensures PtrOk(s', s'.next[m]) {
        assert PtrOk(s, s.next[m]);
      }
    }
    assert Good(s', chain, st);
  }

  lemma AddFlagKeeps(s: State, s': State, t: nat, n: Node, chain: seq<Node>, st: map<Node, Status>)
    requires Good(s, chain, st) && t < |s.pcs| && s.pcs[t] == AddFlag(n) && n in s.refs
    requires s' == Goto(s, t, if s.refs[n] == 0 then PutLoad(n, Done) else Idle)
                   .(refs := s.refs[n := FetchAdd(s.refs[n], SHOULD_BE_ON_FREELIST)])
    ensures Inv(s')
  {
    hide Shape, Roles, Words, Chain;
    Facts(s, t, n, chain, st);
    HoldersMove(s.pcs, t, s'.pcs[t]);
    FetchAddExact(s.refs[n], SHOULD_BE_ON_FREELIST);
    Assemble(s, s', t, n, chain, st, if s.refs[n] == 0 then Busy(t, Unpublished) else Waiting);
  }

  lemma PutLoadKeeps(s: State, s': State, t: nat, n: Node, ret: Return, chain: seq<Node>, st: map<Node, Status>)
    requires Good(s, chain, st) && t < |s.pcs| && s.pcs[t] == PutLoad(n, ret) && n in s.refs
    requires s' == Goto(s, t, PutNext(n, s.head, ret))
    ensures Inv(s')
  {
    hide Shape, Roles, Words, Chain;
    Facts(s, t, n, chain, st);
    HoldersMove(s.pcs, t, s'.pcs[t]);
    Assemble(s, s', t, n, chain, st, st[n]);
  }

  /** The next pointer changes only while nobody holds a reference. */
  lemma PutNextKeeps(s: State, s': State, t: nat, n: Node, h: Ptr, ret: Return, chain: seq<Node>, st: map<Node, Status>)
    requires Good(s, chain, st) && t < |s.pcs| && s.pcs[t] == PutNext(n, h, ret) && n in s.refs
    requires s' == Goto(s, t, PutRefs(n, h, ret)).(next := s.next[n := h])
    ensures Inv(s')
  {
    hide Shape, Roles, Words, Chain;
    Facts(s, t, n, chain, st);
    NobodyElse(s, t, n, chain, st);
    HoldersMove(s.pcs, t, s'.pcs[t]);
    ShapeMove(s, s', t, n);
    RolesMove(s, s', t, n, st, st[n]);
    WordsMove(s, s', t, n, st, st[n]);
    ChainMove(s, s', t, n, chain, st, st[n]);
    assert Good(s', chain, st[n := st[n]]);
  }

  lemma NobodyElse(s: State, t: nat, n: Node, chain: seq<Node>, st: map<Node, Status>)
    requires Good(s, chain, st) && t < |s.pcs| && n in s.refs
    requires RoleOf(s.pcs[t]) == Role(n, Unpublished)
    ensures forall u | 0 <= u < |s.pcs| && u != t ::
      !Holds(s.pcs[u], n) && (RoleOf(s.pcs[u]).Role? ==> RoleOf(s.pcs[u]).node != n)
  {
    forall u | 0 <= u < |s.pcs| && u != t
      ensures !Holds(s.pcs[u], n) && (RoleOf(s.pcs[u]).Role? ==> RoleOf(s.pcs[u]).node != n)
    {
      if Holds(s.pcs[u], n) {
        HolderCounts(s.pcs, u, n);
      }
    }
  }

  lemma PutRefsKeeps(s: State, s': State, t: nat, n: Node, h: Ptr, ret: Return, chain: seq<Node>, st: map<Node, Status>)
    requires Good(s, chain, st) && t < |s.pcs| && s.pcs[t] == PutRefs(n, h, ret) && n in s.refs
    requires s' == Goto(s, t, PutCas(n, h, ret)).(refs := s.refs[n := 1])
    ensures Inv(s')
  {
    hide Shape, Roles, Words, Chain;
    Facts(s, t, n, chain, st);
    HoldersMove(s.pcs, t, s'.pcs[t]);
    Assemble(s, s', t, n, chain, st, Busy(t, Offered));
  }

  /** A successful CAS puts exactly n in front of the chain. */
  lemma PublishKeeps(s: State, s': State, t: nat, n: Node, h: Ptr, ret: Return, chain: seq<Node>, st: map<Node, Status>)
    requires Good(s, chain, st) && t < |s.pcs| && s.pcs[t] == PutCas(n, h, ret) && n in s.refs
    requires s.head == h && s' == Goto(s, t, After(ret)).(head := To(n))
    ensures Inv(s')
  {
    hide Shape, Roles, Words, Chain;
    Facts(s, t, n, chain, st);
    HoldersMove(s.pcs, t, s'.pcs[t]);
    ShapeMove(s, s', t, n);
    RolesMove(s, s', t, n, st, Listed);
    WordsMove(s, s', t, n, st, Listed);
    ChainPush(s, s', n, chain, st);
    assert Good(s', [n] + chain, st[n := Listed]);
  }

  lemma ChainPush(s: State, s': State, n: Node, chain: seq<Node>, st: map<Node, Status>)
    requires Chain(s, chain, st) && n in st && n in s.next
    requires st[n] != Listed && s.next[n] == s.head && s'.next == s.next && s'.head == To(n)
    ensures Chain(s', [n] + chain, st[n := Listed])
  {
    PushLinks(s, n, chain);
    PushListed(n, chain, st);
  }

  lemma PushLinks(s: State, n: Node, chain: seq<Node>)
    requires n in s.next && s.head == At(chain, 0) && s.next[n] == s.head
    requires forall i | 0 <= i < |chain| :: chain[i] in s.next && s.next[chain[i]] == At(chain, i + 1)
    ensures var chain' := [n] + chain;
      forall i | 0 <= i < |chain'| :: chain'[i] in s.next && s.next[chain'[i]] == At(chain', i + 1)
  {
    var chain' := [n] + chain;
    forall i | 0 <= i < |chain'| ensures chain'[i] in s.next && s.next[chain'[i]] == At(chain', i + 1) {
      assert At(chain', i + 1) == At(chain, i);
    }
  }

  lemma PushListed(n: Node, chain: seq<Node>, st: map<Node, Status>)
    requires n in st && st[n] != Listed && forall i | 0 <= i < |chain| :: chain[i] in st && st[chain[i]] == Listed
    requires forall i, j | 0 <= i < j < |chain| :: chain[i] != chain[j]
    requires forall m | m in st :: st[m] == Listed ==> m in chain
    ensures var chain', st' := [n] + chain, st[n := Listed];
      && (forall i | 0 <= i < |chain'| :: chain'[i] in st' && st'[chain'[i]] == Listed)
      && (forall i, j | 0 <= i < j < |chain'| :: chain'[i] != chain'[j])
      && (forall m | m in st' :: st'[m] == Listed ==> m in chain')
  {
  }

  lemma PutCasFailKeeps(s: State, s': State, t: nat, n: Node, h: Ptr, ret: Return, chain: seq<Node>,
      st: map<Node, Status>)
    requires Good(s, chain, st) && t < |s.pcs| && s.pcs[t] == PutCas(n, h, ret) && n in s.refs
    requires s' == Goto(s, t, PutFail(n, s.head, ret))
    ensures Inv(s')
  {
    hide Shape, Roles, Words, Chain;
    Facts(s, t, n, chain, st);
    HoldersMove(s.pcs, t, s'.pcs[t]);
    Assemble(s, s', t, n, chain, st, st[n]);
  }

  lemma PutFailKeeps(s: State, s': State, t: nat, n: Node, h: Ptr, ret: Return, chain: seq<Node>, st: map<Node, Status>)
    requires Good(s, chain, st) && t < |s.pcs| && s.pcs[t] == PutFail(n, h, ret) && n in s.refs
    requires s' == Goto(s, t, if s.refs[n] == 1 then PutNext(n, h, ret) else After(ret))
                   .(refs := s.refs[n := FetchAdd(s.refs[n], SHOULD_BE_ON_FREELIST - 1)])
    ensures Inv(s')
  {
    hide Shape, Roles, Words, Chain;
    Facts(s, t, n, chain, st);
    HoldersMove(s.pcs, t, s'.pcs[t]);
    FetchAddExact(s.refs[n], SHOULD_BE_ON_FREELIST - 1);
    Assemble(s, s', t, n, chain, st, if s.refs[n] == 1 then Busy(t, Unpublished) else Waiting);
  }

  /** The steps of try_get that only read shared state, holding no reference. */
  lemma LoopKeeps(s: State, s': State, t: nat, chain: seq<Node>, st: map<Node, Status>)
    requires Good(s, chain, st) && t < |s.pcs|
    requires s.pcs[t].GetLoad? || (s.pcs[t].GetRefs? && s.pcs[t].n in s.refs) || s.pcs[t].GetInc?
    requires s' == Goto(s, t, if s.pcs[t].GetLoad? then Loop(s.head)
                              else if s.pcs[t].GetInc? then GetLoad
                              else if Count(s.refs[s.pcs[t].n]) == 0 then GetLoad
                              else GetInc(s.pcs[t].n, s.refs[s.pcs[t].n]))
    ensures Inv(s')
  {
    hide Roles, Words, Holders;
    assert PcOk(s', s'.pcs[t]);
    hide Shape, Chain;
    Quiet(s, s', t, chain, st);
  }

  /** Counting a reference: the word was read non-zero and has not changed since. */
  lemma GetIncKeeps(s: State, s': State, t: nat, n: Node, r: nat, chain: seq<Node>, st: map<Node, Status>)
    requires Good(s, chain, st) && t < |s.pcs| && s.pcs[t] == GetInc(n, r) && n in s.refs && s.refs[n] == r
    requires s' == Goto(s, t, GetNext(n)).(refs := s.refs[n := FetchAdd(r, 1)])
    ensures Inv(s')
  {
    hide Shape, Roles, Words, Chain;
    Facts(s, t, n, chain, st);
    HoldersMove(s.pcs, t, s'.pcs[t]);
    CountExact(st[n], r, Holders(s.pcs, n));
    FetchAddExact(r, 1);
    Assemble(s, s', t, n, chain, st, st[n]);
  }

  lemma GetNextKeeps(s: State, s': State, t: nat, n: Node, chain: seq<Node>, st: map<Node, Status>)
    requires Good(s, chain, st) && t < |s.pcs| && s.pcs[t] == GetNext(n) && n in s.refs && n in s.next
    requires s' == Goto(s, t, GetCas(n, s.next[n]))
    ensures Inv(s')
  {
    hide Shape, Roles, Words, Chain;
    Facts(s, t, n, chain, st);
    HoldersMove(s.pcs, t, s'.pcs[t]);
    Assemble(s, s', t, n, chain, st, st[n]);
  }

  /** A successful CAS removes exactly the first node of the chain. */
  lemma RemoveKeeps(s: State, s': State, t: nat, n: Node, nx: Ptr, chain: seq<Node>, st: map<Node, Status>)
    requires Good(s, chain, st) && t < |s.pcs| && s.pcs[t] == GetCas(n, nx) && n in s.refs
    requires s.head == To(n) && s' == Goto(s, t, GetTake(n)).(head := nx)
    ensures Inv(s')
  {
    hide Shape, Roles, Words, Chain;
    Facts(s, t, n, chain, st);
    HoldersMove(s.pcs, t, s'.pcs[t]);
    var x := Busy(t, Taken);
    ShapeMove(s, s', t, n);
    RolesMove(s, s', t, n, st, x);
    WordsMove(s, s', t, n, st, x);
    ChainPop(s, s', chain, st, x);
    assert Good(s', chain[1..], st[n := x]);
  }

  lemma ChainPop(s: State, s': State, chain: seq<Node>, st: map<Node, Status>, x: Status)
    requires Chain(s, chain, st) && chain != [] && chain[0] in s.next && x != Listed
    requires s'.next == s.next && s'.head == s.next[chain[0]]
    ensures Chain(s', chain[1..], st[chain[0] := x])
  {
    var chain', st' := chain[1..], st[chain[0] := x];
    assert s.next[chain[0]] == At(chain, 1);
    ChainTailLinks(s, chain, st);
    forall n | n in st' && st'[n] == Listed ensures n in chain' {
      assert n in chain && n != chain[0];
    }
  }

  lemma ChainTailLinks(s: State, chain: seq<Node>, st: map<Node, Status>)
    requires Chain(s, chain, st) && chain != []
    ensures forall i | 0 <= i < |chain| - 1 ::
      chain[1..][i] in s.next && s.next[chain[1..][i]] == At(chain[1..], i + 1)
  {
    forall i | 0 <= i < |chain| - 1
      ensures chain[1..][i] in s.next && s.next[chain[1..][i]] == At(chain[1..], i + 1)
    {
      assert s.next[chain[i + 1]] == At(chain, i + 2);
    }
  }

  lemma GetCasFailKeeps(s: State, s': State, t: nat, n: Node, nx: Ptr, chain: seq<Node>, st: map<Node, Status>)
    requires Good(s, chain, st) && t < |s.pcs| && s.pcs[t] == GetCas(n, nx) && n in s.refs
    requires s' == Goto(s, t, GetUndo(n, s.head))
    ensures Inv(s')
  {
    hide Shape, Roles, Words, Chain;
    Facts(s, t, n, chain, st);
    HoldersMove(s.pcs, t, s'.pcs[t]);
    Assemble(s, s', t, n, chain, st, st[n]);
  }

  lemma GetTakeKeeps(s: State, s': State, t: nat, n: Node, chain: seq<Node>, st: map<Node, Status>)
    requires Good(s, chain, st) && t < |s.pcs| && s.pcs[t] == GetTake(n) && n in s.refs
    requires s' == Goto(s, t, Idle)
                   .(refs := s.refs[n := FetchAdd(s.refs[n], -2)], owner := s.owner[n := t])
    ensures Inv(s')
  {
    hide Shape, Roles, Words, Chain;
    Facts(s, t, n, chain, st);
    HoldersMove(s.pcs, t, s'.pcs[t]);
    FetchAddExact(s.refs[n], -2);
    Assemble(s, s', t, n, chain, st, Owned);
  }

  lemma GetUndoKeeps(s: State, s': State, t: nat, n: Node, h: Ptr, chain: seq<Node>, st: map<Node, Status>)
    requires Good(s, chain, st) && t < |s.pcs| && s.pcs[t] == GetUndo(n, h) && n in s.refs
    requires s' == Goto(s, t, if s.refs[n] == SHOULD_BE_ON_FREELIST + 1 then PutLoad(n, Resume(h)) else Loop(h))
                   .(refs := s.refs[n := FetchAdd(s.refs[n], -1)])
    ensures Inv(s')
  {
    hide Shape, Roles, Words, Chain;
    Facts(s, t, n, chain, st);
    HoldersMove(s.pcs, t, s'.pcs[t]);
    FetchAddExact(s.refs[n], -1);
    Assemble(s, s', t, n, chain, st,
             if s.refs[n] == SHOULD_BE_ON_FREELIST + 1 then Busy(t, Unpublished) else st[n]);
  }

  lemma PutKeeps(s: State, s': State, t: nat, chain: seq<Node>, st: map<Node, Status>)
    requires Good(s, chain, st) && t < |s.pcs| && Put(s, s', t)
    ensures Inv(s')
  {
    hide Roles, Words, Chain, Holders, PtrOk;
    assert PcOk(s, s.pcs[t]);
    hide Shape;
    match s.pcs[t]
    case AddFlag(n) => AddFlagKeeps(s, s', t, n, chain, st);
    case PutLoad(n, ret) => PutLoadKeeps(s, s', t, n, ret, chain, st);
    case PutNext(n, h, ret) => PutNextKeeps(s, s', t, n, h, ret, chain, st);
    case PutRefs(n, h, ret) => PutRefsKeeps(s, s', t, n, h, ret, chain, st);
    case PutCas(n, h, ret) =>
      if s.head == h {
        PublishKeeps(s, s', t, n, h, ret, chain, st);
      } else {
        PutCasFailKeeps(s, s', t, n, h, ret, chain, st);
      }
    case PutFail(n, h, ret) => PutFailKeeps(s, s', t, n, h, ret, chain, st);
    case _ => assert false;
  }

  lemma GetKeeps(s: State, s': State, t: nat, chain: seq<Node>, st: map<Node, Status>)
    requires Good(s, chain, st) && t < |s.pcs| && Get(s, s', t)
    ensures Inv(s')
  {
    assert PcOk(s, s.pcs[t]) && s.refs.Keys == s.next.Keys;
    hide Shape, Roles, Words, Chain;
    match s.pcs[t]
    case GetLoad => LoopKeeps(s, s', t, chain, st);
    case GetRefs(n) => LoopKeeps(s, s', t, chain, st);
    case GetInc(n, r) =>
      if s.refs[n] == r {
        GetIncKeeps(s, s', t, n, r, chain, st);
      } else {
        LoopKeeps(s, s', t, chain, st);
      }
    case GetNext(n) => GetNextKeeps(s, s', t, n, chain, st);
    case GetCas(n, nx) =>
      if s.head == To(n) {
        RemoveKeeps(s, s', t, n, nx, chain, st);
      } else {
        GetCasFailKeeps(s, s', t, n, nx, chain, st);
      }
    case GetTake(n) => GetTakeKeeps(s, s', t, n, chain, st);
    case GetUndo(n, h) => GetUndoKeeps(s, s', t, n, h, chain, st);
    case _ => assert false;
  }

  lemma StepKeeps(s: State, s': State)
    requires Inv(s) && Step(s, s')
    ensures Inv(s')
  {
    var chain, st :| Good(s, chain, st);
    var t :| 0 <= t < |s.pcs| && (Call(s, s', t) || Put(s, s', t) || Get(s, s', t));
    if Call(s, s', t) {
      CallKeeps(s, s', t, chain, st);
    } else if Put(s, s', t) {
      PutKeeps(s, s', t, chain, st);
    } else {
      GetKeeps(s, s', t, chain, st);
    }
  }

  lemma InitGood(s: State)
    requires Init(s)
    ensures Inv(s)
  {
    var st := map n | n in s.refs :: Owned;
    assert Words(s, st) by {
      forall n | n in s.refs ensures Holders(s.pcs, n) == 0 {
        if Holders(s.pcs, n) > 0 {
          var i := TotalWitness(s.pcs, Weight(n));
        }
      }
    }
    assert Good(s, [], st);
  }

  lemma {:induction false} RunKeeps(run: seq<State>, i: nat)
    requires IsRun(run) && i < |run|
    ensures Inv(run[i])
  {
    if i == 0 {
      InitGood(run[0]);
    } else {
      RunKeeps(run, i - 1);
      StepKeeps(run[i - 1], run[i]);
    }
  }

  // ------------------------------------------------------------------------------------------
  // What every run guarantees
  // ------------------------------------------------------------------------------------------

  /** Thread t is adding n to the list, or has removed it and is about to return it. */
  ghost predicate InHand(s: State, n: Node, t: nat)
  {
    t < |s.pcs| && RoleOf(s.pcs[t]).Role? && RoleOf(s.pcs[t]).node == n
  }

  /** The flag of n is set and somebody still holds a temporary reference to it. */
  ghost predicate IsWaiting(s: State, n: Node)
  {
    && n in s.refs && Flagged(s.refs[n])
    && exists t :: 0 <= t < |s.pcs| && Holds(s.pcs[t], n)
  }

  /** The next pointers lead from p through exactly the nodes of `chain` to null. */
  ghost predicate Leads(s: State, p: Ptr, chain: seq<Node>)
    decreases |chain|
  {
    if chain == [] then p == Null
    else p == To(chain[0]) && chain[0] in s.next && Leads(s, s.next[chain[0]], chain[1..])
  }

  ghost predicate Distinct(chain: seq<Node>) { forall i, j | 0 <= i < j < |chain| :: chain[i] != chain[j] }

  lemma {:induction false} ChainLeads(s: State, chain: seq<Node>, st: map<Node, Status>, i: nat)
    requires Chain(s, chain, st) && i <= |chain|
    ensures Leads(s, At(chain, i), chain[i..])
    decreases |chain| - i
  {
    if i < |chain| {
      assert s.next[chain[i]] == At(chain, i + 1);
      ChainLeads(s, chain, st, i + 1);
      assert chain[i..][1..] == chain[i + 1..];
    }
  }

  lemma {:induction false} LeadsUnique(s: State, p: Ptr, c: seq<Node>, d: seq<Node>)
    requires Leads(s, p, c) && Leads(s, p, d)
    ensures c == d
    decreases |c|
  {
    if c != [] {
      LeadsUnique(s, s.next[c[0]], c[1..], d[1..]);
      assert c == [c[0]] + c[1..] && d == [d[0]] + d[1..];
    }
  }

  /** Shape: the list is always one acyclic, duplicate-free chain. */
  lemma Acyclic(run: seq<State>, i: nat) returns (chain: seq<Node>)
    requires IsRun(run) && i < |run|
    ensures Leads(run[i], run[i].head, chain) && Distinct(chain)
  {
    RunKeeps(run, i);
    var c, st :| Good(run[i], c, st);
    chain := c;
    ChainLeads(run[i], chain, st, 0);
    assert chain[0..] == chain;
  }

  /**
   * Exclusivity: every node is in exactly one of these situations: owned by one caller, on the
   * chain, in the hands of exactly one thread, or flagged and waiting for its reference holders.
   */
  lemma Exclusive(run: seq<State>, i: nat, chain: seq<Node>, n: Node)
    requires IsRun(run) && i < |run| && n in run[i].refs
    requires Leads(run[i], run[i].head, chain)
    ensures Bit(n in run[i].owner) + Bit(n in chain) + Bit(exists t :: InHand(run[i], n, t))
            + Bit(IsWaiting(run[i], n)) == 1
    ensures forall t, u | InHand(run[i], n, t) && InHand(run[i], n, u) :: t == u
  {
    RunKeeps(run, i);
    var c, st :| Good(run[i], c, st);
    ChainLeads(run[i], c, st, 0);
    assert c[0..] == c;
    LeadsUnique(run[i], run[i].head, c, chain);
    PlaceIsUnique(run[i], n, c, st);
  }

  lemma PlaceIsUnique(s: State, n: Node, chain: seq<Node>, st: map<Node, Status>)
    requires Good(s, chain, st) && n in s.refs
    ensures n in s.owner <==> st[n] == Owned
    ensures n in chain <==> st[n] == Listed
    ensures (exists t :: InHand(s, n, t)) <==> st[n].Busy?
    ensures IsWaiting(s, n) <==> st[n] == Waiting
    ensures forall t, u | InHand(s, n, t) && InHand(s, n, u) :: t == u
  {
    if st[n].Busy? {
      assert InHand(s, n, st[n].t);
    }
    WaitingIsStatus(s, n, chain, st);
  }

  lemma WaitingIsStatus(s: State, n: Node, chain: seq<Node>, st: map<Node, Status>)
    requires Good(s, chain, st) && n in s.refs
    ensures IsWaiting(s, n) <==> st[n] == Waiting
  {
    assert WordFits(st[n], s.refs[n], Holders(s.pcs, n)) && |s.pcs| + 1 < SHOULD_BE_ON_FREELIST;
    hide Shape, Roles, Words, Chain;
    HoldersBound(s.pcs, n);
    CountExact(st[n], s.refs[n], Holders(s.pcs, n));
    if st[n] == Waiting {
      var t := TotalWitness(s.pcs, Weight(n));
      assert Holds(s.pcs[t], n);
    }
    if IsWaiting(s, n) {
      var t :| 0 <= t < |s.pcs| && Holds(s.pcs[t], n);
      HolderCounts(s.pcs, t, n);
    }
  }

  /** try_get hands out an unflagged node that no caller owns and that is in nobody else's hands. */
  lemma TakeIsExclusive(run: seq<State>, i: nat, t: nat)
    requires IsRun(run) && i + 1 < |run|
    requires t < |run[i].pcs| && run[i].pcs[t].GetTake? && Get(run[i], run[i + 1], t)
    ensures var n := run[i].pcs[t].n;
            && n !in run[i].owner && n in run[i + 1].owner && run[i + 1].owner[n] == t
            && (n in run[i].refs && !Flagged(run[i].refs[n]))
            && forall u | InHand(run[i], n, u) :: u == t
  {
    RunKeeps(run, i);
    var s := run[i];
    var chain, st :| Good(s, chain, st);
    var n := s.pcs[t].n;
    Facts(s, t, n, chain, st);
    CountExact(st[n], s.refs[n], Holders(s.pcs, n));
    PlaceIsUnique(s, n, chain, st);
    assert InHand(s, n, t);
  }

  /** The blocks of the producer of thread t: those it has taken and not given back. */
  ghost function RingOf(s: State, t: nat): set<Node> { set n | n in s.owner && s.owner[n] == t }

  /**
   * Any number of producers over one pool: their rings are disjoint, and the block that try_get hands to
   * one is in nobody's ring before and in that one's ring after.
   */
  lemma TakenIsInNobodysRing(run: seq<State>, i: nat, t: nat, u: nat)
    requires IsRun(run) && i + 1 < |run| && t < |run[i].pcs| && run[i].pcs[t].GetTake? && Get(run[i], run[i + 1], t)
    ensures var n := run[i].pcs[t].n;
      && n !in RingOf(run[i], u) && RingOf(run[i + 1], t) == RingOf(run[i], t) + {n}
      && (u != t ==> RingOf(run[i + 1], u) == RingOf(run[i], u) && RingOf(run[i], t) !! RingOf(run[i], u))
  {
    hide Init, Step;
    TakeIsExclusive(run, i, t);
  }

  lemma NextChangesOnlyInPut(s: State, s': State, u: nat, n: Node)
    requires u < |s.pcs| && n in s.next && (Call(s, s', u) || Put(s, s', u) || Get(s, s', u))
    ensures n in s'.next && (s'.next[n] == s.next[n] || (s.pcs[u].PutNext? && s.pcs[u].n == n))
  {
  }

  /** A counted reference pins the next pointer: no step changes it while the reference is held. */
  lemma HeldNextIsStable(run: seq<State>, i: nat, t: nat, n: Node)
    requires IsRun(run) && i + 1 < |run|
    requires t < |run[i].pcs| && Holds(run[i].pcs[t], n)
    ensures n in run[i].next && n in run[i + 1].next && run[i + 1].next[n] == run[i].next[n]
  {
    hide Roles, Words, Chain, PtrOk, Init, Step;
    RunKeeps(run, i);
    var s, s' := run[i], run[i + 1];
    var chain, st :| Good(s, chain, st);
    assert PcOk(s, s.pcs[t]) && s.refs.Keys == s.next.Keys;
    hide Shape;
    NextIsPinned(s, s', t, n, chain, st);
  }

  lemma NextIsPinned(s: State, s': State, t: nat, n: Node, chain: seq<Node>, st: map<Node, Status>)
    requires Good(s, chain, st) && Step(s, s') && t < |s.pcs| && Holds(s.pcs[t], n) && n in s.next && n in s.refs
    ensures n in s'.next && s'.next[n] == s.next[n]
  {
    assert s.refs.Keys == s.next.Keys;
    hide Shape, Roles, Words, Chain;
    var u :| 0 <= u < |s.pcs| && (Call(s, s', u) || Put(s, s', u) || Get(s, s', u));
    hide Call, Put, Get;
    NextChangesOnlyInPut(s, s', u, n);
    if s.pcs[u].PutNext? && s.pcs[u].n == n {
      NobodyElse(s, u, n, chain, st);
      assert false;
    }
  }

  /** A successful head CAS of try_get removes exactly the first node of the chain. */
  lemma CasRemovesFirst(run: seq<State>, i: nat, t: nat, n: Node, nx: Ptr, chain: seq<Node>)
    requires IsRun(run) && i + 1 < |run|
    requires t < |run[i].pcs| && run[i].pcs[t] == GetCas(n, nx) && run[i].head == To(n) && Get(run[i], run[i + 1], t)
    requires Leads(run[i], run[i].head, chain)
    ensures chain != [] && chain[0] == n
    ensures run[i + 1].next == run[i].next && Leads(run[i], run[i + 1].head, chain[1..])
  {
    RunKeeps(run, i);
    var c, st :| Good(run[i], c, st);
    assert PcOk(run[i], run[i].pcs[t]);
  }

  /** No loss: when nothing is in flight the chain holds exactly the nodes added and not taken. */
  lemma NothingLost(run: seq<State>, i: nat, chain: seq<Node>)
    requires IsRun(run) && i < |run| && Leads(run[i], run[i].head, chain)
    requires forall t | 0 <= t < |run[i].pcs| :: run[i].pcs[t] == Idle
    ensures forall n | n in run[i].refs :: n in chain <==> n !in run[i].owner
    ensures forall n | n in run[i].refs && n in chain :: run[i].refs[n] == 1
  {
    var s := run[i];
    forall n | n in s.refs ensures n in chain <==> n !in s.owner {
      Exclusive(run, i, chain, n);
    }
    forall n | n in s.refs && n in chain ensures s.refs[n] == 1 {
      RunKeeps(run, i);
      QuiescentWord(s, n);
    }
  }

  lemma StatusKnown(s: State, n: Node, chain: seq<Node>, st: map<Node, Status>)
    requires Good(s, chain, st) && n in s.refs
    ensures n in st
  {
    hide Shape, Words, Chain;
  }

  lemma QuiescentWord(s: State, n: Node)
    requires Inv(s) && n in s.refs && n !in s.owner
    requires forall t | 0 <= t < |s.pcs| :: s.pcs[t] == Idle
    ensures s.refs[n] == 1
  {
    hide Shape, Roles, Chain;
    var chain, st :| Good(s, chain, st);
    PlaceIsUnique(s, n, chain, st);
    StatusKnown(s, n, chain, st);
    assert WordFits(st[n], s.refs[n], Holders(s.pcs, n));
    hide Words;
    if Holders(s.pcs, n) > 0 {
      var t := TotalWitness(s.pcs, Weight(n));
      assert false;
    }
  }
}
