/**
 * LockeFreeQueue: a linked list that any number of producers append to, by exchanging the tail and
 * then linking the node before it, while one consumer drains and deletes nodes. Between the
 * exchange and the link the chain is broken. Addresses may be reused after a deletion.
 */
module LockeFreeQueue {

  type Ref = nat
  type Value = int

  datatype Option<T> = None | Some(value: T)

  datatype Producer =
    | Idle
      // the node is made: before the exchange of tail_
    | Exchange(v: Value, node: Ref)
      // before storing prev->next
    | Link(prev: Ref, node: Ref)

  datatype Consumer =
    | Resting
    | LoadNext(cur: Ref)
    | Delete(cur: Ref, next: Ref)
    | Take(cur: Ref)

  /** `log` lists the values in the order of the tail exchanges, `out` those handed to the caller of swap. */
  datatype State = State(
    live: set<Ref>,
    data: map<Ref, Value>,
    next: map<Ref, Option<Ref>>,
    head: Ref,
    tail: Ref,
    producers: seq<Producer>,
    consumer: Consumer,
    log: seq<Value>,
    out: seq<Value>)

  ghost predicate Init(s: State)
  {
    && s.live == {s.head} && s.tail == s.head && s.head in s.data && s.head in s.next && s.next[s.head] == None
    && (forall t | 0 <= t < |s.producers| :: s.producers[t] == Idle)
    && s.consumer == Resting && s.log == s.out == []
  }

  // ------------------------------------------------------------------------------------------
  // emplace_back by thread t
  // ------------------------------------------------------------------------------------------

  ghost predicate New(s: State, s': State, t: nat, v: Value, node: Ref)
  {
    && t < |s.producers| && s.producers[t] == Idle && node !in s.live
    && s' == s.(live := s.live + {node}, data := s.data[node := v], next := s.next[node := None],
                producers := s.producers[t := Exchange(v, node)])
  }

  ghost predicate ExchangeTail(s: State, s': State, t: nat)
  {
    && t < |s.producers| && s.producers[t].Exchange?
    && var p := s.producers[t];
    && s' == s.(tail := p.node, log := s.log + [p.v], producers := s.producers[t := Link(s.tail, p.node)])
  }

  ghost predicate StoreNext(s: State, s': State, t: nat)
  {
    && t < |s.producers| && s.producers[t].Link?
    && var p := s.producers[t];
    && s' == s.(next := s.next[p.prev := Some(p.node)], producers := s.producers[t := Idle])
  }

  // ------------------------------------------------------------------------------------------
  // swap
  // ------------------------------------------------------------------------------------------

  ghost predicate Drain(s: State, s': State)
  {
    match s.consumer
    case Resting => s' == s.(consumer := LoadNext(s.head))
    case LoadNext(cur) =>
      && cur in s.next
      && s' == (match s.next[cur]
                case None => s.(consumer := Resting, head := cur)
                case Some(n) => s.(consumer := Delete(cur, n)))
    case Delete(cur, n) => s' == s.(live := s.live - {cur}, consumer := Take(n))
    case Take(cur) => cur in s.data && s' == s.(out := s.out + [s.data[cur]], consumer := LoadNext(cur))
  }

  ghost predicate Step(s: State, s': State)
  {
    || (exists t: nat, v, node: nat :: New(s, s', t, v, node))
    || (exists t: nat :: ExchangeTail(s, s', t)) || (exists t: nat :: StoreNext(s, s', t))
    || Drain(s, s')
  }

  ghost predicate IsRun(run: seq<State>)
  {
    && |run| > 0
    && Init(run[0])
    && forall i :: 0 <= i < |run| - 1 ==> Step(run[i], run[i + 1])
  }

  // ------------------------------------------------------------------------------------------
  // The invariant: the nodes in exchange order, from the consumer's current node to the tail
  // ------------------------------------------------------------------------------------------

  /** The node the consumer stands on; its value is still to be handed out only before Take. */
  function Current(s: State): Ref { if s.consumer.Resting? then s.head else s.consumer.cur }

  ghost predicate ChainOk(live: set<Ref>, next: map<Ref, Option<Ref>>, chain: seq<Ref>)
  {
    && |chain| > 0
    && (forall i | 0 <= i < |chain| :: chain[i] in live && chain[i] in next)
    && (forall i, j | 0 <= i < j < |chain| :: chain[i] != chain[j])
    && (forall i | 0 <= i < |chain| - 1 :: next[chain[i]] == None || next[chain[i]] == Some(chain[i + 1]))
    && next[chain[|chain| - 1]] == None
  }

  /** A thread about to link is at a gap of the chain; a thread about to exchange owns its node. */
  ghost predicate ProducerOk(p: Producer, live: set<Ref>, next: map<Ref, Option<Ref>>, data: map<Ref, Value>,
      chain: seq<Ref>)
  {
    match p
    case Idle => true
    case Exchange(v, n) => n in live && n in next && next[n] == None && n in data && data[n] == v && n !in chain
    case Link(prev, n) =>
      && prev in next && next[prev] == None
      && exists i :: 0 <= i < |chain| - 1 && chain[i] == prev && chain[i + 1] == n
  }

  predicate Apart(p: Producer, q: Producer)
  {
    && (p.Exchange? && q.Exchange? ==> p.node != q.node)
    && (p.Link? && q.Link? ==> p.prev != q.prev)
  }

  ghost predicate ProducersOk(s: State, chain: seq<Ref>)
  {
    && (forall t | 0 <= t < |s.producers| :: ProducerOk(s.producers[t], s.live, s.next, s.data, chain))
    && (forall t, u | 0 <= t < u < |s.producers| :: Apart(s.producers[t], s.producers[u]))
  }

  /** Every gap of the chain has a thread about to close it. */
  ghost predicate GapsOk(s: State, chain: seq<Ref>)
  {
    forall i | 0 <= i < |chain| - 1 && chain[i] in s.next && s.next[chain[i]] == None :: Closes(s.producers, chain[i])
  }

  ghost predicate Closes(producers: seq<Producer>, r: Ref)
  {
    exists t :: 0 <= t < |producers| && producers[t].Link? && producers[t].prev == r
  }

  /** Nothing is leaked: live nodes are on the chain or owned by a thread about to exchange. */
  ghost predicate NoLeak(s: State, chain: seq<Ref>)
  {
    forall r | r in s.live :: r in chain || Owned(s.producers, r)
  }

  ghost predicate Owned(producers: seq<Producer>, r: Ref)
  {
    exists t :: 0 <= t < |producers| && producers[t].Exchange? && producers[t].node == r
  }

  /** The nodes whose values are still to be handed out. */
  ghost function Pending(p: Consumer, chain: seq<Ref>): seq<Ref>
    requires |chain| > 0
  {
    if p.Take? then chain else chain[1..]
  }

  ghost predicate LogMatches(log: seq<Value>, out: seq<Value>, data: map<Ref, Value>, pending: seq<Ref>)
  {
    && |log| == |out| + |pending| && out == log[..|out|]
    && (forall i | 0 <= i < |pending| :: pending[i] in data && log[|out| + i] == data[pending[i]])
  }

  ghost predicate LogOk(s: State, chain: seq<Ref>)
  {
    |chain| > 0 && LogMatches(s.log, s.out, s.data, Pending(s.consumer, chain))
  }

  ghost predicate ConsumerOk(s: State, chain: seq<Ref>)
  {
    && |chain| > 0 && Current(s) == chain[0] && s.tail == chain[|chain| - 1]
    && (s.consumer.Delete? ==>
          |chain| > 1 && s.consumer.next == chain[1] && chain[0] in s.next && s.next[chain[0]] == Some(chain[1]))
  }

  ghost predicate Good(s: State, chain: seq<Ref>)
  {
    && ChainOk(s.live, s.next, chain)
    && ProducersOk(s, chain)
    && GapsOk(s, chain)
    && NoLeak(s, chain)
    && LogOk(s, chain)
    && ConsumerOk(s, chain)
  }

  ghost predicate Inv(s: State) { exists chain :: Good(s, chain) }

  // ------------------------------------------------------------------------------------------
  // Producer steps
  // ------------------------------------------------------------------------------------------

  lemma NewKeeps(s: State, s': State, t: nat, v: Value, node: Ref, chain: seq<Ref>)
    requires Good(s, chain) && New(s, s', t, v, node)
    ensures Good(s', chain)
  {
    assert node !in chain;
    NewProducers(s, s', t, v, node, chain);
    NewRest(s, s', t, v, node, chain);
  }

  lemma NewProducers(s: State, s': State, t: nat, v: Value, node: Ref, chain: seq<Ref>)
    requires Good(s, chain) && New(s, s', t, v, node) && node !in chain
    ensures ProducersOk(s', chain)
  {
    hide GapsOk, NoLeak, LogOk, ConsumerOk;
    forall u | 0 <= u < |s'.producers| ensures ProducerOk(s'.producers[u], s'.live, s'.next, s'.data, chain) {
      assert ProducerOk(s.producers[u], s.live, s.next, s.data, chain);
    }
    forall u, w | 0 <= u < w < |s'.producers| ensures Apart(s'.producers[u], s'.producers[w]) {
      assert Apart(s.producers[u], s.producers[w]);
      assert ProducerOk(s.producers[u], s.live, s.next, s.data, chain);
      assert ProducerOk(s.producers[w], s.live, s.next, s.data, chain);
    }
  }

  /** A gap's thread and a node's owner stay what they are while another thread moves. */
  lemma StillCloses(s: State, s': State, t: nat, r: Ref)
    requires t < |s.producers| && |s'.producers| == |s.producers| && s'.producers == s.producers[t := s'.producers[t]]
    requires Closes(s.producers, r) && !(s.producers[t].Link? && s.producers[t].prev == r)
    ensures Closes(s'.producers, r)
  {
    var u :| 0 <= u < |s.producers| && s.producers[u].Link? && s.producers[u].prev == r;
    assert s'.producers[u] == s.producers[u];
  }

  lemma StillOwned(s: State, s': State, t: nat, r: Ref)
    requires t < |s.producers| && |s'.producers| == |s.producers| && s'.producers == s.producers[t := s'.producers[t]]
    requires Owned(s.producers, r) && !(s.producers[t].Exchange? && s.producers[t].node == r)
    ensures Owned(s'.producers, r)
  {
    var u :| 0 <= u < |s.producers| && s.producers[u].Exchange? && s.producers[u].node == r;
    assert s'.producers[u] == s.producers[u];
  }

  lemma NewRest(s: State, s': State, t: nat, v: Value, node: Ref, chain: seq<Ref>)
    requires Good(s, chain) && New(s, s', t, v, node) && node !in chain
    ensures ChainOk(s'.live, s'.next, chain) && GapsOk(s', chain) && NoLeak(s', chain) && LogOk(s', chain)
      && ConsumerOk(s', chain)
  {
    hide ProducersOk, Closes, Owned, LogOk;
    NewLog(s, s', t, v, node, chain);
    forall i | 0 <= i < |chain| - 1 && chain[i] in s'.next && s'.next[chain[i]] == None
        ensures Closes(s'.producers, chain[i]) {
      StillCloses(s, s', t, chain[i]);
    }
    forall r | r in s'.live ensures r in chain || Owned(s'.producers, r) {
      if r == node {
        OwnedBy(s'.producers, t, r);
      } else if r !in chain {
        StillOwned(s, s', t, r);
      }
    }
  }

  lemma NewLog(s: State, s': State, t: nat, v: Value, node: Ref, chain: seq<Ref>)
    requires LogOk(s, chain) && New(s, s', t, v, node) && node !in chain
    ensures LogOk(s', chain)
  {
    var pending := Pending(s.consumer, chain);
    forall i | 0 <= i < |pending| ensures pending[i] != node {
      assert pending[i] in chain;
    }
  }

  lemma OwnedBy(producers: seq<Producer>, t: nat, r: Ref)
    requires t < |producers| && producers[t].Exchange? && producers[t].node == r
    ensures Owned(producers, r)
  {
  }

  lemma ClosedBy(producers: seq<Producer>, t: nat, r: Ref)
    requires t < |producers| && producers[t].Link? && producers[t].prev == r
    ensures Closes(producers, r)
  {
  }

  /** The exchange puts the node at the end of the chain, behind a gap. */
  lemma ExchangeKeeps(s: State, s': State, t: nat, chain: seq<Ref>) returns (chain': seq<Ref>)
    requires Good(s, chain) && ExchangeTail(s, s', t)
    ensures Good(s', chain')
  {
    chain' := chain + [s.producers[t].node];
    assert ProducerOk(s.producers[t], s.live, s.next, s.data, chain);
    ExchangeProducers(s, s', t, chain);
    ExchangeGaps(s, s', t, chain);
    ExchangeLog(s, s', t, chain);
  }

  lemma ExchangeProducers(s: State, s': State, t: nat, chain: seq<Ref>)
    requires Good(s, chain) && ExchangeTail(s, s', t)
    ensures ProducersOk(s', chain + [s.producers[t].node])
  {
    hide GapsOk, NoLeak, LogOk;
    var node := s.producers[t].node;
    var chain' := chain + [node];
    forall u | 0 <= u < |s'.producers| ensures ProducerOk(s'.producers[u], s'.live, s'.next, s'.data, chain') {
      var p := s.producers[u];
      assert ProducerOk(p, s.live, s.next, s.data, chain);
      if u == t {
        var i := |chain| - 1;
        assert chain'[i] == s.tail && chain'[i + 1] == node;
      } else if p.Link? {
        var i :| 0 <= i < |chain| - 1 && chain[i] == p.prev && chain[i + 1] == p.node;
        assert chain'[i] == p.prev && chain'[i + 1] == p.node;
      } else if p.Exchange? {
        assert Apart(s.producers[if u < t then u else t], s.producers[if u < t then t else u]);
      }
    }
    forall u, w | 0 <= u < w < |s'.producers| ensures Apart(s'.producers[u], s'.producers[w]) {
      assert Apart(s.producers[u], s.producers[w]);
      assert ProducerOk(s.producers[u], s.live, s.next, s.data, chain);
      assert ProducerOk(s.producers[w], s.live, s.next, s.data, chain);
    }
  }

  lemma ExchangeGaps(s: State, s': State, t: nat, chain: seq<Ref>)
    requires Good(s, chain) && ExchangeTail(s, s', t) && ProducerOk(s.producers[t], s.live, s.next, s.data, chain)
    ensures var chain' := chain + [s.producers[t].node];
      ChainOk(s'.live, s'.next, chain') && GapsOk(s', chain') && NoLeak(s', chain') && ConsumerOk(s', chain')
  {
    hide ProducersOk, Closes, Owned, LogOk;
    var node := s.producers[t].node;
    var chain' := chain + [node];
    forall i | 0 <= i < |chain'| - 1 && chain'[i] in s'.next && s'.next[chain'[i]] == None
        ensures Closes(s'.producers, chain'[i]) {
      if i == |chain| - 1 {
        ClosedBy(s'.producers, t, chain'[i]);
      } else {
        StillCloses(s, s', t, chain[i]);
      }
    }
    forall r | r in s'.live ensures r in chain' || Owned(s'.producers, r) {
      if r != node && r !in chain {
        StillOwned(s, s', t, r);
      } else if r == node {
        assert chain'[|chain|] == r;
      } else {
        var i :| 0 <= i < |chain| && chain[i] == r;
        assert chain'[i] == r;
      }
    }
  }

  lemma ExchangeLog(s: State, s': State, t: nat, chain: seq<Ref>)
    requires LogOk(s, chain) && ExchangeTail(s, s', t) && ProducerOk(s.producers[t], s.live, s.next, s.data, chain)
    ensures LogOk(s', chain + [s.producers[t].node])
  {
    var node := s.producers[t].node;
    var pending := Pending(s.consumer, chain);
    assert Pending(s'.consumer, chain + [node]) == pending + [node];
    assert LogMatches(s'.log, s'.out, s'.data, pending + [node]);
  }

  /** The link closes the gap. */
  lemma LinkKeeps(s: State, s': State, t: nat, chain: seq<Ref>)
    requires Good(s, chain) && StoreNext(s, s', t)
    ensures Good(s', chain)
  {
    assert ProducerOk(s.producers[t], s.live, s.next, s.data, chain);
    LinkProducers(s, s', t, chain);
    LinkRest(s, s', t, chain);
  }

  lemma LinkProducers(s: State, s': State, t: nat, chain: seq<Ref>)
    requires Good(s, chain) && StoreNext(s, s', t)
    ensures ProducersOk(s', chain)
  {
    hide GapsOk, NoLeak, LogOk, ConsumerOk;
    assert ProducerOk(s.producers[t], s.live, s.next, s.data, chain);
    var prev := s.producers[t].prev;
    assert prev in chain;
    forall u | 0 <= u < |s'.producers| ensures ProducerOk(s'.producers[u], s'.live, s'.next, s'.data, chain) {
      assert ProducerOk(s.producers[u], s.live, s.next, s.data, chain);
      if u != t {
        assert Apart(s.producers[if u < t then u else t], s.producers[if u < t then t else u]);
      }
    }
    forall u, w | 0 <= u < w < |s'.producers| ensures Apart(s'.producers[u], s'.producers[w]) {
      assert Apart(s.producers[u], s.producers[w]);
    }
  }

  lemma LinkRest(s: State, s': State, t: nat, chain: seq<Ref>)
    requires Good(s, chain) && StoreNext(s, s', t) && ProducerOk(s.producers[t], s.live, s.next, s.data, chain)
    ensures ChainOk(s'.live, s'.next, chain) && GapsOk(s', chain) && NoLeak(s', chain) && LogOk(s', chain)
      && ConsumerOk(s', chain)
  {
    hide ProducersOk, Closes, Owned, LogOk, ChainOk;
    LinkChain(s, s', t, chain);
    forall i | 0 <= i < |chain| - 1 && chain[i] in s'.next && s'.next[chain[i]] == None
        ensures Closes(s'.producers, chain[i]) {
      LinkedElsewhere(s, s', t, chain, i);
      StillCloses(s, s', t, chain[i]);
    }
    forall r | r in s'.live ensures r in chain || Owned(s'.producers, r) {
      if r !in chain {
        StillOwned(s, s', t, r);
      }
    }
    LogFrame(s, s', chain);
  }

  lemma LinkChain(s: State, s': State, t: nat, chain: seq<Ref>)
    requires ChainOk(s.live, s.next, chain) && ConsumerOk(s, chain) && StoreNext(s, s', t)
    requires ProducerOk(s.producers[t], s.live, s.next, s.data, chain)
    ensures ChainOk(s'.live, s'.next, chain) && ConsumerOk(s', chain)
  {
    var p := s.producers[t];
    var j :| 0 <= j < |chain| - 1 && chain[j] == p.prev && chain[j + 1] == p.node;
    forall i | 0 <= i < |chain| && i != j ensures s'.next[chain[i]] == s.next[chain[i]] {
    }
  }

  lemma LinkedElsewhere(s: State, s': State, t: nat, chain: seq<Ref>, i: nat)
    requires StoreNext(s, s', t) && i < |chain| && chain[i] in s'.next && s'.next[chain[i]] == None
    ensures s.producers[t].prev != chain[i] && chain[i] in s.next && s.next[chain[i]] == None
  {
  }

  lemma LogFrame(s: State, s': State, chain: seq<Ref>)
    requires LogOk(s, chain) && s'.data == s.data && s'.log == s.log && s'.out == s.out
      && s'.consumer.Take? == s.consumer.Take?
    ensures LogOk(s', chain)
  {
  }

  // ------------------------------------------------------------------------------------------
  // Consumer steps
  // ------------------------------------------------------------------------------------------

  lemma DrainKeeps(s: State, s': State, chain: seq<Ref>)
    requires Good(s, chain) && Drain(s, s')
    ensures Inv(s')
  {
    match s.consumer
    case Resting => LogFrame(s, s', chain); assert Good(s', chain);
    case LoadNext(cur) => LoadKeeps(s, s', chain);
    case Delete(cur, n) => DeleteKeeps(s, s', chain);
    case Take(cur) => TakeKeeps(s, s', chain);
  }

  lemma LoadKeeps(s: State, s': State, chain: seq<Ref>)
    requires Good(s, chain) && s.consumer.LoadNext? && Drain(s, s')
    ensures Inv(s')
  {
    hide ProducerOk, LogOk;
    LogFrame(s, s', chain);
    assert Good(s', chain);
  }

  lemma TakeKeeps(s: State, s': State, chain: seq<Ref>)
    requires Good(s, chain) && s.consumer.Take? && Drain(s, s')
    ensures Inv(s')
  {
    hide ProducerOk, Closes, Owned, LogOk;
    TakeLog(s, s', chain);
    assert Good(s', chain);
  }

  lemma TakeLog(s: State, s': State, chain: seq<Ref>)
    requires LogOk(s, chain) && s.consumer == Take(chain[0]) && Drain(s, s')
    ensures LogOk(s', chain)
  {
    assert chain[0] in s.data && s.log[|s.out| + 0] == s.data[chain[0]];
    assert Pending(s'.consumer, chain) == chain[1..];
    forall i | 0 <= i < |chain[1..]| ensures chain[1..][i] in s.data && s.log[|s'.out| + i] == s.data[chain[1..][i]] {
      assert chain[1..][i] == chain[i + 1] && s.log[|s.out| + (i + 1)] == s.data[chain[i + 1]];
    }
  }

  /** Only the first node, which is linked to the next, is deleted: nobody else refers to it. */
  lemma DeleteKeeps(s: State, s': State, chain: seq<Ref>)
    requires Good(s, chain) && s.consumer.Delete? && Drain(s, s')
    ensures Inv(s')
  {
    hide Closes, Owned;
    var rest := chain[1..];
    DeleteProducers(s, s', chain);
    hide ProducersOk;
    forall r | r in s'.live ensures r in rest || Owned(s'.producers, r) {
      assert r != chain[0];
      if r in chain {
        var i :| 0 <= i < |chain| && chain[i] == r;
        assert rest[i - 1] == r;
      }
    }
    assert Good(s', rest);
  }

  lemma DeleteProducers(s: State, s': State, chain: seq<Ref>)
    requires Good(s, chain) && s.consumer.Delete? && Drain(s, s')
    ensures ProducersOk(s', chain[1..])
  {
    hide GapsOk, NoLeak, LogOk;
    var rest := chain[1..];
    forall u | 0 <= u < |s'.producers| ensures ProducerOk(s'.producers[u], s'.live, s'.next, s'.data, rest) {
      var p := s.producers[u];
      assert ProducerOk(p, s.live, s.next, s.data, chain);
      if p.Link? {
        var i :| 0 <= i < |chain| - 1 && chain[i] == p.prev && chain[i + 1] == p.node;
        assert rest[i - 1] == p.prev && rest[i] == p.node;
      }
    }
  }

  lemma StepKeeps(s: State, s': State)
    requires Inv(s) && Step(s, s')
    ensures Inv(s')
  {
    hide Good, New, ExchangeTail, StoreNext, Drain;
    var chain :| Good(s, chain);
    if t: nat, v, node: nat :| New(s, s', t, v, node) {
      NewKeeps(s, s', t, v, node, chain);
    } else if t: nat :| ExchangeTail(s, s', t) {
      var chain' := ExchangeKeeps(s, s', t, chain);
    } else if t: nat :| StoreNext(s, s', t) {
      LinkKeeps(s, s', t, chain);
    } else {
      DrainKeeps(s, s', chain);
    }
  }

  lemma InitKeeps(s: State)
    requires Init(s)
    ensures Inv(s)
  {
    assert Good(s, [s.head]);
  }

  lemma {:induction false} RunKeeps(run: seq<State>, i: nat)
    requires IsRun(run) && i < |run|
    ensures Inv(run[i])
  {
    hide Inv, Step, Init;
    if i == 0 {
      InitKeeps(run[0]);
    } else {
      RunKeeps(run, i - 1);
      StepKeeps(run[i - 1], run[i]);
    }
  }

  // ------------------------------------------------------------------------------------------
  // What the queue promises
  // ------------------------------------------------------------------------------------------

  /** What swap has handed out is a prefix of the order of tail exchanges: nothing lost, repeated or reordered. */
  lemma OutputIsPrefix(run: seq<State>, i: nat)
    requires IsRun(run) && i < |run|
    ensures run[i].out <= run[i].log
  {
    hide Init, Step, ChainOk, ProducersOk, GapsOk, NoLeak, ConsumerOk;
    RunKeeps(run, i);
    var chain :| Good(run[i], chain);
  }

  /** No producer stores into a deleted node. */
  lemma NoStoreAfterDelete(run: seq<State>, i: nat, t: nat)
    requires IsRun(run) && i < |run| && t < |run[i].producers| && run[i].producers[t].Link?
    ensures run[i].producers[t].prev in run[i].live && run[i].producers[t].node in run[i].live
  {
    hide Init, Step, GapsOk, NoLeak, ConsumerOk, LogOk;
    RunKeeps(run, i);
    var s := run[i];
    var chain :| Good(s, chain);
    assert ProducerOk(s.producers[t], s.live, s.next, s.data, chain);
  }

  /** The consumer touches only nodes that are not deleted. */
  lemma NoReadAfterDelete(run: seq<State>, i: nat)
    requires IsRun(run) && i < |run|
    ensures Current(run[i]) in run[i].live && (run[i].consumer.Delete? ==> run[i].consumer.next in run[i].live)
  {
    hide Init, Step, GapsOk, NoLeak, LogOk, ProducersOk;
    RunKeeps(run, i);
    var chain :| Good(run[i], chain);
  }

  /** A drain stops short of the last exchange only because a producer has not linked the next node yet. */
  lemma DrainIsComplete(run: seq<State>, i: nat)
    requires IsRun(run) && i < |run| - 1 && run[i].consumer.LoadNext? && Drain(run[i], run[i + 1])
    requires run[i + 1].consumer == Resting
    ensures run[i].out == run[i].log <==> run[i].tail == run[i].consumer.cur
    ensures run[i].out != run[i].log ==>
      exists t :: 0 <= t < |run[i].producers| && run[i].producers[t].Link?
        && run[i].producers[t].prev == run[i].consumer.cur
  {
    hide Init, Step, NoLeak, ProducersOk;
    RunKeeps(run, i);
    var s := run[i];
    var chain :| Good(s, chain);
    if |chain| > 1 {
      assert chain[0] == s.consumer.cur;
      assert Closes(s.producers, chain[0]);
      assert |s.log| > |s.out|;
    }
  }

  /** When nobody is inside emplace_back, a drain hands out everything exchanged, and only the dummy node is left. */
  lemma QuietDrain(run: seq<State>, i: nat)
    requires IsRun(run) && i < |run| - 1 && run[i].consumer.LoadNext? && Drain(run[i], run[i + 1])
    requires run[i + 1].consumer == Resting && forall t | 0 <= t < |run[i].producers| :: run[i].producers[t] == Idle
    ensures run[i + 1].out == run[i + 1].log && run[i + 1].live == {run[i + 1].head}
  {
    hide Init, Step, ProducersOk;
    RunKeeps(run, i);
    DrainIsComplete(run, i);
    var s := run[i];
    var chain :| Good(s, chain);
    assert |chain| == 1;
    assert forall r :: r in s.live ==> r == chain[0];
  }

  // ------------------------------------------------------------------------------------------
  // Progress
  // ------------------------------------------------------------------------------------------

  /** A value handed to emplace_back is the one logged: every call can go on to its end, in two more steps. */
  lemma ProducerNeverStuck(s: State, t: nat) returns (s': State)
    requires t < |s.producers| && s.producers[t] != Idle
    ensures ExchangeTail(s, s', t) || StoreNext(s, s', t)
    ensures s.producers[t].Exchange? ==> s'.log == s.log + [s.producers[t].v] && s'.producers[t].Link?
    ensures s.producers[t].Link? ==> s'.log == s.log && s'.producers[t] == Idle
  {
    var p := s.producers[t];
    if p.Exchange? {
      s' := s.(tail := p.node, log := s.log + [p.v], producers := s.producers[t := Link(s.tail, p.node)]);
    } else {
      s' := s.(next := s.next[p.prev := Some(p.node)], producers := s.producers[t := Idle]);
    }
  }

  /** The steps of the drainer up to the next value. */
  function Rank(c: Consumer): nat
  {
    match c
    case Resting => 0
    case LoadNext(_) => 3
    case Delete(_, _) => 2
    case Take(_) => 1
  }

  lemma DrainStep(run: seq<State>, i: nat) returns (s': State)
    requires IsRun(run) && i < |run|
    ensures Drain(run[i], s')
  {
    hide Init, Step, GapsOk, NoLeak, ProducersOk;
    RunKeeps(run, i);
    var s := run[i];
    var chain :| Good(s, chain);
    assert Current(s) == chain[0];
    hide IsRun;
    match s.consumer {
      case Resting => s' := s.(consumer := LoadNext(s.head));
      case LoadNext(cur) =>
        s' := match s.next[cur]
              case None => s.(consumer := Resting, head := cur)
              case Some(n) => s.(consumer := Delete(cur, n));
      case Delete(cur, n) => s' := s.(live := s.live - {cur}, consumer := Take(n));
      case Take(cur) => s' := s.(out := s.out + [s.data[cur]], consumer := LoadNext(cur));
    }
  }

  /** The drainer comes closer to its next value or to its end with every step. */
  lemma DrainShrinks(s: State, s': State)
    requires Drain(s, s') && s.consumer != Resting
    ensures s'.log == s.log && s'.producers == s.producers
    ensures |s'.out| > |s.out| || (s'.out == s.out && Rank(s'.consumer) < Rank(s.consumer))
  {
  }

  lemma Extend(run: seq<State>, s': State) returns (run': seq<State>)
    requires IsRun(run) && Drain(run[|run| - 1], s')
    ensures IsRun(run') && run' == run + [s']
  {
    hide Drain, Init;
    run' := run + [s'];
    forall i | 0 <= i < |run'| - 1 ensures Step(run'[i], run'[i + 1]) {
      if i < |run| - 1 {
        assert run'[i] == run[i] && run'[i + 1] == run[i + 1];
      }
    }
  }

  predicate Quiet(s: State) { forall t | 0 <= t < |s.producers| :: s.producers[t] == Idle }

  /** A swap that nobody interferes with comes to its end, and has then handed out everything. */
  lemma {:induction false} SwapFinishes(run: seq<State>) returns (run': seq<State>)
    requires IsRun(run) && Quiet(run[|run| - 1]) && run[|run| - 1].consumer != Resting
    ensures IsRun(run') && run <= run' && run'[|run'| - 1].consumer == Resting
    ensures run'[|run'| - 1].out == run'[|run'| - 1].log == run[|run| - 1].log
    decreases |run[|run| - 1].log| - |run[|run| - 1].out|, Rank(run[|run| - 1].consumer)
  {
    hide Step, Drain, Init;
    var n := |run| - 1;
    var s' := DrainStep(run, n);
    DrainShrinks(run[n], s');
    run' := Extend(run, s');
    OutputIsPrefix(run', n + 1);
    if s'.consumer != Resting {
      run' := SwapFinishes(run');
    } else {
      EndsAtLoad(run[n], s');
      QuietDrain(run', n);
    }
  }

  lemma EndsAtLoad(s: State, s': State)
    requires Drain(s, s') && s'.consumer == Resting
    ensures s.consumer.LoadNext?
  {
  }

  /** With nobody inside emplace_back, a swap hands out every value. */
  lemma SwapTakesAll(run: seq<State>) returns (run': seq<State>)
    requires IsRun(run) && Quiet(run[|run| - 1])
    ensures IsRun(run') && run <= run' && |run'| > |run| && run'[|run'| - 1].consumer == Resting
    ensures run'[|run'| - 1].out == run'[|run'| - 1].log == run[|run| - 1].log
  {
    var s := run[|run| - 1];
    if s.consumer == Resting {
      var s' := s.(consumer := LoadNext(s.head));
      run' := Extend(run, s');
      run' := SwapFinishes(run');
    } else {
      run' := SwapFinishes(run);
    }
  }
}
