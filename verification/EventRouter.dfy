/**
 * EventRouter: polls the producers whose descriptors are ready, takes the events each produces and
 * hands a copy of every event to each consumer registered for its type, except to its producer.
 * The managers are part of the model only as identities, what they have ready to produce, and what
 * they have received. Which descriptors epoll reports, in which order, is an argument.
 */
module EventRouter {

  type Id = nat
  type Descriptor = int

  datatype Type = STATUS | CONTROL | ERROR | SERIAL

  datatype Event = Event(typ: Type, target: int, payload: seq<int>)

  /** An event taken from a producer. */
  datatype Routed = Routed(producer: Id, event: Event)

  // ------------------------------------------------------------------------------------------
  // Specification
  // ------------------------------------------------------------------------------------------

  function Copies<T(==)>(list: seq<T>, x: T): nat
  {
    if list == [] then 0 else Copies(list[..|list| - 1], x) + (if list[|list| - 1] == x then 1 else 0)
  }

  function Repeat<T>(x: T, n: nat): seq<T> { seq(n, _ => x) }

  function Registered(consumers: map<Type, seq<Id>>, t: Type): seq<Id>
  {
    if t in consumers then consumers[t] else []
  }

  function Of<K, V>(m: map<K, seq<V>>, k: K): seq<V> { if k in m then m[k] else [] }

  /** What consumer c gets for one routed event, given who is registered for its type. */
  function Share(c: Id, r: Routed, listeners: seq<Id>, alive: set<Id>): seq<Event>
  {
    if c in alive && c != r.producer then Repeat(r.event, Copies(listeners, c)) else []
  }

  /** What consumer c gets for a sequence of routed events. */
  function Delivered(c: Id, trace: seq<Routed>, consumers: map<Type, seq<Id>>, alive: set<Id>): seq<Event>
  {
    if trace == [] then []
    else
      var last := trace[|trace| - 1];
      var listeners := Registered(consumers, last.event.typ);
      Delivered(c, trace[..|trace| - 1], consumers, alive) + Share(c, last, listeners, alive)
  }

  /** The events of other producers with one of the given types, in order. */
  function Filtered(c: Id, trace: seq<Routed>, types: set<Type>): seq<Event>
  {
    if trace == [] then []
    else
      var last := trace[|trace| - 1];
      var matches := last.producer != c && last.event.typ in types;
      Filtered(c, trace[..|trace| - 1], types) + (if matches then [last.event] else [])
  }

  function Tagged(p: Id, events: seq<Event>): seq<Routed>
  {
    seq(|events|, i requires 0 <= i < |events| => Routed(p, events[i]))
  }

  /** The producers with a ready descriptor whose Produce is called. */
  predicate Live(fd: Descriptor, producers: map<Descriptor, Id>, alive: set<Id>)
  {
    fd in producers && producers[fd] in alive
  }

  /** What remains to be produced after the given descriptors have been served. */
  function Remaining(ready: seq<Descriptor>, producers: map<Descriptor, Id>, alive: set<Id>,
      outbox: map<Id, seq<Event>>): map<Id, seq<Event>>
  {
    if ready == [] then outbox
    else
      var fd, rest := ready[|ready| - 1], Remaining(ready[..|ready| - 1], producers, alive, outbox);
      if Live(fd, producers, alive) then rest[producers[fd] := []] else rest
  }

  /** The events taken while serving the given descriptors. */
  function Produced(ready: seq<Descriptor>, producers: map<Descriptor, Id>, alive: set<Id>,
      outbox: map<Id, seq<Event>>): seq<Routed>
  {
    if ready == [] then []
    else
      var fd, before := ready[|ready| - 1], ready[..|ready| - 1];
      var trace := Produced(before, producers, alive, outbox);
      if Live(fd, producers, alive) then
        trace + Tagged(producers[fd], Of(Remaining(before, producers, alive, outbox), producers[fd]))
      else trace
  }

  // ------------------------------------------------------------------------------------------
  // The router
  // ------------------------------------------------------------------------------------------

  class Router {
    var producers: map<Descriptor, Id>
    var consumers: map<Type, seq<Id>>
    var watched: set<Descriptor>
    /** The managers: who still exists, what each will produce, what each has received. */
    var alive: set<Id>
    var outbox: map<Id, seq<Event>>
    var inbox: map<Id, seq<Event>>

    /** Every descriptor watched has a producer. */
    ghost predicate Valid()
      reads this
    {
      watched <= producers.Keys
    }

    constructor ()
      ensures Valid() && producers == map[] && consumers == map[] && inbox == map[]
    {
      producers, consumers, watched, alive, outbox, inbox := map[], map[], {}, {}, map[], map[];
    }

    /**
     * Fails, where the code throws, when the descriptor is already watched or epoll does not accept it.
     * The producer is registered all the same: on failure the registrations are as they were only if
     * the descriptor already had this producer, and the descriptor is watched only if it was before.
     */
    method AddProducer(fd: Descriptor, producer: Id, accepted: bool) returns (ok: bool)
      requires Valid()
      modifies this`producers, this`watched
      ensures Valid() && (ok <==> fd !in old(watched) && accepted)
      ensures fd in producers && producers[fd] == producer
      ensures forall f | f != fd :: f in producers <==> f in old(producers)
      ensures forall f | f != fd && f in producers :: producers[f] == old(producers)[f]
      ensures !ok ==> watched == old(watched)
      ensures !ok ==> (producers == old(producers) <==> fd in old(producers) && old(producers)[fd] == producer)
      ensures ok ==> fd in watched && forall f | f != fd :: f in watched <==> f in old(watched)
    {
      producers := producers[fd := producer];
      ok := fd !in watched && accepted;
      if ok {
        watched := watched + {fd};
      }
    }

    /** Adds the consumer to the list of every type, once per occurrence of the type. */
    method AddConsumer(types: seq<Type>, consumer: Id)
      modifies this`consumers
      ensures Enlisted(old(consumers), consumers, types, consumer)
    {
      hide Enlisted;
      EnlistedNone(consumers, consumer);
      for i := 0 to |types|
        invariant Enlisted(old(consumers), consumers, types[..i], consumer)
      {
        EnlistedNext(old(consumers), consumers, types[..i], types[i], consumer);
        consumers := consumers[types[i] := Registered(consumers, types[i]) + [consumer]];
        assert types[..i + 1] == types[..i] + [types[i]];
      }
      assert types[..|types|] == types;
    }

    /** The innermost loop: a copy for every living listener other than the producer. */
    method Dispatch(r: Routed)
      modifies this`inbox
      ensures Shared(old(inbox), inbox, r, Registered(consumers, r.event.typ), alive)
    {
      hide Shared;
      var listeners := Registered(consumers, r.event.typ);
      SharedNone(inbox, r, alive);
      for i := 0 to |listeners|
        invariant Shared(old(inbox), inbox, r, listeners[..i], alive)
      {
        var c := listeners[i];
        SharedNext(old(inbox), inbox, r, listeners[..i], c, alive);
        if c in alive && c != r.producer {
          inbox := inbox[c := Of(inbox, c) + [r.event]];
        }
        assert listeners[..i + 1] == listeners[..i] + [c];
      }
      assert listeners[..|listeners|] == listeners;
    }

    /** The events of one producer. */
    method RouteEvents(p: Id, events: seq<Event>)
      modifies this`inbox
      ensures Received(old(inbox), inbox, Tagged(p, events), consumers, alive)
    {
      hide Received, Shared;
      var trace := Tagged(p, events);
      ReceivedNone(inbox, consumers, alive);
      for i := 0 to |trace|
        invariant Received(old(inbox), inbox, trace[..i], consumers, alive)
      {
        ghost var mid := inbox;
        Dispatch(trace[i]);
        ReceivedOne(mid, inbox, trace[i], consumers, alive);
        ReceivedThen(old(inbox), mid, inbox, trace[..i], [trace[i]], consumers, alive);
        assert trace[..i + 1] == trace[..i] + [trace[i]];
      }
      assert trace[..|trace|] == trace;
    }

    /** One pass over the descriptors reported ready. */
    method WaitAndRoute(ready: seq<Descriptor>) returns (count: nat)
      modifies this`inbox, this`outbox
      ensures count == |ready|
      ensures outbox == Remaining(ready, producers, alive, old(outbox))
      ensures Received(old(inbox), inbox, Produced(ready, producers, alive, old(outbox)), consumers, alive)
      ensures forall p ::
        Of(outbox, p) == if Serves(ready, producers, alive, p) then [] else Of(old(outbox), p)
      ensures forall p ::
        From(p, Produced(ready, producers, alive, old(outbox))) + Of(outbox, p) == Of(old(outbox), p)
    {
      hide Received;
      ghost var start := outbox;
      ReceivedNone(inbox, consumers, alive);
      for i := 0 to |ready|
        invariant outbox == Remaining(ready[..i], producers, alive, start)
        invariant Received(old(inbox), inbox, Produced(ready[..i], producers, alive, start), consumers, alive)
      {
        var fd := ready[i];
        ServedNext(ready, i, producers, alive, start);
        if Live(fd, producers, alive) {
          ghost var mid := inbox;
          var p := producers[fd];
          var events := Of(outbox, p);
          outbox := outbox[p := []];
          RouteEvents(p, events);
          ReceivedThen(old(inbox), mid, inbox, Produced(ready[..i], producers, alive, start), Tagged(p, events),
            consumers, alive);
        }
      }
      assert ready[..|ready|] == ready;
      count := |ready|;
      forall p
        ensures Of(outbox, p) == if Serves(ready, producers, alive, p) then [] else Of(start, p)
        ensures From(p, Produced(ready, producers, alive, start)) + Of(outbox, p) == Of(start, p)
      {
        DrainedIff(p, ready, producers, alive, start);
        TakenThenRemaining(p, ready, producers, alive, start);
      }
    }
  }

  /** Every type's list has grown by the consumer, once per occurrence of the type. */
  ghost predicate Enlisted(was: map<Type, seq<Id>>, now: map<Type, seq<Id>>, types: seq<Type>, c: Id)
  {
    forall t :: Registered(now, t) == Registered(was, t) + Repeat(c, Copies(types, t))
  }

  lemma EnlistedNone(consumers: map<Type, seq<Id>>, c: Id)
    ensures Enlisted(consumers, consumers, [], c)
  {
  }

  lemma EnlistedNext(was: map<Type, seq<Id>>, now: map<Type, seq<Id>>, types: seq<Type>, t: Type, c: Id)
    requires Enlisted(was, now, types, c)
    ensures Enlisted(was, now[t := Registered(now, t) + [c]], types + [t], c)
  {
    hide Registered, Copies, Repeat;
    forall u
      ensures Registered(now[t := Registered(now, t) + [c]], u)
              == Registered(was, u) + Repeat(c, Copies(types + [t], u))
    {
      CopiesNext(types, t, u);
      assert Registered(now, u) == Registered(was, u) + Repeat(c, Copies(types, u));
      OneMore(Registered(was, u), Registered(now, u), c, Copies(types, u));
      ListedAt(now, t, c, u);
    }
  }

  lemma OneMore(was: seq<Id>, now: seq<Id>, c: Id, n: nat)
    requires now == was + Repeat(c, n)
    ensures now + [c] == was + Repeat(c, n + 1)
  {
  }

  lemma ListedAt(consumers: map<Type, seq<Id>>, t: Type, c: Id, u: Type)
    ensures Registered(consumers[t := Registered(consumers, t) + [c]], u)
            == (if t == u then Registered(consumers, u) + [c] else Registered(consumers, u))
  {
  }

  lemma CopiesNext<T>(list: seq<T>, y: T, x: T)
    ensures Copies(list + [y], x) == Copies(list, x) + (if y == x then 1 else 0)
  {
    assert (list + [y])[..|list|] == list;
  }

  // ------------------------------------------------------------------------------------------
  // Inboxes before and after
  // ------------------------------------------------------------------------------------------

  /** Every consumer's inbox has grown by its share of one event. */
  ghost predicate Shared(was: map<Id, seq<Event>>, now: map<Id, seq<Event>>, r: Routed, listeners: seq<Id>,
      alive: set<Id>)
  {
    forall c :: Of(now, c) == Of(was, c) + Share(c, r, listeners, alive)
  }

  /** Every consumer's inbox has grown by what it gets of a sequence of events. */
  ghost predicate Received(was: map<Id, seq<Event>>, now: map<Id, seq<Event>>, trace: seq<Routed>,
      consumers: map<Type, seq<Id>>, alive: set<Id>)
  {
    forall c :: Of(now, c) == Of(was, c) + Delivered(c, trace, consumers, alive)
  }

  lemma SharedNone(inbox: map<Id, seq<Event>>, r: Routed, alive: set<Id>)
    ensures Shared(inbox, inbox, r, [], alive)
  {
  }

  lemma SharedNext(was: map<Id, seq<Event>>, now: map<Id, seq<Event>>, r: Routed, listeners: seq<Id>, c: Id,
      alive: set<Id>)
    requires Shared(was, now, r, listeners, alive)
    ensures Shared(was, if c in alive && c != r.producer then now[c := Of(now, c) + [r.event]] else now, r,
      listeners + [c], alive)
  {
    hide Share;
    var gets := c in alive && c != r.producer;
    var now' := if gets then now[c := Of(now, c) + [r.event]] else now;
    forall d ensures Of(now', d) == Of(was, d) + Share(d, r, listeners + [c], alive) {
      assert Of(now, d) == Of(was, d) + Share(d, r, listeners, alive);
      ShareNext(d, r, listeners, c, alive);
      assert Of(now', d) == if d == c && gets then Of(now, d) + [r.event] else Of(now, d);
      hide Of;
    }
  }

  lemma ShareNext(d: Id, r: Routed, listeners: seq<Id>, c: Id, alive: set<Id>)
    ensures Share(d, r, listeners + [c], alive)
            == Share(d, r, listeners, alive) + (if d == c && c in alive && c != r.producer then [r.event] else [])
  {
    CopiesNext(listeners, c, d);
    hide Copies;
  }

  lemma ReceivedNone(inbox: map<Id, seq<Event>>, consumers: map<Type, seq<Id>>, alive: set<Id>)
    ensures Received(inbox, inbox, [], consumers, alive)
  {
  }

  lemma ReceivedOne(was: map<Id, seq<Event>>, now: map<Id, seq<Event>>, r: Routed, consumers: map<Type, seq<Id>>,
      alive: set<Id>)
    requires Shared(was, now, r, Registered(consumers, r.event.typ), alive)
    ensures Received(was, now, [r], consumers, alive)
  {
    assert [r][..0] == [];
    assert forall c ::
        Delivered(c, [r], consumers, alive) == [] + Share(c, r, Registered(consumers, r.event.typ), alive);
  }

  lemma ReceivedThen(was: map<Id, seq<Event>>, mid: map<Id, seq<Event>>, now: map<Id, seq<Event>>, a: seq<Routed>,
      b: seq<Routed>, consumers: map<Type, seq<Id>>, alive: set<Id>)
    requires Received(was, mid, a, consumers, alive) && Received(mid, now, b, consumers, alive)
    ensures Received(was, now, a + b, consumers, alive)
  {
    hide Delivered, Of;
    forall c ensures Of(now, c) == Of(was, c) + Delivered(c, a + b, consumers, alive) {
      DeliveredAppend(c, a, b, consumers, alive);
      var x, y := Delivered(c, a, consumers, alive), Delivered(c, b, consumers, alive);
      assert Of(mid, c) == Of(was, c) + x && Of(now, c) == Of(mid, c) + y;
      assert (Of(was, c) + x) + y == Of(was, c) + (x + y);
    }
  }

  lemma ServedNext(ready: seq<Descriptor>, i: nat, producers: map<Descriptor, Id>, alive: set<Id>,
      outbox: map<Id, seq<Event>>)
    requires i < |ready|
    ensures var rest := Remaining(ready[..i], producers, alive, outbox);
      && Remaining(ready[..i + 1], producers, alive, outbox)
         == (if Live(ready[i], producers, alive) then rest[producers[ready[i]] := []] else rest)
      && Produced(ready[..i + 1], producers, alive, outbox)
         == (if Live(ready[i], producers, alive)
             then Produced(ready[..i], producers, alive, outbox) + Tagged(producers[ready[i]],
               Of(rest, producers[ready[i]]))
             else Produced(ready[..i], producers, alive, outbox))
  {
    assert ready[..i + 1][..i] == ready[..i];
  }

  lemma DeliveredLast(c: Id, a: seq<Routed>, r: Routed, consumers: map<Type, seq<Id>>, alive: set<Id>)
    ensures Delivered(c, a + [r], consumers, alive)
            == Delivered(c, a, consumers, alive) + Share(c, r, Registered(consumers, r.event.typ), alive)
  {
    hide Share, Registered;
    var trace := a + [r];
    assert trace[..|a|] == a && trace[|a|] == r;
  }

  lemma Assoc<T>(x: seq<T>, y: seq<T>, z: seq<T>)
    ensures (x + y) + z == x + (y + z)
  {
  }

  lemma {:induction false} DeliveredAppend(c: Id, a: seq<Routed>, b: seq<Routed>, consumers: map<Type, seq<Id>>,
      alive: set<Id>)
    ensures Delivered(c, a + b, consumers, alive) == Delivered(c, a, consumers, alive) + Delivered(c, b, consumers,
      alive)
  {
    if b == [] {
      assert a + b == a;
    } else {
      var n := |b| - 1;
      var rest, r := b[..n], b[n];
      assert b == rest + [r];
      DeliveredAppend(c, a, rest, consumers, alive);
      DeliveredThen(c, a, rest, r, consumers, alive);
    }
  }

  lemma DeliveredThen(c: Id, a: seq<Routed>, b: seq<Routed>, r: Routed, consumers: map<Type, seq<Id>>, alive: set<Id>)
    requires Delivered(c, a + b, consumers, alive) == Delivered(c, a, consumers, alive) + Delivered(c, b, consumers,
      alive)
    ensures Delivered(c, a + (b + [r]), consumers, alive) == Delivered(c, a, consumers, alive) + Delivered(c, b + [r],
      consumers, alive)
  {
    hide Delivered, Share, Registered;
    Assoc(a, b, [r]);
    DeliveredLast(c, a + b, r, consumers, alive);
    DeliveredLast(c, b, r, consumers, alive);
    Assoc(Delivered(c, a, consumers, alive), Delivered(c, b, consumers, alive),
      Share(c, r, Registered(consumers, r.event.typ), alive));
  }

  // ------------------------------------------------------------------------------------------
  // Exactness
  // ------------------------------------------------------------------------------------------

  function TypesOf(consumers: map<Type, seq<Id>>, c: Id): set<Type>
  {
    set t: Type | c in Registered(consumers, t)
  }

  predicate AtMostOnce(consumers: map<Type, seq<Id>>, c: Id)
  {
    forall t: Type :: Copies(Registered(consumers, t), c) <= 1
  }

  lemma {:induction false} CopiesPositive<T>(list: seq<T>, x: T)
    ensures Copies(list, x) > 0 <==> x in list
  {
    if list != [] {
      var n := |list| - 1;
      CopiesPositive(list[..n], x);
      assert list == list[..n] + [list[n]];
    }
  }

  /** Registered at most once per type, a living consumer receives exactly the matching events, each once, in order. */
  lemma {:induction false} DeliveredIsFiltered(c: Id, trace: seq<Routed>, consumers: map<Type, seq<Id>>, alive: set<Id>)
    requires c in alive && AtMostOnce(consumers, c)
    ensures Delivered(c, trace, consumers, alive) == Filtered(c, trace, TypesOf(consumers, c))
  {
    if trace != [] {
      var last := trace[|trace| - 1];
      DeliveredIsFiltered(c, trace[..|trace| - 1], consumers, alive);
      CopiesPositive(Registered(consumers, last.event.typ), c);
    }
  }

  lemma DeliveredOne(c: Id, r: Routed, consumers: map<Type, seq<Id>>, alive: set<Id>)
    ensures Delivered(c, [r], consumers, alive) == Share(c, r, Registered(consumers, r.event.typ), alive)
  {
    var trace := [r];
    assert trace[..0] == [] && trace[0] == r;
    assert Delivered(c, trace[..0], consumers, alive) == [];
  }

  lemma FilteredOne(c: Id, r: Routed, types: set<Type>)
    ensures |Filtered(c, [r], types)| <= 1
  {
    var trace := [r];
    assert trace[..0] == [];
    assert Filtered(c, trace[..0], types) == [];
  }

  /** A consumer that no longer exists receives nothing. */
  lemma {:induction false} DeadReceiveNothing(c: Id, trace: seq<Routed>, consumers: map<Type, seq<Id>>, alive: set<Id>)
    requires c !in alive
    ensures Delivered(c, trace, consumers, alive) == []
  {
    if trace != [] {
      DeadReceiveNothing(c, trace[..|trace| - 1], consumers, alive);
    }
  }

  /** Exactly once for every trace if and only if no type lists the consumer twice. */
  lemma ExactlyOnceIff(c: Id, consumers: map<Type, seq<Id>>, alive: set<Id>)
    requires c in alive
    ensures (forall trace :: Delivered(c, trace, consumers, alive) == Filtered(c, trace, TypesOf(consumers, c)))
      <==> AtMostOnce(consumers, c)
  {
    hide Delivered, Filtered, TypesOf, Copies, Registered;
    if AtMostOnce(consumers, c) {
      forall trace ensures Delivered(c, trace, consumers, alive) == Filtered(c, trace, TypesOf(consumers, c)) {
        DeliveredIsFiltered(c, trace, consumers, alive);
      }
    } else {
      var t: Type :| Copies(Registered(consumers, t), c) > 1;
      var r := Routed(c + 1, Event(t, 0, []));
      DeliveredOne(c, r, consumers, alive);
      FilteredOne(c, r, TypesOf(consumers, c));
      assert Delivered(c, [r], consumers, alive) != Filtered(c, [r], TypesOf(consumers, c));
    }
  }

  lemma {:induction false} CopiesAppend<T>(a: seq<T>, x: T, y: T, n: nat)
    ensures Copies(a + Repeat(y, n), x) == Copies(a, x) + (if x == y then n else 0)
  {
    if n == 0 {
      assert a + Repeat(y, 0) == a;
    } else {
      assert (a + Repeat(y, n))[..|a| + n - 1] == a + Repeat(y, n - 1);
      CopiesAppend(a, x, y, n - 1);
    }
  }

  /**
   * What AddConsumer does to the lists: the consumer is listed at most once per type afterwards exactly
   * when its earlier listings and the types given come to at most one each. The others are as before.
   */
  lemma RegisteredOnceIff(before: map<Type, seq<Id>>, after: map<Type, seq<Id>>, types: seq<Type>, c: Id, other: Id)
    requires Enlisted(before, after, types, c) && other != c
    ensures AtMostOnce(after, c) <==> forall t: Type :: Copies(Registered(before, t), c) + Copies(types, t) <= 1
    ensures TypesOf(after, c) == TypesOf(before, c) + (set t | t in types)
    ensures AtMostOnce(after, other) <==> AtMostOnce(before, other)
    ensures TypesOf(after, other) == TypesOf(before, other)
  {
    hide Copies, Registered, Repeat;
    forall t: Type
      ensures Copies(Registered(after, t), c) == Copies(Registered(before, t), c) + Copies(types, t)
      ensures c in Registered(after, t) <==> c in Registered(before, t) || t in types
      ensures Copies(Registered(after, t), other) == Copies(Registered(before, t), other)
      ensures other in Registered(after, t) <==> other in Registered(before, t)
    {
      assert Registered(after, t) == Registered(before, t) + Repeat(c, Copies(types, t));
      CopiesAppend(Registered(before, t), c, c, Copies(types, t));
      CopiesAppend(Registered(before, t), other, c, Copies(types, t));
      CopiesPositive(types, t);
      CopiesPositive(Registered(before, t), c);
      CopiesPositive(Registered(after, t), c);
      CopiesPositive(Registered(before, t), other);
      CopiesPositive(Registered(after, t), other);
    }
  }

  // ------------------------------------------------------------------------------------------
  // What a pass takes from the producers
  // ------------------------------------------------------------------------------------------

  /** The events of producer p among those routed, in order. */
  function From(p: Id, trace: seq<Routed>): seq<Event>
  {
    if trace == [] then []
    else
      var last := trace[|trace| - 1];
      From(p, trace[..|trace| - 1]) + (if last.producer == p then [last.event] else [])
  }

  lemma FromLast(p: Id, a: seq<Routed>, r: Routed)
    ensures From(p, a + [r]) == From(p, a) + (if r.producer == p then [r.event] else [])
  {
    var trace := a + [r];
    assert trace[..|a|] == a && trace[|a|] == r;
  }

  lemma {:induction false} FromAppend(p: Id, a: seq<Routed>, b: seq<Routed>)
    ensures From(p, a + b) == From(p, a) + From(p, b)
  {
    if b == [] {
      assert a + b == a;
    } else {
      hide From;
      var n := |b| - 1;
      var rest, r := b[..n], b[n];
      assert b == rest + [r] && a + b == (a + rest) + [r];
      FromAppend(p, a, rest);
      FromLast(p, a + rest, r);
      FromLast(p, rest, r);
    }
  }

  lemma {:induction false} FromTagged(p: Id, q: Id, events: seq<Event>)
    ensures From(p, Tagged(q, events)) == if p == q then events else []
  {
    if events != [] {
      var n := |events| - 1;
      var rest, e := events[..n], events[n];
      assert events == rest + [e] && Tagged(q, events) == Tagged(q, rest) + [Routed(q, e)];
      FromTagged(p, q, rest);
      FromLast(p, Tagged(q, rest), Routed(q, e));
      hide From, Tagged;
    }
  }

  /** Nothing is lost or invented in a pass: what is taken from p, followed by what remains, is what was there. */
  lemma {:induction false} TakenThenRemaining(p: Id, ready: seq<Descriptor>, producers: map<Descriptor, Id>,
      alive: set<Id>, outbox: map<Id, seq<Event>>)
    ensures From(p, Produced(ready, producers, alive, outbox)) + Of(Remaining(ready, producers, alive, outbox),
      p) == Of(outbox, p)
  {
    if ready != [] {
      var n := |ready| - 1;
      var fd, before := ready[n], ready[..n];
      TakenThenRemaining(p, before, producers, alive, outbox);
      if Live(fd, producers, alive) {
        var q, rest := producers[fd], Remaining(before, producers, alive, outbox);
        FromAppend(p, Produced(before, producers, alive, outbox), Tagged(q, Of(rest, q)));
        FromTagged(p, q, Of(rest, q));
      }
    }
  }

  /** p is alive and one of the ready descriptors is registered for it. */
  predicate Serves(ready: seq<Descriptor>, producers: map<Descriptor, Id>, alive: set<Id>, p: Id)
  {
    p in alive && exists fd :: fd in ready && fd in producers && producers[fd] == p
  }

  /** A producer is drained if it lives and a ready descriptor leads to it, and otherwise left alone. */
  lemma {:induction false} DrainedIff(p: Id, ready: seq<Descriptor>, producers: map<Descriptor, Id>, alive: set<Id>,
      outbox: map<Id, seq<Event>>)
    ensures Of(Remaining(ready, producers, alive, outbox), p)
            == if Serves(ready, producers, alive, p) then [] else Of(outbox, p)
  {
    if ready != [] {
      var n := |ready| - 1;
      var fd, before := ready[n], ready[..n];
      DrainedIff(p, before, producers, alive, outbox);
      assert ready == before + [fd];
      assert Serves(ready, producers, alive, p) <==>
             Serves(before, producers, alive, p) || (p in alive && fd in producers && producers[fd] == p);
    }
  }

  /** A producer whose only descriptor was given to another is never drained again. */
  lemma OrphanIsNeverDrained(p: Id, fd: Descriptor, q: Id, producers: map<Descriptor, Id>, ready: seq<Descriptor>,
      alive: set<Id>, outbox: map<Id, seq<Event>>)
    requires q != p && forall f | f in producers && producers[f] == p :: f == fd
    ensures Of(Remaining(ready, producers[fd := q], alive, outbox), p) == Of(outbox, p)
    ensures From(p, Produced(ready, producers[fd := q], alive, outbox)) == []
  {
    DrainedIff(p, ready, producers[fd := q], alive, outbox);
    TakenThenRemaining(p, ready, producers[fd := q], alive, outbox);
  }

  /** A producer none of whose descriptors is watched is never drained: epoll reports only what it watches. */
  lemma UnwatchedIsNeverDrained(p: Id, watched: set<Descriptor>, producers: map<Descriptor, Id>,
      ready: seq<Descriptor>, alive: set<Id>, outbox: map<Id, seq<Event>>)
    requires forall fd | fd in ready :: fd in watched
    requires forall fd | fd in producers && producers[fd] == p :: fd !in watched
    ensures Of(Remaining(ready, producers, alive, outbox), p) == Of(outbox, p)
    ensures From(p, Produced(ready, producers, alive, outbox)) == []
  {
    DrainedIff(p, ready, producers, alive, outbox);
    TakenThenRemaining(p, ready, producers, alive, outbox);
  }

  // ------------------------------------------------------------------------------------------
  // Runs: managers publish, the router makes passes
  // ------------------------------------------------------------------------------------------

  /** All events published by each manager, those not yet taken, those received, and those routed. */
  datatype View = View(
    published: map<Id, seq<Event>>,
    outbox: map<Id, seq<Event>>,
    inbox: map<Id, seq<Event>>,
    trace: seq<Routed>)

  /** The registrations and the managers that exist, fixed during a run. */
  datatype Setup = Setup(producers: map<Descriptor, Id>, consumers: map<Type, seq<Id>>, alive: set<Id>)

  ghost predicate IsPublish(v: View, v': View, p: Id, e: Event)
  {
    v' == v.(published := v.published[p := Of(v.published, p) + [e]], outbox := v.outbox[p := Of(v.outbox, p) + [e]])
  }

  /** A pass, as WaitAndRoute specifies it. */
  ghost predicate IsPass(v: View, v': View, ready: seq<Descriptor>, k: Setup)
  {
    && var taken := Produced(ready, k.producers, k.alive, v.outbox);
    && v'.published == v.published && v'.trace == v.trace + taken
    && v'.outbox == Remaining(ready, k.producers, k.alive, v.outbox)
    && Received(v.inbox, v'.inbox, taken, k.consumers, k.alive)
  }

  ghost predicate IsRun(run: seq<View>, k: Setup)
  {
    && |run| > 0 && run[0] == View(map[], map[], map[], [])
    && forall i :: 0 <= i < |run| - 1 ==> Step(run[i], run[i + 1], k)
  }

  ghost predicate Step(v: View, v': View, k: Setup)
  {
    (exists p, e :: IsPublish(v, v', p, e)) || (exists ready :: IsPass(v, v', ready, k))
  }

  /** Every event published is routed or waiting, once and in order. */
  ghost predicate Kept(v: View) { forall p: Id :: Of(v.published, p) == From(p, v.trace) + Of(v.outbox, p) }

  lemma PublishKeeps(v: View, v': View, p: Id, e: Event)
    requires Kept(v) && IsPublish(v, v', p, e)
    ensures Kept(v')
  {
    hide From;
    forall q: Id ensures Of(v'.published, q) == From(q, v'.trace) + Of(v'.outbox, q) {
      var x, y := From(q, v.trace), Of(v.outbox, q);
      assert Of(v.published, q) == x + y;
      assert Of(v'.published, q) == (if q == p then x + y + [e] else x + y);
      assert Of(v'.outbox, q) == (if q == p then y + [e] else y);
      hide Of;
      assert (x + y) + [e] == x + (y + [e]);
    }
  }

  lemma PassKeeps(v: View, v': View, ready: seq<Descriptor>, k: Setup)
    requires Kept(v) && IsPass(v, v', ready, k)
    ensures Kept(v')
  {
    hide From, Produced, Remaining, Received, Of;
    var taken := Produced(ready, k.producers, k.alive, v.outbox);
    forall q: Id ensures Of(v'.published, q) == From(q, v'.trace) + Of(v'.outbox, q) {
      TakenThenRemaining(q, ready, k.producers, k.alive, v.outbox);
      FromAppend(q, v.trace, taken);
      var x, y, z := From(q, v.trace), From(q, taken), Of(v'.outbox, q);
      assert Of(v.published, q) == x + (y + z);
      assert x + (y + z) == (x + y) + z;
    }
  }

  lemma ReceivedSince(v: View, v': View, ready: seq<Descriptor>, k: Setup)
    requires Received(map[], v.inbox, v.trace, k.consumers, k.alive) && IsPass(v, v', ready, k)
    ensures Received(map[], v'.inbox, v'.trace, k.consumers, k.alive)
  {
    hide Received, Produced, Remaining;
    ReceivedThen(map[], v.inbox, v'.inbox, v.trace, Produced(ready, k.producers, k.alive, v.outbox), k.consumers,
      k.alive);
  }

  lemma {:induction false} RunKeeps(run: seq<View>, i: nat, k: Setup)
    requires IsRun(run, k) && i < |run|
    ensures Kept(run[i]) && Received(map[], run[i].inbox, run[i].trace, k.consumers, k.alive)
  {
    hide Kept, Received, IsPass;
    if i == 0 {
      StartIsKept(run[0]);
      ReceivedNone(map[], k.consumers, k.alive);
    } else {
      RunKeeps(run, i - 1, k);
      var v, v' := run[i - 1], run[i];
      assert Step(v, v', k);
      if p, e :| IsPublish(v, v', p, e) {
        PublishKeeps(v, v', p, e);
      } else {
        var ready :| IsPass(v, v', ready, k);
        PassKeeps(v, v', ready, k);
        ReceivedSince(v, v', ready, k);
      }
    }
  }

  lemma StartIsKept(v: View)
    requires v.published == map[] && v.outbox == map[] && v.trace == []
    ensures Kept(v)
  {
  }

  /**
   * Over any run of publishing and passes with fixed registrations: every event of every producer is
   * routed or still waiting, once and in order, and a living consumer that no type lists twice has
   * received exactly the routed events of its types that are not its own, each once, in order.
   */
  lemma RunIsExact(run: seq<View>, i: nat, k: Setup, p: Id, c: Id)
    requires IsRun(run, k) && i < |run| && c in k.alive && AtMostOnce(k.consumers, c)
    ensures Of(run[i].published, p) == From(p, run[i].trace) + Of(run[i].outbox, p)
    ensures Of(run[i].inbox, c) == Filtered(c, run[i].trace, TypesOf(k.consumers, c))
  {
    RunKeeps(run, i, k);
    DeliveredIsFiltered(c, run[i].trace, k.consumers, k.alive);
    hide Delivered, Filtered, From;
  }
}
