/**
 * app12 as a whole: any number of managers, each with its queue and wake-up pipe as in WakeUp, and
 * one router thread that serves one readable pipe at a time, collects what it drains in a list and
 * then hands the list to the consumers as in EventRouter. Manager m is producer m.
 */
module Application {
  import W = WakeUp
  import Q = SpscQueue
  import opened EventRouter

  /** `meaning` gives the event that a queue element stands for. */
  datatype Config = Config(consumers: map<Type, seq<Id>>, alive: set<Id>, meaning: Q.Value -> Event)

  /** `batch` is the list the router collects; `trace` records all events routed. */
  datatype State = State(links: seq<W.State>, batch: seq<Q.Value>, inbox: map<Id, seq<Event>>, trace: seq<Routed>)

  function Events(values: seq<Q.Value>, k: Config): seq<Event>
  {
    seq(|values|, i requires 0 <= i < |values| => k.meaning(values[i]))
  }

  ghost predicate Init(s: State)
  {
    && (forall m | 0 <= m < |s.links| :: W.Init(s.links[m]))
    && s.batch == [] && s.inbox == map[] && s.trace == []
  }

  ghost predicate Manage(s: State, s': State, m: nat, l: W.State)
  {
    && m < |s.links| && (W.Manage(s.links[m], l) || exists v :: W.Emit(s.links[m], l, v))
    && s' == s.(links := s.links[m := l])
  }

  /** A step of the router while it serves manager m; the drain ends with the delivery of the list. */
  ghost predicate Route(s: State, s': State, m: nat, l: W.State, k: Config)
  {
    && m < |s.links| && W.Route(s.links[m], l)
    && (forall n | 0 <= n < |s.links| && n != m :: s.links[n].router == W.Waiting)
    && |s.links[m].q.popped| <= |l.q.popped|
    && if s.links[m].router == W.Draining && l.router == W.Waiting then
         && var taken := Tagged(m, Events(s.batch, k));
         && s' == s.(links := s.links[m := l], batch := [], trace := s.trace + taken, inbox := s'.inbox)
         && Received(s.inbox, s'.inbox, taken, k.consumers, k.alive)
       else s' == s.(links := s.links[m := l], batch := s.batch + l.q.popped[|s.links[m].q.popped|..])
  }

  ghost predicate Step(s: State, s': State, k: Config)
  {
    (exists m: nat, l :: Manage(s, s', m, l)) || (exists m: nat, l :: Route(s, s', m, l, k))
  }

  ghost predicate IsRun(run: seq<State>, k: Config)
  {
    && |run| > 0
    && Init(run[0])
    && forall i :: 0 <= i < |run| - 1 ==> Step(run[i], run[i + 1], k)
  }

  // ------------------------------------------------------------------------------------------
  // The invariant
  // ------------------------------------------------------------------------------------------

  /** What has been drained from manager m has been routed, or is in the list being collected from it. */
  ghost predicate LinkOk(l: W.State, m: nat, batch: seq<Q.Value>, trace: seq<Routed>, k: Config)
  {
    && W.Inv(l)
    && From(m, trace) + (if l.router == W.Waiting then [] else Events(batch, k)) == Events(l.q.popped, k)
  }

  ghost predicate OneServed(links: seq<W.State>)
  {
    forall m, n | 0 <= m < n < |links| :: links[m].router == W.Waiting || links[n].router == W.Waiting
  }

  ghost predicate Inv(s: State, k: Config)
  {
    && (forall m | 0 <= m < |s.links| :: LinkOk(s.links[m], m, s.batch, s.trace, k))
    && OneServed(s.links)
    && ((forall m | 0 <= m < |s.links| :: s.links[m].router == W.Waiting) ==> s.batch == [])
    && Received(map[], s.inbox, s.trace, k.consumers, k.alive)
  }

  lemma ManageFrame(l: W.State, l': W.State)
    requires W.Manage(l, l') || exists v :: W.Emit(l, l', v)
    ensures l'.router == l.router && l'.q.popped == l.q.popped
  {
  }

  lemma ManageKeeps(s: State, s': State, m: nat, l: W.State, k: Config)
    requires Inv(s, k) && Manage(s, s', m, l)
    ensures Inv(s', k)
  {
    hide W.Inv, W.Manage, W.Emit, Received, From, Events;
    assert LinkOk(s.links[m], m, s.batch, s.trace, k);
    ManageFrame(s.links[m], l);
    W.ManageKeeps(s.links[m], l);
    forall n | 0 <= n < |s'.links| ensures LinkOk(s'.links[n], n, s'.batch, s'.trace, k) {
      assert LinkOk(s.links[n], n, s.batch, s.trace, k);
    }
    forall n | 0 <= n < |s'.links| ensures s'.links[n].router == s.links[n].router {
    }
  }

  /** Only the drain takes elements from the queue, and its last step takes none. */
  lemma RouteFrame(l: W.State, l': W.State)
    requires W.Route(l, l')
    ensures l.q.popped <= l'.q.popped
    ensures l.router == W.Waiting || l'.router == W.Waiting ==> l'.q.popped == l.q.popped
    ensures l'.router == W.Waiting ==> l.router == W.Draining
  {
  }

  lemma {:induction false} EventsAppend(a: seq<Q.Value>, b: seq<Q.Value>, k: Config)
    ensures Events(a + b, k) == Events(a, k) + Events(b, k)
  {
  }

  /** The end of a drain: the list joins the routed events. */
  lemma DeliverLinks(s: State, s': State, m: nat, l: W.State, k: Config)
    requires Inv(s, k) && Route(s, s', m, l, k) && s.links[m].router == W.Draining && l.router == W.Waiting
    ensures forall n | 0 <= n < |s'.links| :: LinkOk(s'.links[n], n, s'.batch, s'.trace, k)
  {
    hide W.Inv, W.Route, Received, Events;
    RouteFrame(s.links[m], l);
    assert LinkOk(s.links[m], m, s.batch, s.trace, k);
    W.RouteKeeps(s.links[m], l);
    forall n | 0 <= n < |s'.links| ensures LinkOk(s'.links[n], n, s'.batch, s'.trace, k) {
      assert LinkOk(s.links[n], n, s.batch, s.trace, k);
      FromAppend(n, s.trace, Tagged(m, Events(s.batch, k)));
      FromTagged(n, m, Events(s.batch, k));
    }
  }

  lemma DrainLinks(s: State, s': State, m: nat, l: W.State, k: Config)
    requires Inv(s, k) && Route(s, s', m, l, k) && l.router != W.Waiting
    ensures forall n | 0 <= n < |s'.links| :: LinkOk(s'.links[n], n, s'.batch, s'.trace, k)
  {
    hide W.Inv, W.Route, Received, Events, From;
    var before, more := s.links[m].q.popped, l.q.popped[|s.links[m].q.popped|..];
    RouteFrame(s.links[m], l);
    assert LinkOk(s.links[m], m, s.batch, s.trace, k);
    W.RouteKeeps(s.links[m], l);
    assert l.q.popped == before + more;
    EventsAppend(before, more, k);
    EventsAppend(s.batch, more, k);
    if s.links[m].router == W.Waiting {
      forall n | 0 <= n < |s.links| ensures s.links[n].router == W.Waiting {
      }
      assert s.batch == [] && more == [];
      NoEvents(k);
    }
    forall n | 0 <= n < |s'.links| ensures LinkOk(s'.links[n], n, s'.batch, s'.trace, k) {
      assert LinkOk(s.links[n], n, s.batch, s.trace, k);
    }
  }

  lemma NoEvents(k: Config)
    ensures Events([], k) == []
  {
  }

  lemma RouteKeeps(s: State, s': State, m: nat, l: W.State, k: Config)
    requires Inv(s, k) && Route(s, s', m, l, k)
    ensures Inv(s', k)
  {
    RouteFrame(s.links[m], l);
    if l.router == W.Waiting {
      DeliverLinks(s, s', m, l, k);
      hide LinkOk, W.Route, Events, Received;
      ReceivedThen(map[], s.inbox, s'.inbox, s.trace, Tagged(m, Events(s.batch, k)), k.consumers, k.alive);
    } else {
      DrainLinks(s, s', m, l, k);
      hide LinkOk, W.Route, Events, Received;
      assert s'.links[m].router != W.Waiting;
    }
  }

  lemma LinkStart(l: W.State, m: nat, k: Config)
    requires W.Init(l)
    ensures LinkOk(l, m, [], [], k) && l.router == W.Waiting
  {
    assert W.IsRun([l]);
    W.RunKeeps([l], 0);
    hide W.Inv;
    W.StartsEmpty(l.q);
  }

  lemma InitKeeps(s: State, k: Config)
    requires Init(s)
    ensures Inv(s, k)
  {
    hide W.Init, LinkOk, Received;
    forall m | 0 <= m < |s.links| ensures LinkOk(s.links[m], m, s.batch, s.trace, k) && s.links[m].router == W.Waiting {
      LinkStart(s.links[m], m, k);
    }
    ReceivedNone(map[], k.consumers, k.alive);
  }

  lemma {:induction false} RunKeeps(run: seq<State>, i: nat, k: Config)
    requires IsRun(run, k) && i < |run|
    ensures Inv(run[i], k)
  {
    hide Inv, Manage, Route, Init;
    if i == 0 {
      InitKeeps(run[0], k);
    } else {
      RunKeeps(run, i - 1, k);
      var s, s' := run[i - 1], run[i];
      assert Step(s, s', k);
      if m: nat, l :| Manage(s, s', m, l) {
        ManageKeeps(s, s', m, l, k);
      } else {
        var m: nat, l :| Route(s, s', m, l, k);
        RouteKeeps(s, s', m, l, k);
      }
    }
  }

  // ------------------------------------------------------------------------------------------
  // What the application promises
  // ------------------------------------------------------------------------------------------

  /** A manager that is idle, with the router elsewhere and nothing in its pipe. */
  predicate Quiet(l: W.State) { l.manager == W.Out && l.router == W.Waiting && l.bytes == 0 }

  /** At any time, what has been routed from a manager is a prefix of what it has published. */
  lemma RoutedInOrder(run: seq<State>, i: nat, k: Config, m: nat)
    requires IsRun(run, k) && i < |run| && m < |run[i].links|
    ensures From(m, run[i].trace) <= Events(run[i].links[m].q.pushed, k)
  {
    hide Init, Step, W.Inv, From, Received, Events;
    RunKeeps(run, i, k);
    var l := run[i].links[m];
    assert LinkOk(l, m, run[i].batch, run[i].trace, k);
    PoppedPrefix(l);
    var rest := l.q.pushed[|l.q.popped|..];
    assert l.q.pushed == l.q.popped + rest;
    EventsAppend(l.q.popped, rest, k);
  }

  lemma PoppedPrefix(l: W.State)
    requires W.Inv(l)
    ensures l.q.popped <= l.q.pushed
  {
    hide Q.Inv;
    W.PoppedIsPrefix(l.q);
  }

  /**
   * When every manager and the router are idle and no pipe, each with a source other than descriptor
   * zero, is readable, all events published have been
   * routed, those of each manager in order and nothing else, and every living consumer that no type lists twice has
   * received exactly the routed events of its types that are not its own, each once and in order.
   */
  lemma EverythingIsDelivered(run: seq<State>, i: nat, k: Config, c: Id)
    requires IsRun(run, k) && i < |run| && c in k.alive && AtMostOnce(k.consumers, c)
    requires forall m | 0 <= m < |run[i].links| :: Quiet(run[i].links[m]) && run[i].links[m].source != 0
    ensures forall m | 0 <= m < |run[i].links| :: From(m, run[i].trace) == Events(run[i].links[m].q.pushed, k)
    ensures forall j | 0 <= j < |run[i].trace| :: run[i].trace[j].producer < |run[i].links|
    ensures Of(run[i].inbox, c) == Filtered(c, run[i].trace, TypesOf(k.consumers, c))
  {
    hide Init, Step, W.Inv, From, Events, Filtered, Delivered;
    RunKeeps(run, i, k);
    AllRouted(run, i, k);
    forall j | 0 <= j < |run[i].trace| ensures run[i].trace[j].producer < |run[i].links| {
      TraceIsOurs(run, i, k, j);
    }
    DeliveredIsFiltered(c, run[i].trace, k.consumers, k.alive);
  }

  lemma AllRouted(run: seq<State>, i: nat, k: Config)
    requires IsRun(run, k) && i < |run|
    requires forall m | 0 <= m < |run[i].links| :: Quiet(run[i].links[m]) && run[i].links[m].source != 0
    ensures forall m | 0 <= m < |run[i].links| :: From(m, run[i].trace) == Events(run[i].links[m].q.pushed, k)
  {
    hide Init, Step, W.Inv, From, Events;
    RunKeeps(run, i, k);
    forall m | 0 <= m < |run[i].links| ensures From(m, run[i].trace) == Events(run[i].links[m].q.pushed, k) {
      assert LinkOk(run[i].links[m], m, run[i].batch, run[i].trace, k);
      W.IdleIsCovered(run[i].links[m]);
    }
  }

  /** The trace holds nothing but events of the managers. */
  lemma {:induction false} TraceIsOurs(run: seq<State>, i: nat, k: Config, j: nat)
    requires IsRun(run, k) && i < |run| && j < |run[i].trace|
    ensures run[i].trace[j].producer < |run[i].links|
  {
    hide Init, Events, Received, W.Route, W.Manage, W.Emit;
    if i > 0 {
      assert Step(run[i - 1], run[i], k);
      if j < |run[i - 1].trace| {
        TraceIsOurs(run, i - 1, k, j);
      }
    } else {
      StartsBare(run[0]);
    }
  }

  lemma StartsBare(s: State)
    requires Init(s)
    ensures s.trace == []
  {
  }
}
