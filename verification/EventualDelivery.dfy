/**
 * The application comes to rest: from every reachable state of managers, queues, pipes and router there
 * is a way on in which no further event is emitted and every event published is delivered.
 */
module EventualDelivery {
  import W = WakeUp
  import Q = SpscQueue
  import opened Application
  import R = EventRouter
  import opened Counting

  /** Every pipe has a source other than descriptor zero. */
  predicate Piped(s: State) { forall m | 0 <= m < |s.links| :: s.links[m].source != 0 }

  predicate ManagersOut(s: State) { forall m | 0 <= m < |s.links| :: s.links[m].manager == W.Out }

  predicate AllQuiet(s: State) { forall m | 0 <= m < |s.links| :: Quiet(s.links[m]) }

  /** The drain loop of every link calls front only after empty. */
  predicate AllSure(s: State) { forall m | 0 <= m < |s.links| :: W.Sure(s.links[m].q.cpc) }

  /** Every manager has published at least as much. */
  predicate Further(s: State, s': State)
  {
    |s'.links| == |s.links| && forall m | 0 <= m < |s.links| :: s.links[m].q.pushed <= s'.links[m].q.pushed
  }

  predicate SamePushed(s: State, s': State)
  {
    |s'.links| == |s.links| && forall m | 0 <= m < |s.links| :: s.links[m].q.pushed == s'.links[m].q.pushed
  }

  // ------------------------------------------------------------------------------------------
  // How much is left to do on one link
  // ------------------------------------------------------------------------------------------

  /** What is left for the router, once the manager is out. */
  function Work(l: W.State): nat
  {
    16 * (if |l.q.popped| <= |l.q.pushed| then |l.q.pushed| - |l.q.popped| else 0)
    + match l.router
      case Waiting => 12 * l.bytes
      case CheckFlag => 11
      case ReadByte => 10
      case ClearFlag => 5
      case Draining => 12 * l.bytes + W.Rank(W.Draining, l.q.cpc)
  }

  ghost function Works(): W.State -> nat { (l: W.State) => Work(l) }

  ghost function Steps(): W.State -> nat { (l: W.State) => W.ManagerSteps(l) }

  /** Each of the router's steps leaves less to do. */
  lemma WorkShrinks(l: W.State, l': W.State)
    requires W.Inv(l) && W.Sure(l.q.cpc) && l.manager == W.Out && l.source != 0 && W.Route(l, l')
    ensures Work(l') < Work(l) && l'.manager == W.Out && l'.source == l.source && l'.q.pushed == l.q.pushed
  {
    hide Q.Inv, W.Covered;
    PoppedPrefix(l);
    if l.router != W.Waiting {
      W.RouteShrinks(l, l');
      PoppedPrefixOf(l, l');
      hide Q.Consume, Q.CheckEmpty;
    }
  }

  lemma PoppedPrefixOf(l: W.State, l': W.State)
    requires W.Inv(l) && W.Route(l, l')
    ensures |l'.q.popped| <= |l'.q.pushed|
  {
    hide W.Inv, W.Route;
    W.RouteKeeps(l, l');
    PoppedPrefix(l');
  }

  // ------------------------------------------------------------------------------------------
  // Steps of the application
  // ------------------------------------------------------------------------------------------

  /** The deliveries of a list of events, whatever they are. */
  lemma Deliver(inbox: map<R.Id, seq<R.Event>>, taken: seq<R.Routed>, k: Config)
    returns (inbox': map<R.Id, seq<R.Event>>)
    ensures R.Received(inbox, inbox', taken, k.consumers, k.alive)
  {
    inbox' := map c | c in inbox.Keys + k.alive :: R.Of(inbox, c) + R.Delivered(c, taken, k.consumers, k.alive);
    forall c ensures R.Of(inbox', c) == R.Of(inbox, c) + R.Delivered(c, taken, k.consumers, k.alive) {
      if c !in k.alive {
        R.DeadReceiveNothing(c, taken, k.consumers, k.alive);
      }
    }
  }

  /** A step of the router on link m. */
  lemma RouteLink(s: State, m: nat, l: W.State, k: Config) returns (s': State)
    requires m < |s.links| && W.Route(s.links[m], l)
    requires forall n | 0 <= n < |s.links| && n != m :: s.links[n].router == W.Waiting
    ensures Route(s, s', m, l, k) && s'.links == s.links[m := l]
  {
    hide W.Route, R.Received, Events, R.Tagged;
    RouteFrame(s.links[m], l);
    if s.links[m].router == W.Draining && l.router == W.Waiting {
      var taken := R.Tagged(m, Events(s.batch, k));
      var inbox' := Deliver(s.inbox, taken, k);
      s' := s.(links := s.links[m := l], batch := [], trace := s.trace + taken, inbox := inbox');
    } else {
      s' := s.(links := s.links[m := l], batch := s.batch + l.q.popped[|s.links[m].q.popped|..]);
    }
  }

  /** The link that the router is serving, or one with a readable pipe. */
  lemma NextLink(s: State) returns (m: nat)
    requires OneServed(s.links) && ManagersOut(s) && !AllQuiet(s)
    ensures m < |s.links| && (s.links[m].router != W.Waiting || s.links[m].bytes > 0)
    ensures forall n | 0 <= n < |s.links| && n != m :: s.links[n].router == W.Waiting
  {
    if j :| 0 <= j < |s.links| && s.links[j].router != W.Waiting {
      m := j;
    } else {
      m :| m < |s.links| && !Quiet(s.links[m]);
    }
  }

  lemma LinkStep(l: W.State) returns (l': W.State)
    requires W.Inv(l) && (l.router != W.Waiting || l.bytes > 0)
    ensures W.Route(l, l')
  {
    hide W.Inv;
    if l.router == W.Waiting {
      l' := l.(router := W.CheckFlag);
    } else {
      l' := W.RouterStep(l);
    }
  }

  /** While something is left to do and the managers are out, the router has a step, which leaves less to do. */
  lemma RouterAdvances(s: State, k: Config) returns (s': State)
    requires Inv(s, k) && AllSure(s) && Piped(s) && ManagersOut(s) && !AllQuiet(s)
    ensures Step(s, s', k) && Piped(s') && ManagersOut(s') && SamePushed(s, s')
    ensures Total(s'.links, Works()) < Total(s.links, Works())
  {
    hide W.Inv, W.Sure, R.Received, R.From, Events, W.Route, Work, Route;
    var m := NextLink(s);
    assert LinkOk(s.links[m], m, s.batch, s.trace, k) && W.Sure(s.links[m].q.cpc);
    var l := LinkStep(s.links[m]);
    WorkShrinks(s.links[m], l);
    s' := RouteLink(s, m, l, k);
    TotalUpdate(s.links, m, l, Works());
  }

  /** A manager in the middle of an emit can finish it. */
  lemma ManagerAdvances(s: State, k: Config) returns (s': State)
    requires Inv(s, k) && Piped(s) && !ManagersOut(s)
    ensures Step(s, s', k) && Piped(s') && Further(s, s')
    ensures Total(s'.links, Steps()) < Total(s.links, Steps())
  {
    hide W.Inv, R.Received, R.From, Events, W.Manage, W.ManagerSteps;
    var m: nat :| m < |s.links| && s.links[m].manager != W.Out;
    assert LinkOk(s.links[m], m, s.batch, s.trace, k);
    var l := W.ManagerStep(s.links[m]);
    s' := s.(links := s.links[m := l]);
    assert Manage(s, s', m, l);
    TotalUpdate(s.links, m, l, Steps());
  }

  // ------------------------------------------------------------------------------------------
  // Runs
  // ------------------------------------------------------------------------------------------

  lemma SureStep(s: State, s': State, k: Config)
    requires Inv(s, k) && AllSure(s) && Step(s, s', k)
    ensures AllSure(s')
  {
    hide W.Inv, W.Manage, W.Route, W.Emit, R.Received, R.From, Events;
    if m: nat, l :| Manage(s, s', m, l) {
      LinkSure(s, m, l, k);
    } else {
      var m: nat, l :| Route(s, s', m, l, k);
      LinkSure(s, m, l, k);
    }
  }

  lemma LinkSure(s: State, m: nat, l: W.State, k: Config)
    requires Inv(s, k) && AllSure(s) && m < |s.links|
    requires W.Manage(s.links[m], l) || W.Route(s.links[m], l) || exists v :: W.Emit(s.links[m], l, v)
    ensures W.Sure(l.q.cpc)
  {
    hide W.Inv, W.Manage, W.Route, W.Emit, R.Received, R.From, Events;
    assert LinkOk(s.links[m], m, s.batch, s.trace, k) && W.Sure(s.links[m].q.cpc);
    assert W.Step(s.links[m], l);
    W.StaysSure(s.links[m], l);
  }

  lemma {:induction false} RunIsSure(run: seq<State>, i: nat, k: Config)
    requires IsRun(run, k) && i < |run|
    ensures AllSure(run[i])
  {
    hide Inv, Step, AllSure, Init;
    if i == 0 {
      StartsSure(run[0]);
    } else {
      RunIsSure(run, i - 1, k);
      Application.RunKeeps(run, i - 1, k);
      SureStep(run[i - 1], run[i], k);
    }
  }

  lemma StartsSure(s: State)
    requires Init(s)
    ensures AllSure(s)
  {
    forall m | 0 <= m < |s.links| ensures W.Sure(s.links[m].q.cpc) {
      W.FirstIsAway(s.links[m]);
    }
  }

  lemma Extend(run: seq<State>, s': State, k: Config) returns (run': seq<State>)
    requires IsRun(run, k) && Step(run[|run| - 1], s', k)
    ensures IsRun(run', k) && run' == run + [s']
  {
    hide Step, Init;
    run' := run + [s'];
    forall i | 0 <= i < |run'| - 1 ensures Step(run'[i], run'[i + 1], k) {
      if i < |run| - 1 {
        assert run'[i] == run[i] && run'[i + 1] == run[i + 1];
      }
    }
  }

  /** All managers can finish what they are emitting. */
  lemma {:induction false} ManagersFinish(run: seq<State>, k: Config) returns (run': seq<State>)
    requires IsRun(run, k) && Piped(run[|run| - 1])
    ensures IsRun(run', k) && run <= run' && Piped(run'[|run'| - 1]) && ManagersOut(run'[|run'| - 1])
    ensures Further(run[|run| - 1], run'[|run'| - 1])
    decreases Total(run[|run| - 1].links, Steps())
  {
    hide Inv, Step, Init;
    var s := run[|run| - 1];
    if ManagersOut(s) {
      run' := run;
    } else {
      Application.RunKeeps(run, |run| - 1, k);
      var s' := ManagerAdvances(s, k);
      run' := Extend(run, s', k);
      run' := ManagersFinish(run', k);
    }
  }

  /** The router can then empty all pipes and queues. */
  lemma {:induction false} RouterFinishes(run: seq<State>, k: Config) returns (run': seq<State>)
    requires IsRun(run, k) && Piped(run[|run| - 1]) && ManagersOut(run[|run| - 1])
    ensures IsRun(run', k) && run <= run' && Piped(run'[|run'| - 1]) && AllQuiet(run'[|run'| - 1])
    ensures SamePushed(run[|run| - 1], run'[|run'| - 1])
    decreases Total(run[|run| - 1].links, Works())
  {
    hide Inv, Step, Init, AllSure, Quiet;
    var s := run[|run| - 1];
    if AllQuiet(s) {
      run' := run;
    } else {
      Application.RunKeeps(run, |run| - 1, k);
      RunIsSure(run, |run| - 1, k);
      var s' := RouterAdvances(s, k);
      run' := Extend(run, s', k);
      run' := RouterFinishes(run', k);
    }
  }

  /**
   * From every reachable state in which no pipe has descriptor zero as its source, the application can
   * go on, without any new event, to a state in which all events published so far, and those that were
   * being published, have been routed, each manager's in order, and every living consumer that no type
   * lists twice has received exactly the events of its types that are not its own.
   */
  lemma EventuallyDelivered(run: seq<State>, k: Config) returns (run': seq<State>)
    requires IsRun(run, k) && Piped(run[|run| - 1])
    ensures IsRun(run', k) && run <= run' && Further(run[|run| - 1], run'[|run'| - 1])
    ensures var s := run'[|run'| - 1];
      && (forall m | 0 <= m < |s.links| :: R.From(m, s.trace) == Events(s.links[m].q.pushed, k))
      && forall c | c in k.alive && R.AtMostOnce(k.consumers, c) ::
           R.Of(s.inbox, c) == R.Filtered(c, s.trace, R.TypesOf(k.consumers, c))
  {
    hide Step, Init, R.From, R.Filtered, Events, R.AtMostOnce, R.Of, R.TypesOf;
    var mid := ManagersFinish(run, k);
    run' := RouterFinishes(mid, k);
    var n := |run'| - 1;
    AllRouted(run', n, k);
    forall c | c in k.alive && R.AtMostOnce(k.consumers, c)
      ensures R.Of(run'[n].inbox, c) == R.Filtered(c, run'[n].trace, R.TypesOf(k.consumers, c))
    {
      EverythingIsDelivered(run', n, k, c);
    }
  }
}
