/** The ten-second rule of the controller's own node: when a database outage becomes a fault. */
module NodeFault {
  import opened Base

  type Client = string

  /** A second in the clock's nanoseconds. */
  const SECOND := 1_000_000_000
  const FAULT_AFTER := 10_000_000_000

  datatype State = State(failedSince: Option<int>, databaseFailed: bool, closed: bool, clients: set<Client>,
                         draining: set<Client>, transitions: nat)

  const HEALTHY := State(None, false, false, {}, {}, 0)

  datatype Probe = Probe(now: int, failed: bool)

  datatype Event =
    | Health(probe: Probe)
    | Rejection
    | Login(client: Client, idle: bool)
    | Heartbeat(client: Client)

  function FaultDeclared(s: State): State {
    s.(databaseFailed := true, closed := true, draining := s.draining + s.clients, transitions := s.transitions + 1)
  }

  function Observed(s: State, now: int, failed: bool): State {
    if failed then
      var s1 := if s.failedSince.None? then s.(failedSince := Some(now), closed := true) else s;
      if now - s1.failedSince.value >= FAULT_AFTER && !s1.databaseFailed then FaultDeclared(s1) else s1
    else s.(failedSince := None, databaseFailed := false, closed := false)
  }

  function Take(s: State, e: Event): State {
    match e
    case Health(probe) => Observed(s, probe.now, probe.failed)
    case Rejection => s.(closed := true)
    case Login(client, idle) =>
      s.(clients := s.clients + {client}, draining := if idle && !s.closed then s.draining - {client} else s.draining)
    case Heartbeat(client) =>
      if client in s.clients && s.closed && s.databaseFailed then s.(draining := s.draining + {client}) else s
  }

  function Run(events: seq<Event>): State
    decreases |events|
  {
    if events == [] then HEALTHY else Take(Run(events[..|events| - 1]), events[|events| - 1])
  }

  // ---- The server ------------------------------------------------------------------------

  class Server {
    var failedSince: Option<int>
    var databaseFailed: bool
    var closed: bool
    var clients: set<Client>
    var draining: set<Client>
    ghost var transitions: nat

    ghost function Value(): State
      reads this
    {
      State(failedSince, databaseFailed, closed, clients, draining, transitions)
    }

    method PauseDatabaseAdmission()
      modifies `closed
      ensures closed
    {
      closed := true;
    }

    method TransitionNodeFault(closing: bool)
      modifies `closed, `draining, `transitions
      ensures closed == closing
      ensures draining == if closing then old(draining) + clients else old(draining)
      ensures transitions == old(transitions) + if closing then 1 else 0
    {
      closed := closing;
      if closing {
        var left := clients;
        while left != {}
          invariant left <= clients && closed == closing && transitions == old(transitions)
          invariant draining == old(draining) + (clients - left)
          decreases left
        {
          var c :| c in left;
          left := left - {c};
          draining := draining + {c};
        }
        transitions := transitions + 1;
      }
    }

    method ObserveControllerDatabaseHealth(now: int, failed: bool)
      modifies this
      ensures Value() == Observed(old(Value()), now, failed)
    {
      if failed {
        if failedSince.None? {
          failedSince := Some(now);
          PauseDatabaseAdmission();
        }
        if now - failedSince.value >= FAULT_AFTER {
          var already := databaseFailed;
          databaseFailed := true;
          if !already { TransitionNodeFault(true); }
        }
        return;
      }
      var recovering := closed;
      databaseFailed := false;
      if recovering { TransitionNodeFault(false); }
      failedSince := None;
    }
  }

  // ---- The rule --------------------------------------------------------------------------

  /** The probes among the events, in order. */
  function Probes(events: seq<Event>): seq<Probe> {
    if events == [] then []
    else
      var last := events[|events| - 1];
      Probes(events[..|events| - 1]) + if last.Health? then [last.probe] else []
  }

  /** Probes `k` and later all failed, and `k` is the first of them. */
  ghost predicate OutageFrom(probes: seq<Probe>, k: nat) {
    && k < |probes| && (forall i :: k <= i < |probes| ==> probes[i].failed)
    && (k > 0 ==> !probes[k - 1].failed)
  }

  predicate Lasts(probes: seq<Probe>, k: nat)
    requires k < |probes|
  {
    probes[|probes| - 1].now - probes[k].now >= 10 * SECOND
  }

  /** The last probe ends an unbroken run of failures of at least ten seconds. */
  ghost predicate LongOutage(probes: seq<Probe>) {
    exists k: nat :: OutageFrom(probes, k) && Lasts(probes, k)
  }

  ghost predicate TimeOrdered(probes: seq<Probe>) {
    forall i, j :: 0 <= i < j < |probes| ==> probes[i].now <= probes[j].now
  }

  /** The timer holds the first failure of the run under way. */
  ghost predicate Timed(s: State, probes: seq<Probe>) {
    if probes == [] || !probes[|probes| - 1].failed then s.failedSince.None? && !s.databaseFailed
    else exists k: nat :: OutageFrom(probes, k) && s.failedSince == Some(probes[k].now) && (s.databaseFailed <==> Lasts(probes, k))
  }

  lemma ProbeKeepsTimed(s: State, probes: seq<Probe>, p: Probe)
    requires Timed(s, probes) && TimeOrdered(probes + [p])
    ensures Timed(Observed(s, p.now, p.failed), probes + [p])
  {
    var longer := probes + [p];
    if p.failed {
      if probes == [] || !probes[|probes| - 1].failed {
        assert OutageFrom(longer, |probes|);
      } else {
        var k: nat :| OutageFrom(probes, k) && s.failedSince == Some(probes[k].now) && (s.databaseFailed <==> Lasts(probes, k));
        assert OutageFrom(longer, k) && longer[k] == probes[k];
        assert longer[|probes| - 1].now <= longer[|probes|].now;
      }
    }
  }

  lemma PrefixIsOrdered(events: seq<Event>)
    requires events != [] && TimeOrdered(Probes(events))
    ensures TimeOrdered(Probes(events[..|events| - 1]))
  {
    var init := events[..|events| - 1];
    forall i, j | 0 <= i < j < |Probes(init)| ensures Probes(init)[i].now <= Probes(init)[j].now {
      assert Probes(events)[i] == Probes(init)[i] && Probes(events)[j] == Probes(init)[j];
    }
  }

  lemma {:induction false} RunIsTimed(events: seq<Event>)
    requires TimeOrdered(Probes(events))
    ensures Timed(Run(events), Probes(events))
    decreases |events|
  {
    hide Timed, TimeOrdered;
    if events == [] {
      HealthyIsTimed();
    } else {
      var init, last := events[..|events| - 1], events[|events| - 1];
      PrefixIsOrdered(events);
      RunIsTimed(init);
      if last.Health? {
        ProbeKeepsTimed(Run(init), Probes(init), last.probe);
      } else {
        assert Probes(events) == Probes(init);
        TimedIgnoresRest(Run(init), Run(events), Probes(init));
      }
    }
  }

  lemma HealthyIsTimed()
    ensures Timed(HEALTHY, [])
  {
  }

  lemma TimedIgnoresRest(s: State, s': State, probes: seq<Probe>)
    requires Timed(s, probes) && s'.failedSince == s.failedSince && s'.databaseFailed == s.databaseFailed
    ensures Timed(s', probes)
  {
    if probes != [] && probes[|probes| - 1].failed {
      var k: nat :| OutageFrom(probes, k) && s.failedSince == Some(probes[k].now) && (s.databaseFailed <==> Lasts(probes, k));
      assert OutageFrom(probes, k) && s'.failedSince == Some(probes[k].now) && (s'.databaseFailed <==> Lasts(probes, k));
    }
  }

  lemma OutageIsUnique(probes: seq<Probe>, j: nat, k: nat)
    requires OutageFrom(probes, j) && OutageFrom(probes, k)
    ensures j == k
  {
  }

  /** The fault is declared exactly while the last probe ends an outage of at least ten seconds. */
  lemma TenSecondRule(events: seq<Event>)
    requires TimeOrdered(Probes(events))
    ensures Run(events).databaseFailed <==> LongOutage(Probes(events))
  {
    hide Timed, LongOutage, Run;
    RunIsTimed(events);
    TimedIsFailedIff(Run(events), Probes(events));
  }

  lemma TimedIsFailedIff(s: State, probes: seq<Probe>)
    requires Timed(s, probes)
    ensures s.databaseFailed <==> LongOutage(probes)
  {
    if probes != [] && probes[|probes| - 1].failed {
      var k: nat :| OutageFrom(probes, k) && s.failedSince == Some(probes[k].now) && (s.databaseFailed <==> Lasts(probes, k));
      if LongOutage(probes) {
        var j: nat :| OutageFrom(probes, j) && Lasts(probes, j);
        OutageIsUnique(probes, j, k);
      }
    } else {
      NoOutage(probes);
    }
  }

  lemma NoOutage(probes: seq<Probe>)
    requires probes == [] || !probes[|probes| - 1].failed
    ensures forall k: nat :: !OutageFrom(probes, k)
  {
  }

  /** While no outage lasts ten seconds, nobody drains. */
  lemma {:induction false} ShortOutagesDrainNobody(events: seq<Event>)
    requires TimeOrdered(Probes(events))
    requires forall n :: 0 <= n <= |events| ==> !LongOutage(Probes(events[..n]))
    ensures Run(events).draining == {} && Run(events).transitions == 0
    decreases |events|
  {
    hide LongOutage;
    if events != [] {
      var init, last := events[..|events| - 1], events[|events| - 1];
      forall n | 0 <= n <= |init| ensures !LongOutage(Probes(init[..n])) { assert init[..n] == events[..n]; }
      PrefixIsOrdered(events);
      ShortOutagesDrainNobody(init);
      TenSecondRule(init);
      TenSecondRule(events);
      assert events[..|events|] == events && init[..|init|] == init;
    }
  }

  /** A further event starts a drain exactly when it is the probe with which the outage becomes long. */
  lemma DrainStartsOnce(events: seq<Event>, e: Event)
    requires TimeOrdered(Probes(events + [e]))
    ensures Run(events + [e]).transitions == Run(events).transitions
              + if LongOutage(Probes(events + [e])) && !LongOutage(Probes(events)) then 1 else 0
  {
    hide LongOutage;
    var longer := events + [e];
    assert longer[..|longer| - 1] == events;
    PrefixIsOrdered(longer);
    TenSecondRule(events);
    TenSecondRule(longer);
  }

  // ---- When admission is closed ----------------------------------------------------------

  /** Event `i` closes admission: a failed probe or a request that the database rejected. */
  predicate Closes(e: Event) { e.Rejection? || (e.Health? && e.probe.failed) }

  predicate Reopens(e: Event) { e.Health? && !e.probe.failed }

  /** Since event `i`, which closes admission, no probe has succeeded. */
  ghost predicate ClosedSince(events: seq<Event>, i: nat) {
    i < |events| && Closes(events[i]) && forall j :: i < j < |events| ==> !Reopens(events[j])
  }

  ghost predicate Shut(events: seq<Event>) { exists i: nat :: ClosedSince(events, i) }

  lemma ShutOneMore(events: seq<Event>, e: Event)
    ensures Shut(events + [e]) <==> Closes(e) || (Shut(events) && !Reopens(e))
  {
    var longer := events + [e];
    if Closes(e) { assert ClosedSince(longer, |events|); }
    if Shut(events) && !Reopens(e) {
      var i: nat :| ClosedSince(events, i);
      assert longer[i] == events[i] && ClosedSince(longer, i);
    }
    if Shut(longer) && !Closes(e) {
      var i: nat :| ClosedSince(longer, i);
      assert longer[i] == events[i] && longer[|events|] == e;
      forall j | i < j < |events| ensures !Reopens(events[j]) { assert longer[j] == events[j]; }
      assert ClosedSince(events, i);
    }
  }

  /**
    In every run admission is closed exactly from the first failed probe or rejected request on,
    long before a fault is declared, until the next probe that succeeds.
   */
  lemma {:induction false} ClosedWhileFailing(events: seq<Event>)
    ensures Run(events).closed <==> Shut(events)
    ensures Run(events).failedSince.Some? ==> Run(events).closed
    decreases |events|
  {
    hide Shut;
    if events == [] {
      NothingIsShut();
    } else {
      var init := events[..|events| - 1];
      ClosedWhileFailing(init);
      assert init + [events[|events| - 1]] == events;
      ShutOneMore(init, events[|events| - 1]);
    }
  }

  lemma NothingIsShut()
    ensures !Shut([])
  {
  }

  // ---- Who drains ------------------------------------------------------------------------

  ghost predicate Known(events: seq<Event>, c: Client) { exists i :: 0 <= i < |events| && events[i].Login? && events[i].client == c }

  lemma {:induction false} ClientsAreKnown(events: seq<Event>, c: Client)
    ensures c in Run(events).clients <==> Known(events, c)
    decreases |events|
  {
    if events != [] {
      var init, last := events[..|events| - 1], events[|events| - 1];
      ClientsAreKnown(init, c);
      if Known(init, c) {
        var i :| 0 <= i < |init| && init[i].Login? && init[i].client == c;
        assert events[i] == init[i];
      }
      assert events[|events| - 1] == last;
      assert forall i :: 0 <= i < |init| ==> init[i] == events[i];
    }
  }

  /** The event makes the client drain: it declares the fault, or it is the client's heartbeat during the fault. */
  ghost predicate Marks(before: seq<Event>, e: Event, c: Client) {
    && Known(before, c)
    && if e.Health? then LongOutage(Probes(before + [e])) && !LongOutage(Probes(before))
       else e == Heartbeat(c) && LongOutage(Probes(before))
  }

  /** A login without open proxies ends it, unless admission is closed. */
  ghost predicate Clears(before: seq<Event>, e: Event, c: Client) { e == Login(c, true) && !Shut(before) }

  ghost predicate DrainsSince(events: seq<Event>, i: nat, c: Client) {
    && i < |events| && Marks(events[..i], events[i], c)
    && forall j: nat :: i < j < |events| ==> !Clears(events[..j], events[j], c)
  }

  ghost predicate Drains(events: seq<Event>, c: Client) { exists i: nat :: DrainsSince(events, i, c) }

  lemma DrainsOneMore(events: seq<Event>, e: Event, c: Client)
    ensures Drains(events + [e], c) <==> Marks(events, e, c) || (Drains(events, c) && !Clears(events, e, c))
  {
    hide Marks, Clears;
    var longer := events + [e];
    assert longer[..|events|] == events && longer[|events|] == e;
    assert forall j: nat :: j < |events| ==> longer[..j] == events[..j] && longer[j] == events[j];
    if Marks(events, e, c) { assert DrainsSince(longer, |events|, c); }
    if Drains(events, c) && !Clears(events, e, c) {
      var i: nat :| DrainsSince(events, i, c);
      assert DrainsSince(longer, i, c);
    }
    if Drains(longer, c) && !Marks(events, e, c) {
      var i: nat :| DrainsSince(longer, i, c);
      assert DrainsSince(events, i, c);
    }
  }

  /** What one event does to one client, in terms of the outages alone. */
  lemma DrainingOneMore(events: seq<Event>, e: Event, c: Client)
    requires TimeOrdered(Probes(events + [e]))
    ensures c in Run(events + [e]).draining <==> Marks(events, e, c) || (c in Run(events).draining && !Clears(events, e, c))
  {
    hide LongOutage, Shut, Known;
    var longer := events + [e];
    assert longer[..|longer| - 1] == events;
    PrefixIsOrdered(longer);
    TenSecondRule(events);
    TenSecondRule(longer);
    ClosedWhileFailing(events);
    FaultMeansTimer(events);
    ClientsAreKnown(events, c);
  }

  lemma {:induction false} FaultMeansTimer(events: seq<Event>)
    ensures Run(events).databaseFailed ==> Run(events).failedSince.Some?
    decreases |events|
  {
    if events != [] { FaultMeansTimer(events[..|events| - 1]); }
  }

  /**
    In every run a client drains exactly if it was known when a fault was declared, or sent a
    heartbeat during one, and has not logged in without open proxies at an open moment since.
   */
  lemma {:induction false} DrainingExactly(events: seq<Event>, c: Client)
    requires TimeOrdered(Probes(events))
    ensures c in Run(events).draining <==> Drains(events, c)
    decreases |events|
  {
    hide Drains, Marks, Clears;
    if events == [] {
      NobodyDrains(c);
    } else {
      var init, last := events[..|events| - 1], events[|events| - 1];
      assert init + [last] == events;
      PrefixIsOrdered(events);
      DrainingExactly(init, c);
      DrainingOneMore(init, last, c);
      DrainsOneMore(init, last, c);
    }
  }

  lemma NobodyDrains(c: Client)
    ensures !Drains([], c)
  {
  }
}
