/**
  The admission fence and the proxy counters of the forwarding core. A registration holds the
  admission lock for reading from `Begin` to its release; closing, draining and invalidating
  hold it for writing and therefore run only while no registration is in flight.
 */
module Admission {
  import opened Base

  type LeaseId = string
  /** A token and a client id; the program joins them into one map key. */
  datatype Client = Client(token: int, id: string)
  /** A run and a proxy name. */
  datatype ProxyKey = ProxyKey(run: string, name: string)

  datatype Held = Held(client: Client, active: bool)

  datatype State = State(closed: bool, draining: set<Client>, leases: map<LeaseId, Held>,
                         registered: map<ProxyKey, LeaseId>, proxyCounts: map<Client, nat>, leaseCounts: map<LeaseId, nat>,
                         inFlight: map<nat, LeaseId>)

  const INITIAL := State(false, {}, map[], map[], map[], map[], map[])

  datatype Step =
    | SetClosed(closing: bool)
    | Pause
    | Remember(id: LeaseId, lease: Held)
    | Begin(call: nat, id: LeaseId)
    | Opened(call: nat, key: ProxyKey)
    | Release(call: nat)
    | Closed(key: ProxyKey)
    | FinishDrain(client: Client)
    | Invalidate(ids: set<LeaseId>)

  // ---- Counters --------------------------------------------------------------------------

  function Count<K>(m: map<K, nat>, k: K): nat { if k in m then m[k] else 0 }

  function Increased<K>(m: map<K, nat>, k: K): map<K, nat> { m[k := Count(m, k) + 1] }

  /** The last one removes the entry. */
  function Decreased<K>(m: map<K, nat>, k: K): map<K, nat> {
    if Count(m, k) <= 1 then m - {k} else m[k := m[k] - 1]
  }

  /** The client of a lease; an unknown lease reads as the zero record. */
  function ClientOf(leases: map<LeaseId, Held>, id: LeaseId): Client {
    if id in leases then leases[id].client else Client(0, "")
  }

  function Removed(s: State, id: LeaseId): State {
    s.(proxyCounts := Decreased(s.proxyCounts, ClientOf(s.leases, id)), leaseCounts := Decreased(s.leaseCounts, id))
  }

  // ---- Steps -----------------------------------------------------------------------------

  predicate Admits(s: State, id: LeaseId) {
    !s.closed && id in s.leases && s.leases[id].active && s.leases[id].client !in s.draining
  }

  function Clients(leases: map<LeaseId, Held>): set<Client> { set id | id in leases :: leases[id].client }

  function Drained(s: State, client: Client): State {
    if Count(s.proxyCounts, client) > 0 then s
    else s.(draining := s.draining - {client}, leases := map id | id in s.leases && s.leases[id].client != client :: s.leases[id])
  }

  function Invalidated(leases: map<LeaseId, Held>, ids: set<LeaseId>): map<LeaseId, Held> {
    map id | id in leases :: if id in ids then leases[id].(active := false) else leases[id]
  }

  function Remembered(s: State, id: LeaseId, lease: Held): State { s.(leases := s.leases[id := lease]) }

  function Registered(s: State, id: LeaseId, key: ProxyKey): State {
    var s1 := if key in s.registered then Removed(s, s.registered[key]) else s;
    s1.(registered := s.registered[key := id], proxyCounts := Increased(s1.proxyCounts, ClientOf(s.leases, id)),
        leaseCounts := Increased(s1.leaseCounts, id))
  }

  function Unregistered(s: State, key: ProxyKey): State
    requires key in s.registered
  {
    Removed(s, s.registered[key]).(registered := s.registered - {key})
  }

  /** When a step can happen: writers exclude readers, and a lease id belongs to one client for good. */
  predicate Enabled(s: State, step: Step) {
    match step
    case SetClosed(_) => s.inFlight == map[]
    case Pause => s.inFlight == map[]
    case FinishDrain(_) => s.inFlight == map[]
    case Invalidate(_) => s.inFlight == map[]
    case Remember(id, lease) => id in s.leases ==> s.leases[id].client == lease.client
    case Begin(call, _) => call !in s.inFlight
    case Opened(call, key) => call in s.inFlight
    case Release(_) => true
    case Closed(_) => true
  }

  ghost predicate Referenced(s: State) { forall k :: k in s.registered ==> s.registered[k] in s.leases }

  ghost predicate Fenced(s: State) {
    forall call :: call in s.inFlight ==>
      !s.closed && s.inFlight[call] in s.leases && s.leases[s.inFlight[call]].client !in s.draining
  }

  /** The registered proxies whose lease lies in `ids`. */
  function Under(registered: map<ProxyKey, LeaseId>, ids: set<LeaseId>): set<ProxyKey> {
    set k | k in registered && registered[k] in ids
  }

  function LeasesOf(leases: map<LeaseId, Held>, client: Client): set<LeaseId> {
    set id | id in leases && leases[id].client == client
  }

  function OfClient(s: State, client: Client): set<ProxyKey> { Under(s.registered, LeasesOf(s.leases, client)) }

  function OfLease(s: State, id: LeaseId): set<ProxyKey> { Under(s.registered, {id}) }

  lemma UnderOneMore(registered: map<ProxyKey, LeaseId>, ids: set<LeaseId>, key: ProxyKey, id: LeaseId)
    requires key !in registered
    ensures |Under(registered[key := id], ids)| == |Under(registered, ids)| + if id in ids then 1 else 0
  {
    var u := Under(registered, ids);
    assert Under(registered[key := id], ids) == if id in ids then u + {key} else u;
  }

  lemma UnderOneLess(registered: map<ProxyKey, LeaseId>, ids: set<LeaseId>, key: ProxyKey)
    requires key in registered
    ensures |Under(registered - {key}, ids)| == |Under(registered, ids)| - if registered[key] in ids then 1 else 0
  {
    var u := Under(registered, ids);
    assert Under(registered - {key}, ids) == u - {key};
    assert registered[key] in ids <==> key in u;
  }

  /** Every counter is the number of registered proxies it stands for, and none is kept at zero. */
  ghost predicate Counted(s: State) {
    && (forall c: Client :: Count(s.proxyCounts, c) == |OfClient(s, c)|)
    && (forall id: LeaseId :: Count(s.leaseCounts, id) == |OfLease(s, id)|)
    && (forall c :: c in s.proxyCounts ==> s.proxyCounts[c] > 0)
    && (forall id :: id in s.leaseCounts ==> s.leaseCounts[id] > 0)
  }

  ghost predicate Good(s: State) { Referenced(s) && Fenced(s) && Counted(s) }

  function Take(s: State, step: Step): State {
    if !Enabled(s, step) then s
    else
      match step
      case SetClosed(closing) => s.(closed := closing, draining := if closing then s.draining + Clients(s.leases) else s.draining)
      case Pause => s.(closed := true)
      case Remember(id, lease) => Remembered(s, id, lease)
      case Begin(call, id) => if Admits(s, id) then s.(inFlight := s.inFlight[call := id]) else s
      case Opened(call, key) => Registered(s, s.inFlight[call], key)
      case Release(call) => s.(inFlight := s.inFlight - {call})
      case Closed(key) => if key in s.registered then Unregistered(s, key) else s
      case FinishDrain(client) => Drained(s, client)
      case Invalidate(ids) => s.(leases := Invalidated(s.leases, ids))
  }

  // ---- Proofs ----------------------------------------------------------------------------

  /** Taking one proxy out of the registry, whose counters are then one too many for it. */
  lemma UnregisterCounts(s: State, key: ProxyKey)
    requires Referenced(s) && Counted(s) && key in s.registered
    ensures Counted(Unregistered(s, key))
  {
    hide Under;
    var s' := Unregistered(s, key);
    forall c: Client ensures Count(s'.proxyCounts, c) == |OfClient(s', c)| {
      assert Count(s.proxyCounts, c) == |OfClient(s, c)|;
      UnderOneLess(s.registered, LeasesOf(s.leases, c), key);
    }
    forall i: LeaseId ensures Count(s'.leaseCounts, i) == |OfLease(s', i)| {
      assert Count(s.leaseCounts, i) == |OfLease(s, i)|;
      UnderOneLess(s.registered, {i}, key);
    }
  }

  /** Registering a new key. */
  lemma RegisterNewCounts(s: State, id: LeaseId, key: ProxyKey)
    requires Referenced(s) && Counted(s) && id in s.leases && key !in s.registered
    ensures Counted(Registered(s, id, key))
  {
    hide Under;
    var s' := Registered(s, id, key);
    forall c: Client ensures Count(s'.proxyCounts, c) == |OfClient(s', c)| {
      assert Count(s.proxyCounts, c) == |OfClient(s, c)|;
      UnderOneMore(s.registered, LeasesOf(s.leases, c), key, id);
    }
    forall i: LeaseId ensures Count(s'.leaseCounts, i) == |OfLease(s', i)| {
      assert Count(s.leaseCounts, i) == |OfLease(s, i)|;
      UnderOneMore(s.registered, {i}, key, id);
    }
  }

  /** A key that is registered again moves from its old lease to the new one. */
  lemma RegisterCounts(s: State, id: LeaseId, key: ProxyKey)
    requires Referenced(s) && Counted(s) && id in s.leases
    ensures Counted(Registered(s, id, key)) && Referenced(Registered(s, id, key))
  {
    hide Counted;
    if key in s.registered {
      var u := Unregistered(s, key);
      UnregisterCounts(s, key);
      RegisterNewCounts(u, id, key);
      assert u.registered[key := id] == s.registered[key := id];
      assert Registered(u, id, key) == Registered(s, id, key);
    } else {
      RegisterNewCounts(s, id, key);
    }
  }

  lemma SameClientsCount(s: State, s': State)
    requires Referenced(s) && Counted(s)
    requires s'.registered == s.registered && s'.proxyCounts == s.proxyCounts && s'.leaseCounts == s.leaseCounts
    requires forall k :: k in s.registered ==>
               s.registered[k] in s'.leases && s'.leases[s.registered[k]].client == s.leases[s.registered[k]].client
    ensures Counted(s') && Referenced(s')
  {
    forall c: Client ensures OfClient(s', c) == OfClient(s, c) {}
    forall i: LeaseId ensures OfLease(s', i) == OfLease(s, i) {}
  }

  /** Draining deletes no lease that a registered proxy refers to. */
  lemma DrainKeepsReferencedLeases(s: State, client: Client, key: ProxyKey)
    requires Good(s) && key in s.registered
    ensures s.registered[key] in Drained(s, client).leases
    ensures Drained(s, client).leases[s.registered[key]] == s.leases[s.registered[key]]
  {
    if s.leases[s.registered[key]].client == client {
      assert key in OfClient(s, client);
    }
  }

  lemma StepKeeps(s: State, step: Step)
    requires Good(s)
    ensures Good(Take(s, step))
  {
    hide Counted, Registered, Unregistered, Drained;
    if Enabled(s, step) {
      match step
      case Opened(call, key) =>
        RegisterCounts(s, s.inFlight[call], key);
        RegisterMovesNothingElse(s, s.inFlight[call], key);
      case Closed(key) =>
        if key in s.registered {
          UnregisterCounts(s, key);
          UnregisterMovesNothingElse(s, key);
        }
      case FinishDrain(client) => DrainKeeps(s, client);
      case _ => OtherStepKeeps(s, step);
    }
  }

  lemma DrainKeeps(s: State, client: Client)
    requires Good(s) && s.inFlight == map[]
    ensures Good(Drained(s, client))
  {
    hide Counted;
    var s' := Drained(s, client);
    forall k | k in s.registered ensures s.registered[k] in s'.leases && s'.leases[s.registered[k]] == s.leases[s.registered[k]] {
      DrainKeepsReferencedLeases(s, client, k);
    }
    SameClientsCount(s, s');
  }

  lemma OtherStepKeeps(s: State, step: Step)
    requires Good(s) && Enabled(s, step) && !step.Opened? && !step.Closed? && !step.FinishDrain?
    ensures Good(Take(s, step))
  {
    hide Counted, Registered, Unregistered, Drained;
    SameClientsCount(s, Take(s, step));
  }

  lemma RegisterMovesNothingElse(s: State, id: LeaseId, key: ProxyKey)
    requires Referenced(s) && id in s.leases
    ensures var r := Registered(s, id, key);
            r.closed == s.closed && r.draining == s.draining && r.leases == s.leases && r.inFlight == s.inFlight
  {
  }

  lemma UnregisterMovesNothingElse(s: State, key: ProxyKey)
    requires Referenced(s) && key in s.registered
    ensures var r := Unregistered(s, key);
            r.closed == s.closed && r.draining == s.draining && r.leases == s.leases && r.inFlight == s.inFlight
            && r.registered == s.registered - {key}
  {
  }

  lemma InitialIsGood()
    ensures Good(INITIAL)
  {
    forall c: Client ensures OfClient(INITIAL, c) == {} {}
    forall i: LeaseId ensures OfLease(INITIAL, i) == {} {}
  }

  function Run(s: State, steps: seq<Step>): State
    decreases |steps|
  {
    if steps == [] then s else Take(Run(s, steps[..|steps| - 1]), steps[|steps| - 1])
  }

  lemma {:induction false} RunKeeps(s: State, steps: seq<Step>)
    requires Good(s)
    ensures Good(Run(s, steps))
    decreases |steps|
  {
    if steps != [] {
      RunKeeps(s, steps[..|steps| - 1]);
      StepKeeps(Run(s, steps[..|steps| - 1]), steps[|steps| - 1]);
    }
  }

  /** In every run, every counter is exact and every registered proxy has its lease. */
  lemma CountersAreExact(steps: seq<Step>)
    ensures var s := Run(INITIAL, steps);
            && (forall c: Client :: Count(s.proxyCounts, c) == |OfClient(s, c)|)
            && (forall id: LeaseId :: Count(s.leaseCounts, id) == |OfLease(s, id)|)
            && (forall c: Client :: c in s.proxyCounts <==> OfClient(s, c) != {})
            && (forall id: LeaseId :: id in s.leaseCounts <==> OfLease(s, id) != {})
            && (forall k :: k in s.registered ==> s.registered[k] in s.leases)
  {
    InitialIsGood();
    RunKeeps(INITIAL, steps);
  }

  // ---- Leases that move ------------------------------------------------------------------

  /**
    The manager does not compare the client of a lease it is told again. The counters stay exact
    if and only if the lease is new, keeps its client, or has no registered proxy.
   */
  lemma RememberKeepsCountsIff(s: State, id: LeaseId, lease: Held)
    requires Referenced(s) && Counted(s)
    ensures Counted(Remembered(s, id, lease)) <==>
            id !in s.leases || s.leases[id].client == lease.client || OfLease(s, id) == {}
  {
    var s' := Remembered(s, id, lease);
    if id !in s.leases || s.leases[id].client == lease.client || OfLease(s, id) == {} {
      forall c: Client ensures OfClient(s', c) == OfClient(s, c) {
        forall k | k in s.registered ensures k in OfClient(s', c) <==> k in OfClient(s, c) {
          assert s.registered[k] == id ==> k in OfLease(s, id);
        }
      }
      forall i: LeaseId ensures OfLease(s', i) == OfLease(s, i) {}
      forall c: Client ensures Count(s'.proxyCounts, c) == |OfClient(s', c)| { assert Count(s.proxyCounts, c) == |OfClient(s, c)|; }
      forall i: LeaseId ensures Count(s'.leaseCounts, i) == |OfLease(s', i)| { assert Count(s.leaseCounts, i) == |OfLease(s, i)|; }
    } else {
      var c := s.leases[id].client;
      var k := Pick(OfLease(s, id));
      assert k in OfClient(s, c) && k !in OfClient(s', c);
      SubsetCardinality(OfClient(s', c), OfClient(s, c) - {k});
      assert Count(s.proxyCounts, c) == |OfClient(s, c)|;
      assert Count(s'.proxyCounts, c) != |OfClient(s', c)|;
    }
  }

  lemma RunOneMore(s: State, steps: seq<Step>, step: Step)
    ensures Run(s, steps + [step]) == Take(Run(s, steps), step)
  {
    assert (steps + [step])[..|steps|] == steps;
  }

  /** A run that registers a proxy, after which telling the same lease for another client falsifies a counter. */
  lemma MovedLeaseBreaksCounters(a: Client, b: Client, key: ProxyKey)
    requires a != b
    ensures var s := Run(INITIAL, [Remember("l", Held(a, true)), Begin(0, "l"), Opened(0, key)]);
            Good(s) && !Counted(Remembered(s, "l", Held(b, true)))
  {
    var told, begun, done := Remember("l", Held(a, true)), Begin(0, "l"), Opened(0, key);
    assert [told, begun, done] == [] + [told] + [begun] + [done];
    RunOneMore(INITIAL, [], told);
    RunOneMore(INITIAL, [] + [told], begun);
    RunOneMore(INITIAL, [] + [told] + [begun], done);
    InitialIsGood();
    RunKeeps(INITIAL, [told, begun, done]);
    var s := Run(INITIAL, [told, begun, done]);
    hide Run, Counted, Fenced;
    assert key in OfLease(s, "l");
    RememberKeepsCountsIff(s, "l", Held(b, true));
  }

  // ---- The fence -------------------------------------------------------------------------

  lemma ClosedIsIdle(s: State)
    requires Good(s) && s.closed
    ensures s.inFlight == map[]
  {
    assert forall call :: call !in s.inFlight;
  }

  /** While admission is closed and not reopened, nothing is admitted and nothing gets registered. */
  lemma ClosedRegistersNothing(s: State, step: Step)
    requires Good(s) && s.closed && step != SetClosed(false)
    ensures var s' := Take(s, step);
            s'.closed && s'.inFlight == map[] && s'.registered.Keys <= s.registered.Keys
            && forall k :: k in s'.registered ==> s'.registered[k] == s.registered[k]
  {
    ClosedIsIdle(s);
  }

  /** Once admission is closed, and until it is reopened, the registered proxies only become fewer. */
  lemma {:induction false} ClosedUntilReopened(s: State, steps: seq<Step>)
    requires Good(s) && s.closed && SetClosed(false) !in steps
    ensures var s' := Run(s, steps);
            && s'.closed && s'.inFlight == map[]
            && forall k :: k in s'.registered ==> k in s.registered && s'.registered[k] == s.registered[k]
    decreases |steps|
  {
    hide Good, Take;
    if steps != [] {
      var init := steps[..|steps| - 1];
      ClosedUntilReopened(s, init);
      RunKeeps(s, init);
      assert steps[|steps| - 1] in steps;
      ClosedRegistersNothing(Run(s, init), steps[|steps| - 1]);
    } else {
      ClosedIsIdle(s);
    }
  }

  /** No call in flight carries the lease, no later one can, and its proxies are among `before`. */
  ghost predicate Barred(s: State, id: LeaseId, before: set<ProxyKey>) {
    && (forall call :: call in s.inFlight ==> s.inFlight[call] != id)
    && (id in s.leases ==> !s.leases[id].active)
    && OfLease(s, id) <= before
  }

  lemma BarredStays(s: State, step: Step, id: LeaseId, before: set<ProxyKey>)
    requires Barred(s, id, before) && !(step.Remember? && step.id == id)
    ensures Barred(Take(s, step), id, before)
  {
    forall k | k in OfLease(Take(s, step), id) ensures k in OfLease(s, id) {}
  }

  /**
    A revoked lease stays out: from the moment it is invalidated and until it is told again, no
    registration under it is in flight, and the proxies registered under it only become fewer.
   */
  lemma {:induction false} InvalidatedStaysOut(s: State, ids: set<LeaseId>, id: LeaseId, steps: seq<Step>)
    requires Good(s) && Enabled(s, Invalidate(ids)) && id in ids
    requires forall lease :: Remember(id, lease) !in steps
    ensures var s' := Run(Take(s, Invalidate(ids)), steps);
            (forall call :: call in s'.inFlight ==> s'.inFlight[call] != id) && OfLease(s', id) <= OfLease(s, id)
    ensures Barred(Run(Take(s, Invalidate(ids)), steps), id, OfLease(s, id))
    decreases |steps|
  {
    hide Good;
    if steps == [] {
      assert OfLease(Take(s, Invalidate(ids)), id) == OfLease(s, id);
    } else {
      var init, last := steps[..|steps| - 1], steps[|steps| - 1];
      assert last in steps;
      InvalidatedStaysOut(s, ids, id, init);
      BarredStays(Run(Take(s, Invalidate(ids)), init), last, id, OfLease(s, id));
    }
  }

  /** A draining client's count never grows, and only a finished drain with no proxies ends the draining. */
  lemma DrainingNeverGrows(s: State, step: Step, c: Client)
    requires Good(s) && c in s.draining
    ensures |OfClient(Take(s, step), c)| <= |OfClient(s, c)|
    ensures c !in Take(s, step).draining ==> step == FinishDrain(c) && OfClient(s, c) == {}
  {
    hide Counted, Registered, Unregistered;
    var s' := Take(s, step);
    if Enabled(s, step) {
      match step
      case Opened(call, key) =>
        RegisterAddsOnlyItsClient(s, s.inFlight[call], key, c);
        RegisterMovesNothingElse(s, s.inFlight[call], key);
        SubsetCardinality(OfClient(s', c), OfClient(s, c));
      case Closed(key) =>
        if key in s.registered {
          UnregisterMovesNothingElse(s, key);
          SubsetCardinality(OfClient(s', c), OfClient(s, c));
        }
      case FinishDrain(client) =>
        DrainEndsEmpty(s, client);
        SubsetCardinality(OfClient(s', c), OfClient(s, c));
      case _ =>
        assert OfClient(s', c) <= OfClient(s, c);
        SubsetCardinality(OfClient(s', c), OfClient(s, c));
    }
  }

  lemma DrainEndsEmpty(s: State, client: Client)
    requires Good(s)
    ensures Count(s.proxyCounts, client) == |OfClient(s, client)|
  {
  }

  lemma RegisterAddsOnlyItsClient(s: State, id: LeaseId, key: ProxyKey, c: Client)
    requires Referenced(s) && id in s.leases && s.leases[id].client != c
    ensures OfClient(Registered(s, id, key), c) <= OfClient(s, c)
  {
  }

  /** A zero observed while a client drains stays zero until that client's drain is finished. */
  lemma {:induction false} ZeroStaysZero(s: State, steps: seq<Step>, c: Client)
    requires Good(s) && c in s.draining && Count(s.proxyCounts, c) == 0 && FinishDrain(c) !in steps
    ensures c in Run(s, steps).draining && Count(Run(s, steps).proxyCounts, c) == 0
    decreases |steps|
  {
    if steps != [] {
      var init := steps[..|steps| - 1];
      RunKeeps(s, init);
      RunKeeps(s, steps);
      ZeroStaysZero(s, init, c);
      assert steps[|steps| - 1] in steps;
      DrainingNeverGrows(Run(s, init), steps[|steps| - 1], c);
    }
  }

  /** Pausing closes admission and makes nobody drain: only closing does that, and only to clients with a known lease. */
  lemma OnlyClosingDrains(s: State, step: Step, c: Client)
    ensures c in Take(s, step).draining && c !in s.draining ==>
              step == SetClosed(true) && exists id :: id in s.leases && s.leases[id].client == c
    ensures Enabled(s, Pause) ==> Take(s, Pause).closed
  {
    hide Registered, Unregistered;
    if Enabled(s, step) {
      match step
      case Opened(call, key) => RegisterKeepsDraining(s, s.inFlight[call], key);
      case Closed(key) => if key in s.registered { UnregisterKeepsDraining(s, key); }
      case _ =>
    }
  }

  lemma RegisterKeepsDraining(s: State, id: LeaseId, key: ProxyKey)
    ensures Registered(s, id, key).draining == s.draining && Registered(s, id, key).leases == s.leases
  {
  }

  lemma UnregisterKeepsDraining(s: State, key: ProxyKey)
    requires key in s.registered
    ensures Unregistered(s, key).draining == s.draining && Unregistered(s, key).leases == s.leases
  {
  }

  /** A lease that is still known stays active unless it is invalidated by name or told again. */
  lemma OnlyInvalidationRevokes(s: State, step: Step, id: LeaseId)
    requires id in s.leases && s.leases[id].active && id in Take(s, step).leases && !Take(s, step).leases[id].active
    ensures (step.Invalidate? && id in step.ids) || (step.Remember? && step.id == id)
  {
    hide Registered, Unregistered;
    match step
    case Opened(call, key) => if Enabled(s, step) { RegisterKeepsDraining(s, s.inFlight[call], key); }
    case Closed(key) => if key in s.registered { UnregisterKeepsDraining(s, key); }
    case _ =>
  }

  /** Closing makes every known client drain, whatever was in flight before. */
  lemma ClosingDrainsEveryone(s: State, id: LeaseId)
    requires Good(s) && s.inFlight == map[] && id in s.leases
    ensures s.leases[id].client in Take(s, SetClosed(true)).draining
  {
    assert s.leases[id].client in Clients(s.leases);
  }

  // ---- Getting through -------------------------------------------------------------------

  lemma {:induction false} RunAppends(s: State, a: seq<Step>, b: seq<Step>)
    ensures Run(s, a + b) == Run(Run(s, a), b)
    decreases |b|
  {
    hide Take;
    if b == [] {
      assert a + b == a;
    } else {
      assert (a + b)[..|a + b| - 1] == a + b[..|b| - 1];
      RunAppends(s, a, b[..|b| - 1]);
    }
  }

  /** Steps that only let go: of the admission lock, or of a proxy. */
  predicate LetsGo(step: Step) { step.Release? || step.Closed? }

  /** Whoever waits for the admission lock gets it: the registrations in flight can all end. */
  lemma {:induction false} WritersGetThrough(s: State) returns (steps: seq<Step>)
    ensures forall i :: 0 <= i < |steps| ==> steps[i].Release?
    ensures Run(s, steps) == s.(inFlight := map[])
    decreases s.inFlight.Keys
  {
    if s.inFlight == map[] {
      steps := [];
    } else {
      var call := Pick(s.inFlight.Keys);
      var s' := Take(s, Release(call));
      assert call !in s'.inFlight;
      var rest := WritersGetThrough(s');
      steps := [Release(call)] + rest;
      RunAppends(s, [Release(call)], rest);
      assert [Release(call)][..0] == [] && Run(s, [Release(call)]) == Take(Run(s, []), Release(call));
    }
  }

  lemma {:induction false} ProxiesCanClose(s: State, client: Client) returns (steps: seq<Step>)
    requires Good(s)
    ensures forall i :: 0 <= i < |steps| ==> LetsGo(steps[i])
    ensures var s' := Run(s, steps);
            Good(s') && OfClient(s', client) == {} && s'.leases == s.leases && s'.draining == s.draining
            && s'.inFlight == s.inFlight && s'.closed == s.closed
    decreases OfClient(s, client)
  {
    hide Counted, Unregistered;
    steps := [];
    if OfClient(s, client) != {} {
      var key := Pick(OfClient(s, client));
      var s' := Take(s, Closed(key));
      UnregisterMovesNothingElse(s, key);
      StepKeeps(s, Closed(key));
      assert OfClient(s', client) == OfClient(s, client) - {key};
      var rest := ProxiesCanClose(s', client);
      steps := [Closed(key)] + rest;
      RunAppends(s, [Closed(key)], rest);
      assert [Closed(key)][..0] == [] && Run(s, [Closed(key)]) == Take(Run(s, []), Closed(key));
    }
  }

  /**
    Draining comes to its end: once the calls in flight are over and the client's proxies are
    closed, finishing the drain ends it and forgets the client's leases, and only those.
   */
  lemma DrainCompletes(s: State, client: Client) returns (steps: seq<Step>)
    requires Good(s)
    ensures forall i :: 0 <= i < |steps| ==> LetsGo(steps[i])
    ensures var s' := Run(s, steps + [FinishDrain(client)]);
            && s'.draining == s.draining - {client} && s'.closed == s.closed
            && (forall id :: id in s'.leases <==> id in s.leases && s.leases[id].client != client)
            && (forall id :: id in s'.leases ==> s'.leases[id] == s.leases[id])
  {
    hide Counted, Run;
    var releases := WritersGetThrough(s);
    var idle := Run(s, releases);
    IdleIsGood(s, idle);
    var closings := ProxiesCanClose(idle, client);
    steps := releases + closings;
    RunAppends(s, releases, closings);
    RunOneMore(s, steps, FinishDrain(client));
    DrainEndsEmpty(Run(s, steps), client);
  }

  lemma IdleIsGood(s: State, idle: State)
    requires Good(s) && idle == s.(inFlight := map[])
    ensures Good(idle)
  {
    SameClientsCount(s, idle);
  }

  /** After reopening, a registration is admitted exactly for a known, active lease of a client that does not drain. */
  lemma ReopenedAdmitsIff(s: State, call: nat, id: LeaseId)
    requires s.inFlight == map[]
    ensures var s' := Take(Take(s, SetClosed(false)), Begin(call, id));
            && (call in s'.inFlight <==> id in s.leases && s.leases[id].active && s.leases[id].client !in s.draining)
            && (call in s'.inFlight ==> s'.inFlight == map[call := id])
  {
  }

  // ---- The manager -----------------------------------------------------------------------

  class Manager {
    var admissionClosed: bool
    var drainingClients: set<Client>
    var runtimeLeases: map<LeaseId, Held>
    var registeredProxies: map<ProxyKey, LeaseId>
    var proxyCounts: map<Client, nat>
    var leaseProxyCounts: map<LeaseId, nat>
    /** The registrations that hold the admission lock for reading. */
    var readers: map<nat, LeaseId>

    function Value(): State
      reads this
    {
      State(admissionClosed, drainingClients, runtimeLeases, registeredProxies, proxyCounts, leaseProxyCounts, readers)
    }

    method SetAdmissionClosed(closing: bool)
      requires readers == map[]
      modifies `admissionClosed, `drainingClients
      ensures Value() == Take(old(Value()), SetClosed(closing))
      ensures admissionClosed == closing
      ensures forall c :: c in drainingClients <==>
                c in old(drainingClients) || (closing && exists id :: id in runtimeLeases && runtimeLeases[id].client == c)
    {
      admissionClosed := closing;
      if closing {
        var left := runtimeLeases.Keys;
        while left != {}
          invariant left <= runtimeLeases.Keys && admissionClosed == closing
          invariant drainingClients == old(drainingClients) + (set id | id in runtimeLeases.Keys - left :: runtimeLeases[id].client)
          decreases left
        {
          var id :| id in left;
          left := left - {id};
          drainingClients := drainingClients + {runtimeLeases[id].client};
        }
        assert runtimeLeases.Keys - {} == runtimeLeases.Keys;
        assert drainingClients == old(drainingClients) + Clients(runtimeLeases);
      }
    }

    method PauseAdmission()
      requires readers == map[]
      modifies `admissionClosed
      ensures Value() == Take(old(Value()), Pause)
      ensures admissionClosed
    {
      admissionClosed := true;
    }

    method RememberRuntimeLease(id: LeaseId, lease: Held)
      modifies `runtimeLeases
      ensures Value() == Remembered(old(Value()), id, lease)
      ensures Get(runtimeLeases, id) == Some(lease)
    {
      runtimeLeases := runtimeLeases[id := lease];
    }

    method FinishClientDrain(client: Client)
      requires readers == map[]
      modifies `drainingClients, `runtimeLeases
      ensures Value() == Take(old(Value()), FinishDrain(client))
      ensures if Count(proxyCounts, client) > 0 then Value() == old(Value())
              else drainingClients == old(drainingClients) - {client}
                   && (forall id :: id in runtimeLeases <==> id in old(runtimeLeases) && old(runtimeLeases)[id].client != client)
                   && (forall id :: id in runtimeLeases ==> runtimeLeases[id] == old(runtimeLeases)[id])
    {
      if client in proxyCounts && proxyCounts[client] > 0 {
        assert Drained(old(Value()), client) == old(Value());
        return;
      }
      drainingClients := drainingClients - {client};
      var left := runtimeLeases.Keys;
      while left != {}
        invariant left <= runtimeLeases.Keys <= old(runtimeLeases).Keys && drainingClients == old(drainingClients) - {client}
        invariant forall id :: id in runtimeLeases ==> runtimeLeases[id] == old(runtimeLeases)[id]
        invariant forall id :: id in old(runtimeLeases) && id !in left ==>
                    (id in runtimeLeases <==> old(runtimeLeases)[id].client != client)
        decreases left
      {
        var id :| id in left;
        left := left - {id};
        if runtimeLeases[id].client == client { runtimeLeases := runtimeLeases - {id}; }
      }
      assert runtimeLeases == Drained(old(Value()), client).leases;
    }

    method BeginRegistration(call: nat, id: LeaseId) returns (ok: bool)
      requires call !in readers
      modifies `readers
      ensures Value() == Take(old(Value()), Begin(call, id))
      ensures ok <==> !admissionClosed && id in runtimeLeases && runtimeLeases[id].active && runtimeLeases[id].client !in drainingClients
      ensures readers == if ok then old(readers)[call := id] else old(readers)
    {
      var known := id in runtimeLeases;
      if admissionClosed || !known || !runtimeLeases[id].active || runtimeLeases[id].client in drainingClients { return false; }
      readers := readers[call := id];
      return true;
    }

    method RemoveProxyCount(id: LeaseId)
      modifies `proxyCounts, `leaseProxyCounts
      ensures Value() == Removed(old(Value()), id)
    {
      var client := ClientOf(runtimeLeases, id);
      if client !in proxyCounts || proxyCounts[client] <= 1 {
        proxyCounts := proxyCounts - {client};
      } else {
        proxyCounts := proxyCounts[client := proxyCounts[client] - 1];
      }
      if id !in leaseProxyCounts || leaseProxyCounts[id] <= 1 {
        leaseProxyCounts := leaseProxyCounts - {id};
      } else {
        leaseProxyCounts := leaseProxyCounts[id := leaseProxyCounts[id] - 1];
      }
    }

    method ProxyOpened(call: nat, key: ProxyKey)
      requires call in readers
      modifies `registeredProxies, `proxyCounts, `leaseProxyCounts
      ensures Value() == Take(old(Value()), Opened(call, key))
      ensures registeredProxies == old(registeredProxies)[key := readers[call]]
    {
      var id := readers[call];
      if key in registeredProxies { RemoveProxyCount(registeredProxies[key]); }
      registeredProxies := registeredProxies[key := id];
      AddProxyCount(id);
    }

    method AddProxyCount(id: LeaseId)
      modifies `proxyCounts, `leaseProxyCounts
      ensures proxyCounts == Increased(old(proxyCounts), ClientOf(runtimeLeases, id))
      ensures leaseProxyCounts == Increased(old(leaseProxyCounts), id)
    {
      var client := ClientOf(runtimeLeases, id);
      proxyCounts := proxyCounts[client := (if client in proxyCounts then proxyCounts[client] else 0) + 1];
      leaseProxyCounts := leaseProxyCounts[id := (if id in leaseProxyCounts then leaseProxyCounts[id] else 0) + 1];
    }

    method ProxyClosed(key: ProxyKey)
      modifies `registeredProxies, `proxyCounts, `leaseProxyCounts
      ensures Value() == Take(old(Value()), Closed(key))
      ensures registeredProxies == old(registeredProxies) - {key}
    {
      if key in registeredProxies {
        RemoveProxyCount(registeredProxies[key]);
        registeredProxies := registeredProxies - {key};
      }
    }

    method InvalidateRuntime(ids: set<LeaseId>)
      requires readers == map[]
      modifies `runtimeLeases
      ensures Value() == Take(old(Value()), Invalidate(ids))
      ensures runtimeLeases.Keys == old(runtimeLeases).Keys
      ensures forall id :: id in runtimeLeases ==>
                runtimeLeases[id] == if id in ids then old(runtimeLeases)[id].(active := false) else old(runtimeLeases)[id]
    {
      var left := runtimeLeases.Keys;
      while left != {}
        invariant left <= runtimeLeases.Keys == old(runtimeLeases).Keys
        invariant forall id :: id in runtimeLeases ==>
                    runtimeLeases[id] == if id in ids && id !in left then old(runtimeLeases)[id].(active := false)
                                         else old(runtimeLeases)[id]
        decreases left
      {
        var id :| id in left;
        left := left - {id};
        if id in ids { runtimeLeases := runtimeLeases[id := runtimeLeases[id].(active := false)]; }
      }
      assert runtimeLeases == Invalidated(old(runtimeLeases), ids);
    }
  }
}
