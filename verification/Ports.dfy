/**
  Port exclusivity over whole runs. The bootstrap lock admits one request at a time; its port
  checks and the creation of its lease are separate steps, and between them the clock moves,
  leases expire, and leases are revoked or deleted.
 */
module Ports {
  import opened Base
  import opened EdgeTables
  import opened EdgeState
  import opened Proxies

  datatype Request = Request(token: int, client: string, rows: seq<Proxy>, checked: nat)

  datatype Node = Node(now: int, leases: map<LeaseId, Lease>, request: Option<Request>)

  datatype Step =
    | Ticking(elapsed: nat)
    | Revoking(ids: set<LeaseId>)
    | Deleting(ids: set<LeaseId>)
    | Asking(token: int, client: string, rows: seq<Proxy>)
    | Checking
    | Abandoning
    | Leasing(id: LeaseId, user: UserId, expires: int)

  function Named(rows: seq<Proxy>): seq<(string, Allocation)> {
    seq(|rows|, i requires 0 <= i < |rows| => (rows[i].name, rows[i].Endpoint()))
  }

  function NewLease(r: Request, user: UserId, expires: int): Lease {
    Lease(user, r.token, r.client, true, expires, Collected(Named(r.rows)))
  }

  function Take(n: Node, step: Step): Node {
    match step
    case Ticking(elapsed) => n.(now := n.now + elapsed)
    case Revoking(ids) =>
      n.(leases := map id | id in n.leases :: if id in ids then Deactivated(n.leases[id]) else n.leases[id])
    case Deleting(ids) => n.(leases := n.leases - ids)
    case Asking(token, client, rows) =>
      if n.request.Some? || rows == [] then n else n.(request := Some(Request(token, client, rows, 0)))
    case Checking =>
      if n.request.None? || n.request.value.checked >= |n.request.value.rows| then n
      else
        var r := n.request.value;
        var a := r.rows[r.checked].Endpoint();
        if a in Endpoints(r.rows[..r.checked]) || InUse(n.leases, n.now, r.token, r.client, a) then n.(request := None)
        else n.(request := Some(r.(checked := r.checked + 1)))
    case Abandoning => n.(request := None)
    case Leasing(id, user, expires) =>
      if n.request.None? || n.request.value.checked < |n.request.value.rows| || id in n.leases then n
      else
        var r := n.request.value;
        n.(leases := RevokedFor(n.leases, r.token, r.client)[id := NewLease(r, user, expires)], request := None)
  }

  function Run(n: Node, steps: seq<Step>): Node
    decreases |steps|
  {
    if steps == [] then n else Take(Run(n, steps[..|steps| - 1]), steps[|steps| - 1])
  }

  // ---- The invariant ---------------------------------------------------------------------

  /** No two live leases hold the same protocol and port. */
  ghost predicate Exclusive(n: Node) {
    forall i, j, a :: Live(n.leases, n.now, i) && Live(n.leases, n.now, j) && i != j ==>
      !(Holds(n.leases[i], a) && Holds(n.leases[j], a))
  }

  /** Within a lease, no two proxies hold the same protocol and port. */
  ghost predicate NoSharing(n: Node) { forall id :: id in n.leases ==> Injective(n.leases[id].allocations) }

  ghost predicate Injective<K(!new), V>(m: map<K, V>) { forall x, y :: x in m && y in m && m[x] == m[y] ==> x == y }

  /** What was checked is without repetition and still free for the request. */
  ghost predicate CheckedFree(n: Node) {
    n.request.Some? ==>
      var r := n.request.value;
      r.checked <= |r.rows|
      && (forall i, k :: 0 <= i < k < r.checked ==> r.rows[i].Endpoint() != r.rows[k].Endpoint())
      && forall k :: 0 <= k < r.checked ==> !InUse(n.leases, n.now, r.token, r.client, r.rows[k].Endpoint())
  }

  ghost predicate Good(n: Node) { Exclusive(n) && NoSharing(n) && OnePerClient(n.leases) && CheckedFree(n) }

  /** Fewer live leases, with the same endpoints, keep everything. */
  lemma ShrinkKeeps(n: Node, n': Node)
    requires Good(n) && n'.request == n.request && n.now <= n'.now
    requires forall id :: id in n'.leases ==> id in n.leases && n'.leases[id] == n.leases[id].(active := n'.leases[id].active)
    requires forall id :: id in n'.leases && n'.leases[id].active ==> n.leases[id].active
    ensures Good(n')
  {
    assert forall id :: Live(n'.leases, n'.now, id) ==> Live(n.leases, n.now, id);
    if n'.request.Some? {
      var r := n'.request.value;
      forall k | 0 <= k < r.checked ensures !InUse(n'.leases, n'.now, r.token, r.client, r.rows[k].Endpoint()) {
        assert !InUse(n.leases, n.now, r.token, r.client, r.rows[k].Endpoint());
      }
    }
  }

  lemma {:induction false} CollectedValues<K, V>(rows: seq<(K, V)>, v: V)
    requires v in Collected(rows).Values
    ensures exists i :: 0 <= i < |rows| && rows[i].1 == v
  {
    var init := rows[..|rows| - 1];
    if v in Collected(init).Values {
      CollectedValues(init, v);
      var i :| 0 <= i < |init| && init[i].1 == v;
      assert rows[i].1 == v;
    } else {
      assert rows[|rows| - 1].1 == v;
    }
  }

  /** The endpoints of the new lease are those of the request, all of them checked. */
  lemma NewLeaseIsFree(n: Node, user: UserId, expires: int, a: Allocation)
    requires Good(n) && n.request.Some? && n.request.value.checked >= |n.request.value.rows|
    requires Holds(NewLease(n.request.value, user, expires), a)
    ensures !InUse(n.leases, n.now, n.request.value.token, n.request.value.client, a)
  {
    var r := n.request.value;
    CollectedValues(Named(r.rows), a);
  }

  lemma CreateKeeps(n: Node, id: LeaseId, user: UserId, expires: int)
    requires Good(n) && n.request.Some? && n.request.value.checked >= |n.request.value.rows| && id !in n.leases
    ensures Good(Take(n, Leasing(id, user, expires)))
  {
    hide InUse, NewLease, Injective;
    var r := n.request.value;
    var n' := Take(n, Leasing(id, user, expires));
    NewLeaseShares(n, user, expires);
    forall i, j, a | Live(n'.leases, n'.now, i) && Live(n'.leases, n'.now, j) && i != j
      ensures !(Holds(n'.leases[i], a) && Holds(n'.leases[j], a))
    {
      NewAgainstLive(n, id, user, expires, i, a);
      NewAgainstLive(n, id, user, expires, j, a);
      if i != id && j != id { assert Live(n.leases, n.now, i) && Live(n.leases, n.now, j); }
    }
    NewLeaseOwner(r, user, expires);
  }

  lemma {:induction false} CollectedFrom<K, V>(rows: seq<(K, V)>, k: K) returns (i: nat)
    requires k in Collected(rows)
    ensures i < |rows| && rows[i] == (k, Collected(rows)[k])
  {
    if rows[|rows| - 1].0 == k { i := |rows| - 1; } else { i := CollectedFrom(rows[..|rows| - 1], k); }
  }

  /** The endpoints of the request were checked against each other. */
  lemma NewLeaseShares(n: Node, user: UserId, expires: int)
    requires Good(n) && n.request.Some? && n.request.value.checked >= |n.request.value.rows|
    ensures Injective(NewLease(n.request.value, user, expires).allocations)
  {
    hide InUse;
    var rows := Named(n.request.value.rows);
    var m := Collected(rows);
    forall x, y | x in m && y in m && m[x] == m[y] ensures x == y {
      var i := CollectedFrom(rows, x);
      var j := CollectedFrom(rows, y);
    }
  }

  lemma NewLeaseOwner(r: Request, user: UserId, expires: int)
    ensures NewLease(r, user, expires).token == r.token && NewLease(r, user, expires).client == r.client
  {
  }

  lemma NewAgainstLive(n: Node, id: LeaseId, user: UserId, expires: int, j: LeaseId, a: Allocation)
    requires Good(n) && n.request.Some? && n.request.value.checked >= |n.request.value.rows| && id !in n.leases
    requires j != id ==> Live(Take(n, Leasing(id, user, expires)).leases, n.now, j)
    ensures j != id ==> Live(n.leases, n.now, j)
                        && !(Holds(n.leases[j], a) && Holds(NewLease(n.request.value, user, expires), a))
  {
    if j != id && Holds(n.leases[j], a) && Holds(NewLease(n.request.value, user, expires), a) {
      NewLeaseIsFree(n, user, expires, a);
    }
  }

  lemma StepKeeps(n: Node, step: Step)
    requires Good(n)
    ensures Good(Take(n, step))
  {
    hide InUse, Exclusive, OnePerClient;
    match step
    case Ticking(elapsed) => ShrinkKeeps(n, Take(n, step));
    case Revoking(ids) => ShrinkKeeps(n, Take(n, step));
    case Deleting(ids) => ShrinkKeeps(n, Take(n, step));
    case Leasing(id, user, expires) =>
      if n.request.Some? && n.request.value.checked >= |n.request.value.rows| && id !in n.leases {
        CreateKeeps(n, id, user, expires);
      }
    case _ => SameLeases(n, Take(n, step));
  }

  lemma SameLeases(n: Node, n': Node)
    requires Good(n) && n'.leases == n.leases && n'.now == n.now
    ensures Exclusive(n') && OnePerClient(n'.leases)
  {
  }

  /** At every moment of every run. */
  lemma {:induction false} PortsStayExclusive(n: Node, steps: seq<Step>)
    requires Good(n)
    ensures Exclusive(Run(n, steps)) && NoSharing(Run(n, steps)) && OnePerClient(Run(n, steps).leases) && Good(Run(n, steps))
    decreases |steps|
  {
    if steps != [] {
      PortsStayExclusive(n, steps[..|steps| - 1]);
      StepKeeps(Run(n, steps[..|steps| - 1]), steps[|steps| - 1]);
    }
  }

  /** A node without leases, as after a boot reset, is a good start. */
  lemma EmptyIsGood(now: int)
    ensures Good(Node(now, map[], None))
  {
  }

  // ---- Registered clients ----------------------------------------------------------------

  // The edge finds the registered client by the trimmed id of a request, and then writes the
  // id of its lease untrimmed.

  ghost predicate OnePerRegistered(n: Node) {
    forall i, j :: i in n.leases && j in n.leases && n.leases[i].active && n.leases[j].active && i != j ==>
      n.leases[i].token != n.leases[j].token || TrimSpace(n.leases[i].client) != TrimSpace(n.leases[j].client)
  }

  function Web(port: int): seq<Proxy> { [Proxy("web", "tcp", "127.0.0.1", 80, port, "", "")] }

  /** One bootstrap request for one port, from start to lease. */
  function Bootstrap(client: string, port: int, id: LeaseId): seq<Step> {
    [Asking(1, client, Web(port)), Checking, Leasing(id, 1, 9)]
  }

  lemma RunThree(n: Node, a: Step, b: Step, c: Step)
    ensures Run(n, [a, b, c]) == Take(Take(Take(n, a), b), c)
  {
    assert [a][..0] == [] && Run(n, [a]) == Take(Run(n, []), a);
    assert [a, b][..1] == [a] && Run(n, [a, b]) == Take(Run(n, [a]), b);
    assert [a, b, c][..2] == [a, b] && Run(n, [a, b, c]) == Take(Run(n, [a, b]), c);
  }

  /** Two spellings of one registered client end with two active leases. */
  lemma SpellingsKeepTwoLeases()
    ensures TrimSpace("a") == TrimSpace(" a")
    ensures !OnePerRegistered(Run(Run(Node(0, map[], None), Bootstrap("a", 8080, "x")), Bootstrap(" a", 8081, "y")))
  {
    hide Run, TrimSpace;
    var n0 := Node(0, map[], None);
    BootstrapLeases(n0, "a", 8080, "x");
    var n1 := Run(n0, Bootstrap("a", 8080, "x"));
    WebLease("a", 8080);
    BootstrapLeases(n1, " a", 8081, "y");
    var n2 := Run(n1, Bootstrap(" a", 8081, "y"));
    TwoSpellings();
    assert n2.leases["x"].active && n2.leases["y"].active;
  }

  lemma TwoSpellings()
    ensures TrimSpace("a") == TrimSpace(" a")
  {
    assert " a"[1..] == "a";
    assert TrimLeft(" a") == TrimLeft("a");
  }

  lemma BootstrapLeases(n: Node, client: string, port: int, id: LeaseId)
    requires n.request.None? && id !in n.leases && !InUse(n.leases, n.now, 1, client, Allocation("tcp", port))
    ensures Run(n, Bootstrap(client, port, id))
         == n.(leases := RevokedFor(n.leases, 1, client)[id := NewLease(Request(1, client, Web(port), 1), 1, 9)])
  {
    hide InUse, NewLease;
    RunThree(n, Asking(1, client, Web(port)), Checking, Leasing(id, 1, 9));
    assert Endpoints(Web(port)[..0]) == {};
  }

  lemma WebLease(client: string, port: int)
    ensures forall a :: Holds(NewLease(Request(1, client, Web(port), 1), 1, 9), a) ==> a == Allocation("tcp", port)
  {
    var rows := Named(Web(port));
    assert rows == [("web", Allocation("tcp", port))] && rows[..0] == [];
    assert Collected(rows[..0]) == map[];
    assert Collected(rows) == map["web" := Allocation("tcp", port)];
  }

  /**
    Creating a lease leaves one active lease per registered client exactly when every other
    active lease of that client carries the id spelled the same way.
   */
  lemma OneLeaseIffSameSpelling(n: Node, id: LeaseId, user: UserId, expires: int)
    requires Good(n) && OnePerRegistered(n)
    requires n.request.Some? && n.request.value.checked >= |n.request.value.rows| && id !in n.leases
    ensures OnePerRegistered(Take(n, Leasing(id, user, expires))) <==>
            forall i :: i in n.leases && n.leases[i].active && n.leases[i].token == n.request.value.token
              && TrimSpace(n.leases[i].client) == TrimSpace(n.request.value.client)
              ==> n.leases[i].client == n.request.value.client
  {
    hide TrimLeft, TrimRight, InUse, Exclusive, CheckedFree;
    var r := n.request.value;
    var n' := Take(n, Leasing(id, user, expires));
    forall i | i in n.leases && n.leases[i].active && n.leases[i].token == r.token
               && TrimSpace(n.leases[i].client) == TrimSpace(r.client) && n.leases[i].client != r.client
      ensures !OnePerRegistered(n')
    {
      assert n'.leases[i] == n.leases[i] && n'.leases[id].active;
    }
  }

  ghost predicate TrimmedRequests(steps: seq<Step>) {
    forall i :: 0 <= i < |steps| && steps[i].Asking? ==> TrimSpace(steps[i].client) == steps[i].client
  }

  ghost predicate TrimmedState(n: Node) {
    && (forall i :: i in n.leases ==> TrimSpace(n.leases[i].client) == n.leases[i].client)
    && (n.request.Some? ==> TrimSpace(n.request.value.client) == n.request.value.client)
  }

  lemma TrimmedStep(n: Node, step: Step)
    requires TrimmedState(n) && Good(n)
    requires step.Asking? ==> TrimSpace(step.client) == step.client
    ensures TrimmedState(Take(n, step))
  {
    hide TrimSpace, InUse, Collected, Good;
  }

  /** When every request carries a trimmed id, as the controller's requests do, registered clients have one lease each. */
  lemma {:induction false} TrimmedIdsKeepOneLease(now: int, steps: seq<Step>)
    requires TrimmedRequests(steps)
    ensures OnePerRegistered(Run(Node(now, map[], None), steps)) && TrimmedState(Run(Node(now, map[], None), steps))
    decreases |steps|
  {
    hide TrimSpace, Take, Exclusive, CheckedFree;
    EmptyIsGood(now);
    PortsStayExclusive(Node(now, map[], None), steps);
    if steps != [] {
      var init := steps[..|steps| - 1];
      PortsStayExclusive(Node(now, map[], None), init);
      TrimmedIdsKeepOneLease(now, init);
      TrimmedStep(Run(Node(now, map[], None), init), steps[|steps| - 1]);
    }
  }

  /** The controller trims the id of a request before it uses it. */
  function Received(step: Step): Step { if step.Asking? then step.(client := TrimSpace(step.client)) else step }

  function ReceivedAll(steps: seq<Step>): seq<Step> { seq(|steps|, i requires 0 <= i < |steps| => Received(steps[i])) }

  /** On the controller a registered client has one active lease in every run, however its ids are spelled. */
  lemma ControllerKeepsOneLease(now: int, steps: seq<Step>)
    ensures OnePerRegistered(Run(Node(now, map[], None), ReceivedAll(steps)))
  {
    hide TrimSpace;
    var received := ReceivedAll(steps);
    forall i | 0 <= i < |received| && received[i].Asking? ensures TrimSpace(received[i].client) == received[i].client {
      TrimIsIdempotent(steps[i].client);
    }
    TrimmedIdsKeepOneLease(now, received);
  }

  // ---- Validators and checks -------------------------------------------------------------

  function ChecksOf(n: nat): seq<Step> { seq(n, _ => Checking) }

  /** A request that the validators accept passes every check, one after the other. */
  lemma {:induction false} AcceptedPassesChecks(n: Node, w: Limits, rows: seq<Proxy>, k: nat)
    requires Acceptable(rows, w) && w.leases == n.leases && w.now == n.now && k <= |rows|
    requires n.request == Some(Request(w.token, w.client, rows, 0))
    ensures Run(n, ChecksOf(k)) == n.(request := Some(Request(w.token, w.client, rows, k)))
  {
    hide InUse, Distinct;
    if k > 0 {
      AcceptedPassesChecks(n, w, rows, k - 1);
      assert ChecksOf(k)[..k - 1] == ChecksOf(k - 1);
      assert ProxyOk(rows[k - 1], w);
      OneMoreProxy(rows, k - 1);
    }
  }

  /** The node after a request with these rows is asked, checked row by row, and leased. */
  function Leased(n: Node, w: Limits, rows: seq<Proxy>, id: LeaseId, user: UserId, expires: int): Node {
    Take(Run(Take(n, Asking(w.token, w.client, rows)), ChecksOf(|rows|)), Leasing(id, user, expires))
  }

  lemma AcceptedIsLeased(n: Node, w: Limits, rows: seq<Proxy>, id: LeaseId, user: UserId, expires: int)
    requires Acceptable(rows, w) && w.leases == n.leases && w.now == n.now && n.request.None? && id !in n.leases
    ensures Get(Leased(n, w, rows, id, user, expires).leases, id)
         == Some(Lease(user, w.token, w.client, true, expires, Collected(Named(rows))))
  {
    hide ProxyOk, Distinct, InUse;
    AcceptedPassesChecks(Take(n, Asking(w.token, w.client, rows)), w, rows, |rows|);
  }

  /**
    A permitted request, as it was sent, ends with a lease of its own client that holds, proxy
    by proxy, the name without the white space around it and the remote port that was asked
    for, and nothing else.
   */
  lemma AcceptedGetsItsLease(n: Node, w: Limits, raw: seq<Proxy>, rows: seq<Proxy>, id: LeaseId, user: UserId, expires: int)
    requires Permits(raw, rows, w) && w.leases == n.leases && w.now == n.now && n.request.None? && id !in n.leases
    ensures var leases := Leased(n, w, rows, id, user, expires).leases;
            && id in leases && leases[id].active && leases[id].expires == expires
            && leases[id].user == user && leases[id].token == w.token && leases[id].client == w.client
            && (forall i :: 0 <= i < |raw| ==>
                  && Strips(raw[i].name, rows[i].name) && Spells(raw[i].kind, rows[i].kind)
                  && Get(leases[id].allocations, rows[i].name) == Some(Allocation(rows[i].kind, raw[i].remotePort)))
            && |leases[id].allocations| == |raw|
  {
    hide Acceptable, Strips, Spells, Permits, Leased, Collected, DistinctKeys;
    PermittedIff(raw, rows, w);
    AcceptedIsLeased(n, w, rows, id, user, expires);
    NamesAreKeys(rows, w);
    PermittedRows(raw, rows, w);
    forall i | 0 <= i < |rows| ensures Get(Collected(Named(rows)), rows[i].name) == Some(rows[i].Endpoint()) {
      CollectedAt(Named(rows), i);
    }
    CollectedSize(Named(rows));
  }

  lemma NamesAreKeys(rows: seq<Proxy>, w: Limits)
    requires Acceptable(rows, w)
    ensures DistinctKeys(Named(rows))
  {
  }

  lemma PermittedRows(raw: seq<Proxy>, rows: seq<Proxy>, w: Limits)
    requires Permits(raw, rows, w)
    ensures |rows| == |raw|
    ensures forall i :: 0 <= i < |raw| ==>
      Strips(raw[i].name, rows[i].name) && Spells(raw[i].kind, rows[i].kind) && rows[i].remotePort == raw[i].remotePort
  {
    hide Strips, Spells;
    forall i | 0 <= i < |raw|
      ensures Strips(raw[i].name, rows[i].name) && Spells(raw[i].kind, rows[i].kind) && rows[i].remotePort == raw[i].remotePort
    {
      assert Normalises(raw[i], rows[i]) && Within(rows[i], w.policy.value, w);
    }
  }
}
