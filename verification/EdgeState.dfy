/**
  The edge database: applying an identity snapshot to the cached tables, discarding them, and
  the runtime leases that must not outlive the credential they were issued under.
 */
module EdgeState {
  import opened Base
  import opened Identities
  import opened EdgeTables
  import SyncProtocol

  type LeaseId = string

  datatype Allocation = Allocation(kind: string, port: int)

  datatype Lease = Lease(user: UserId, token: int, client: string, active: bool, expires: int,
                         allocations: map<string, Allocation>)

  datatype State = State(tables: Tables, blocked: map<Ip, Block>, lastRevision: Option<int>, resetPending: bool,
                         leases: map<LeaseId, Lease>, issuers: map<LeaseId, string>)

  /** A snapshot as it is decoded: one list of rows per table. */
  datatype Batch = Batch(revision: int, incremental: bool, baseline: bool, baselineEnd: bool, enforced: bool,
                         users: seq<(UserId, Account)>, tokens: seq<(int, Token)>, policies: seq<(UserId, Policy)>,
                         grants: seq<(int, Grant)>, dpi: seq<(UserId, string)>, removed: seq<UserId>,
                         replaceBlocked: bool, blocked: seq<(Ip, Block)>, removedBlocked: seq<Ip>)

  const NOT_ENFORCED := "中心尚未同步节点权限，请升级中心服务端"

  // ---- Applying a snapshot ---------------------------------------------------------------

  function Shown(enforced: bool, users: seq<(UserId, Account)>): seq<(UserId, Account)> {
    if enforced then users
    else seq(|users|, i requires 0 <= i < |users| => (users[i].0, users[i].1.(status := "banned", banReason := NOT_ENFORCED)))
  }

  function Rows(b: Batch): Tables {
    Tables(Collected(Shown(b.enforced, b.users)), Collected(b.tokens), Collected(b.policies), Collected(b.grants), Collected(b.dpi))
  }

  /** The controller's view of the same message. */
  function SnapshotOf(b: Batch): Snapshot
    requires b.revision >= 0
  {
    Snapshot(b.revision, b.incremental, b.baseline, b.baselineEnd, View(Rows(b)), Elements(b.removed),
             b.replaceBlocked, Collected(b.blocked), Elements(b.removedBlocked))
  }

  predicate HeaderOk(st: State, b: Batch) {
    && (b.baseline ==> st.resetPending)
    && !(b.baseline && b.incremental)
    && b.revision > 0
    && (b.baseline && st.lastRevision.Some? ==> b.revision > st.lastRevision.value)
    && (b.incremental ==> st.lastRevision.Some? && b.revision > st.lastRevision.value)
  }

  function Touched(b: Batch): seq<UserId> { b.removed + Ids(b.users) }

  function Ids<V>(rows: seq<(UserId, V)>): seq<UserId> { seq(|rows|, i requires 0 <= i < |rows| => rows[i].0) }

  function Kept(t: Tables, b: Batch): Tables {
    if b.incremental then Without(t, Elements(Touched(b))) else if b.baseline then t else EMPTY
  }

  predicate UniqueHashes(tokens: map<int, Token>) {
    forall i, j :: i in tokens && j in tokens && i != j ==> tokens[i].hash != tokens[j].hash
  }

  /** No row is rejected by a primary key or by the unique token hash. */
  ghost predicate Insertable(t: Tables, b: Batch) {
    && DistinctKeys(Shown(b.enforced, b.users)) && DistinctKeys(b.tokens) && DistinctKeys(b.policies)
    && DistinctKeys(b.grants) && DistinctKeys(b.dpi)
    && Disjoint(t, Rows(b)) && UniqueHashes(t.tokens + Rows(b).tokens)
  }

  function Deactivated(l: Lease): Lease { l.(active := false) }

  predicate Rotates(cached: map<int, Token>, rows: seq<(int, Token)>, token: int) {
    exists i :: 0 <= i < |rows| && rows[i].0 == token && token in cached && cached[token].hash != rows[i].1.hash
  }

  function Rotated(leases: map<LeaseId, Lease>, cached: map<int, Token>, rows: seq<(int, Token)>): map<LeaseId, Lease> {
    map id | id in leases :: if Rotates(cached, rows, leases[id].token) then Deactivated(leases[id]) else leases[id]
  }

  /** The identity behind a lease is cached, usable, and the one that issued it. */
  predicate Backed(t: Tables, issuers: map<LeaseId, string>, id: LeaseId, l: Lease, now: int) {
    && l.user in t.users && t.users[l.user].status == "active" && t.users[l.user].role == "user"
    && l.user in t.policies && t.policies[l.user].enabled
    && l.token in t.tokens && t.tokens[l.token].user == l.user && t.tokens[l.token].status == "active"
    && (t.tokens[l.token].expiresAt.Some? ==> t.tokens[l.token].expiresAt.value > now)
    && (id in issuers ==> t.tokens[l.token].hash == issuers[id])
  }

  function Swept(leases: map<LeaseId, Lease>, t: Tables, issuers: map<LeaseId, string>, now: int): map<LeaseId, Lease> {
    map id | id in leases :: if Backed(t, issuers, id, leases[id], now) then leases[id] else Deactivated(leases[id])
  }

  function BlockedAfter(st: State, b: Batch): map<Ip, Block> {
    var replace := b.replaceBlocked || (!b.incremental && (!b.baseline || b.baselineEnd));
    ((if replace then map[] else st.blocked) + Collected(b.blocked)) - Elements(b.removedBlocked)
  }

  ghost function Apply(st: State, b: Batch, now: int): Option<State> {
    var kept := Kept(st.tables, b);
    if !HeaderOk(st, b) || !Insertable(kept, b) then None
    else
      var t := Plus(kept, Rows(b));
      var rotated := Rotated(st.leases, st.tables.tokens, b.tokens);
      Some(st.(tables := t, blocked := BlockedAfter(st, b), lastRevision := Some(b.revision),
               resetPending := st.resetPending && (b.incremental || (b.baseline && !b.baselineEnd)),
               leases := if !b.baseline || b.baselineEnd then Swept(rotated, t, st.issuers, now) else rotated))
  }

  // ---- The other operations --------------------------------------------------------------

  function Reset(st: State, boot: bool, commits: bool): State {
    if !commits then st.(resetPending := true)
    else State(EMPTY, map[], None, true, if boot then map[] else st.leases, if boot then map[] else st.issuers)
  }

  function RevokedFor(leases: map<LeaseId, Lease>, token: int, client: string): map<LeaseId, Lease> {
    map id | id in leases ::
      if leases[id].token == token && leases[id].client == client then Deactivated(leases[id]) else leases[id]
  }

  ghost function Create(st: State, id: LeaseId, user: UserId, token: int, client: string, expires: int,
                        rows: seq<(string, Allocation)>): Option<State> {
    if st.resetPending || id in st.leases || id in st.issuers || token !in st.tables.tokens || !DistinctKeys(rows) then None
    else
      Some(st.(leases := RevokedFor(st.leases, token, client)[id := Lease(user, token, client, true, expires, Collected(rows))],
               issuers := st.issuers[id := st.tables.tokens[token].hash]))
  }

  function Revoke(st: State, ids: set<LeaseId>): State {
    st.(leases := map id | id in st.leases :: if id in ids then Deactivated(st.leases[id]) else st.leases[id])
  }

  // ---- The cache of the protocol ---------------------------------------------------------

  ghost predicate Represents(st: State, e: SyncProtocol.Edge) {
    && Closed(st.tables) && e.cache == View(st.tables) && e.blocked == st.blocked && e.resetPending == st.resetPending
    && (st.lastRevision.Some? <==> e.lastRevision.Some?)
    && (st.lastRevision.Some? ==> st.lastRevision.value == e.lastRevision.value)
  }

  /**
    The statements over the five tables do to the users' records what the protocol says: a
    snapshot that commits is one the protocol accepts, and the records, the blacklist, the
    revision and the reset flag afterwards are those of `SyncProtocol.Applied`.
   */
  lemma ApplyRefinesProtocol(st: State, b: Batch, now: int, e: SyncProtocol.Edge)
    requires Represents(st, e) && Closed(Rows(b)) && Apply(st, b, now).Some?
    ensures SyncProtocol.Accepts(e, SnapshotOf(b))
    ensures Represents(Apply(st, b, now).value, SyncProtocol.Applied(e, SnapshotOf(b)))
  {
    hide Closed, View, Rotated, Swept, Collected, Plus, Kept, Rows, Insertable, SyncProtocol.CacheAfter;
    InsertedView(st.tables, b);
    ViewKeys(st.tables);
    ViewKeys(Rows(b));
    assert Insertable(Kept(st.tables, b), b);
    BaselineIsDisjoint(st.tables, b);
  }

  /** Discarding the cache, at boot or on a reconnect, is the protocol's; a failed transaction leaves only the flag. */
  lemma ResetRefinesProtocol(st: State, boot: bool, commits: bool, e: SyncProtocol.Edge)
    requires Represents(st, e)
    ensures Represents(Reset(st, boot, commits), if commits then SyncProtocol.Emptied(e) else e.(resetPending := true))
  {
    EmptyIsClosed();
  }

  lemma BaselineIsDisjoint(t: Tables, b: Batch)
    requires !(b.baseline && b.incremental) && Insertable(Kept(t, b), b)
    ensures b.baseline ==> Rows(b).users.Keys !! t.users.Keys
  {
  }

  lemma InsertedView(t: Tables, b: Batch)
    requires Closed(t) && Closed(Rows(b)) && Insertable(Kept(t, b), b) && b.revision >= 0
    ensures Closed(Plus(Kept(t, b), Rows(b)))
    ensures View(Plus(Kept(t, b), Rows(b))) == SyncProtocol.CacheAfter(View(t), SnapshotOf(b))
  {
    hide Closed, View, Collected, Plus, Kept, Rows;
    KeptView(t, b);
    PlusIsUnion(Kept(t, b), Rows(b));
    ViewKeys(Rows(b));
  }

  lemma ViewKeys(t: Tables)
    ensures View(t).Keys == t.users.Keys
  {
  }

  lemma EmptyIsClosed()
    ensures Closed(EMPTY) && View(EMPTY) == map[]
  {
  }

  lemma ShownKeys(b: Batch)
    ensures Rows(b).users.Keys == Elements(Ids(b.users))
  {
    var rows := Shown(b.enforced, b.users);
    CollectedKeys(rows);
    forall u ensures u in Collected(rows) <==> u in Ids(b.users) {
      if u in Collected(rows) {
        var i :| 0 <= i < |rows| && rows[i].0 == u;
        assert Ids(b.users)[i] == u;
      }
      if u in Ids(b.users) {
        var i :| 0 <= i < |Ids(b.users)| && Ids(b.users)[i] == u;
        assert rows[i].0 == u;
      }
    }
  }

  lemma KeptView(t: Tables, b: Batch)
    requires Closed(t)
    ensures var kept := Kept(t, b);
            && Closed(kept)
            && View(kept) == if b.incremental then View(t) - (Elements(b.removed) + Rows(b).users.Keys)
                             else if b.baseline then View(t) else map[]
  {
    hide Closed, View;
    EmptyIsClosed();
    ShownKeys(b);
    if b.incremental {
      WithoutIsRemoval(t, Elements(Touched(b)));
      assert Elements(Touched(b)) == Elements(b.removed) + Elements(Ids(b.users));
    }
  }

  /** Every row of the message belongs to a user of the message, and no row belongs to somebody the message leaves alone. */
  ghost predicate RowsStayWithOwners(t: Tables, b: Batch) {
    && Closed(Rows(b)) && UniqueHashes(t.tokens) && UniqueHashes(Rows(b).tokens)
    && DistinctKeys(Shown(b.enforced, b.users)) && DistinctKeys(b.tokens) && DistinctKeys(b.policies)
    && DistinctKeys(b.grants) && DistinctKeys(b.dpi)
    && (forall k :: k in t.tokens && t.tokens[k].user !in Touched(b) ==>
          k !in Rows(b).tokens && forall j :: j in Rows(b).tokens ==> Rows(b).tokens[j].hash != t.tokens[k].hash)
    && (forall g :: g in t.grants && g in Rows(b).grants ==> g in GrantsOf(t, Elements(Touched(b))))
  }

  /**
    Conversely, an increment that the protocol accepts commits whenever ids and hashes of tokens
    and grants never move between users: its own deletions make room for all of its rows.
   */
  lemma AcceptedIncrementCommits(st: State, b: Batch, now: int, e: SyncProtocol.Edge)
    requires Represents(st, e) && b.revision >= 0 && b.incremental && SyncProtocol.Accepts(e, SnapshotOf(b))
    requires RowsStayWithOwners(st.tables, b)
    ensures Apply(st, b, now).Some?
  {
    hide View, Collected, DistinctKeys, Rotated, Swept;
    ShownKeys(b);
    var t, d := st.tables, Rows(b);
    var kept := Kept(t, b);
    forall k | k in kept.tokens ensures k !in d.tokens && t.tokens[k].user !in Touched(b) {
      assert k !in TokensOf(t, Elements(Touched(b)));
    }
    UniqueTogether(kept.tokens, d.tokens);
    assert kept.policies.Keys !! d.policies.Keys && kept.dpi.Keys !! d.dpi.Keys && kept.users.Keys !! d.users.Keys;
    forall g | g in kept.grants ensures g !in d.grants {
      assert g in t.grants && g !in GrantsOf(t, Elements(Touched(b)));
    }
    assert Insertable(kept, b);
    assert HeaderOk(st, b);
  }

  lemma UniqueTogether(a: map<int, Token>, b: map<int, Token>)
    requires UniqueHashes(a) && UniqueHashes(b)
    requires forall k, j :: k in a && j in b ==> k != j && a[k].hash != b[j].hash
    ensures UniqueHashes(a + b)
  {
  }

  // ---- Leases and credentials ------------------------------------------------------------

  /** While no reset is pending, every active lease was issued under the hash now cached for its token. */
  ghost predicate Credentialed(st: State) {
    !st.resetPending ==> forall id :: id in st.leases && st.leases[id].active ==>
      && id in st.issuers && st.leases[id].token in st.tables.tokens
      && st.tables.tokens[st.leases[id].token].hash == st.issuers[id]
  }

  ghost predicate Issued(st: State) { st.leases.Keys == st.issuers.Keys }

  datatype Action =
    | Applies(batch: Batch, now: int)
    | Resets(boot: bool, commits: bool)
    | Creates(id: LeaseId, user: UserId, token: int, client: string, expires: int, rows: seq<(string, Allocation)>)
    | Revokes(ids: set<LeaseId>)

  /** A failed transaction leaves everything as it was. */
  ghost function Do(st: State, a: Action): State {
    match a
    case Applies(batch, now) => var r := Apply(st, batch, now); if r.Some? then r.value else st
    case Resets(boot, commits) => Reset(st, boot, commits)
    case Creates(id, user, token, client, expires, rows) =>
      var r := Create(st, id, user, token, client, expires, rows); if r.Some? then r.value else st
    case Revokes(ids) => Revoke(st, ids)
  }

  ghost function Run(st: State, actions: seq<Action>): State
    decreases |actions|
  {
    if actions == [] then st else Do(Run(st, actions[..|actions| - 1]), actions[|actions| - 1])
  }

  lemma ApplyKeepsCredentials(st: State, b: Batch, now: int)
    requires Credentialed(st) && Issued(st) && Apply(st, b, now).Some?
    ensures Credentialed(Apply(st, b, now).value) && Issued(Apply(st, b, now).value)
  {
    hide Insertable, Rotates, Plus, Kept, Rows, BlockedAfter;
    var st' := Apply(st, b, now).value;
    assert st'.leases.Keys == st.leases.Keys;
    if !b.baseline || b.baselineEnd {
      var rotated := Rotated(st.leases, st.tables.tokens, b.tokens);
      forall id | id in st'.leases && st'.leases[id].active
        ensures st'.leases[id].token in st'.tables.tokens && st'.tables.tokens[st'.leases[id].token].hash == st'.issuers[id]
      {
        assert Backed(st'.tables, st.issuers, id, rotated[id], now);
      }
    }
  }

  /** The records let the holder of the lease work: an active user with an enabled policy, and the very token that issued it, active and unexpired. */
  ghost predicate Entitled(records: map<UserId, Identity>, issuer: string, l: Lease, now: int) {
    && l.user in records
    && var r := records[l.user];
       && r.account.status == "active" && r.account.role == "user" && r.policy.Some? && r.policy.value.enabled
       && l.token in r.tokens
       && var k := r.tokens[l.token];
          k.status == "active" && k.hash == issuer && (k.expiresAt == None || now < k.expiresAt.value)
  }

  /** Outside a reset, and on the closing page of one, exactly the leases whose holder the records no longer entitle are revoked. */
  lemma ApplyRevokesExactly(st: State, b: Batch, now: int, id: LeaseId)
    requires Credentialed(st) && Issued(st) && Apply(st, b, now).Some? && id in st.leases
    requires if b.baseline then b.baselineEnd else !st.resetPending
    ensures var st' := Apply(st, b, now).value;
            id in st'.leases
            && (st'.leases[id].active <==> st.leases[id].active && Entitled(View(st'.tables), st.issuers[id], st.leases[id], now))
  {
    hide Insertable, BlockedAfter, Backed, Plus, Kept, Rows, View, Entitled;
    var l := st.leases[id];
    var t := Apply(st, b, now).value.tables;
    BackedIsEntitled(t, st.issuers, id, l, now);
    if l.active && Rotates(st.tables.tokens, b.tokens, l.token) {
      var i :| 0 <= i < |b.tokens| && b.tokens[i].0 == l.token && st.tables.tokens[l.token].hash != b.tokens[i].1.hash;
      RowArrives(st.tables, b, i);
      NotEntitled(t, st.issuers[id], l, now);
    }
  }

  lemma BackedIsEntitled(t: Tables, issuers: map<LeaseId, string>, id: LeaseId, l: Lease, now: int)
    requires id in issuers
    ensures Backed(t, issuers, id, l, now) <==> Entitled(View(t), issuers[id], l, now)
  {
    assert l.user in t.users ==> View(t)[l.user] == Record(t, l.user);
    assert l.token in TokensOf(t, {l.user}) <==> l.token in t.tokens && t.tokens[l.token].user == l.user;
  }

  lemma NotEntitled(t: Tables, issuer: string, l: Lease, now: int)
    requires l.token in t.tokens && t.tokens[l.token].hash != issuer
    ensures !Entitled(View(t), issuer, l, now)
  {
  }

  lemma RowArrives(t: Tables, b: Batch, i: nat)
    requires Insertable(Kept(t, b), b) && i < |b.tokens|
    ensures var t' := Plus(Kept(t, b), Rows(b)); b.tokens[i].0 in t'.tokens && t'.tokens[b.tokens[i].0] == b.tokens[i].1
    ensures b.baseline && !b.incremental ==> b.tokens[i].0 !in t.tokens
  {
    CollectedAt(b.tokens, i);
  }

  /** A message that removes a user, bans it, gives it another role, or comes from a controller that does not enforce access. */
  predicate LocksOut(b: Batch, u: UserId) {
    || (u in b.removed && u !in Ids(b.users))
    || exists i :: 0 <= i < |b.users| && b.users[i].0 == u
                   && (b.users[i].1.status != "active" || b.users[i].1.role != "user" || !b.enforced)
  }

  /** After such an increment the user has no active lease, whatever was cached before. */
  lemma LockedOutLosesLeases(st: State, b: Batch, now: int, u: UserId)
    requires Apply(st, b, now).Some? && b.incremental && LocksOut(b, u)
    ensures var leases := Apply(st, b, now).value.leases;
            forall id :: id in leases && leases[id].user == u ==> !leases[id].active
  {
    hide Rotated, BlockedAfter;
    var rows := Shown(b.enforced, b.users);
    if i :| 0 <= i < |b.users| && b.users[i].0 == u
            && (b.users[i].1.status != "active" || b.users[i].1.role != "user" || !b.enforced) {
      CollectedAt(rows, i);
    } else {
      ShownKeys(b);
      assert u in Touched(b);
    }
  }

  /** A message that brings a new hash for a cached token ends every lease of the token, also one without an issuing record. */
  lemma RotationEndsLeases(st: State, b: Batch, now: int, i: nat)
    requires Apply(st, b, now).Some? && i < |b.tokens|
    requires b.tokens[i].0 in st.tables.tokens && st.tables.tokens[b.tokens[i].0].hash != b.tokens[i].1.hash
    ensures var leases := Apply(st, b, now).value.leases;
            forall id :: id in leases && leases[id].token == b.tokens[i].0 ==> !leases[id].active
  {
    hide Insertable, BlockedAfter, Backed;
    assert Rotates(st.tables.tokens, b.tokens, b.tokens[i].0);
  }

  lemma {:induction false} CollectedAt<K, V>(rows: seq<(K, V)>, i: nat)
    requires DistinctKeys(rows) && i < |rows|
    ensures rows[i].0 in Collected(rows) && Collected(rows)[rows[i].0] == rows[i].1
  {
    if i < |rows| - 1 { CollectedAt(rows[..|rows| - 1], i); }
  }

  lemma StepKeepsCredentials(st: State, a: Action)
    requires Credentialed(st) && Issued(st)
    ensures Credentialed(Do(st, a)) && Issued(Do(st, a))
  {
    hide Apply, DistinctKeys, Collected;
    match a
    case Applies(batch, now) => if Apply(st, batch, now).Some? { ApplyKeepsCredentials(st, batch, now); }
    case _ =>
  }

  /**
    Whatever the database held before the boot reset and whatever happens after it: rotations
    while disconnected, resets, lost transactions, new leases.
   */
  lemma {:induction false} LeasesKeepTheirCredential(before: State, actions: seq<Action>)
    ensures Credentialed(Run(Reset(before, true, true), actions))
    ensures Issued(Run(Reset(before, true, true), actions))
    decreases |actions|
  {
    if actions != [] {
      LeasesKeepTheirCredential(before, actions[..|actions| - 1]);
      StepKeepsCredentials(Run(Reset(before, true, true), actions[..|actions| - 1]), actions[|actions| - 1]);
    }
  }

  // ---- The life of a lease ---------------------------------------------------------------

  /** What a step may do to a lease that is there: nothing, or revoke it for good. */
  predicate OnlyRevoked(l: Lease, l': Lease) { l' == l || l' == l.(active := false) }

  /** Nothing but a boot reset makes a lease disappear; a reconnect keeps the leases as they are. */
  predicate Boots(a: Action) { a.Resets? && a.boot && a.commits }

  lemma StepOnlyRevokes(st: State, a: Action, id: LeaseId)
    requires id in st.leases && !Boots(a)
    ensures id in Do(st, a).leases && OnlyRevoked(st.leases[id], Do(st, a).leases[id])
    ensures a.Resets? ==> Do(st, a).leases[id] == st.leases[id]
    ensures a.Revokes? ==> (Do(st, a).leases[id].active <==> st.leases[id].active && id !in a.ids)
  {
    hide Insertable, Rotates, Backed, BlockedAfter, Plus, Kept, Rows, DistinctKeys, Collected;
  }

  /** Through updates, reconnects and new leases a lease keeps its owner, expiry and endpoints, and once revoked it stays revoked. */
  lemma {:induction false} RevokedForGood(st: State, actions: seq<Action>, id: LeaseId)
    requires id in st.leases && forall i :: 0 <= i < |actions| ==> !Boots(actions[i])
    ensures id in Run(st, actions).leases && OnlyRevoked(st.leases[id], Run(st, actions).leases[id])
    decreases |actions|
  {
    hide Do;
    if actions != [] {
      var init := actions[..|actions| - 1];
      RevokedForGood(st, init, id);
      StepOnlyRevokes(Run(st, init), actions[|actions| - 1], id);
    }
  }

  /** A new lease is active under the cached hash and holds exactly the requested endpoints. */
  lemma CreatedLeaseHolds(st: State, id: LeaseId, user: UserId, token: int, client: string, expires: int,
                          rows: seq<(string, Allocation)>)
    requires Create(st, id, user, token, client, expires, rows).Some?
    ensures var st' := Create(st, id, user, token, client, expires, rows).value;
            && id in st'.leases && st'.leases[id].active && st'.leases[id].expires == expires
            && st'.leases[id].user == user && st'.leases[id].token == token && st'.leases[id].client == client
            && (forall i :: 0 <= i < |rows| ==> Get(st'.leases[id].allocations, rows[i].0) == Some(rows[i].1))
            && |st'.leases[id].allocations| == |rows|
            && token in st.tables.tokens && Get(st'.issuers, id) == Some(st.tables.tokens[token].hash)
            && st'.tables == st.tables && st'.leases.Keys == st.leases.Keys + {id}
  {
    forall i | 0 <= i < |rows| ensures Get(Collected(rows), rows[i].0) == Some(rows[i].1) { CollectedAt(rows, i); }
    CollectedSize(rows);
  }

  /** It ends the client's other leases of the token, and touches no lease of anybody else. */
  lemma CreatedLeaseReplaces(st: State, id: LeaseId, user: UserId, token: int, client: string, expires: int,
                             rows: seq<(string, Allocation)>, other: LeaseId)
    requires Create(st, id, user, token, client, expires, rows).Some? && other in st.leases
    ensures var st' := Create(st, id, user, token, client, expires, rows).value;
            && other != id && other in st'.leases
            && st'.leases[other] == if st.leases[other].token == token && st.leases[other].client == client
                                    then st.leases[other].(active := false) else st.leases[other]
  {
    hide DistinctKeys, Collected;
  }

  lemma {:induction false} CollectedSize<K, V>(rows: seq<(K, V)>)
    requires DistinctKeys(rows)
    ensures |Collected(rows)| == |rows|
  {
    if rows != [] {
      var init := rows[..|rows| - 1];
      CollectedSize(init);
      assert init + [rows[|rows| - 1]] == rows && rows[..|rows|] == rows;
      KeyRepeats(rows, |init|);
    }
  }

  /** While the cache is being refilled, whatever happens adds no lease. */
  lemma NoNewLeaseDuringReset(st: State, a: Action)
    requires st.resetPending
    ensures Do(st, a).leases.Keys <= st.leases.Keys
  {
    hide Insertable, Rotates, Backed, BlockedAfter, Plus, Kept, Rows, DistinctKeys, Collected;
  }

  /** A baseline page before the last revokes nothing: the users of its leases may still arrive. */
  lemma PageKeepsLeases(st: State, b: Batch, now: int)
    requires Apply(st, b, now).Some? && b.baseline && !b.baselineEnd
    ensures var st' := Apply(st, b, now).value;
            st'.leases == st.leases && st'.issuers == st.issuers && st'.resetPending
  {
    hide Insertable, BlockedAfter, Backed, Plus, Kept, Rows;
    forall token ensures !Rotates(st.tables.tokens, b.tokens, token) {
      if i :| 0 <= i < |b.tokens| && b.tokens[i].0 == token && token in st.tables.tokens && st.tables.tokens[token].hash != b.tokens[i].1.hash {
        RowArrives(st.tables, b, i);
      }
    }
  }

  ghost function ApplyAll(st: State, pages: seq<Batch>, now: int): Option<State>
    decreases |pages|
  {
    if pages == [] then Some(st)
    else
      var before := ApplyAll(st, pages[..|pages| - 1], now);
      if before.None? then None else Apply(before.value, pages[|pages| - 1], now)
  }

  lemma {:induction false} PagesKeepLeases(st: State, pages: seq<Batch>, now: int)
    requires ApplyAll(st, pages, now).Some? && forall i :: 0 <= i < |pages| ==> pages[i].baseline && !pages[i].baselineEnd
    ensures var st' := ApplyAll(st, pages, now).value;
            st'.leases == st.leases && st'.issuers == st.issuers && (st.resetPending ==> st'.resetPending)
    decreases |pages|
  {
    hide Apply;
    if pages != [] {
      var init := pages[..|pages| - 1];
      PagesKeepLeases(st, init, now);
      PageKeepsLeases(ApplyAll(st, init, now).value, pages[|pages| - 1], now);
    }
  }

  /**
    A reconnect leaves running leases alone: after the cache is discarded and all pages of the
    baseline are applied, a lease is active exactly if it was and its holder is still entitled,
    on whichever page the user arrived.
   */
  lemma LeasesSurviveReconnect(st: State, pages: seq<Batch>, last: Batch, now: int, id: LeaseId)
    requires Issued(st) && id in st.leases && last.baseline && last.baselineEnd
    requires forall i :: 0 <= i < |pages| ==> pages[i].baseline && !pages[i].baselineEnd
    requires ApplyAll(Reset(st, false, true), pages + [last], now).Some?
    ensures var st' := ApplyAll(Reset(st, false, true), pages + [last], now).value;
            id in st'.leases
            && (st'.leases[id].active <==> st.leases[id].active && Entitled(View(st'.tables), st.issuers[id], st.leases[id], now))
  {
    hide Apply, Entitled, View;
    var all := pages + [last];
    assert all[..|all| - 1] == pages;
    PagesKeepLeases(Reset(st, false, true), pages, now);
    ApplyRevokesExactly(ApplyAll(Reset(st, false, true), pages, now).value, last, now, id);
  }

  /** No client has two active leases of one token. */
  ghost predicate OnePerClient(leases: map<LeaseId, Lease>) {
    forall i, j :: i in leases && j in leases && leases[i].active && leases[j].active && i != j ==>
      leases[i].token != leases[j].token || leases[i].client != leases[j].client
  }

  lemma StepKeepsOnePerClient(st: State, a: Action)
    requires OnePerClient(st.leases)
    ensures OnePerClient(Do(st, a).leases)
  {
    hide Insertable, Rotates, Backed, BlockedAfter, Plus, Kept, Rows, DistinctKeys, Collected;
  }

  lemma {:induction false} EdgeKeepsOnePerClient(before: State, actions: seq<Action>)
    ensures OnePerClient(Run(Reset(before, true, true), actions).leases)
    decreases |actions|
  {
    hide Do;
    if actions != [] {
      var init := actions[..|actions| - 1];
      EdgeKeepsOnePerClient(before, init);
      StepKeepsOnePerClient(Run(Reset(before, true, true), init), actions[|actions| - 1]);
    }
  }
}
