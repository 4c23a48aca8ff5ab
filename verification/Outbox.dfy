/**
  The controller's outbox: one row per (user, node) with the revision the edge should hold
  (`desired`) and the revision it is known to hold (`applied`).
 */
module Outbox {
  import opened Base

  type NodeId = string

  /** A missing `session` stands for the empty session id of a node that never reset. */
  datatype Row = Row(session: Option<Epoch>, desired: nat, applied: nat, cached: bool) {
    predicate Dirty() { desired > applied }
  }

  /** What one node sees of the two outbox tables. */
  datatype NodeOutbox = NodeOutbox(recorded: Option<Epoch>, rows: map<UserId, Row>)

  // ---- Specification, one node at a time -------------------------------------------------

  /** Insert, or raise the desired revision of the row that is already there. */
  function Raised(previous: Option<Row>, session: Option<Epoch>, revision: nat): Row {
    match previous
    case None => Row(session, revision, 0, false)
    case Some(row) => row.(desired := Max(row.desired, revision))
  }

  function RaiseAll(o: NodeOutbox, ids: set<UserId>, revision: nat): NodeOutbox {
    o.(rows := map u | u in o.rows.Keys + ids ::
         if u in ids then Raised(Get(o.rows, u), o.recorded, revision) else o.rows[u])
  }

  /** A change of `user` dirties this node when it caches the user or is authorised for it. */
  function MarkDirty(o: NodeOutbox, user: UserId, authorised: bool, revision: nat): NodeOutbox {
    if user in o.rows || authorised then RaiseAll(o, {user}, revision) else o
  }

  function Reset(epoch: Epoch): NodeOutbox { NodeOutbox(Some(epoch), map[]) }

  function Prepare(o: NodeOutbox, epoch: Epoch, revision: nat, ids: set<UserId>): Option<NodeOutbox> {
    if o.recorded == Some(epoch) then Some(RaiseAll(o, ids, revision)) else None
  }

  /** What acknowledging `revision` does to one row; `None` deletes it. */
  function ConfirmedRow(row: Row, epoch: Epoch, revision: nat, sent: bool, removed: bool, full: bool): Option<Row> {
    if row.session != Some(epoch) then Some(row)
    else
      var r1 := if sent then row.(applied := Max(row.applied, revision), cached := true) else row;
      var r2 := if removed then r1.(applied := Max(r1.applied, revision), cached := false) else r1;
      if removed && r2.desired <= revision then None
      else
        var r3 := if full && r2.applied < revision then r2.(applied := revision, cached := false) else r2;
        if full && r3.desired <= revision && !r3.cached then None else Some(r3)
  }

  function RowAfter(o: NodeOutbox, u: UserId, epoch: Epoch, revision: nat,
                    users: set<UserId>, removed: set<UserId>, full: bool): Option<Row>
    requires u in o.rows
  {
    ConfirmedRow(o.rows[u], epoch, revision, u in users, u in removed, full)
  }

  function ConfirmRows(o: NodeOutbox, epoch: Epoch, revision: nat,
                       users: set<UserId>, removed: set<UserId>, full: bool): NodeOutbox {
    o.(rows := map u | u in o.rows && RowAfter(o, u, epoch, revision, users, removed, full).Some? ::
         RowAfter(o, u, epoch, revision, users, removed, full).value)
  }

  function Confirm(o: NodeOutbox, epoch: Epoch, revision: nat,
                   users: set<UserId>, removed: set<UserId>, full: bool): Option<NodeOutbox> {
    if o.recorded == Some(epoch) then Some(ConfirmRows(o, epoch, revision, users, removed, full)) else None
  }

  function DirtyUsers(o: NodeOutbox, epoch: Epoch): set<UserId> {
    set u | u in o.rows && o.rows[u].session == Some(epoch) && o.rows[u].Dirty()
  }

  ghost function Pending(o: NodeOutbox, epoch: Epoch): set<UserId> {
    Lowest(DirtyUsers(o, epoch), PAGE_LIMIT)
  }

  // ---- Well-formedness -------------------------------------------------------------------

  ghost predicate WellFormed(o: NodeOutbox, latest: nat) {
    forall u :: u in o.rows ==>
      o.rows[u].session == o.recorded && o.rows[u].applied <= o.rows[u].desired <= latest
  }

  /**
    Confirming twice, with any changes of users in between, never makes a row look clean that
    one of those changes dirtied: a desired revision above the confirmed one survives, still
    above the applied revision.
   */
  lemma ConfirmKeepsNewerRevision(o: NodeOutbox, epoch: Epoch, revision: nat,
                                  users: set<UserId>, removed: set<UserId>, full: bool, u: UserId)
    requires u in o.rows && o.rows[u].desired > revision && o.rows[u].Dirty()
    ensures var c := ConfirmRows(o, epoch, revision, users, removed, full);
            u in c.rows && c.rows[u].desired == o.rows[u].desired && c.rows[u].Dirty()
  {
    var after := RowAfter(o, u, epoch, revision, users, removed, full);
    assert after.Some? && after.value.desired == o.rows[u].desired;
  }

  /** A change of a user as the outbox sees it. */
  datatype Change = Change(user: UserId, authorised: bool, revision: nat)

  function Changed(o: NodeOutbox, changes: seq<Change>): NodeOutbox
    decreases |changes|
  {
    if changes == [] then o
    else
      var c := changes[|changes| - 1];
      MarkDirty(Changed(o, changes[..|changes| - 1]), c.user, c.authorised, c.revision)
  }

  ghost predicate AppliedUpTo(o: NodeOutbox, latest: nat) { forall u :: u in o.rows ==> o.rows[u].applied <= latest }

  lemma {:induction false} ChangesStay(o: NodeOutbox, latest: nat, changes: seq<Change>, i: nat)
    requires AppliedUpTo(o, latest) && i < |changes|
    requires changes[i].authorised || changes[i].user in Changed(o, changes[..i]).rows
    ensures var later := Changed(o, changes);
            && AppliedUpTo(later, latest)
            && changes[i].user in later.rows && later.rows[changes[i].user].desired >= changes[i].revision
    decreases |changes|
  {
    var init := changes[..|changes| - 1];
    AppliedStays(o, latest, changes);
    if i < |changes| - 1 {
      assert init[..i] == changes[..i];
      ChangesStay(o, latest, init, i);
    }
  }

  lemma {:induction false} AppliedStays(o: NodeOutbox, latest: nat, changes: seq<Change>)
    requires AppliedUpTo(o, latest)
    ensures AppliedUpTo(Changed(o, changes), latest)
    decreases |changes|
  {
    if changes != [] { AppliedStays(o, latest, changes[..|changes| - 1]); }
  }

  /**
    A confirmation whose commit was ambiguous is retried after any number of changes: every
    change that concerned this node is still wanted afterwards.
   */
  lemma RetriedConfirmKeepsChanges(o: NodeOutbox, epoch: Epoch, revision: nat, users: set<UserId>, removed: set<UserId>, full: bool,
                                   latest: nat, changes: seq<Change>, i: nat)
    requires AppliedUpTo(o, latest) && revision <= latest && i < |changes| && changes[i].revision > latest
    requires var first := ConfirmRows(o, epoch, revision, users, removed, full);
             changes[i].authorised || changes[i].user in Changed(first, changes[..i]).rows
    ensures var first := ConfirmRows(o, epoch, revision, users, removed, full);
            var again := ConfirmRows(Changed(first, changes), epoch, revision, users, removed, full);
            var u := changes[i].user;
            u in again.rows && again.rows[u].desired >= changes[i].revision && again.rows[u].Dirty()
  {
    var first := ConfirmRows(o, epoch, revision, users, removed, full);
    assert AppliedUpTo(first, latest);
    ChangesStay(first, latest, changes, i);
    ConfirmKeepsNewerRevision(Changed(first, changes), epoch, revision, users, removed, full, changes[i].user);
  }

  /** Without changes in between, the retry does nothing. */
  lemma ConfirmIsIdempotent(o: NodeOutbox, epoch: Epoch, revision: nat, users: set<UserId>, removed: set<UserId>, full: bool)
    requires users !! removed
    ensures ConfirmRows(ConfirmRows(o, epoch, revision, users, removed, full), epoch, revision, users, removed, full)
         == ConfirmRows(o, epoch, revision, users, removed, full)
  {
    var first := ConfirmRows(o, epoch, revision, users, removed, full);
    var again := ConfirmRows(first, epoch, revision, users, removed, full);
    forall v | v in first.rows ensures v in again.rows && again.rows[v] == first.rows[v] {
      assert RowAfter(first, v, epoch, revision, users, removed, full) == Some(first.rows[v]);
    }
  }

  /** The confirmed snapshot spoke about the user: it sent it, removed it, or was a full one. */
  predicate SpokenOf(u: UserId, users: set<UserId>, removed: set<UserId>, full: bool) { u in users || u in removed || full }

  /**
    What a confirmation means for a row. A row of another session, or of a user the snapshot did
    not speak of, stays as it is. Any other row stays exactly if the user was sent or a newer
    revision is wanted, says cached exactly if the user was sent, and is dirty exactly if a newer
    revision is wanted.
   */
  lemma ConfirmMeans(o: NodeOutbox, epoch: Epoch, revision: nat, users: set<UserId>, removed: set<UserId>, full: bool, u: UserId)
    requires u in o.rows && users !! removed && (o.rows[u].session == Some(epoch) ==> o.rows[u].applied <= revision)
    requires full && u !in users && u !in removed ==> o.rows[u].applied < revision
    ensures var c := ConfirmRows(o, epoch, revision, users, removed, full);
            if o.rows[u].session != Some(epoch) || !SpokenOf(u, users, removed, full) then u in c.rows && c.rows[u] == o.rows[u]
            else
              && (u in c.rows <==> u in users || o.rows[u].desired > revision)
              && (u in c.rows ==>
                    && c.rows[u] == o.rows[u].(applied := revision, cached := u in users)
                    && (c.rows[u].Dirty() <==> o.rows[u].desired > revision))
  {
    var after := RowAfter(o, u, epoch, revision, users, removed, full);
  }

  /** An older confirmation that arrives late never takes a row back. */
  lemma AppliedNeverDecreases(o: NodeOutbox, epoch: Epoch, revision: nat, users: set<UserId>, removed: set<UserId>, full: bool, u: UserId)
    requires u in ConfirmRows(o, epoch, revision, users, removed, full).rows
    ensures u in o.rows
    ensures var row := ConfirmRows(o, epoch, revision, users, removed, full).rows[u];
            row.applied >= o.rows[u].applied && row.desired == o.rows[u].desired && row.session == o.rows[u].session
  {
    var after := RowAfter(o, u, epoch, revision, users, removed, full);
  }

  // ---- Composition of the statements of one transaction ----------------------------------

  lemma RaiseOneMore(o: NodeOutbox, ids: set<UserId>, u: UserId, revision: nat)
    ensures RaiseAll(RaiseAll(o, ids, revision), {u}, revision) == RaiseAll(o, ids + {u}, revision)
  {
    var a, b := RaiseAll(RaiseAll(o, ids, revision), {u}, revision), RaiseAll(o, ids + {u}, revision);
    assert a.rows.Keys == b.rows.Keys;
    forall v | v in a.rows ensures a.rows[v] == b.rows[v] {}
  }

  lemma ConfirmOneMoreSent(o: NodeOutbox, epoch: Epoch, revision: nat, users: set<UserId>, u: UserId)
    ensures ConfirmRows(ConfirmRows(o, epoch, revision, users, {}, false), epoch, revision, {u}, {}, false)
         == ConfirmRows(o, epoch, revision, users + {u}, {}, false)
  {
    var first := ConfirmRows(o, epoch, revision, users, {}, false);
    var a := ConfirmRows(first, epoch, revision, {u}, {}, false);
    var b := ConfirmRows(o, epoch, revision, users + {u}, {}, false);
    assert first.rows.Keys == o.rows.Keys;
    assert a.rows.Keys == o.rows.Keys;
    assert b.rows.Keys == o.rows.Keys;
    forall v | v in a.rows ensures a.rows[v] == b.rows[v] {}
  }

  lemma ConfirmOneMoreRemoved(o: NodeOutbox, epoch: Epoch, revision: nat,
                              users: set<UserId>, removed: set<UserId>, u: UserId)
    ensures ConfirmRows(ConfirmRows(o, epoch, revision, users, removed, false), epoch, revision, {}, {u}, false)
         == ConfirmRows(o, epoch, revision, users, removed + {u}, false)
  {
    var first := ConfirmRows(o, epoch, revision, users, removed, false);
    var a := ConfirmRows(first, epoch, revision, {}, {u}, false);
    var b := ConfirmRows(o, epoch, revision, users, removed + {u}, false);
    forall v ensures v in a.rows <==> v in b.rows {
      if v in o.rows { var t := RowAfter(o, v, epoch, revision, users, removed, false); }
    }
    forall v | v in a.rows ensures a.rows[v] == b.rows[v] {}
  }

  lemma ConfirmRest(o: NodeOutbox, epoch: Epoch, revision: nat, users: set<UserId>, removed: set<UserId>)
    ensures ConfirmRows(ConfirmRows(o, epoch, revision, users, removed, false), epoch, revision, {}, {}, true)
         == ConfirmRows(o, epoch, revision, users, removed, true)
  {
    var first := ConfirmRows(o, epoch, revision, users, removed, false);
    var a := ConfirmRows(first, epoch, revision, {}, {}, true);
    var b := ConfirmRows(o, epoch, revision, users, removed, true);
    forall v ensures v in a.rows <==> v in b.rows {
      if v in o.rows { var t := RowAfter(o, v, epoch, revision, users, removed, false); }
    }
    forall v | v in a.rows ensures a.rows[v] == b.rows[v] {}
  }

  // ---- The store -------------------------------------------------------------------------

  predicate May(access: map<NodeId, set<UserId>>, user: UserId, n: NodeId) { n in access && user in access[n] }

  /** The id under which the controller itself is a node, and its own runtime leases. */
  const CONTROLLER: NodeId := "controller"

  datatype OwnLease = OwnLease(user: UserId, active: bool)

  /** The tables keyed by (user, node), kept here as one map of rows per node. */
  class Store {
    var revision: nat
    var rows: map<NodeId, map<UserId, Row>>
    var sessions: map<NodeId, Epoch>
    var access: map<NodeId, set<UserId>>
    var nodes: set<NodeId>
    var leases: map<string, OwnLease>

    function Rows(n: NodeId): map<UserId, Row>
      reads this
    {
      if n in rows then rows[n] else map[]
    }

    predicate Authorised(user: UserId, n: NodeId)
      reads this
    {
      May(access, user, n)
    }

    function Node(n: NodeId): NodeOutbox
      reads this
    {
      NodeOutbox(Get(sessions, n), Rows(n))
    }

    method NextIdentityRevision() returns (r: nat)
      modifies this`revision
      ensures revision == old(revision) + 1 && r == revision
    {
      revision := revision + 1;
      r := revision;
    }

    method ResetNodeIdentityCache(node: NodeId, epoch: Epoch)
      modifies this`rows, this`sessions
      ensures Node(node) == Reset(epoch)
      ensures forall m :: m != node ==> Node(m) == old(Node(m))
    {
      sessions := sessions[node := epoch];
      rows := rows[node := map[]];
    }

    /** `INSERT .. ON DUPLICATE KEY UPDATE desired_revision = GREATEST(..)`. */
    method Upsert(user: UserId, node: NodeId, session: Option<Epoch>, rev: nat)
      requires session == Node(node).recorded
      modifies this`rows
      ensures Node(node) == RaiseAll(old(Node(node)), {user}, rev)
      ensures forall m :: m != node ==> Node(m) == old(Node(m))
    {
      rows := rows[node := Rows(node)[user := Raised(Get(Rows(node), user), session, rev)]];
      assert Node(node).rows == RaiseAll(old(Node(node)), {user}, rev).rows;
    }

    /** Every registered node that caches the user or is authorised for it gets a newer desired revision. */
    method MarkUserIdentityDirty(user: UserId)
      modifies this`revision, this`rows
      ensures revision == old(revision) + 1
      ensures forall n | n in nodes :: Node(n) == MarkDirty(old(Node(n)), user, Authorised(user, n), revision)
      ensures forall n | n !in nodes :: Node(n) == old(Node(n))
    {
      var next := NextIdentityRevision();
      var targets := set n | n in nodes && (user in Rows(n) || Authorised(user, n));
      var left := targets;
      while left != {}
        invariant left <= targets
        invariant revision == old(revision) + 1 == next
        invariant forall n | n in targets - left :: Node(n) == RaiseAll(old(Node(n)), {user}, revision)
        invariant forall n | n !in targets - left :: Node(n) == old(Node(n))
        decreases left
      {
        var n :| n in left;
        Upsert(user, n, Get(sessions, n), next);
        left := left - {n};
      }
    }

    /** Replaces the nodes a user may use; nodes that lose the user are found through their cache rows. */
    method SaveUserNodeAccess(user: UserId, granted: seq<NodeId>)
      modifies this`revision, this`rows, this`access, this`leases
      ensures leases.Keys == old(leases).Keys
      ensures forall id :: id in leases ==>
                && leases[id].user == old(leases)[id].user
                && (leases[id].active <==> old(leases)[id].active && (leases[id].user != user || CONTROLLER in granted))
      ensures forall u, n :: May(access, u, n) <==> if u == user then n in granted else May(old(access), u, n)
      ensures revision == old(revision) + 1
      ensures forall n | n in nodes :: Node(n) == MarkDirty(old(Node(n)), user, n in granted, revision)
      ensures forall n | n !in nodes :: Node(n) == old(Node(n))
    {
      var given := map n | n in access :: access[n] - {user};
      for i := 0 to |granted|
        invariant forall u, n :: May(given, u, n) <==> if u == user then n in granted[..i] else May(access, u, n)
      {
        var n := granted[i];
        ghost var before := given;
        given := given[n := (if n in given then given[n] else {}) + {user}];
        assert granted[..i + 1] == granted[..i] + [n];
        forall u, m ensures May(given, u, m) <==> if u == user then m in granted[..i + 1] else May(access, u, m) {
          assert May(given, u, m) <==> May(before, u, m) || (u == user && m == n);
        }
      }
      assert granted[..|granted|] == granted;
      access := given;
      if !May(access, user, CONTROLLER) {
        leases := map id | id in leases ::
          if leases[id].user == user && leases[id].active then leases[id].(active := false) else leases[id];
      }
      MarkUserIdentityDirty(user);
    }

    method PrepareNodeIdentityCache(node: NodeId, epoch: Epoch, rev: nat, ids: seq<UserId>) returns (ok: bool)
      modifies this`rows
      ensures ok <==> old(Node(node)).recorded == Some(epoch)
      ensures Some(Node(node)) == if ok then Prepare(old(Node(node)), epoch, rev, Elements(ids))
                                  else Some(old(Node(node)))
      ensures forall m :: m != node ==> Node(m) == old(Node(m))
    {
      if Get(sessions, node) != Some(epoch) { return false; }
      assert RaiseAll(Node(node), {}, rev).rows == Node(node).rows;
      ghost var seen: set<UserId> := {};
      for i := 0 to |ids|
        invariant seen == Elements(ids[..i])
        invariant Node(node) == RaiseAll(old(Node(node)), seen, rev)
        invariant forall m :: m != node ==> Node(m) == old(Node(m))
      {
        RaiseOneMore(old(Node(node)), seen, ids[i], rev);
        Upsert(ids[i], node, Some(epoch), rev);
        assert ids[..i + 1] == ids[..i] + [ids[i]];
        seen := seen + {ids[i]};
      }
      assert ids[..|ids|] == ids;
      return true;
    }

    /** One user of a confirmation: an update, and for a removed user a conditional delete. */
    method ConfirmUser(node: NodeId, epoch: Epoch, rev: nat, user: UserId, removed: bool)
      modifies this`rows
      ensures Node(node) == ConfirmRows(old(Node(node)), epoch, rev,
                                        if removed then {} else {user}, if removed then {user} else {}, false)
      ensures forall m :: m != node ==> Node(m) == old(Node(m))
    {
      var mine := Rows(node);
      if user in mine && mine[user].session == Some(epoch) {
        mine := mine[user := mine[user].(applied := Max(mine[user].applied, rev), cached := !removed)];
        if removed && mine[user].desired <= rev { mine := mine - {user}; }
        rows := rows[node := mine];
      }
      ghost var want := ConfirmRows(old(Node(node)), epoch, rev,
                                    if removed then {} else {user}, if removed then {user} else {}, false);
      assert Node(node).rows == want.rows;
    }

    /** The two closing statements of a full snapshot's confirmation. */
    method ConfirmUnsent(node: NodeId, epoch: Epoch, rev: nat)
      modifies this`rows
      ensures Node(node) == ConfirmRows(old(Node(node)), epoch, rev, {}, {}, true)
      ensures forall m :: m != node ==> Node(m) == old(Node(m))
    {
      var mine := Rows(node);
      mine := map u | u in mine ::
        if mine[u].session == Some(epoch) && mine[u].applied < rev
        then mine[u].(applied := rev, cached := false) else mine[u];
      mine := map u | u in mine
        && !(mine[u].session == Some(epoch) && mine[u].desired <= rev && !mine[u].cached) :: mine[u];
      rows := rows[node := mine];
      assert Node(node).rows == ConfirmRows(old(Node(node)), epoch, rev, {}, {}, true).rows;
    }

    method ConfirmNodeIdentityCache(node: NodeId, epoch: Epoch, rev: nat,
                                    users: seq<UserId>, removed: seq<UserId>, full: bool) returns (ok: bool)
      modifies this`rows
      ensures ok <==> old(Node(node)).recorded == Some(epoch)
      ensures Some(Node(node)) ==
        if ok then Confirm(old(Node(node)), epoch, rev, Elements(users), Elements(removed), full)
        else Some(old(Node(node)))
      ensures forall m :: m != node ==> Node(m) == old(Node(m))
    {
      if Get(sessions, node) != Some(epoch) { return false; }
      ghost var o := Node(node);
      assert ConfirmRows(o, epoch, rev, {}, {}, false).rows == o.rows;
      ghost var sent: set<UserId> := {};
      for i := 0 to |users|
        invariant sent == Elements(users[..i])
        invariant Node(node) == ConfirmRows(o, epoch, rev, sent, {}, false)
        invariant forall m :: m != node ==> Node(m) == old(Node(m))
      {
        ConfirmOneMoreSent(o, epoch, rev, sent, users[i]);
        ConfirmUser(node, epoch, rev, users[i], false);
        assert users[..i + 1] == users[..i] + [users[i]];
        sent := sent + {users[i]};
      }
      assert users[..|users|] == users;
      ghost var gone: set<UserId> := {};
      for i := 0 to |removed|
        invariant gone == Elements(removed[..i])
        invariant Node(node) == ConfirmRows(o, epoch, rev, sent, gone, false)
        invariant forall m :: m != node ==> Node(m) == old(Node(m))
      {
        ConfirmOneMoreRemoved(o, epoch, rev, sent, gone, removed[i]);
        ConfirmUser(node, epoch, rev, removed[i], true);
        assert removed[..i + 1] == removed[..i] + [removed[i]];
        gone := gone + {removed[i]};
      }
      assert removed[..|removed|] == removed;
      if full {
        ConfirmRest(o, epoch, rev, sent, gone);
        ConfirmUnsent(node, epoch, rev);
      }
      return true;
    }
  }
}
