/** The invariant holds initially and every action keeps it. */
module SyncSteps {
  import opened Base
  import opened Identities
  import opened SyncProtocol
  import opened SyncInvariant
  import Outbox
  import SyncFlow
  import SyncData

  // ---- Monotonicity ----------------------------------------------------------------------

  ghost predicate Extends(h: History, h': History) {
    && (forall k :: k in h.prepared ==> k in h'.prepared && h'.prepared[k] == h.prepared[k])
    && (forall k :: k in h.committed ==> k in h'.committed && h'.committed[k] == h.committed[k])
    && h.acked <= h'.acked
  }

  lemma LinkMonotone(codec: Codec, h: History, revision: nat, nextEpoch: Epoch, l: Link, h': History, revision': nat, nextEpoch': Epoch)
    requires LinkOk(codec, h, revision, nextEpoch, l) && Extends(h, h') && revision <= revision' && nextEpoch <= nextEpoch'
    ensures LinkOk(codec, h', revision', nextEpoch', l)
  {
  }

  lemma FinalMonotone(h: History, h': History, epoch: Epoch)
    requires Extends(h, h') && Final(h, epoch)
    ensures Final(h', epoch)
  {
    var r :| (epoch, r) in h.acked && (epoch, r) in h.committed && h.committed[(epoch, r)].baselineEnd;
    assert (epoch, r) in h'.acked && (epoch, r) in h'.committed && h'.committed[(epoch, r)].baselineEnd;
  }

  lemma RowsMonotone(h: History, h': History, o: Outbox.NodeOutbox)
    requires Extends(h, h') && RowsOk(h, o)
    ensures RowsOk(h', o)
  {
    forall u | u in o.rows ensures RowOk(h', o.recorded, u, o.rows[u]) { assert RowOk(h, o.recorded, u, o.rows[u]); }
  }

  lemma GateMonotone(h: History, h': History, e: Edge)
    requires Extends(h, h') && GateOk(h, e)
    ensures GateOk(h', e)
  {
    if e.syncReady { FinalMonotone(h, h', e.epoch.value); }
  }

  lemma PromiseMonotone(h: History, h': History, l: Link, e: Edge)
    requires Extends(h, h') && PromiseOk(h, l, e)
    ensures PromiseOk(h', l, e)
  {
    if l.session.ready && !l.session.baselineActive { FinalMonotone(h, h', l.session.epoch); }
    forall m | m in l.down && m.Confirmed? && m.complete ensures Final(h', m.epoch) && !e.resetPending {
      FinalMonotone(h, h', m.epoch);
    }
  }

  /** Replacing one link keeps the links in order, whatever else grows. */
  lemma LinksAfter(c: System, id: nat, c': System)
    requires LinksOk(c) && c'.codec == c.codec && Extends(c.history, c'.history)
    requires c.db.revision <= c'.db.revision && c.nextEpoch <= c'.nextEpoch && c.nextLink <= c'.nextLink
    requires id < c'.nextLink && c'.links.Keys == c.links.Keys + {id}
    requires forall k :: k in c.links && k != id ==> c'.links[k] == c.links[k]
    requires LinkOk(c'.codec, c'.history, c'.db.revision, c'.nextEpoch, c'.links[id])
    ensures LinksOk(c')
  {
    forall k | k in c'.links
      ensures k < c'.nextLink && LinkOk(c'.codec, c'.history, c'.db.revision, c'.nextEpoch, c'.links[k])
    {
      if k != id {
        assert k in c.links;
        LinkMonotone(c.codec, c.history, c.db.revision, c.nextEpoch, c.links[k], c'.history, c'.db.revision, c'.nextEpoch);
      }
    }
  }

  lemma LinksKept(c: System, c': System)
    requires LinksOk(c) && c'.codec == c.codec && c'.links == c.links && Extends(c.history, c'.history)
    requires c.db.revision <= c'.db.revision && c.nextEpoch <= c'.nextEpoch && c.nextLink <= c'.nextLink
    ensures LinksOk(c')
  {
    forall k | k in c'.links
      ensures k < c'.nextLink && LinkOk(c'.codec, c'.history, c'.db.revision, c'.nextEpoch, c'.links[k])
    {
      LinkMonotone(c.codec, c.history, c.db.revision, c.nextEpoch, c.links[k], c'.history, c'.db.revision, c'.nextEpoch);
    }
  }

  // ---- Start and connection --------------------------------------------------------------

  lemma InitialHolds(c: System)
    requires Initial(c)
    ensures Invariant(c)
  {
  }

  lemma ConnectKeeps(c: System, legacyAdmission: bool)
    requires Invariant(c) && c.edgeLink.None?
    ensures Invariant(DoConnect(c, legacyAdmission))
  {
    var c' := DoConnect(c, legacyAdmission);
    var l := c'.links[c.nextLink];
    assert l.jobs + l.up == [];
    LinksAfter(c, c.nextLink, c');
  }

  lemma OpenIsIrrelevant(codec: Codec, h: History, revision: nat, nextEpoch: Epoch, l: Link, l': Link, e: Edge)
    requires l' == l.(open := l'.open)
    ensures FlowOk(l, e) ==> FlowOk(l', e)
    ensures PromiseOk(h, l, e) ==> PromiseOk(h, l', e)
    ensures LinkOk(codec, h, revision, nextEpoch, l) ==> LinkOk(codec, h, revision, nextEpoch, l')
  {
    if FlowOk(l, e) { SyncFlow.FlowIgnoresFlags(l, l', e); }
  }

  lemma CloseKeeps(c: System, id: nat)
    requires Invariant(c) && id in c.links
    ensures Invariant(Closed(c, id))
  {
    hide LinkOk, FlowOk, PromiseOk, GateOk, OwnerOk, SyncOk, MirrorOk, RowsOk, PastOk, DatabaseOk;
    OpenIsIrrelevant(c.codec, c.history, c.db.revision, c.nextEpoch, c.links[id], c.links[id].(open := false), c.edge);
    LinksAfter(c, id, Closed(c, id));
  }

  // ---- Database and flags ----------------------------------------------------------------

  lemma MutateKeeps(c: System, user: UserId, account: Option<Identity>, granted: bool)
    requires Invariant(c) && user in c.db.accounts && (granted ==> account.Some?)
    ensures Invariant(c.(db := Mutated(c.db, user, account, granted)))
  {
    var c' := c.(db := Mutated(c.db, user, account, granted));
    SyncData.MutationKeepsDatabase(c.history, c.db, user, account, granted, c.nextEpoch);
    LinksKept(c, c');
    if c.current.Some? {
      var s := c.links[c.current.value].session;
      SyncData.MutationKeepsOwner(c.codec, c.db, user, account, granted, c.nextEpoch, s);
      if c.edgeLink == c.current && s.ready {
        SyncData.MutationKeepsSync(c.codec, c.db, user, account, granted, c.nextEpoch, s, c.edge);
      }
    }
  }

  lemma CreateUserKeeps(c: System, user: UserId, created: Identity)
    requires Invariant(c) && user > 0 && user !in c.db.accounts
    ensures Invariant(c.(db := c.db.(accounts := c.db.accounts[user := created])))
  {
    var c' := c.(db := c.db.(accounts := c.db.accounts[user := created]));
    assert Authorised(c'.db) == Authorised(c.db);
    LinksKept(c, c');
  }

  function Retouched(c: System, s: Session): System
    requires c.current.Some? && c.current.value in c.links
  {
    c.(links := c.links[c.current.value := c.links[c.current.value].(session := s)])
  }

  /** Changing only what the push worker should do next keeps the invariant. */
  lemma RetouchKeeps(c: System, s: Session)
    requires Invariant(c) && c.current.Some? && c.current.value in c.links
    requires var s0 := c.links[c.current.value].session;
             SyncFlow.SameTraffic(s0, s)
    ensures Invariant(Retouched(c, s))
  {
    hide RowsOk, PastOk, DatabaseOk, SyncOk, FlowOk, GateOk, PromiseOk;
    var id := c.current.value;
    var s0 := c.links[id].session;
    var c' := Retouched(c, s);
    LinksAfter(c, id, c');
    if c.edgeLink == c.current {
      PromiseAppends(c.history, c.links[id], c'.links[id], c.edge);
      SyncFlow.FlowIgnoresFlags(c.links[id], c'.links[id], c.edge);
      if s.ready { SyncData.SyncIgnoresFlags(Authorised(c.db), c.db.outbox, s0, s, c.edge); }
    }
  }

  lemma FlagKeeps(c: System, full: bool)
    requires Invariant(c)
    ensures Invariant(Flagged(c, full))
  {
    hide Invariant;
    if c.current.Some? && c.current.value in c.links {
      var s := c.links[c.current.value].session;
      var s' := if full then s.(needsFull := true) else s.(needsBlocked := true);
      RetouchKeeps(c, s');
      NoteKeeps(Retouched(c, s'), c.history.read, false);
    }
  }

  /** What is remembered about the blacklist plays no part in the invariant. */
  lemma NoteKeeps(c: System, read: map<Ip, Block>, lost: bool)
    requires Invariant(c)
    ensures Invariant(c.(history := c.history.(read := read, lost := lost)))
  {
    hide DatabaseOk, FlowOk, OwnerOk, SyncOk, MirrorOk;
    var c' := c.(history := c.history.(read := read, lost := lost));
    LinksKept(c, c');
    GateMonotone(c.history, c'.history, c.edge);
    RowsMonotone(c.history, c'.history, c.db.outbox);
    if c.edgeLink.Some? { PromiseMonotone(c.history, c'.history, c.links[c.edgeLink.value], c.edge); }
  }

  lemma BlacklistKeeps(c: System, blocked: map<Ip, Block>)
    requires Invariant(c)
    ensures Invariant(c.(db := c.db.(blocked := blocked)))
  {
    hide RowsOk, PastOk, FlowOk, GateOk, PromiseOk, SyncOk, OwnerOk, MirrorOk;
    var c' := c.(db := c.db.(blocked := blocked));
    assert Authorised(c'.db) == Authorised(c.db);
    LinksKept(c, c');
  }

  lemma SetBlockedKeeps(c: System, blocked: map<Ip, Block>, announced: bool)
    requires Invariant(c)
    ensures Invariant(Do(c, SetBlocked(blocked, announced)))
  {
    hide Invariant;
    BlacklistKeeps(c, blocked);
    var d := c.(db := c.db.(blocked := blocked));
    if announced {
      FlagKeeps(d, false);
    } else {
      NoteKeeps(d, d.history.read, Loses(c, blocked));
    }
  }

  lemma ElsewhereKeeps(c: System, revisions: nat)
    requires Invariant(c)
    ensures Invariant(c.(db := c.db.(revision := c.db.revision + revisions)))
  {
    var c' := c.(db := c.db.(revision := c.db.revision + revisions));
    assert Authorised(c'.db) == Authorised(c.db);
    LinksKept(c, c');
  }

  // ---- Pushing ---------------------------------------------------------------------------

  lemma NewEpochKeeps(c: System, sql: Sql, room: bool)
    requires Invariant(c) && c.current.Some? && c.current.value in c.links && c.links[c.current.value].open
    requires PushChoice(c.db, c.links[c.current.value].session).NewEpoch?
    ensures Invariant(DoPush(c, sql, room))
  {
    hide RowsOk, SyncOk, MirrorOk, FlowOk, GateOk, PromiseOk;
    var id := c.current.value;
    var l := c.links[id];
    var c' := DoPush(c, sql, room);
    LinksAfter(c, id, c');
    if c.edgeLink == c.current {
      PromiseAppends(c.history, l, c'.links[id], c.edge);
      SyncFlow.FlowAfterReset(c.codec, l, c.edge, c.nextEpoch, room);
    }
  }

  lemma RaiseKeeps(c: System, ids: set<UserId>)
    requires Invariant(c) && c.current.Some?
    requires c.links[c.current.value].session.ready && c.links[c.current.value].session.pending.None?
    ensures Invariant(c.(db := c.db.(outbox := Outbox.RaiseAll(c.db.outbox, ids, c.db.revision))))
  {
    var c' := c.(db := c.db.(outbox := Outbox.RaiseAll(c.db.outbox, ids, c.db.revision)));
    var s := c.links[c.current.value].session;
    assert Authorised(c'.db) == Authorised(c.db);
    SyncData.RaiseKeepsRows(c.history, c.db.outbox, ids, c.db.revision);
    LinksKept(c, c');
    if c.edgeLink == c.current {
      SyncData.RaiseKeepsSync(Authorised(c.db), c.db.outbox, ids, c.db.revision, s, c.edge);
    }
  }

  /** A push that fails on the way to the outbox leaves at most raised rows and a moved scratch cursor. */
  lemma FailedPrepareKeeps(c: System, s: Session, ids: set<UserId>, raised: bool)
    requires Invariant(c) && c.current.Some?
    requires c.current.value in c.links
    requires var s0 := c.links[c.current.value].session;
             s0.ready && s0.pending.None? && s == s0.(pendingCursor := s.pendingCursor)
    ensures var id := c.current.value;
            var r := c.db.revision + 1;
            var o := if raised then Outbox.RaiseAll(c.db.outbox, ids, r) else c.db.outbox;
            Invariant(c.(db := c.db.(revision := r, outbox := o), links := c.links[id := c.links[id].(session := s)]))
  {
    hide Invariant;
    RetouchKeeps(c, s);
    var c1 := Retouched(c, s);
    ElsewhereKeeps(c1, 1);
    var c2 := c1.(db := c1.db.(revision := c1.db.revision + 1));
    if raised { RaiseKeeps(c2, ids); }
  }

  /** `t` says what the database says, and a page passes over nobody. */
  ghost predicate Faithful(db: Database, s: Session, t: Snapshot) {
    && (forall u :: u in t.Ids() ==> Get(t.users, u) == Get(Authorised(db), u))
    && (forall u :: t.baseline && u !in t.Ids() && u > s.cursor && (t.baselineEnd || u <= s.pendingCursor) ==> u !in Authorised(db))
  }

  /** What a prepared push requires of the session and the snapshot. */
  ghost predicate Preparable(c: System, s: Session, t: Snapshot) {
    && c.current.Some? && c.current.value in c.links
    && var s0 := c.links[c.current.value].session;
       && s0.ready && s0.pending.None? && s == s0.(pendingCursor := s.pendingCursor, needsBlocked := s.needsBlocked)
       && t.revision == c.db.revision + 1 && SnapshotOk(s, t) && Faithful(c.db, s, t)
  }

  ghost function AfterPrepared(c: System, s: Session, t: Snapshot, room: bool): System
    requires c.current.Some? && c.current.value in c.links
  {
    var id := c.current.value;
    var l := c.links[id];
    c.(db := c.db.(revision := t.revision, outbox := Outbox.RaiseAll(c.db.outbox, t.Ids(), t.revision)),
       links := c.links[id := WithBatch(c.codec, l.(session := s), t, room)],
       history := Recorded(c.history, c.db.blocked, l.session, Prepared(c.codec, s, t)))
  }

  lemma PreparedKeepsPast(c: System, s: Session, t: Snapshot, room: bool)
    requires Invariant(c) && Preparable(c, s, t)
    ensures var c' := AfterPrepared(c, s, t, room);
            && Extends(c.history, c'.history)
            && DatabaseOk(c'.db, c'.nextEpoch) && PastOk(c'.history, c'.db.revision, c'.nextEpoch)
            && RowsOk(c'.history, c'.db.outbox)
  {
    hide EdgeOk, CurrentOk;
    var c' := AfterPrepared(c, s, t, room);
    assert Extends(c.history, c'.history);
    SyncData.RaiseKeepsRows(c.history, c.db.outbox, t.Ids(), t.revision);
    RowsMonotone(c.history, c'.history, c'.db.outbox);
  }

  lemma PreparedKeepsLinks(c: System, s: Session, t: Snapshot, room: bool)
    requires Invariant(c) && Preparable(c, s, t)
    ensures LinksOk(AfterPrepared(c, s, t, room))
  {
    hide EdgeOk, CurrentOk, RowsOk, PastOk, DatabaseOk;
    var c' := AfterPrepared(c, s, t, room);
    var l := c.links[c.current.value];
    PreparedKeepsPast(c, s, t, room);
    LinkMonotone(c.codec, c.history, c.db.revision, c.nextEpoch, l, c'.history, t.revision, c.nextEpoch);
    LinksAfter(c, c.current.value, c');
  }

  lemma PromiseAppends(h: History, l: Link, l': Link, e: Edge)
    requires PromiseOk(h, l, e)
    requires l'.session.ready ==> l.session.ready && l'.session.baselineActive == l.session.baselineActive && l'.session.epoch == l.session.epoch
    requires forall m :: m in l'.down ==> m in l.down || !m.Confirmed?
    ensures PromiseOk(h, l', e)
  {
  }

  lemma LastIsOld(codec: Codec, l: Link, e: Edge)
    requires SessionOk(codec, l.session) && FlowOk(l, e) && l.session.ready && l.session.pending.None?
    ensures e.lastRevision.Some? ==> e.lastRevision.value <= l.session.pendingRevision
  {
  }

  lemma PreparedKeepsEdge(c: System, s: Session, t: Snapshot, room: bool)
    requires Invariant(c) && Preparable(c, s, t)
    ensures EdgeOk(AfterPrepared(c, s, t, room))
  {
    hide CurrentOk, RowsOk, PastOk, DatabaseOk, GateOk, PromiseOk, FlowOk, Faithful, Extends;
    var c' := AfterPrepared(c, s, t, room);
    var l := c.links[c.current.value];
    PreparedKeepsPast(c, s, t, room);
    GateMonotone(c.history, c'.history, c.edge);
    if c.edgeLink.Some? { PromiseMonotone(c.history, c'.history, c.links[c.edgeLink.value], c.edge); }
    if c.edgeLink == c.current {
      PromiseAppends(c'.history, l, c'.links[c.current.value], c.edge);
      LastIsOld(c.codec, l, c.edge);
      SyncFlow.FlowIgnoresFlags(l, l.(session := s), c.edge);
      SyncFlow.FlowAfterEnqueue(c.codec, l.(session := s), c.edge, t, room);
    }
  }

  lemma PreparedKeepsCurrent(c: System, s: Session, t: Snapshot, room: bool)
    requires Invariant(c) && Preparable(c, s, t)
    ensures CurrentOk(AfterPrepared(c, s, t, room))
  {
    hide RowsOk, PastOk;
    var c' := AfterPrepared(c, s, t, room);
    var s0 := c.links[c.current.value].session;
    var s' := Prepared(c.codec, s, t);
    assert Authorised(c'.db) == Authorised(c.db);
    if c.edgeLink == c.current {
      assert FlowOk(c.links[c.current.value], c.edge);
      forall u | u !in t.Ids() ensures PassedOk(Authorised(c.db), c.db.outbox, s', u) {}
      SyncData.PendingKeepsSync(Authorised(c.db), c.db.outbox, s0, s', c.edge);
    }
  }

  lemma PreparedKeeps(c: System, s: Session, t: Snapshot, room: bool)
    requires Invariant(c) && Preparable(c, s, t)
    ensures Invariant(AfterPrepared(c, s, t, room))
  {
    hide LinksOk, EdgeOk, CurrentOk, RowsOk, PastOk, DatabaseOk, Preparable;
    PreparedKeepsPast(c, s, t, room);
    PreparedKeepsLinks(c, s, t, room);
    PreparedKeepsEdge(c, s, t, room);
    PreparedKeepsCurrent(c, s, t, room);
  }

  /** Whatever becomes of the transaction and the send queue, enqueueing a faithful snapshot keeps the invariant. */
  lemma EnqueueKeeps(c: System, s: Session, t: Snapshot, sql: Sql, room: bool)
    requires Invariant(c) && Preparable(c, s, t) && s.needsBlocked == c.links[c.current.value].session.needsBlocked
    ensures var id := c.current.value;
            var l := c.links[id];
            var e := Enqueue(c.codec, c.db.(revision := c.db.revision + 1), l.(session := s), t, sql, room);
            Invariant(c.(db := e.db, links := c.links[id := e.link], history := Recorded(c.history, c.db.blocked, l.session, e.link.session)))
  {
    hide Invariant;
    var id := c.current.value;
    var l := c.links[id];
    var e := Enqueue(c.codec, c.db.(revision := c.db.revision + 1), l.(session := s), t, sql, room);
    var c' := c.(db := e.db, links := c.links[id := e.link], history := Recorded(c.history, c.db.blocked, l.session, e.link.session));
    if sql.Done? && c.db.outbox.recorded == Some(s.epoch) {
      PreparedKeeps(c, s, t, room);
      assert c' == AfterPrepared(c, s, t, room);
    } else {
      FailedPrepareKeeps(c, s, t.Ids(), sql.Unsure? && c.db.outbox.recorded == Some(s.epoch));
    }
  }

  lemma PendingIsSmall(o: Outbox.NodeOutbox, epoch: Epoch)
    ensures |Outbox.Pending(o, epoch)| <= PAGE_LIMIT
  {
    LowestIsLowerSegment(Outbox.DirtyUsers(o, epoch), PAGE_LIMIT);
  }

  lemma BaselinePageIsReady(db: Database, s: Session)
    requires s.baselineActive
    ensures var t := PageSnapshot(db, s, None);
            var s' := s.(pendingCursor := Greatest(PageUsers(db, s.cursor, None), s.cursor));
            SnapshotOk(s', t) && Faithful(db, s', t) && t.revision == db.revision + 1
  {
    hide SnapshotOk, Lowest;
    SyncData.BaselinePageIsFaithful(db, s);
  }

  lemma IncrementIsReady(db: Database, s: Session, requested: set<UserId>, cursor: int)
    requires !s.baselineActive && |requested| <= PAGE_LIMIT
    requires forall u :: u in db.accounts ==> u > 0
    ensures var t := PageSnapshot(db, s, Some(requested));
            var s' := s.(pendingCursor := cursor);
            SnapshotOk(s', t) && Faithful(db, s', t) && t.revision == db.revision + 1
  {
    hide SnapshotOk, PageUsers, Candidates, Authorised;
    SyncData.RequestedPageIsFaithful(db, s, requested);
  }

  lemma PageIsPreparable(c: System, requested: Option<set<UserId>>)
    requires Invariant(c) && c.current.Some? && c.current.value in c.links
    requires PushChoice(c.db, c.links[c.current.value].session) == Page(requested)
    ensures var s := c.links[c.current.value].session;
            var after := if s.baselineActive then s.cursor else 0;
            Preparable(c, s.(pendingCursor := Greatest(PageUsers(c.db, after, requested), after)), PageSnapshot(c.db, s, requested))
  {
    hide RowsOk, PastOk, EdgeOk, SyncOk, OwnerOk, PageSnapshot, PageUsers, SnapshotOk, Faithful, BlockedAfter;
    var s := c.links[c.current.value].session;
    if requested.None? {
      BaselinePageIsReady(c.db, s);
    } else {
      PendingIsSmall(c.db.outbox, s.epoch);
      IncrementIsReady(c.db, s, requested.value, Greatest(PageUsers(c.db, 0, requested), 0));
    }
  }

  lemma PushPageKeeps(c: System, requested: Option<set<UserId>>, sql: Sql, room: bool)
    requires Invariant(c) && c.current.Some? && c.current.value in c.links && c.links[c.current.value].open
    requires PushChoice(c.db, c.links[c.current.value].session) == Page(requested)
    ensures Invariant(DoPush(c, sql, room))
  {
    hide Invariant, Preparable, PageSnapshot, PageUsers, Enqueue;
    var s := c.links[c.current.value].session;
    var after := if s.baselineActive then s.cursor else 0;
    PageIsPreparable(c, requested);
    EnqueueKeeps(c, s.(pendingCursor := Greatest(PageUsers(c.db, after, requested), after)), PageSnapshot(c.db, s, requested), sql, room);
  }

  lemma BlacklistIsPreparable(c: System, flag: bool)
    requires Invariant(c) && c.current.Some? && c.current.value in c.links
    requires PushChoice(c.db, c.links[c.current.value].session).Blacklist?
    ensures var s := c.links[c.current.value].session;
            s.needsBlocked && Preparable(c, s.(needsBlocked := flag), BlockedSnapshot(c.db, s))
  {
    hide RowsOk, PastOk, EdgeOk, SyncOk;
  }

  lemma PushBlacklistKeeps(c: System, sql: Sql, room: bool)
    requires Invariant(c) && c.current.Some? && c.current.value in c.links && c.links[c.current.value].open
    requires PushChoice(c.db, c.links[c.current.value].session).Blacklist?
    ensures Invariant(DoPush(c, sql, room))
  {
    hide Invariant, Preparable;
    var id := c.current.value;
    var l := c.links[id];
    var s := l.session;
    var t := BlockedSnapshot(c.db, s);
    BlacklistIsPreparable(c, true);
    BlacklistIsPreparable(c, false);
    assert s.(needsBlocked := true) == s;
    if sql.Done? && room && c.db.outbox.recorded == Some(s.epoch) {
      PreparedKeeps(c, s.(needsBlocked := false), t, room);
      assert DoPush(c, sql, room) == AfterPrepared(c, s.(needsBlocked := false), t, room);
    } else {
      EnqueueKeeps(c, s, t, sql, room);
      var e := Enqueue(c.codec, c.db.(revision := c.db.revision + 1), l, t, sql, room);
      assert DoPush(c, sql, room)
          == c.(db := e.db, links := c.links[id := e.link], history := Recorded(c.history, c.db.blocked, l.session, e.link.session));
    }
  }

  lemma PushKeeps(c: System, sql: Sql, room: bool)
    requires Invariant(c)
    ensures Invariant(DoPush(c, sql, room))
  {
    hide Invariant;
    if c.current.Some? && c.current.value in c.links && c.links[c.current.value].open {
      match PushChoice(c.db, c.links[c.current.value].session)
      case Nothing =>
      case NewEpoch => NewEpochKeeps(c, sql, room);
      case Blacklist => PushBlacklistKeeps(c, sql, room);
      case Page(requested) => PushPageKeeps(c, requested, sql, room);
    }
  }

  // ---- Acknowledgements ------------------------------------------------------------------

  /** A link whose session and queues move while the database stands still. */
  lemma TrafficKeeps(c: System, id: nat, l': Link, e': Edge)
    requires Invariant(c) && id in c.links
    requires var s, s' := c.links[id].session, l'.session; s' == s.(chunkIndex := s'.chunkIndex) && SessionOk(c.codec, s')
    requires forall m :: m in l'.up + l'.jobs && m.Ack? ==> m in c.links[id].up + c.links[id].jobs
    requires forall m :: m in l'.down ==> m in c.links[id].down || !m.Confirmed?
    requires e' != c.edge ==> c.edgeLink == Some(id) && e'.cache == c.edge.cache && e'.blocked == c.edge.blocked
                              && e'.lastRevision == c.edge.lastRevision && e'.resetPending == c.edge.resetPending
    requires c.edgeLink == Some(id) ==> FlowOk(l', e')
    requires GateOk(c.history, e')
    ensures Invariant(c.(links := c.links[id := l'], edge := e'))
  {
    hide RowsOk, PastOk, DatabaseOk, FlowOk, GateOk, PromiseOk, SyncOk, MirrorOk, OwnerOk, SessionOk;
    var c' := c.(links := c.links[id := l'], edge := e');
    LinksAfter(c, id, c');
    ChunkIndexKeepsOwner(c.db.outbox, c.links[id].session, l'.session);
    if c.edgeLink == Some(id) {
      EdgeSwapKeepsPromise(c.history, c.links[id], c.edge, e');
      PromiseAppends(c.history, c.links[id], l', e');
      if c.current == Some(id) && l'.session.ready {
        ChunkIndexIsIrrelevant(Authorised(c.db), c.db.outbox, c.links[id].session, l'.session, c.edge, e');
        ChunkIndexKeepsMirror(c.links[id].session, l'.session, c.edge, e');
      }
    }
  }

  lemma ChunkIndexKeepsOwner(o: Outbox.NodeOutbox, s: Session, s': Session)
    requires s' == s.(chunkIndex := s'.chunkIndex)
    ensures OwnerOk(o, s) <==> OwnerOk(o, s')
  {
  }

  lemma ChunkIndexKeepsMirror(s: Session, s': Session, e: Edge, e': Edge)
    requires s' == s.(chunkIndex := s'.chunkIndex) && MirrorOk(s, e) && e'.blocked == e.blocked && e'.lastRevision == e.lastRevision
    ensures MirrorOk(s', e')
  {
  }

  lemma EdgeSwapKeepsPromise(h: History, l: Link, e: Edge, e': Edge)
    requires PromiseOk(h, l, e) && e'.resetPending == e.resetPending
    ensures PromiseOk(h, l, e')
  {
  }

  lemma ChunkIndexIsIrrelevant(a: map<UserId, Identity>, o: Outbox.NodeOutbox, s: Session, s': Session, e: Edge, e': Edge)
    requires s' == s.(chunkIndex := s'.chunkIndex) && SyncOk(a, o, s, e)
    requires e'.cache == e.cache && e'.lastRevision == e.lastRevision
    ensures SyncOk(a, o, s', e')
  {
    forall u | s.pending.None? || u !in s.pending.value.Ids() ensures OutsideOk(a, o, s', e'.cache, u) {
      assert OutsideOk(a, o, s, e.cache, u);
    }
    if s.pending.Some? {
      forall u | u !in s.pending.value.Ids() ensures PassedOk(a, o, s', u) { assert PassedOk(a, o, s, u); }
      forall u | u in s.pending.value.Ids() ensures InsideOk(a, o, s', u) { assert InsideOk(a, o, s, u); }
    }
  }
}
