/** Every step keeps the outbox truthful and the edge cache accounted for. */
module SyncData {
  import opened Base
  import opened Identities
  import opened SyncProtocol
  import opened SyncInvariant
  import Outbox
  import opened SyncFlow

  // ---- Mutations -------------------------------------------------------------------------

  lemma MutationKeepsDatabase(h: History, db: Database, user: UserId, account: Option<Identity>, granted: bool, nextEpoch: Epoch)
    requires DatabaseOk(db, nextEpoch) && RowsOk(h, db.outbox)
    requires user in db.accounts && (granted ==> account.Some?)
    ensures DatabaseOk(Mutated(db, user, account, granted), nextEpoch)
    ensures RowsOk(h, Mutated(db, user, account, granted).outbox)
  {
    var o, o' := db.outbox, Mutated(db, user, account, granted).outbox;
    forall u | u in o'.rows ensures RowOk(h, o'.recorded, u, o'.rows[u]) {
      if u in o.rows { assert RowOk(h, o.recorded, u, o.rows[u]); }
    }
  }

  lemma MutationKeepsOwner(codec: Codec, db: Database, user: UserId, account: Option<Identity>, granted: bool, nextEpoch: Epoch, s: Session)
    requires DatabaseOk(db, nextEpoch) && SessionOk(codec, s) && OwnerOk(db.outbox, s) && s.pendingRevision <= db.revision
    ensures OwnerOk(Mutated(db, user, account, granted).outbox, s)
  {
  }

  lemma MutationKeepsSync(codec: Codec, db: Database, user: UserId, account: Option<Identity>, granted: bool, nextEpoch: Epoch,
                          s: Session, e: Edge)
    requires DatabaseOk(db, nextEpoch) && SessionOk(codec, s) && s.ready && s.pendingRevision <= db.revision
    requires OwnerOk(db.outbox, s) && SyncOk(Authorised(db), db.outbox, s, e)
    requires user in db.accounts && (granted ==> account.Some?)
    ensures var db' := Mutated(db, user, account, granted); SyncOk(Authorised(db'), db'.outbox, s, e)
  {
    var db' := Mutated(db, user, account, granted);
    var a, a' := Authorised(db), Authorised(db');
    var o, o' := db.outbox, db'.outbox;
    assert forall u :: u != user ==> Get(a', u) == Get(a, u) && Get(o'.rows, u) == Get(o.rows, u);
    assert user in o'.rows ==> o'.rows[user].desired == db.revision + 1 && Dirty(o', user);
    assert user !in o'.rows ==> user !in a' && user !in e.cache;
    forall u | s.pending.None? || u !in s.pending.value.Ids() ensures OutsideOk(a', o', s, e.cache, u) {
      if u != user { assert OutsideOk(a, o, s, e.cache, u); }
    }
    if s.pending.Some? {
      forall u | u !in s.pending.value.Ids() ensures PassedOk(a', o', s, u) {
        if u != user { assert PassedOk(a, o, s, u); }
      }
      forall u | u in s.pending.value.Ids() ensures InsideOk(a', o', s, u) {
        if u != user { assert InsideOk(a, o, s, u); }
      }
    }
  }

  lemma SyncIgnoresFlags(a: map<UserId, Identity>, o: Outbox.NodeOutbox, s: Session, s': Session, e: Edge)
    requires SameTraffic(s, s') && SyncOk(a, o, s, e)
    ensures SyncOk(a, o, s', e)
  {
    forall u | s.pending.None? || u !in s.pending.value.Ids() ensures OutsideOk(a, o, s', e.cache, u) {
      assert OutsideOk(a, o, s, e.cache, u);
    }
    if s.pending.Some? {
      forall u | u !in s.pending.value.Ids() ensures PassedOk(a, o, s', u) { assert PassedOk(a, o, s, u); }
      forall u | u in s.pending.value.Ids() ensures InsideOk(a, o, s', u) { assert InsideOk(a, o, s, u); }
    }
  }

  // ---- Preparing -------------------------------------------------------------------------

  lemma RaiseKeepsRows(h: History, o: Outbox.NodeOutbox, ids: set<UserId>, revision: nat)
    requires Outbox.WellFormed(o, revision) && RowsOk(h, o)
    ensures Outbox.WellFormed(Outbox.RaiseAll(o, ids, revision), revision)
    ensures RowsOk(h, Outbox.RaiseAll(o, ids, revision))
  {
    var o' := Outbox.RaiseAll(o, ids, revision);
    forall u | u in o'.rows ensures RowOk(h, o'.recorded, u, o'.rows[u]) {
      if u in o.rows { assert RowOk(h, o.recorded, u, o.rows[u]); }
    }
  }

  /** Raising rows that are not yet claimed by a new batch schedules more, never less. */
  lemma RaiseKeepsSync(a: map<UserId, Identity>, o: Outbox.NodeOutbox, ids: set<UserId>, revision: nat, s: Session, e: Edge)
    requires s.ready && s.pending.None?
    requires OwnerOk(o, s) && SyncOk(a, o, s, e)
    ensures var o' := Outbox.RaiseAll(o, ids, revision); OwnerOk(o', s) && SyncOk(a, o', s, e)
  {
    var o' := Outbox.RaiseAll(o, ids, revision);
    forall u ensures OutsideOk(a, o', s, e.cache, u) {
      assert OutsideOk(a, o, s, e.cache, u);
    }
  }

  /** A snapshot that says what the database says becomes the pending batch. */
  lemma PendingKeepsSync(a: map<UserId, Identity>, o: Outbox.NodeOutbox, s: Session, s': Session, e: Edge)
    requires s.ready && s.pending.None? && s'.pending.Some?
    requires s' == s.(pending := s'.pending, pendingRevision := s'.pendingRevision, pendingCursor := s'.pendingCursor,
                      needsFull := s'.needsFull, needsBlocked := s'.needsBlocked,
                      payload := s'.payload, chunkIndex := s'.chunkIndex, chunkTotal := s'.chunkTotal)
    requires s'.pendingRevision > s.pendingRevision && Outbox.WellFormed(o, s'.pendingRevision - 1)
    requires OwnerOk(o, s) && SyncOk(a, o, s, e)
    requires forall u :: u in s'.pending.value.Ids() ==> Get(s'.pending.value.users, u) == Get(a, u)
    requires forall u :: u !in s'.pending.value.Ids() ==> PassedOk(a, o, s', u)
    requires !Committed(s', e)
    ensures var o' := Outbox.RaiseAll(o, s'.pending.value.Ids(), s'.pendingRevision);
            OwnerOk(o', s') && SyncOk(a, o', s', e)
  {
    var o' := Outbox.RaiseAll(o, s'.pending.value.Ids(), s'.pendingRevision);
    forall u | u !in s'.pending.value.Ids() ensures OutsideOk(a, o', s', e.cache, u) && PassedOk(a, o', s', u) {
      assert OutsideOk(a, o, s, e.cache, u) && PassedOk(a, o, s', u);
    }
    forall u | u in s'.pending.value.Ids() ensures InsideOk(a, o', s', u) {}
  }

  // ---- Pages -----------------------------------------------------------------------------

  /** A baseline page carries the database's view of its users and passes over nobody it should have carried. */
  lemma BaselinePageIsFaithful(db: Database, s: Session)
    requires s.baselineActive
    ensures var t := PageSnapshot(db, s, None);
            var last := Greatest(PageUsers(db, s.cursor, None), s.cursor);
            && SnapshotOk(s.(pendingCursor := last), t)
            && t.Ids() == PageUsers(db, s.cursor, None)
            && (forall u :: u in t.Ids() ==> Get(t.users, u) == Get(Authorised(db), u))
            && (forall u :: u !in t.Ids() && u > s.cursor && (t.baselineEnd || u <= last) ==> u !in Authorised(db))
  {
    hide Lowest;
    var t := PageSnapshot(db, s, None);
    var all := Candidates(db, s.cursor, None);
    var page := PageUsers(db, s.cursor, None);
    var last := Greatest(page, s.cursor);
    LowestIsLowerSegment(all, PAGE_LIMIT);
    assert t.users.Keys == page;
    forall u | u !in page && u > s.cursor && (t.baselineEnd || u <= last) ensures u !in Authorised(db) {
      assert u in Authorised(db) ==> u in all;
      assert page == {} ==> |all| == 0;
    }
  }

  /** An increment carries every requested user: as the database has it, or as removed. */
  lemma RequestedPageIsFaithful(db: Database, s: Session, requested: set<UserId>)
    requires !s.baselineActive && |requested| <= PAGE_LIMIT
    requires forall u :: u in db.accounts ==> u > 0
    ensures var t := PageSnapshot(db, s, Some(requested));
            && (forall cursor :: SnapshotOk(s.(pendingCursor := cursor), t))
            && t.Ids() == requested
            && (forall u :: u in t.Ids() ==> Get(t.users, u) == Get(Authorised(db), u))
  {
    hide PageUsers;
    RequestedFitOnePage(db, requested);
    var t := PageSnapshot(db, s, Some(requested));
    assert t.users.Keys == Candidates(db, 0, Some(requested));
  }

  lemma RequestedFitOnePage(db: Database, requested: set<UserId>)
    requires |requested| <= PAGE_LIMIT
    ensures PageUsers(db, 0, Some(requested)) == Candidates(db, 0, Some(requested))
  {
    hide Lowest;
    var all := Candidates(db, 0, Some(requested));
    LowestIsLowerSegment(all, PAGE_LIMIT);
    SubsetCardinality(all, requested);
  }

  // ---- Confirming ------------------------------------------------------------------------

  lemma ConfirmKeepsRows(h: History, o: Outbox.NodeOutbox, epoch: Epoch, t: Snapshot, latest: nat)
    requires Outbox.WellFormed(o, latest) && RowsOk(h, o) && o.recorded == Some(epoch)
    requires t.revision > 0 && t.users.Keys !! t.removed
    requires (epoch, t.revision) in h.committed && h.committed[(epoch, t.revision)] == t
    requires forall u :: u in o.rows && u in t.Ids() ==> o.rows[u].applied <= t.revision <= o.rows[u].desired
    ensures var o' := Outbox.ConfirmRows(o, epoch, t.revision, t.users.Keys, t.removed, false);
            Outbox.WellFormed(o', latest) && RowsOk(h, o')
  {
    var o' := Outbox.ConfirmRows(o, epoch, t.revision, t.users.Keys, t.removed, false);
    forall u | u in o'.rows ensures RowOk(h, o'.recorded, u, o'.rows[u]) {
      assert RowOk(h, o.recorded, u, o.rows[u]);
    }
  }

  lemma ConfirmKeepsOwner(codec: Codec, o: Outbox.NodeOutbox, s: Session)
    requires SessionOk(codec, s) && s.ready && s.pending.Some? && OwnerOk(o, s)
    ensures var t := s.pending.value;
            var o' := Outbox.ConfirmRows(o, s.epoch, t.revision, t.users.Keys, t.removed, false);
            OwnerOk(o', s) && OwnerOk(o', SessionConfirmed(s, t))
  {
  }

  /** Committed, possibly without the controller learning of it: the batch is still pending. */
  lemma ConfirmKeepsPending(codec: Codec, a: map<UserId, Identity>, o: Outbox.NodeOutbox, s: Session, e: Edge, latest: nat)
    requires SessionOk(codec, s) && s.ready && s.pending.Some? && Committed(s, e)
    requires Outbox.WellFormed(o, latest) && OwnerOk(o, s) && SyncOk(a, o, s, e)
    ensures var t := s.pending.value;
            var o' := Outbox.ConfirmRows(o, s.epoch, t.revision, t.users.Keys, t.removed, false);
            SyncOk(a, o', s, e)
  {
    var t := s.pending.value;
    var o' := Outbox.ConfirmRows(o, s.epoch, t.revision, t.users.Keys, t.removed, false);
    assert forall u :: u !in t.Ids() ==> Get(o'.rows, u) == Get(o.rows, u);
    forall u | u !in t.Ids() ensures OutsideOk(a, o', s, e.cache, u) && PassedOk(a, o', s, u) {
      assert OutsideOk(a, o, s, e.cache, u) && PassedOk(a, o, s, u);
    }
    forall u | u in t.Ids() ensures InsideOk(a, o', s, u) {
      assert InsideOk(a, o, s, u);
    }
  }

  /** The controller accounts for the confirmed batch: what changed meanwhile is still scheduled. */
  lemma ConfirmKeepsSync(codec: Codec, a: map<UserId, Identity>, o: Outbox.NodeOutbox, s: Session, e: Edge, latest: nat)
    requires SessionOk(codec, s) && s.ready && s.pending.Some? && Committed(s, e) && StoreOk(s, e)
    requires Outbox.WellFormed(o, latest) && OwnerOk(o, s) && SyncOk(a, o, s, e)
    ensures var t := s.pending.value;
            var o' := Outbox.ConfirmRows(o, s.epoch, t.revision, t.users.Keys, t.removed, false);
            var s' := SessionConfirmed(s, t);
            SyncOk(a, o', s', e)
  {
    var t := s.pending.value;
    var o' := Outbox.ConfirmRows(o, s.epoch, t.revision, t.users.Keys, t.removed, false);
    var s' := SessionConfirmed(s, t);
    assert forall u :: u !in t.Ids() ==> Get(o'.rows, u) == Get(o.rows, u);
    forall u ensures OutsideOk(a, o', s', e.cache, u) {
      if u in t.Ids() {
        assert InsideOk(a, o, s, u);
        assert Get(e.cache, u) == Get(t.users, u);
      } else {
        assert OutsideOk(a, o, s, e.cache, u) && PassedOk(a, o, s, u);
        assert u in e.cache && s.baselineActive ==> u <= s.cursor;
      }
    }
  }

  // ---- The edge commits ------------------------------------------------------------------

  lemma CommitKeepsSync(codec: Codec, a: map<UserId, Identity>, o: Outbox.NodeOutbox, s: Session, e: Edge)
    requires SessionOk(codec, s) && s.ready && s.pending.Some? && !Committed(s, e)
    requires OwnerOk(o, s) && SyncOk(a, o, s, e)
    ensures SyncOk(a, o, s, Applied(e, s.pending.value))
  {
    var t := s.pending.value;
    var e' := Applied(e, t);
    assert forall u :: u !in t.Ids() ==> Get(e'.cache, u) == Get(e.cache, u);
    assert forall u :: u in t.Ids() ==> Get(e'.cache, u) == Get(t.users, u);
    forall u | u !in t.Ids() ensures OutsideOk(a, o, s, e'.cache, u) {
      assert OutsideOk(a, o, s, e.cache, u);
    }
  }

  lemma CommitKeepsMirror(codec: Codec, s: Session, e: Edge)
    requires SessionOk(codec, s) && s.ready && s.pending.Some? && !Committed(s, e)
    requires MirrorOk(s, e)
    ensures MirrorOk(s, Applied(e, s.pending.value))
  {
  }

  /** Sending only the differences has the effect of replacing the whole list. */
  lemma DeltaEqualsReplacement(db: Database, s: Session)
    ensures BlockedAfter(s.blocked, BlockedSnapshot(db, s)) == db.blocked
  {
    var t := BlockedSnapshot(db, s);
    var after := BlockedAfter(s.blocked, t);
    forall ip ensures ip in after <==> ip in db.blocked {}
    forall ip | ip in after ensures after[ip] == db.blocked[ip] {}
  }

  /** A node of an old admission protocol gets the whole list, which is right whatever it holds. */
  lemma LegacyGetsTheWholeList(db: Database, s: Session, have: map<Ip, Block>)
    requires s.legacyAdmission
    ensures BlockedAfter(have, BlockedSnapshot(db, s)) == db.blocked
  {
  }
}
