/**
  Which changes of the blacklist reach the edge: the promise that a difference is always going
  to be delivered, and the history of changes that came when nobody was going to look.
 */
module SyncBlacklist {
  import opened Base
  import opened Identities
  import opened SyncProtocol
  import opened SyncInvariant
  import Outbox
  import SyncData
  import SyncEdge
  import SyncReplies
  import SyncSteps

  /** The session's copy, once the pending snapshot is confirmed, is the database's list, or the list is going to be read again. */
  predicate Promised(blocked: map<Ip, Block>, s: Session) { MirrorTarget(s) == blocked || Rereads(s) }

  /** What the history says about the session: its copy is the list last read, and a change is lost exactly when the promise is broken. */
  predicate TracedBy(h: History, blocked: map<Ip, Block>, s: Session) {
    && (s.ready && !EndPageToCome(s) ==> MirrorTarget(s) == h.read)
    && (h.lost <==> !Rereads(s) && h.read != blocked)
  }

  ghost predicate Traced(c: System) {
    c.current.Some? && c.current.value in c.links ==> TracedBy(c.history, c.db.blocked, c.links[c.current.value].session)
  }

  // ---- One push --------------------------------------------------------------------------

  /** A page reads the blacklist exactly when it ends the baseline; an increment never mentions it. */
  lemma PageReadsAtTheEnd(db: Database, s: Session, requested: Option<set<UserId>>)
    requires PushChoice(db, s) == Page(requested)
    ensures var t := PageSnapshot(db, s, requested);
            && s.baselineActive == t.baseline && (ReadsBlacklist(t) ==> t.baselineEnd) && (t.baselineEnd ==> t.baseline)
            && BlockedAfter(s.blocked, t) == if t.baselineEnd then db.blocked else s.blocked
  {
    hide PageUsers, Candidates, Authorised, Outbox.Pending;
    var t := PageSnapshot(db, s, requested);
    UsersAreNamed(db, s, requested);
    if requested.None? && !t.baselineEnd { PageIsFull(db, s); }
    assert map[] + db.blocked == db.blocked && s.blocked + map[] == s.blocked;
    assert db.blocked - {} == db.blocked && s.blocked - {} == s.blocked;
  }

  lemma PageIsFull(db: Database, s: Session)
    requires s.baselineActive && |Candidates(db, s.cursor, None)| > PAGE_LIMIT
    ensures PageUsers(db, s.cursor, None) != {}
  {
    hide Lowest;
    LowestIsLowerSegment(Candidates(db, s.cursor, None), PAGE_LIMIT);
  }

  lemma UsersAreNamed(db: Database, s: Session, requested: Option<set<UserId>>)
    ensures var after := if s.baselineActive then s.cursor else 0;
            var t := PageSnapshot(db, s, requested);
            PageUsers(db, after, requested) + (if requested.Some? then requested.value else {}) <= t.Ids()
  {
    hide Lowest;
    var after := if s.baselineActive then s.cursor else 0;
    LowestIsLowerSegment(Candidates(db, after, requested), PAGE_LIMIT);
  }

  lemma PagePushIsTraced(c: System, requested: Option<set<UserId>>, sql: Sql, room: bool)
    requires Invariant(c) && Traced(c) && c.current.Some? && c.current.value in c.links && c.links[c.current.value].open
    requires PushChoice(c.db, c.links[c.current.value].session) == Page(requested)
    ensures Traced(DoPush(c, sql, room))
  {
    hide RowsOk, PastOk, DatabaseOk, EdgeOk, CurrentOk, PageSnapshot, PageUsers, Outbox.Prepare, Prepared, Recorded, TracedBy, NextChunk;
    SyncReplies.LinkIsOk(c, c.current.value);
    var s := c.links[c.current.value].session;
    PageReadsAtTheEnd(c.db, s, requested);
    var after := if s.baselineActive then s.cursor else 0;
    var s1 := s.(pendingCursor := Greatest(PageUsers(c.db, after, requested), after));
    CursorIsTraced(c.history, c.db.blocked, s, s1);
    PageIsTraced(c.codec, c.history, c.db.blocked, s, s1, PageSnapshot(c.db, s, requested));
  }

  lemma CursorIsTraced(h: History, blocked: map<Ip, Block>, s: Session, s': Session)
    requires TracedBy(h, blocked, s) && s' == s.(pendingCursor := s'.pendingCursor)
    ensures TracedBy(h, blocked, s') && TracedBy(Recorded(h, blocked, s, s'), blocked, s')
  {
  }

  lemma PageIsTraced(codec: Codec, h: History, blocked: map<Ip, Block>, before: Session, s: Session, t: Snapshot)
    requires TracedBy(h, blocked, s) && s.ready && s.pending.None? && before.pending.None?
    requires s.baselineActive == t.baseline && (s.needsFull ==> s.baselineActive) && (ReadsBlacklist(t) ==> t.baselineEnd)
    requires t.baselineEnd ==> t.baseline
    requires BlockedAfter(s.blocked, t) == if t.baselineEnd then blocked else s.blocked
    ensures TracedBy(Recorded(h, blocked, before, Prepared(codec, s, t)), blocked, Prepared(codec, s, t))
  {
    hide BlockedAfter, FragmentCount;
  }

  lemma BlacklistPushIsTraced(c: System, sql: Sql, room: bool)
    requires Invariant(c) && Traced(c) && c.current.Some? && c.current.value in c.links && c.links[c.current.value].open
    requires PushChoice(c.db, c.links[c.current.value].session).Blacklist?
    ensures Traced(DoPush(c, sql, room))
  {
    hide RowsOk, PastOk, DatabaseOk, EdgeOk, CurrentOk, Outbox.Prepare, BlockedAfter, SnapshotOk, FragmentCount, NextChunk, ChangedBlocks;
    SyncReplies.LinkIsOk(c, c.current.value);
    SyncData.DeltaEqualsReplacement(c.db, c.links[c.current.value].session);
  }

  lemma PushIsTraced(c: System, sql: Sql, room: bool)
    requires Invariant(c) && Traced(c)
    ensures Traced(DoPush(c, sql, room))
  {
    hide Invariant, PushPage, PushBlocked, MirrorTarget;
    if c.current.Some? && c.current.value in c.links && c.links[c.current.value].open {
      match PushChoice(c.db, c.links[c.current.value].session)
      case Page(requested) => PagePushIsTraced(c, requested, sql, room);
      case Blacklist => BlacklistPushIsTraced(c, sql, room);
      case _ =>
    }
  }

  // ---- The other steps -------------------------------------------------------------------

  /** Confirming the pending snapshot changes neither what the session will hold nor what it will read. */
  lemma ConfirmedIsTraced(codec: Codec, h: History, blocked: map<Ip, Block>, s: Session)
    requires SessionOk(codec, s) && s.ready && s.pending.Some? && TracedBy(h, blocked, s)
    ensures TracedBy(h, blocked, SessionConfirmed(s, s.pending.value))
  {
  }

  lemma AckIsTraced(codec: Codec, h: History, db: Database, l: Link, current: bool, epoch: Epoch, revision: nat, sql: Sql, room: bool)
    requires SessionOk(codec, l.session) && TracedBy(h, db.blocked, l.session)
    ensures var r := OnAck(db, l, current, epoch, revision, sql, room);
            r.db.blocked == db.blocked && TracedBy(h, db.blocked, r.link.session)
  {
    hide TracedBy, SessionConfirmed, Outbox.Confirm, SessionOk;
    var s := l.session;
    PendingMeansReady(codec, s);
    if s.pending.Some? { ConfirmedIsTraced(codec, h, db.blocked, s); }
  }

  lemma ClearingIsTraced(h: History, db: Database, l: Link, current: bool, epoch: Epoch, sql: Sql)
    requires TracedBy(h, db.blocked, l.session)
    ensures var r := OnCleared(db, l, current, epoch, sql);
            r.db.blocked == db.blocked && TracedBy(h, db.blocked, r.link.session)
  {
    hide TracedBy, Outbox.Reset;
    if !l.session.ready { ClearedIsTraced(h, db.blocked, l.session); }
  }

  lemma WorkIsTraced(c: System, id: nat, sql: Sql, room: bool)
    requires Invariant(c) && Traced(c)
    ensures Traced(DoWork(c, id, sql, room))
  {
    hide RowsOk, PastOk, DatabaseOk, EdgeOk, CurrentOk, OnAck, OnCleared, SessionOk, TracedBy, Settled;
    if id in c.links && c.links[id].open && c.links[id].jobs != [] {
      var l, current := c.links[id], c.current == Some(id);
      match l.jobs[0]
      case ChunkAck(_, _, _) =>
      case Cleared(epoch) =>
        if current { ClearingIsTraced(c.history, c.db, l, current, epoch, sql); }
        else { ForeignCleared(c.db, l, epoch, sql); }
        SettledIsTraced(c, id, OnCleared(c.db, l, current, epoch, sql), c.history);
      case Ack(epoch, revision) =>
        SyncReplies.LinkIsOk(c, id);
        if current { AckIsTraced(c.codec, c.history, c.db, l, current, epoch, revision, sql, room); }
        else { ForeignAck(c.db, l, epoch, revision, sql, room); }
        var r := OnAck(c.db, l, current, epoch, revision, sql, room);
        SettledIsTraced(c, id, r, c.history);
        SettledIsTraced(c, id, r, c.history.(acked := c.history.acked + {(epoch, revision)}));
    }
  }

  lemma ForeignCleared(db: Database, l: Link, epoch: Epoch, sql: Sql)
    ensures OnCleared(db, l, false, epoch, sql).db == db
  {
  }

  lemma ForeignAck(db: Database, l: Link, epoch: Epoch, revision: nat, sql: Sql, room: bool)
    ensures OnAck(db, l, false, epoch, revision, sql, room).db == db
  {
  }

  lemma SettledIsTraced(c: System, id: nat, r: Handled, h: History)
    requires Traced(c) && id in c.links && c.links[id].jobs != [] && r.db.blocked == c.db.blocked
    requires h.read == c.history.read && h.lost == c.history.lost
    requires c.current == Some(id) ==> TracedBy(c.history, c.db.blocked, r.link.session)
    ensures Traced(Settled(c, id, r, h))
  {
    hide TracedBy;
    SameTrace(c.history, h, c.db.blocked, r.link.session);
    if c.current.Some? && c.current.value in c.links { SameTrace(c.history, h, c.db.blocked, c.links[c.current.value].session); }
  }

  lemma PendingMeansReady(codec: Codec, s: Session)
    requires SessionOk(codec, s)
    ensures s.pending.Some? ==> s.ready
  {
  }

  lemma ClearedIsTraced(h: History, blocked: map<Ip, Block>, s: Session)
    requires TracedBy(h, blocked, s) && !s.ready
    ensures TracedBy(h, blocked, s.(ready := true, needsFull := false, baselineActive := true, cursor := 0,
                                    pendingRevision := 0, appliedRevision := 0, pending := None, blocked := map[]))
  {
  }

  lemma ReceiveIsTraced(c: System, id: nat, room: bool, keep: bool)
    requires Traced(c)
    ensures Traced(DoReceive(c, id, room, keep))
  {
    hide NextChunk;
  }

  lemma SetBlockedIsTraced(c: System, blocked: map<Ip, Block>, announced: bool)
    requires Traced(c)
    ensures Traced(Do(c, SetBlocked(blocked, announced)))
  {
  }

  lemma StepIsTraced(c: System, a: Action)
    requires Invariant(c) && Traced(c)
    ensures Traced(Do(c, a))
  {
    hide Invariant, TracedBy, EdgeReceive, JobSnapshot, Applied, Mutated;
    match a
    case Connect(legacyAdmission) => if c.edgeLink.None? { FreshIsTraced(c, legacyAdmission); }
    case Push(sql, room) => PushIsTraced(c, sql, room);
    case ScheduleFull => FlagIsTraced(c);
    case Receive(link, room, keep) => ReceiveIsTraced(c, link, room, keep);
    case Work(link, sql, room) => WorkIsTraced(c, link, sql, room);
    case SetBlocked(blocked, announced) => SetBlockedIsTraced(c, blocked, announced);
    case _ => ElseIsTraced(c, a);
  }

  lemma FreshIsTraced(c: System, legacyAdmission: bool)
    ensures Traced(DoConnect(c, legacyAdmission))
  {
  }

  lemma FlagIsTraced(c: System)
    requires Traced(c)
    ensures Traced(Flagged(c, true))
  {
  }

  lemma ElseIsTraced(c: System, a: Action)
    requires Traced(c)
    requires a.EndSession? || a.EdgeTakesMessage? || a.EdgeTakesJob? || a.EdgeFinishesJob? || a.EdgeFence? || a.EdgeDetach?
             || a.Mutate? || a.CreateUser? || a.Elsewhere?
    ensures Traced(Do(c, a))
  {
    hide TracedBy, EdgeReceive, JobSnapshot, Applied, Outbox.MarkDirty;
    var d := Do(c, a);
    var h, h' := c.history, d.history;
    assert h'.read == h.read && h'.lost == h.lost && d.db.blocked == c.db.blocked;
    if d.current.Some? && d.current.value in d.links { SameTrace(h, h', c.db.blocked, d.links[d.current.value].session); }
  }

  lemma SameTrace(h: History, h': History, blocked: map<Ip, Block>, s: Session)
    requires h'.read == h.read && h'.lost == h.lost
    ensures TracedBy(h, blocked, s) <==> TracedBy(h', blocked, s)
  {
  }

  lemma {:induction false} RunIsTraced(start: System, actions: seq<Action>)
    requires Initial(start)
    ensures Traced(Run(start, actions))
    decreases |actions|
  {
    hide Invariant, Traced, Do;
    if actions == [] {
      InitialIsTraced(start);
    } else {
      var init := actions[..|actions| - 1];
      RunIsTraced(start, init);
      SyncEdge.RunKeeps(start, init);
      StepIsTraced(Run(start, init), actions[|actions| - 1]);
    }
  }

  lemma InitialIsTraced(start: System)
    requires Initial(start)
    ensures Traced(start)
  {
  }

  /** Only an unannounced change is ever lost. */
  lemma {:induction false} AnnouncedIsNeverLost(start: System, actions: seq<Action>)
    requires Initial(start) && forall i :: 0 <= i < |actions| && actions[i].SetBlocked? ==> actions[i].announced
    ensures !Run(start, actions).history.lost
    decreases |actions|
  {
    if actions != [] {
      var init, last := actions[..|actions| - 1], actions[|actions| - 1];
      AnnouncedIsNeverLost(start, init);
      OnlySilenceLoses(Run(start, init), last);
    }
  }

  lemma OnlySilenceLoses(c: System, a: Action)
    requires !c.history.lost && (a.SetBlocked? ==> a.announced)
    ensures !Do(c, a).history.lost
  {
    hide EdgeReceive, JobSnapshot, Applied, Mutated, PushChoice, PushPage, PushBlocked, RequestReset, OnAck, OnCleared, OnChunkAck;
  }
}
