/** The controller's answers keep the invariant. */
module SyncReplies {
  import opened Base
  import opened Identities
  import opened SyncProtocol
  import opened SyncInvariant
  import opened SyncSteps
  import Outbox
  import SyncFlow
  import SyncData

  // ---- Taking messages from the stream ---------------------------------------------------

  lemma ChunkAckMovesLittle(codec: Codec, db: Database, l: Link, current: bool, epoch: Epoch, revision: nat, sequence: nat, room: bool)
    requires SessionOk(codec, l.session)
    ensures var r := OnChunkAck(db, l, current, epoch, revision, sequence, room);
            && SessionOk(codec, r.link.session)
            && r.link.session == l.session.(chunkIndex := r.link.session.chunkIndex)
            && r.link == l.(session := r.link.session, down := r.link.down)
            && (forall m :: m in r.link.down ==> m in l.down || !m.Confirmed?)
  {
  }

  lemma ChunkAckKeeps(c: System, id: nat, room: bool)
    requires Invariant(c) && id in c.links && c.links[id].open && c.links[id].up != [] && c.links[id].up[0].ChunkAck?
    requires var m := c.links[id].up[0];
             !OnChunkAck(c.db, c.links[id], c.current == Some(id), m.epoch, m.revision, m.sequence, room).verdict.Fail?
    ensures var m := c.links[id].up[0];
            var r := OnChunkAck(c.db, c.links[id], c.current == Some(id), m.epoch, m.revision, m.sequence, room);
            Invariant(c.(links := c.links[id := r.link.(up := c.links[id].up[1..])]))
  {
    hide RowsOk, PastOk, DatabaseOk, CurrentOk, FlowOk, PromiseOk, OnChunkAck, SessionOk, GateOk;
    var l := c.links[id];
    var m := l.up[0];
    ChunkAckMovesLittle(c.codec, c.db, l, c.current == Some(id), m.epoch, m.revision, m.sequence, room);
    var r := OnChunkAck(c.db, l, c.current == Some(id), m.epoch, m.revision, m.sequence, room);
    if c.edgeLink == Some(id) {
      SyncFlow.FlowAfterChunkAck(c.codec, c.db, l, c.edge, c.current == Some(id), m.epoch, m.revision, m.sequence, room);
    }
    forall x | x in l.up[1..] + l.jobs ensures x in l.up + l.jobs {}
    TrafficKeeps(c, id, r.link.(up := l.up[1..]), c.edge);
  }

  lemma ShelveKeeps(c: System, id: nat, keep: bool)
    requires Invariant(c) && id in c.links && c.links[id].up != [] && !c.links[id].up[0].ChunkAck?
    ensures var l := c.links[id];
            Invariant(c.(links := c.links[id := l.(up := l.up[1..], jobs := if keep then l.jobs + [l.up[0]] else l.jobs)]))
  {
    hide RowsOk, PastOk, DatabaseOk, CurrentOk, FlowOk, PromiseOk;
    var l := c.links[id];
    var l' := l.(up := l.up[1..], jobs := if keep then l.jobs + [l.up[0]] else l.jobs);
    if c.edgeLink == Some(id) { SyncFlow.FlowAfterReceive(l, c.edge, keep); }
    forall m | m in l'.up + l'.jobs ensures m in l.up + l.jobs {}
    TrafficKeeps(c, id, l', c.edge);
  }

  lemma ReceiveKeeps(c: System, id: nat, room: bool, keep: bool)
    requires Invariant(c)
    ensures Invariant(DoReceive(c, id, room, keep))
  {
    hide Invariant;
    if id in c.links && c.links[id].open && c.links[id].up != [] {
      var l := c.links[id];
      var m := l.up[0];
      if m.ChunkAck? {
        var r := OnChunkAck(c.db, l, c.current == Some(id), m.epoch, m.revision, m.sequence, room);
        if r.verdict.Fail? {
          CloseKeeps(c, id);
        } else {
          ChunkAckKeeps(c, id, room);
          if r.verdict.Late? { CloseKeeps(c.(links := c.links[id := r.link.(up := l.up[1..])]), id); }
        }
      } else {
        ShelveKeeps(c, id, keep);
      }
    }
  }

  // ---- Cache cleared ---------------------------------------------------------------------

  lemma PopKeeps(c: System, id: nat)
    requires Invariant(c) && id in c.links && c.links[id].jobs != []
    requires var l := c.links[id]; c.edgeLink == Some(id) ==> FlowOk(l.(jobs := l.jobs[1..]), c.edge)
    ensures Invariant(c.(links := c.links[id := c.links[id].(jobs := c.links[id].jobs[1..])]))
  {
    hide RowsOk, PastOk, DatabaseOk, CurrentOk, FlowOk, PromiseOk;
    var l := c.links[id];
    forall m | m in l.up + l.jobs[1..] ensures m in l.up + l.jobs {}
    TrafficKeeps(c, id, l.(jobs := l.jobs[1..]), c.edge);
  }

  /** Resetting the rows while the session is not ready. */
  lemma ResetRowsKeeps(c: System)
    requires Invariant(c) && c.current.Some? && c.current.value in c.links && !c.links[c.current.value].session.ready
    ensures Invariant(c.(db := c.db.(outbox := Outbox.Reset(c.links[c.current.value].session.epoch))))
  {
    hide FlowOk, PromiseOk, GateOk, PastOk, SyncOk, MirrorOk;
    var c' := c.(db := c.db.(outbox := Outbox.Reset(c.links[c.current.value].session.epoch)));
    LinksKept(c, c');
  }

  lemma EmptiedWhenCleared(l: Link, e: Edge)
    requires FlowOk(l, e) && !l.session.ready && l.jobs != [] && l.jobs[0] == Cleared(l.session.epoch)
    ensures IsEmptied(e)
  {
    assert (l.jobs + l.up)[0] == Cleared(l.session.epoch);
  }

  /** The session becomes ready: an empty cache, an empty outbox, and a baseline that starts at the first user. */
  lemma ReadyKeepsCurrent(db: Database, s: Session, e: Edge, nextEpoch: Epoch)
    requires DatabaseOk(db, nextEpoch) && db.outbox == Outbox.Reset(s.epoch) && IsEmptied(e)
    requires s.ready && s.baselineActive && s.cursor == 0 && s.pending.None? && s.blocked == map[]
    ensures SyncOk(Authorised(db), db.outbox, s, e) && MirrorOk(s, e)
  {
    forall u ensures OutsideOk(Authorised(db), db.outbox, s, e.cache, u) {}
  }

  lemma ClearedKeeps(c: System, id: nat)
    requires Invariant(c) && id in c.links && c.current == Some(id) && !c.links[id].session.ready
    requires c.links[id].jobs != [] && c.links[id].jobs[0] == Cleared(c.links[id].session.epoch)
    requires c.db.outbox == Outbox.Reset(c.links[id].session.epoch)
    ensures var l := c.links[id];
            var r := OnCleared(c.db, l, true, l.session.epoch, Done);
            Invariant(c.(links := c.links[id := r.link.(jobs := l.jobs[1..])]))
  {
    hide RowsOk, PastOk, FlowOk, GateOk, SyncOk, MirrorOk, PromiseOk;
    var l := c.links[id];
    var l' := OnCleared(c.db, l, true, l.session.epoch, Done).link.(jobs := l.jobs[1..]);
    var c' := c.(links := c.links[id := l']);
    forall m | m in l'.up + l'.jobs ensures m in l.up + l.jobs {}
    LinksAfter(c, id, c');
    if c.edgeLink == Some(id) {
      SyncFlow.FlowAfterCleared(c.codec, c.db, l, c.edge, true, l.session.epoch, Done);
      EmptiedWhenCleared(l, c.edge);
      ReadyKeepsPromise(c.history, l, l', c.edge);
      ReadyKeepsCurrent(c.db, l'.session, c.edge, c.nextEpoch);
    }
  }

  lemma ReadyKeepsPromise(h: History, l: Link, l': Link, e: Edge)
    requires PromiseOk(h, l, e) && l'.down == l.down && l'.session.baselineActive
    ensures PromiseOk(h, l', e)
  {
  }

  lemma WorkClearedKeeps(c: System, id: nat, sql: Sql, room: bool)
    requires Invariant(c) && id in c.links && c.links[id].open && c.links[id].jobs != [] && c.links[id].jobs[0].Cleared?
    ensures Invariant(DoWork(c, id, sql, room))
  {
    hide DatabaseOk, PastOk, RowsOk, LinksOk, CurrentOk, FlowOk, PromiseOk, GateOk;
    var l := c.links[id];
    var epoch := l.jobs[0].epoch;
    var r := OnCleared(c.db, l, c.current == Some(id), epoch, sql);
    if c.edgeLink == Some(id) {
      assert SessionOk(c.codec, l.session) by { assert LinkOk(c.codec, c.history, c.db.revision, c.nextEpoch, l) by { LinkIsOk(c, id); } }
      SyncFlow.FlowAfterCleared(c.codec, c.db, l, c.edge, c.current == Some(id), epoch, sql);
    }
    if r.verdict.Fail? {
      CloseKeeps(c, id);
    } else if r.link == l && r.db == c.db {
      if r.verdict.Pass? { PopKeeps(c, id); }
    } else {
      ResetRowsKeeps(c);
      if sql.Done? { ClearedKeeps(c.(db := c.db.(outbox := Outbox.Reset(epoch))), id); }
    }
  }

  lemma LinkIsOk(c: System, id: nat)
    requires LinksOk(c) && id in c.links
    ensures LinkOk(c.codec, c.history, c.db.revision, c.nextEpoch, c.links[id])
  {
  }

  // ---- Acknowledgements ------------------------------------------------------------------

  /** The next job acknowledges the batch the registered session waits for. */
  ghost predicate Awaited(c: System, id: nat) {
    && id in c.links && c.current == Some(id)
    && var l := c.links[id];
       && l.jobs != [] && l.session.ready && l.session.pending.Some? && l.session.chunkIndex == l.session.chunkTotal
       && l.jobs[0] == Ack(l.session.epoch, l.session.pendingRevision)
  }

  function ConfirmedOutbox(o: Outbox.NodeOutbox, s: Session): Outbox.NodeOutbox
    requires s.pending.Some?
  {
    Outbox.ConfirmRows(o, s.epoch, s.pending.value.revision, s.pending.value.users.Keys, s.pending.value.removed, false)
  }

  /** An awaited acknowledgement is about the very payload that was prepared, and the edge committed it. */
  lemma AwaitedIsCommitted(c: System, id: nat)
    requires Invariant(c) && Awaited(c, id)
    ensures var s := c.links[id].session;
            && SessionOk(c.codec, s) && OwnerOk(c.db.outbox, s) && s.pendingRevision <= c.db.revision
            && (s.epoch, s.pendingRevision) in c.history.committed
            && c.history.committed[(s.epoch, s.pendingRevision)] == s.pending.value
            && (c.edgeLink == Some(id) ==> Committed(s, c.edge) && StoreOk(s, c.edge) && Acknowledged(c.links[id], c.edge))
  {
    hide RowsOk, DatabaseOk, SyncOk, MirrorOk, GateOk, PromiseOk;
    var l := c.links[id];
    assert l.jobs[0] in l.up + l.jobs;
    if c.edgeLink == Some(id) {
      SyncFlow.FlowAfterAck(c.codec, c.db, l, c.edge, true, l.session.epoch, l.session.pendingRevision, Done, true);
    }
  }

  lemma ConfirmKeepsPast(c: System, id: nat)
    requires Invariant(c) && Awaited(c, id)
    ensures var s := c.links[id].session;
            var db' := c.db.(outbox := ConfirmedOutbox(c.db.outbox, s));
            var h' := c.history.(acked := c.history.acked + {(s.epoch, s.pendingRevision)});
            && DatabaseOk(db', c.nextEpoch) && RowsOk(c.history, db'.outbox) && RowsOk(h', db'.outbox)
            && PastOk(h', c.db.revision, c.nextEpoch) && Extends(c.history, h')
  {
    hide LinksOk, EdgeOk, CurrentOk, StoreOk, Acknowledged;
    AwaitedIsCommitted(c, id);
    var s := c.links[id].session;
    SyncData.ConfirmKeepsRows(c.history, c.db.outbox, s.epoch, s.pending.value, c.db.revision);
    var h' := c.history.(acked := c.history.acked + {(s.epoch, s.pendingRevision)});
    RowsMonotone(c.history, h', ConfirmedOutbox(c.db.outbox, s));
  }

  /** The rows are confirmed but the reply of the database is lost: the job stays and is retried. */
  lemma UnsureConfirmKeeps(c: System, id: nat)
    requires Invariant(c) && Awaited(c, id)
    ensures Invariant(c.(db := c.db.(outbox := ConfirmedOutbox(c.db.outbox, c.links[id].session))))
  {
    hide RowsOk, PastOk, DatabaseOk, FlowOk, GateOk, PromiseOk, SyncOk, OwnerOk, LinkOk, StoreOk, Acknowledged;
    var s := c.links[id].session;
    var c' := c.(db := c.db.(outbox := ConfirmedOutbox(c.db.outbox, s)));
    assert Authorised(c'.db) == Authorised(c.db);
    ConfirmKeepsPast(c, id);
    AwaitedIsCommitted(c, id);
    LinksKept(c, c');
    SyncData.ConfirmKeepsOwner(c.codec, c.db.outbox, s);
    if c.edgeLink == Some(id) {
      DatabaseIsWellFormed(c);
      SyncData.ConfirmKeepsPending(c.codec, Authorised(c.db), c.db.outbox, s, c.edge, c.db.revision);
    }
  }

  lemma DatabaseIsWellFormed(c: System)
    requires Invariant(c)
    ensures Outbox.WellFormed(c.db.outbox, c.db.revision)
  {
  }

  ghost function AfterConfirm(c: System, id: nat, room: bool): System
    requires Awaited(c, id)
  {
    var l := c.links[id];
    var s := l.session;
    var t := s.pending.value;
    var reply := Confirmed(s.epoch, t.revision, !t.baseline || t.baselineEnd);
    c.(db := c.db.(outbox := ConfirmedOutbox(c.db.outbox, s)),
       links := c.links[id := l.(session := SessionConfirmed(s, t), down := if room then l.down + [reply] else l.down, jobs := l.jobs[1..])],
       history := c.history.(acked := c.history.acked + {(s.epoch, t.revision)}))
  }

  lemma ConfirmKeepsLinks(c: System, id: nat, room: bool)
    requires Invariant(c) && Awaited(c, id)
    ensures LinksOk(AfterConfirm(c, id, room))
  {
    hide RowsOk, PastOk, DatabaseOk, EdgeOk, CurrentOk;
    var c' := AfterConfirm(c, id, room);
    var l, l' := c.links[id], c'.links[id];
    LinkIsOk(c, id);
    ConfirmKeepsPast(c, id);
    forall m | m in l'.up + l'.jobs ensures m in l.up + l.jobs {}
    LinksAfter(c, id, c');
  }

  lemma ConfirmKeepsPromise(codec: Codec, h: History, h': History, l: Link, e: Edge, l': Link)
    requires SessionOk(codec, l.session) && l.session.ready && l.session.pending.Some? && StoreOk(l.session, e) && Committed(l.session, e)
    requires Extends(h, h') && PromiseOk(h, l, e) && l.down == []
    requires var s := l.session; (s.epoch, s.pendingRevision) in h'.acked && (s.epoch, s.pendingRevision) in h'.committed
    requires h'.committed[(l.session.epoch, l.session.pendingRevision)] == l.session.pending.value
    requires l'.session == SessionConfirmed(l.session, l.session.pending.value)
    requires var t := l.session.pending.value;
             l'.down == [] || l'.down == [Confirmed(l.session.epoch, t.revision, !t.baseline || t.baselineEnd)]
    ensures PromiseOk(h', l', e)
  {
    var s := l.session;
    if !s.baselineActive { FinalMonotone(h, h', s.epoch); }
  }

  lemma ConfirmKeepsEdge(c: System, id: nat, room: bool)
    requires Invariant(c) && Awaited(c, id)
    ensures EdgeOk(AfterConfirm(c, id, room))
  {
    hide RowsOk, PastOk, DatabaseOk, CurrentOk, FlowOk, GateOk, PromiseOk, StoreOk, LinksOk, SessionOk, Extends;
    var c' := AfterConfirm(c, id, room);
    var l := c.links[id];
    AwaitedIsCommitted(c, id);
    ConfirmKeepsPast(c, id);
    GateMonotone(c.history, c'.history, c.edge);
    if c.edgeLink == Some(id) {
      RecordedIsOwner(c, id);
      SyncFlow.FlowAfterAck(c.codec, c.db, l, c.edge, true, l.session.epoch, l.session.pendingRevision, Done, room);
      ConfirmKeepsPromise(c.codec, c.history, c'.history, l, c.edge, c'.links[id]);
    } else if c.edgeLink.Some? {
      PromiseMonotone(c.history, c'.history, c.links[c.edgeLink.value], c.edge);
    }
  }

  /** For an awaited acknowledgement the handler does exactly what `AfterConfirm` says. */
  lemma RecordedIsOwner(c: System, id: nat)
    requires Invariant(c) && Awaited(c, id)
    ensures forall room, sql ::
      var l := c.links[id];
      var r := OnAck(c.db, l, true, l.session.epoch, l.session.pendingRevision, sql, room);
      var c' := AfterConfirm(c, id, room);
      && (sql.Lost? ==> r == Handled(c.db, l, Retry))
      && (sql.Unsure? ==> r == Handled(c'.db, l, Retry))
      && (sql.Done? ==> r.db == c'.db && r.link.(jobs := l.jobs[1..]) == c'.links[id] && r.verdict == if room then Pass else Late)
  {
    hide RowsOk, PastOk, DatabaseOk, EdgeOk, SyncOk, MirrorOk;
    LinkIsOk(c, id);
  }

  lemma ConfirmKeepsCurrent(c: System, id: nat, room: bool)
    requires Invariant(c) && Awaited(c, id)
    ensures CurrentOk(AfterConfirm(c, id, room))
  {
    hide RowsOk, PastOk, FlowOk, GateOk, PromiseOk, SyncOk, OwnerOk, LinksOk, StoreOk, Acknowledged;
    var c' := AfterConfirm(c, id, room);
    var s := c.links[id].session;
    assert Authorised(c'.db) == Authorised(c.db);
    AwaitedIsCommitted(c, id);
    SyncData.ConfirmKeepsOwner(c.codec, c.db.outbox, s);
    if c.edgeLink == Some(id) {
      SyncData.ConfirmKeepsSync(c.codec, Authorised(c.db), c.db.outbox, s, c.edge, c.db.revision);
    }
  }

  lemma ConfirmKeeps(c: System, id: nat, room: bool)
    requires Invariant(c) && Awaited(c, id)
    ensures Invariant(AfterConfirm(c, id, room))
  {
    hide LinksOk, EdgeOk, CurrentOk, RowsOk, PastOk, DatabaseOk, StoreOk, Acknowledged, OwnerOk;
    AwaitedIsCommitted(c, id);
    ConfirmKeepsPast(c, id);
    ConfirmKeepsLinks(c, id, room);
    ConfirmKeepsEdge(c, id, room);
    ConfirmKeepsCurrent(c, id, room);
  }

  lemma WorkAckKeeps(c: System, id: nat, sql: Sql, room: bool)
    requires Invariant(c) && id in c.links && c.links[id].open && c.links[id].jobs != [] && c.links[id].jobs[0].Ack?
    ensures Invariant(DoWork(c, id, sql, room))
  {
    hide Invariant;
    var l := c.links[id];
    var m := l.jobs[0];
    var r := OnAck(c.db, l, c.current == Some(id), m.epoch, m.revision, sql, room);
    AckIsAwaited(c, id, sql, room);
    if Awaited(c, id) {
      RecordedIsOwner(c, id);
      if sql.Unsure? { UnsureConfirmKeeps(c, id); }
      if sql.Done? {
        ConfirmKeeps(c, id, room);
        if !room { CloseKeeps(AfterConfirm(c, id, room), id); }
      }
    } else if r.verdict.Fail? {
      CloseKeeps(c, id);
    } else {
      PopKeeps(c, id);
    }
  }

  /** What an acknowledgement is when it is not the awaited one: stale, foreign or premature, and without effect. */
  lemma AckIsAwaited(c: System, id: nat, sql: Sql, room: bool)
    requires Invariant(c) && id in c.links && c.links[id].jobs != [] && c.links[id].jobs[0].Ack?
    ensures var l := c.links[id];
            var m := l.jobs[0];
            && (Awaited(c, id) ==> l.session.appliedRevision < l.session.pendingRevision)
            && (!Awaited(c, id) ==>
                  && (c.edgeLink == Some(id) ==> c.current != Some(id))
                  && var r := OnAck(c.db, l, c.current == Some(id), m.epoch, m.revision, sql, room);
                     r.db == c.db && r.link == l && (r.verdict == Fail || (c.current == Some(id) && r.verdict == Pass)))
  {
    hide RowsOk, PastOk, DatabaseOk, SyncOk, MirrorOk, GateOk, PromiseOk, OwnerOk;
    var l := c.links[id];
    var m := l.jobs[0];
    LinkIsOk(c, id);
    if c.edgeLink == Some(id) {
      SyncFlow.FlowAfterAck(c.codec, c.db, l, c.edge, c.current == Some(id), m.epoch, m.revision, Done, true);
    }
  }

  lemma WorkKeeps(c: System, id: nat, sql: Sql, room: bool)
    requires Invariant(c)
    ensures Invariant(DoWork(c, id, sql, room))
  {
    hide Invariant;
    if id in c.links && c.links[id].open && c.links[id].jobs != [] {
      match c.links[id].jobs[0]
      case ChunkAck(_, _, _) =>
      case Cleared(_) => WorkClearedKeeps(c, id, sql, room);
      case Ack(_, _) => WorkAckKeeps(c, id, sql, room);
    }
  }
}
