/** The invariant of the synchronisation protocol. */
module SyncInvariant {
  import opened Base
  import opened Identities
  import opened SyncProtocol
  import Outbox

  // ---- One session -----------------------------------------------------------------------

  /** What every snapshot the controller makes pending looks like. */
  ghost predicate SnapshotOk(s: Session, t: Snapshot) {
    && t.baseline == s.baselineActive && t.incremental == !t.baseline
    && t.users.Keys !! t.removed
    && (t.baselineEnd ==> t.baseline && t.replaceBlocked)
    && (t.baseline ==> t.removed == {} && s.cursor <= s.pendingCursor)
    && (t.baseline ==> forall u :: u in t.users ==> s.cursor < u <= s.pendingCursor)
    && (t.baseline && !t.baselineEnd ==> !t.replaceBlocked && t.blocked == map[] && t.removedBlocked == {})
  }

  ghost predicate SessionOk(codec: Codec, s: Session) {
    && s.appliedRevision <= s.pendingRevision
    && (s.pending.Some? <==> s.appliedRevision < s.pendingRevision)
    && (s.ready && !s.baselineActive ==> 0 < s.appliedRevision)
    && (s.pending.Some? ==>
          && s.ready
          && s.pending.value.revision == s.pendingRevision
          && s.payload == codec.encode(s.pending.value)
          && s.chunkTotal == FragmentCount(s.payload)
          && s.chunkIndex <= s.chunkTotal
          && SnapshotOk(s, s.pending.value))
  }

  // ---- One stream and the edge at its end -------------------------------------------------

  predicate NoJobs(e: Edge) { e.executing.None? && e.queued.None? }

  predicate OnlyJob(e: Edge, j: Job) {
    || (e.executing == Some(j) && e.queued.None?)
    || (e.executing.None? && e.queued == Some(j))
  }

  /** The edge has committed the pending snapshot. */
  predicate Committed(s: Session, e: Edge) { s.pending.Some? && e.lastRevision == Some(s.pendingRevision) }

  predicate Finished(s: Session, e: Edge) {
    !s.baselineActive || (Committed(s, e) && s.pending.value.baselineEnd)
  }

  /** The edge's durable state while the session is ready. */
  ghost predicate StoreOk(s: Session, e: Edge) {
    && e.epoch == Some(s.epoch)
    && (!Committed(s, e) ==> e.lastRevision == if s.appliedRevision == 0 then None else Some(s.appliedRevision))
    && e.locallyApplied == (if Committed(s, e) then s.pendingRevision else s.appliedRevision)
    && e.resetPending == !Finished(s, e)
    && (s.baselineActive ==> forall u :: u in e.cache ==>
          u <= s.cursor || (Committed(s, e) && u in s.pending.value.users))
  }

  predicate Notice(s: Session, m: Down) { m == Confirmed(s.epoch, s.appliedRevision, !s.baselineActive) }

  /** At most one confirmation waits in front of `rest`. */
  predicate DownIs(s: Session, down: seq<Down>, rest: seq<Down>) {
    down == rest || (down != [] && Notice(s, down[0]) && down[1..] == rest)
  }

  ghost predicate Idle(l: Link, e: Edge) {
    && l.session.pending.None? && NoJobs(e) && e.buffer == []
    && l.up == [] && l.jobs == [] && DownIs(l.session, l.down, [])
  }

  function Received(s: Session, k: nat): seq<byte> { s.payload[..FragmentEnd(s.payload, k)] }

  predicate Assembling(s: Session, e: Edge, k: nat) {
    && NoJobs(e) && e.buffer == Received(s, k)
    && (k > 0 ==> e.chunkRevision == s.pendingRevision && e.chunkTotal == s.chunkTotal && e.chunkIndex == k && !e.syncReady)
  }

  /** Fragment `chunkIndex` is on the wire, or found no room in the queue. */
  ghost predicate Sending(l: Link, e: Edge) {
    var s := l.session;
    && l.up == [] && l.jobs == [] && s.chunkIndex < s.chunkTotal && !Committed(s, e) && Assembling(s, e, s.chunkIndex)
    && (s.chunkIndex > 0 ==> l.down == [] || l.down == [NextChunk(s)])
    && (DownIs(s, l.down, []) || DownIs(s, l.down, [NextChunk(s)]))
  }

  ghost predicate FragmentAcked(l: Link, e: Edge) {
    var s := l.session;
    && l.up == [ChunkAck(s.epoch, s.pendingRevision, s.chunkIndex)] && l.jobs == [] && l.down == []
    && s.chunkIndex + 1 < s.chunkTotal && !Committed(s, e) && Assembling(s, e, s.chunkIndex + 1)
  }

  /** Everything arrived; the apply job is queued or executing. */
  ghost predicate Working(l: Link, e: Edge) {
    var s := l.session;
    && OnlyJob(e, ApplyJob(s.epoch, s.pendingRevision, s.payload)) && e.buffer == [] && !e.syncReady
    && !Committed(s, e) && l.jobs == [] && l.down == []
    && ((s.chunkIndex == s.chunkTotal && l.up == [])
        || (s.chunkIndex + 1 == s.chunkTotal && l.up == [ChunkAck(s.epoch, s.pendingRevision, s.chunkIndex)]))
  }

  ghost predicate Acknowledged(l: Link, e: Edge) {
    var s := l.session;
    var ack := Ack(s.epoch, s.pendingRevision);
    && NoJobs(e) && e.buffer == [] && !e.syncReady && Committed(s, e) && l.down == []
    && ((s.chunkIndex == s.chunkTotal
         && ((l.up == [] && l.jobs == []) || (l.up == [ack] && l.jobs == []) || (l.up == [] && l.jobs == [ack])))
        || (s.chunkIndex + 1 == s.chunkTotal && l.jobs == []
            && l.up == [ChunkAck(s.epoch, s.pendingRevision, s.chunkIndex), ack]))
  }

  ghost predicate Transferring(l: Link, e: Edge) {
    l.session.pending.Some? && (Sending(l, e) || FragmentAcked(l, e) || Working(l, e) || Acknowledged(l, e))
  }

  // The handshake: welcome, reset job and cleared report of one epoch travel round the link.

  predicate Resets(job: Option<Job>, epoch: Epoch) { job.Some? ==> job.value.ResetJob? && job.value.epoch <= epoch }

  predicate Resetting(e: Edge, epoch: Epoch) {
    e.executing == Some(ResetJob(epoch)) || e.queued == Some(ResetJob(epoch))
  }

  predicate IsEmptied(e: Edge) {
    e.cache == map[] && e.blocked == map[] && e.lastRevision.None? && e.resetPending && e.locallyApplied == 0
  }

  predicate WelcomeOk(s: Session, down: seq<Down>, i: nat)
    requires i < |down|
  {
    if down[i].Welcome? then down[i].epoch <= s.epoch && (down[i].epoch == s.epoch ==> i == |down| - 1)
    else i == 0 && down[i].Confirmed?
  }

  ghost predicate Handshake(l: Link, e: Edge) {
    var s := l.session;
    && s.pending.None? && e.buffer == []
    && Resets(e.executing, s.epoch) && Resets(e.queued, s.epoch)
    && (forall i :: 0 <= i < |l.down| ==> WelcomeOk(s, l.down, i))
    && (l.down != [] && l.down[0].Confirmed? ==>
          NoJobs(e) && e.epoch == Some(l.down[0].epoch) && e.locallyApplied == l.down[0].revision)
    && (forall m :: m in l.jobs + l.up ==> m.Cleared? && m.epoch <= s.epoch)
    && (Resetting(e, s.epoch) ==> l.down == [] && e.epoch == Some(s.epoch) && Cleared(s.epoch) !in l.jobs + l.up)
    && (e.executing == Some(ResetJob(s.epoch)) ==> e.queued.None?)
    && (forall i :: 0 <= i < |l.jobs + l.up| && (l.jobs + l.up)[i] == Cleared(s.epoch) ==>
          i == |l.jobs + l.up| - 1 && l.down == [] && NoJobs(e) && IsEmptied(e) && e.epoch == Some(s.epoch))
    && (!NoJobs(e) || Cleared(s.epoch) in l.jobs + l.up ==> !e.syncReady)
  }

  ghost predicate FlowOk(l: Link, e: Edge) {
    if l.session.ready then StoreOk(l.session, e) && (Idle(l, e) || Transferring(l, e)) else Handshake(l, e)
  }

  // ---- Whole runs ------------------------------------------------------------------------

  /** The final baseline page of `epoch` was committed by the edge and confirmed by the controller. */
  ghost predicate Final(h: History, epoch: Epoch) {
    exists r :: (epoch, r) in h.acked && (epoch, r) in h.committed && h.committed[(epoch, r)].baselineEnd
  }

  ghost predicate GateOk(h: History, e: Edge) {
    e.syncReady ==> e.epoch.Some? && Final(h, e.epoch.value) && !e.resetPending && e.buffer == [] && NoJobs(e)
  }

  ghost predicate PromiseOk(h: History, l: Link, e: Edge) {
    && (l.session.ready && !l.session.baselineActive ==> Final(h, l.session.epoch))
    && (forall m :: m in l.down && m.Confirmed? && m.complete ==> Final(h, m.epoch) && !e.resetPending)
  }

  ghost predicate PastOk(h: History, revision: nat, nextEpoch: Epoch) {
    && (forall k :: k in h.committed ==> k in h.prepared && h.prepared[k] == h.committed[k])
    && h.acked <= h.committed.Keys
    && (forall k :: k in h.prepared ==> k.0 < nextEpoch && k.1 <= revision && h.prepared[k].revision == k.1)
  }

  ghost predicate LinkOk(codec: Codec, h: History, revision: nat, nextEpoch: Epoch, l: Link) {
    && SessionOk(codec, l.session)
    && l.session.epoch < nextEpoch && l.session.pendingRevision <= revision
    && (l.session.pending.Some? ==>
          var k := (l.session.epoch, l.session.pendingRevision);
          k in h.prepared && h.prepared[k] == l.session.pending.value)
    && (forall m :: m in l.up + l.jobs && m.Ack? ==> (m.epoch, m.revision) in h.committed)
  }

  /** A row claims only what the edge committed in the row's own epoch. */
  ghost predicate RowOk(h: History, recorded: Option<Epoch>, u: UserId, row: Outbox.Row) {
    if row.applied == 0 then !row.cached
    else
      && recorded.Some? && (recorded.value, row.applied) in h.committed
      && var t := h.committed[(recorded.value, row.applied)];
         u in t.Ids() && (row.cached <==> u in t.users)
  }

  ghost predicate RowsOk(h: History, o: Outbox.NodeOutbox) {
    forall u :: u in o.rows ==> RowOk(h, o.recorded, u, o.rows[u])
  }

  ghost predicate DatabaseOk(db: Database, nextEpoch: Epoch) {
    && Outbox.WellFormed(db.outbox, db.revision)
    && (forall u :: u in db.accounts ==> u > 0)
    && db.access <= db.accounts.Keys
    && (db.outbox.recorded.Some? ==> db.outbox.recorded.value < nextEpoch)
  }

  /** The registered session owns the outbox. */
  ghost predicate OwnerOk(o: Outbox.NodeOutbox, s: Session) {
    s.ready ==>
      && o.recorded == Some(s.epoch)
      && (forall u :: u in o.rows ==> o.rows[u].applied <= s.pendingRevision)
      && (s.pending.Some? ==>
            && (forall u :: u in s.pending.value.users ==> u in o.rows)
            && (forall u :: u in s.pending.value.Ids() && u in o.rows ==> s.pendingRevision <= o.rows[u].desired))
  }

  // ---- Cache against database --------------------------------------------------------------

  predicate Dirty(o: Outbox.NodeOutbox, u: UserId) { u in o.rows && o.rows[u].Dirty() }

  /** The change is scheduled: it lies beyond the baseline cursor or its outbox row is dirty. */
  predicate Scheduled(o: Outbox.NodeOutbox, s: Session, u: UserId) {
    (s.baselineActive && u > s.cursor) || Dirty(o, u)
  }

  predicate Agrees(a: map<UserId, Identity>, cache: map<UserId, Identity>, u: UserId) { Get(cache, u) == Get(a, u) }

  /** A user outside the batch under way. */
  predicate OutsideOk(a: map<UserId, Identity>, o: Outbox.NodeOutbox, s: Session, cache: map<UserId, Identity>, u: UserId) {
    Agrees(a, cache, u) || Scheduled(o, s, u)
  }

  /** A user in the batch under way: the batch is current, or a newer revision is already wanted. */
  predicate InsideOk(a: map<UserId, Identity>, o: Outbox.NodeOutbox, s: Session, u: UserId)
    requires s.pending.Some?
  {
    Get(s.pending.value.users, u) == Get(a, u) || (u in o.rows && o.rows[u].desired > s.pendingRevision)
  }

  /** A user the page under way passed over. */
  predicate PassedOk(a: map<UserId, Identity>, o: Outbox.NodeOutbox, s: Session, u: UserId)
    requires s.pending.Some?
  {
    var t := s.pending.value;
    t.baseline && u > s.cursor && (t.baselineEnd || u <= s.pendingCursor) ==> u !in a || Dirty(o, u)
  }

  ghost predicate SyncOk(a: map<UserId, Identity>, o: Outbox.NodeOutbox, s: Session, e: Edge) {
    && (forall u :: u in e.cache ==> u in o.rows)
    && (s.pending.None? ==> forall u :: OutsideOk(a, o, s, e.cache, u))
    && (s.pending.Some? ==>
          && (forall u :: u !in s.pending.value.Ids() ==> OutsideOk(a, o, s, e.cache, u) && PassedOk(a, o, s, u))
          && (forall u :: u in s.pending.value.Ids() ==> InsideOk(a, o, s, u))
          && (Committed(s, e) ==> forall u :: u in s.pending.value.Ids() ==> Get(e.cache, u) == Get(s.pending.value.users, u)))
  }

  /** The blacklist the edge will hold once the pending snapshot is confirmed. */
  function MirrorTarget(s: Session): map<Ip, Block> {
    if s.pending.Some? then BlockedAfter(s.blocked, s.pending.value) else s.blocked
  }

  /** The edge holds the session's copy, or what the committed snapshot makes of it. */
  ghost predicate MirrorOk(s: Session, e: Edge) {
    e.blocked == if Committed(s, e) then MirrorTarget(s) else s.blocked
  }

  // ---- The system ------------------------------------------------------------------------

  ghost predicate LinksOk(c: System) {
    forall id :: id in c.links ==> id < c.nextLink && LinkOk(c.codec, c.history, c.db.revision, c.nextEpoch, c.links[id])
  }

  ghost predicate EdgeOk(c: System) {
    && GateOk(c.history, c.edge)
    && match c.edgeLink
       case None => !c.edge.syncReady && c.edge.resetPending
       case Some(id) => id in c.links && FlowOk(c.links[id], c.edge) && PromiseOk(c.history, c.links[id], c.edge)
  }

  ghost predicate CurrentOk(c: System) {
    c.current.Some? ==>
      && c.current.value in c.links
      && var s := c.links[c.current.value].session;
         && OwnerOk(c.db.outbox, s)
         && (c.edgeLink == c.current && s.ready ==>
               && SyncOk(Authorised(c.db), c.db.outbox, s, c.edge)
               && MirrorOk(s, c.edge))
  }

  ghost predicate Invariant(c: System) {
    && Lawful(c.codec)
    && DatabaseOk(c.db, c.nextEpoch)
    && PastOk(c.history, c.db.revision, c.nextEpoch)
    && RowsOk(c.history, c.db.outbox)
    && LinksOk(c)
    && EdgeOk(c)
    && CurrentOk(c)
  }
}
