/**
  The protocol never gets stuck: from every reachable state, whatever was lost before, a
  reconnect without further failures brings the edge to the authorised records and admission,
  and so does a full refresh on a stream that is up.
 */
module SyncRecovery {
  import opened Base
  import opened Identities
  import opened SyncProtocol
  import opened SyncInvariant
  import opened SyncTheorems
  import Outbox
  import SyncFlow
  import SyncEdge
  import SyncReplies
  import SyncPaging
  import SyncData

  /** Steps of the two programs on the stream they have, which succeed; nobody changes the database. */
  predicate Smooth(a: Action) {
    match a
    case Push(sql, room) => sql.Done? && room
    case Receive(_, room, keep) => room && keep
    case Work(_, sql, room) => sql.Done? && room
    case EdgeTakesMessage => true
    case EdgeTakesJob => true
    case EdgeFinishesJob(ok) => ok
    case _ => false
  }

  ghost predicate SmoothAll(actions: seq<Action>) { forall i :: 0 <= i < |actions| ==> Smooth(actions[i]) }

  predicate SameAccounts(a: Database, b: Database) {
    a.accounts == b.accounts && a.access == b.access && a.blocked == b.blocked
  }

  /** `c` is reached from `start` by smooth steps. */
  ghost predicate On(start: System, c: System) {
    Reachable(c) && SameAccounts(start.db, c.db) && c.codec == start.codec && Leads(start, c)
  }

  ghost predicate Leads(start: System, c: System) { exists actions :: SmoothAll(actions) && c == Run(start, actions) }

  lemma LeadsOn(start: System, c: System, a: Action)
    requires Leads(start, c) && Smooth(a)
    ensures Leads(start, Do(c, a))
  {
    hide Do;
    var actions :| SmoothAll(actions) && c == Run(start, actions);
    var longer := actions + [a];
    assert longer[..|longer| - 1] == actions;
    assert SmoothAll(longer) && Do(c, a) == Run(start, longer);
  }

  lemma Onward(start: System, c: System, a: Action)
    requires On(start, c) && Smooth(a)
    ensures On(start, Do(c, a))
  {
    hide Reachable, Leads, Smooth, Do;
    StepIsReachable(c, a);
    SmoothKeepsAccounts(c, a);
    LeadsOn(start, c, a);
  }

  lemma SmoothKeepsAccounts(c: System, a: Action)
    requires Smooth(a)
    ensures SameAccounts(c.db, Do(c, a).db) && Do(c, a).codec == c.codec
  {
    hide EdgeReceive, JobSnapshot, Applied, PageSnapshot, PageUsers, Outbox.Prepare, Outbox.Confirm, PushChoice, Recorded;
    match a
    case Push(sql, room) => PushKeepsAccounts(c, sql, room);
    case _ =>
  }

  lemma PushKeepsAccounts(c: System, sql: Sql, room: bool)
    ensures SameAccounts(c.db, DoPush(c, sql, room).db) && DoPush(c, sql, room).codec == c.codec
  {
    hide PageSnapshot, PageUsers, Outbox.Prepare, PushChoice, Recorded, BlockedSnapshot, WithBatch;
  }

  /** The stream under way, in full. */
  function Stream(c: System): Link
    requires Synchronising(c)
  {
    c.links[c.current.value]
  }

  predicate Quiet(l: Link) { l.open && l.down == [] && l.up == [] && l.jobs == [] }

  /** Nothing is under way; flags may be up. */
  predicate Calm(c: System) {
    Synchronising(c) && Quiet(Stream(c)) && NoJobs(c.edge) && Registered(c).pending.None?
  }

  /** No reconnect, no new epoch and no lost change in between. */
  predicate SameStream(c: System, d: System) {
    && Synchronising(c) && Synchronising(d) && d.current == c.current && Registered(d).epoch == Registered(c).epoch
    && d.history.lost == c.history.lost
  }

  predicate SameFlags(s: Session, s': Session) { s'.needsFull == s.needsFull && s'.needsBlocked == s.needsBlocked }

  /** The next fragment of the pending snapshot is on the wire, and nothing else. */
  predicate Sent(c: System) {
    && Synchronising(c) && Stream(c).open && Registered(c).pending.Some?
    && Stream(c).down == [NextChunk(Registered(c))] && Stream(c).up == [] && Stream(c).jobs == []
    && Registered(c).chunkIndex < Registered(c).chunkTotal
  }

  predicate Delivered(c: System) {
    && Synchronising(c) && Quiet(Stream(c)) && Registered(c).pending.Some?
    && Registered(c).chunkIndex == Registered(c).chunkTotal && c.edge.executing.None? && c.edge.queued.Some?
  }

  // ---- A new epoch -----------------------------------------------------------------------

  lemma StartIsOn(start: System)
    requires Reachable(start)
    ensures On(start, start)
  {
    assert SmoothAll([]) && start == Run(start, []);
  }

  /** The registered stream is up and the edge is at its other end. */
  predicate Attached(c: System) {
    c.current.Some? && c.edgeLink == c.current && c.current.value in c.links && c.links[c.current.value].open
  }

  function Line(c: System): Link
    requires Attached(c)
  {
    c.links[c.current.value]
  }

  /** The handshake of the session's epoch is under way: its welcome, its reset job or its report is somewhere on the round trip. */
  predicate Underway(c: System) {
    && Attached(c) && !Line(c).session.ready
    && var epoch := Line(c).session.epoch;
       Welcome(epoch) in Line(c).down || Resetting(c.edge, epoch) || Cleared(epoch) in Line(c).jobs + Line(c).up
  }

  predicate SameLine(c: System, d: System)
    requires Attached(c)
  {
    Attached(d) && d.current == c.current && d.db == c.db && Line(d).session == Line(c).session && d.history.lost == c.history.lost
  }

  lemma InHandshake(c: System)
    requires Reachable(c) && Underway(c)
    ensures Handshake(Line(c), c.edge)
  {
    hide RowsOk, PastOk, DatabaseOk, CurrentOk, GateOk, PromiseOk, LinksOk;
    ReachableHolds(c);
  }

  /** What the edge still has to read and to do. */
  function Load(c: System): nat
    requires Attached(c)
  {
    3 * |Line(c).down| + (if c.edge.queued.Some? then 2 else 0) + (if c.edge.executing.Some? then 1 else 0)
  }

  lemma EdgeFinishesReset(c: System)
    requires Underway(c) && Handshake(Line(c), c.edge) && c.edge.executing.Some?
    ensures var d := Do(c, EdgeFinishesJob(true)); SameLine(c, d) && Underway(d) && Load(d) < Load(c)
  {
    var l, job := Line(c), c.edge.executing.value;
    var d := Do(c, EdgeFinishesJob(true));
    assert Line(d) == l.(up := l.up + [Cleared(job.epoch)]);
    assert Cleared(job.epoch) in Line(d).jobs + Line(d).up;
  }

  lemma EdgeReadsOn(c: System)
    requires Underway(c) && Handshake(Line(c), c.edge) && NoJobs(c.edge) && Line(c).down != []
    ensures var d := Do(c, EdgeTakesMessage); SameLine(c, d) && Underway(d) && Load(d) < Load(c)
  {
    var l := Line(c);
    assert WelcomeOk(l.session, l.down, 0);
    var d := Do(c, EdgeTakesMessage);
    assert l.up + [] == l.up;
    assert Line(d) == l.(down := l.down[1..]);
    if Welcome(l.session.epoch) in l.down && l.down[0] != Welcome(l.session.epoch) {
      var i :| 0 <= i < |l.down| && l.down[i] == Welcome(l.session.epoch);
      assert l.down[1..][i - 1] == Welcome(l.session.epoch);
    }
  }

  lemma EdgeProceeds(start: System, c: System) returns (d: System)
    requires On(start, c) && Underway(c) && !(Line(c).down == [] && NoJobs(c.edge))
    ensures On(start, d) && Underway(d) && SameLine(c, d) && Load(d) < Load(c)
  {
    hide On, Handshake;
    OnIsReachable(start, c);
    InHandshake(c);
    if c.edge.executing.Some? {
      EdgeFinishesReset(c);
      Onward(start, c, EdgeFinishesJob(true));
      d := Do(c, EdgeFinishesJob(true));
    } else if c.edge.queued.Some? {
      Onward(start, c, EdgeTakesJob);
      d := Do(c, EdgeTakesJob);
    } else {
      EdgeReadsOn(c);
      Onward(start, c, EdgeTakesMessage);
      d := Do(c, EdgeTakesMessage);
    }
  }

  lemma {:induction false} EdgeReports(start: System, c: System) returns (d: System)
    requires On(start, c) && Underway(c)
    ensures On(start, d) && Underway(d) && SameLine(c, d) && Line(d).down == [] && NoJobs(d.edge)
    decreases Load(c)
  {
    hide On;
    if Line(c).down == [] && NoJobs(c.edge) {
      d := c;
    } else {
      d := EdgeProceeds(start, c);
      d := EdgeReports(start, d);
    }
  }

  /** The handshake of `c` is over in `d`: a new baseline starts on the same stream and epoch, over an empty outbox. */
  predicate Greeted(c: System, d: System)
    requires Attached(c)
  {
    && Calm(d) && d.current == c.current && d.history.lost == c.history.lost && d.db.outbox.rows == map[]
    && var s, s' := Line(c).session, Registered(d);
       s'.epoch == s.epoch && s'.baselineActive && s'.cursor == 0 && !s'.needsFull && s'.needsBlocked == s.needsBlocked
  }

  lemma ControllerReads(c: System)
    requires Underway(c) && Handshake(Line(c), c.edge) && Line(c).jobs == [] && Line(c).up != []
    ensures var d := Do(c, Receive(c.current.value, true, true));
            SameLine(c, d) && Underway(d) && d.edge == c.edge && Line(d) == Line(c).(up := Line(c).up[1..], jobs := [Line(c).up[0]])
  {
    ReportsAreCleared(Line(c), c.edge);
    hide Handshake;
    var l := Line(c);
    assert [l.up[0]] + l.up[1..] == l.up;
    assert l.jobs + l.up == [l.up[0]] + l.up[1..];
  }

  lemma ReportsAreCleared(l: Link, e: Edge)
    requires Handshake(l, e) && l.up != []
    ensures l.up[0].Cleared?
  {
    assert l.up[0] in l.jobs + l.up;
  }

  lemma ControllerWorks(c: System)
    requires Underway(c) && Handshake(Line(c), c.edge) && Line(c).down == [] && NoJobs(c.edge) && Line(c).jobs != []
    ensures var d := Do(c, Work(c.current.value, Done, true));
            if Line(c).jobs[0] == Cleared(Line(c).session.epoch) then Greeted(c, d)
            else SameLine(c, d) && Underway(d) && d.edge == c.edge && Line(d) == Line(c).(jobs := Line(c).jobs[1..])
  {
    var l := Line(c);
    var all := l.jobs + l.up;
    assert all[0] == l.jobs[0] && all[0] in all;
    if l.jobs[0] == Cleared(l.session.epoch) {
      assert |all| == 1;
      assert l.jobs[1..] == [] && l.up == [];
    } else {
      assert Cleared(l.session.epoch) in all;
      var i :| 0 <= i < |all| && all[i] == Cleared(l.session.epoch);
      assert (l.jobs[1..] + l.up)[i - 1] == Cleared(l.session.epoch);
    }
  }

  lemma {:induction false} ControllerAnswers(start: System, c: System) returns (d: System)
    requires On(start, c) && Underway(c) && Line(c).down == [] && NoJobs(c.edge)
    ensures On(start, d) && Greeted(c, d)
    decreases |Line(c).up| + |Line(c).jobs|, |Line(c).up|
  {
    hide On, Handshake, Do;
    OnIsReachable(start, c);
    InHandshake(c);
    if Line(c).jobs == [] {
      SomethingIsReported(c);
      ControllerReads(c);
      Onward(start, c, Receive(c.current.value, true, true));
      d := ControllerAnswers(start, Do(c, Receive(c.current.value, true, true)));
    } else {
      ControllerWorks(c);
      Onward(start, c, Work(c.current.value, Done, true));
      d := Do(c, Work(c.current.value, Done, true));
      if Line(c).jobs[0] != Cleared(Line(c).session.epoch) { d := ControllerAnswers(start, d); }
    }
  }

  lemma SomethingIsReported(c: System)
    requires Underway(c) && Line(c).down == [] && NoJobs(c.edge) && Line(c).jobs == []
    ensures Line(c).up != []
  {
  }

  /** A handshake that is under way, with whatever older welcomes, resets and reports in front of it, completes on its stream. */
  lemma HandshakeCompletes(start: System, c: System) returns (d: System)
    requires On(start, c) && Underway(c)
    ensures On(start, d) && Greeted(c, d)
  {
    hide On, Underway, Calm;
    UnderwayIsAttached(c);
    var reported := EdgeReports(start, c);
    d := ControllerAnswers(start, reported);
  }

  lemma UnderwayIsAttached(c: System)
    requires Underway(c)
    ensures Attached(c)
  {
  }

  // ---- One snapshot ----------------------------------------------------------------------

  /** Everything but the exchange itself is as before. */
  predicate SameBatch(c: System, d: System)
    requires Synchronising(c)
  {
    && Synchronising(d) && d.current == c.current && d.db == c.db && d.history.lost == c.history.lost
    && Registered(d) == Registered(c).(chunkIndex := Registered(d).chunkIndex)
  }

  lemma SentIsSending(c: System)
    requires Reachable(c) && Sent(c)
    ensures NoJobs(c.edge) && SessionOk(c.codec, Registered(c)) && Lawful(c.codec) && FlowOk(Stream(c), c.edge)
  {
    hide RowsOk, PastOk, DatabaseOk, CurrentOk, GateOk, PromiseOk;
    ReachableHolds(c);
    SyncReplies.LinkIsOk(c, c.current.value);
  }

  /** The edge takes the fragment and answers with its receipt; the last one makes a job. */
  lemma EdgeTakesFragment(c: System)
    requires Reachable(c) && Sent(c)
    ensures var id, l, s := c.current.value, Stream(c), Registered(c);
            var d := Do(c, EdgeTakesMessage);
            && d == c.(edge := d.edge, links := c.links[id := l.(down := [], up := [ChunkAck(s.epoch, s.pendingRevision, s.chunkIndex)])])
            && (s.chunkIndex + 1 == s.chunkTotal ==> d.edge.executing.None? && d.edge.queued.Some?)
  {
    hide FlowOk, SessionOk, Reachable, EdgeReceive, Fragment, Lawful;
    SentIsSending(c);
    SyncFlow.FlowAfterChunk(c.codec, Stream(c), c.edge);
    var l, s := Stream(c), Registered(c);
    var ack := ChunkAck(s.epoch, s.pendingRevision, s.chunkIndex);
    assert l.down[1..] == [] && l.up + [ack] == [ack];
    FragmentIsAnswered(c.edge, l.down[0]);
  }

  lemma FragmentIsAnswered(e: Edge, m: Down)
    requires m.Chunk? && EdgeReceive(e, m).Some?
    ensures var (e', replies) := EdgeReceive(e, m).value;
            && replies == [ChunkAck(m.epoch, m.revision, m.index)] && e'.executing == e.executing
            && (m.index + 1 == m.total ==> e'.queued.Some?)
  {
  }

  /** The controller takes the receipt and sends the next fragment, if there is one. */
  lemma ReceiptAdvances(c: System)
    requires Synchronising(c) && Stream(c).open && Registered(c).pending.Some?
    requires var s := Registered(c);
             && s.appliedRevision < s.pendingRevision && s.chunkIndex < s.chunkTotal && Stream(c).down == []
             && Stream(c).up == [ChunkAck(s.epoch, s.pendingRevision, s.chunkIndex)]
    ensures var id, l, s := c.current.value, Stream(c), Registered(c);
            var s' := s.(chunkIndex := s.chunkIndex + 1);
            Do(c, Receive(id, true, true))
            == c.(links := c.links[id := l.(session := s', up := [], down := if s'.chunkIndex < s'.chunkTotal then [NextChunk(s')] else [])])
  {
    hide NextChunk;
    var l, s := Stream(c), Registered(c);
    var s' := s.(chunkIndex := s.chunkIndex + 1);
    assert l.up[1..] == [] && l.down + [NextChunk(s')] == [NextChunk(s')];
  }

  /** The edge takes the fragment and the controller its receipt. */
  lemma OneFragmentCrosses(start: System, c: System) returns (d: System)
    requires On(start, c) && Sent(c)
    ensures On(start, d) && SameBatch(c, d) && Registered(d).chunkIndex == Registered(c).chunkIndex + 1
    ensures if Registered(d).chunkIndex < Registered(d).chunkTotal then Sent(d) else Delivered(d)
  {
    hide On, Reachable, Do, NextChunk;
    OnIsReachable(start, c);
    EdgeTakesFragment(c);
    Onward(start, c, EdgeTakesMessage);
    var c1 := Do(c, EdgeTakesMessage);
    PendingIsNewer(c);
    ReceiptAdvances(c1);
    Onward(start, c1, Receive(c.current.value, true, true));
    d := Do(c1, Receive(c.current.value, true, true));
  }

  lemma OnIsReachable(start: System, c: System)
    requires On(start, c)
    ensures Reachable(c)
  {
  }

  lemma PendingIsNewer(c: System)
    requires Reachable(c) && Synchronising(c) && Registered(c).pending.Some?
    ensures var s := Registered(c); s.appliedRevision < s.pendingRevision && s.pending.value.revision == s.pendingRevision
  {
    hide RowsOk, PastOk, DatabaseOk, CurrentOk, EdgeOk;
    ReachableHolds(c);
    SyncReplies.LinkIsOk(c, c.current.value);
  }

  lemma {:induction false} Crosses(start: System, c: System) returns (d: System)
    requires On(start, c) && Sent(c)
    ensures On(start, d) && SameBatch(c, d) && Delivered(d)
    decreases Registered(c).chunkTotal - Registered(c).chunkIndex
  {
    hide On, Delivered;
    d := OneFragmentCrosses(start, c);
    if Registered(d).chunkIndex < Registered(d).chunkTotal { d := Crosses(start, d); }
  }

  lemma DeliveredIsWorking(c: System)
    requires Reachable(c) && Delivered(c)
    ensures var s := Registered(c);
            && c.edge.queued == Some(ApplyJob(s.epoch, s.pendingRevision, s.payload)) && c.edge.epoch == Some(s.epoch)
            && c.db.outbox.recorded == Some(s.epoch)
            && s.appliedRevision < s.pendingRevision && s.pending.value.revision == s.pendingRevision
  {
    hide RowsOk, PastOk, DatabaseOk, GateOk, PromiseOk, SyncOk, MirrorOk;
    ReachableHolds(c);
    SyncReplies.LinkIsOk(c, c.current.value);
  }

  lemma ExecutesPending(c: System)
    requires Reachable(c) && Synchronising(c) && Registered(c).pending.Some? && SyncEdge.Executing(c)
    ensures JobSnapshot(c.codec, c.edge, c.edge.executing.value) == Registered(c).pending
  {
    hide Invariant, StoreOk, Working, SessionOk, JobSnapshot;
    ReachableHolds(c);
    SyncEdge.ExecutingFacts(c);
  }

  /** The edge commits the delivered snapshot and its acknowledgement is on its way to the identity worker. */
  lemma Commits(start: System, c: System) returns (d: System)
    requires On(start, c) && Delivered(c)
    ensures On(start, d) && SameBatch(c, d) && Registered(d) == Registered(c)
    ensures var s := Registered(c);
            && Stream(d) == Stream(c).(jobs := [Ack(s.epoch, s.pendingRevision)])
            && NoJobs(d.edge) && d.edge.epoch == Some(s.epoch) && d.edge.locallyApplied == s.pendingRevision
  {
    hide On, Reachable, JobSnapshot, Applied;
    OnIsReachable(start, c);
    DeliveredIsWorking(c);
    var id, l, s := c.current.value, Stream(c), Registered(c);
    Onward(start, c, EdgeTakesJob);
    var c1 := Do(c, EdgeTakesJob);
    OnIsReachable(start, c1);
    ExecutesPending(c1);
    Onward(start, c1, EdgeFinishesJob(true));
    var c2 := Do(c1, EdgeFinishesJob(true));
    var ack := Ack(s.epoch, s.pendingRevision);
    assert c2.links[id] == l.(up := [ack]);
    AppliedKeepsConnection(c1.edge, s.pending.value);
    Onward(start, c2, Receive(id, true, true));
    d := Do(c2, Receive(id, true, true));
  }

  lemma AppliedKeepsConnection(e: Edge, t: Snapshot)
    ensures Applied(e, t).epoch == e.epoch && Applied(e, t).queued == e.queued
  {
  }

  /** The controller confirms it and the edge learns of the confirmation. */
  lemma Settles(start: System, c: System) returns (d: System)
    requires On(start, c) && Delivered(c)
    ensures On(start, d) && Synchronising(d) && d.current == c.current && Quiet(Stream(d)) && NoJobs(d.edge)
    ensures var t := Registered(c).pending.value;
            && Registered(d) == SessionConfirmed(Registered(c), t)
            && Some(d.db.outbox) == Outbox.Confirm(c.db.outbox, Registered(c).epoch, t.revision, t.users.Keys, t.removed, !t.incremental && !t.baseline)
            && d.edge.syncReady == (!t.baseline || t.baselineEnd) && d.history.lost == c.history.lost
  {
    hide On, Reachable, Outbox.ConfirmRows, SessionConfirmed;
    OnIsReachable(start, c);
    DeliveredIsWorking(c);
    var id, l, s := c.current.value, Stream(c), Registered(c);
    var t := s.pending.value;
    var c1 := Commits(start, c);
    Onward(start, c1, Work(id, Done, true));
    var c2 := Do(c1, Work(id, Done, true));
    var notice := Confirmed(s.epoch, s.pendingRevision, !t.baseline || t.baselineEnd);
    assert c2.links[id] == l.(session := SessionConfirmed(s, t), down := [notice]);
    ConfirmedIsReady(s, t);
    Onward(start, c2, EdgeTakesMessage);
    d := Do(c2, EdgeTakesMessage);
  }

  lemma ConfirmedIsReady(s: Session, t: Snapshot)
    ensures SessionConfirmed(s, t).ready == s.ready
  {
  }

  // ---- The baseline ----------------------------------------------------------------------

  ghost function NextCursor(c: System): int
    requires Synchronising(c)
  {
    Greatest(PageUsers(c.db, Registered(c).cursor, None), Registered(c).cursor)
  }

  ghost function NextPage(c: System): Snapshot
    requires Synchronising(c)
  {
    PageSnapshot(c.db, Registered(c), None)
  }

  lemma CalmSession(c: System)
    requires Reachable(c) && Calm(c)
    ensures var s := Registered(c);
            && s.pendingRevision == s.appliedRevision && c.db.outbox.recorded == Some(s.epoch) && Lawful(c.codec)
            && Outbox.WellFormed(c.db.outbox, c.db.revision)
  {
    hide RowsOk, PastOk, EdgeOk, SyncOk, MirrorOk;
    ReachableHolds(c);
    SyncReplies.LinkIsOk(c, c.current.value);
  }

  lemma PushesPage(start: System, c: System) returns (d: System)
    requires On(start, c) && Calm(c) && Registered(c).baselineActive
    ensures On(start, d) && Sent(d) && d.current == c.current
    ensures Registered(d) == Prepared(c.codec, Registered(c).(pendingCursor := NextCursor(c)), NextPage(c))
    ensures d.db.outbox == Outbox.RaiseAll(c.db.outbox, NextPage(c).Ids(), NextPage(c).revision)
    ensures d.history.lost == c.history.lost
  {
    hide On, Reachable, PageSnapshot, PageUsers, Outbox.RaiseAll, FragmentCount, Fragment;
    OnIsReachable(start, c);
    CalmSession(c);
    var id, s := c.current.value, Registered(c);
    PushSendsPage(c.codec, c.db, Stream(c));
    Onward(start, c, Push(Done, true));
    d := Do(c, Push(Done, true));
  }

  /** The push worker's page in isolation. */
  lemma PushSendsPage(codec: Codec, db: Database, l: Link)
    requires Lawful(codec) && l.session.baselineActive && l.session.ready && Quiet(l)
    requires l.session.pendingRevision == l.session.appliedRevision && db.outbox.recorded == Some(l.session.epoch)
    ensures PushChoice(db, l.session) == Page(None)
    ensures var s := l.session;
            var t := PageSnapshot(db, s, None);
            var p := PushPage(codec, db, l, None, Done, true);
            var s' := Prepared(codec, s.(pendingCursor := Greatest(PageUsers(db, s.cursor, None), s.cursor)), t);
            && p.db == db.(revision := db.revision + 1, outbox := Outbox.RaiseAll(db.outbox, t.Ids(), t.revision))
            && p.link == l.(session := s', down := [NextChunk(s')]) && s'.chunkIndex < s'.chunkTotal
  {
    hide PageSnapshot, PageUsers, Outbox.RaiseAll, Fragment;
    var t := PageSnapshot(db, l.session, None);
    assert codec.encode(t) != [];
    FragmentsMakeThePayload(codec.encode(t));
  }

  ghost predicate Clean(o: Outbox.NodeOutbox) { forall u :: u in o.rows ==> !o.rows[u].Dirty() }

  lemma PageLeavesClean(o: Outbox.NodeOutbox, latest: nat, epoch: Epoch, t: Snapshot)
    requires Clean(o) && Outbox.WellFormed(o, latest) && o.recorded == Some(epoch)
    requires t.revision > latest && t.removed == {}
    ensures Clean(Outbox.ConfirmRows(Outbox.RaiseAll(o, t.Ids(), t.revision), epoch, t.revision, t.users.Keys, t.removed, false))
  {
    var raised := Outbox.RaiseAll(o, t.Ids(), t.revision);
    var o' := Outbox.ConfirmRows(raised, epoch, t.revision, t.users.Keys, t.removed, false);
    forall u | u in o'.rows ensures !o'.rows[u].Dirty() {
      assert Outbox.RowAfter(raised, u, epoch, t.revision, t.users.Keys, t.removed, false) == Some(o'.rows[u]);
      assert u in o.rows ==> !o.rows[u].Dirty() && o.rows[u].desired <= latest;
    }
  }

  /** One page of the baseline, from a calm state to the next. */
  lemma OnePage(start: System, c: System) returns (d: System)
    requires On(start, c) && Calm(c) && Registered(c).baselineActive
    ensures On(start, d) && Calm(d) && SameStream(c, d) && SameFlags(Registered(c), Registered(d))
    ensures Registered(d).baselineActive == !NextPage(c).baselineEnd && Registered(d).cursor == NextCursor(c)
    ensures NextPage(c).baselineEnd ==> d.edge.syncReady
    ensures Clean(c.db.outbox) ==> Clean(d.db.outbox)
  {
    hide On, Reachable, PageUsers, Outbox.RaiseAll, Outbox.ConfirmRows, Sent, Delivered, Quiet, Clean, Candidates, FragmentCount;
    OnIsReachable(start, c);
    CalmSession(c);
    var t := NextPage(c);
    var sent := PushesPage(start, c);
    var delivered := Crosses(start, sent);
    DeliveredIsPending(delivered);
    d := Settles(start, delivered);
    if Clean(c.db.outbox) { PageLeavesClean(c.db.outbox, c.db.revision, Registered(c).epoch, t); }
  }

  lemma DeliveredIsPending(c: System)
    requires Delivered(c)
    ensures Synchronising(c) && Registered(c).pending.Some?
  {
  }

  lemma {:induction false} AllPages(start: System, c: System) returns (d: System)
    requires On(start, c) && Calm(c) && Registered(c).baselineActive
    ensures On(start, d) && Calm(d) && SameStream(c, d) && SameFlags(Registered(c), Registered(d))
    ensures !Registered(d).baselineActive && d.edge.syncReady
    ensures Clean(c.db.outbox) ==> Clean(d.db.outbox)
    decreases |Candidates(start.db, Registered(c).cursor, None)|
  {
    hide Reachable, PageUsers, Clean, Quiet;
    d := OnePage(start, c);
    if !NextPage(c).baselineEnd {
      SyncPaging.PageAdvances(c.db, Registered(c));
      SameCandidates(start.db, c.db, Registered(c).cursor);
      SameCandidates(start.db, c.db, Registered(d).cursor);
      d := AllPages(start, d);
    }
  }

  lemma SameCandidates(a: Database, b: Database, after: int)
    requires SameAccounts(a, b)
    ensures Candidates(a, after, None) == Candidates(b, after, None)
  {
  }

  // ---- Reconnecting ----------------------------------------------------------------------

  lemma {:induction false} RunAppends(c: System, a: seq<Action>, b: seq<Action>)
    ensures Run(c, a + b) == Run(Run(c, a), b)
    decreases |b|
  {
    hide Do;
    if b == [] {
      assert a + b == a;
    } else {
      assert (a + b)[..|a + b| - 1] == a + b[..|b| - 1];
      RunAppends(c, a, b[..|b| - 1]);
    }
  }

  const RECONNECT := [EdgeDetach(false, true), Connect(false)]

  lemma Reconnected(start: System)
    requires Reachable(start)
    ensures var c := Run(start, RECONNECT);
            Reachable(c) && Underway(c) && SameAccounts(start.db, c.db) && !c.history.lost
  {
    hide Reachable, JobSnapshot, Applied;
    var c1 := Do(start, EdgeDetach(false, true));
    var c2 := Do(c1, Connect(false));
    StepIsReachable(start, EdgeDetach(false, true));
    StepIsReachable(c1, Connect(false));
    assert RECONNECT[..1] == [EdgeDetach(false, true)] && RECONNECT[..1][..0] == [];
    assert Run(start, RECONNECT[..1]) == c1;
  }

  /**
    From every reachable state: a reconnect and then smooth steps on the new stream transfer the
    whole baseline and open admission, with exactly the authorised records and the blacklist.
   */
  lemma AlwaysRecoverable(start: System) returns (actions: seq<Action>)
    requires Reachable(start)
    ensures SmoothAll(actions)
    ensures var c := Run(start, RECONNECT + actions);
            && c.edge.syncReady && c.edge.cache == Authorised(start.db) && c.edge.blocked == start.db.blocked
            && SameAccounts(start.db, c.db)
  {
    hide Reachable, Calm, Run, Underway, Clean, On;
    Reconnected(start);
    var connecting := Run(start, RECONNECT);
    StartIsOn(connecting);
    UnderwayIsAttached(connecting);
    var connected := HandshakeCompletes(connecting, connecting);
    actions := Refills(connecting, connected);
    RunAppends(start, RECONNECT, actions);
  }

  /** From the end of the handshake to the end of everything that waits. */
  lemma Refills(start: System, c: System) returns (actions: seq<Action>)
    requires On(start, c) && Calm(c) && Registered(c).baselineActive && !Registered(c).needsFull && c.db.outbox.rows == map[]
    requires !c.history.lost
    ensures SmoothAll(actions)
    ensures var d := Run(start, actions);
            && SameStream(c, d) && d.edge.syncReady && SameAccounts(start.db, d.db)
            && d.edge.cache == Authorised(start.db) && d.edge.blocked == start.db.blocked
  {
    hide Reachable, Run, Calm, PushChoice, Clean;
    var filled := AllPages(start, c);
    CalmIsAtRest(filled);
    var d := AllIncrements(start, filled);
    RestIsSettled(d);
    QuiescentMeansEqual(d);
    actions :| SmoothAll(actions) && d == Run(start, actions);
  }

  lemma CalmIsAtRest(c: System)
    requires Calm(c) && !Registered(c).needsFull && !Registered(c).baselineActive
    ensures AtRest(c)
  {
  }

  lemma RestIsSettled(c: System)
    requires AtRest(c)
    ensures Synchronising(c) && Registered(c).pending.None?
  {
  }

  // ---- A full refresh --------------------------------------------------------------------

  /** A confirmation that is still on the wire is all that can be under way. */
  lemma Quietens(start: System, c: System) returns (d: System)
    requires On(start, c) && Synchronising(c) && Stream(c).open && Registered(c).pending.None?
    ensures On(start, d) && Calm(d) && SameStream(c, d) && Registered(d) == Registered(c)
  {
    hide On, Reachable;
    OnIsReachable(start, c);
    UnpendingIsIdle(c);
    var l := Stream(c);
    if l.down == [] {
      d := c;
    } else {
      Onward(start, c, EdgeTakesMessage);
      d := Do(c, EdgeTakesMessage);
    }
  }

  lemma UnpendingIsIdle(c: System)
    requires Reachable(c) && Synchronising(c) && Registered(c).pending.None?
    ensures Idle(Stream(c), c.edge) && c.edge.epoch == Some(Registered(c).epoch)
    ensures c.edge.locallyApplied == Registered(c).appliedRevision
  {
    hide RowsOk, PastOk, DatabaseOk, CurrentOk, GateOk, PromiseOk;
    ReachableHolds(c);
    SyncReplies.LinkIsOk(c, c.current.value);
  }

  /** The push worker answers the request with a new epoch, whose welcome is on the wire, and asks only once. */
  lemma Renews(start: System, c: System) returns (d: System)
    requires On(start, c) && Attached(c) && Line(c).session.pending.None? && Line(c).session.needsFull
    requires Line(c).session.ready ==> !Line(c).session.baselineActive
    ensures On(start, d) && Underway(d) && d.current == c.current && d.history.lost == c.history.lost
    ensures Line(c).session.epoch < Line(d).session.epoch && PushChoice(d.db, Line(d).session).Nothing?
  {
    hide On, Reachable;
    OnIsReachable(start, c);
    LineSession(c);
    Onward(start, c, Push(Done, true));
    d := Do(c, Push(Done, true));
    assert Line(d).down[|Line(c).down|] == Welcome(c.nextEpoch);
  }

  lemma LineSession(c: System)
    requires Reachable(c) && Attached(c)
    ensures var s := Line(c).session;
            s.epoch < c.nextEpoch && (s.pending.None? ==> s.pendingRevision == s.appliedRevision)
  {
    hide RowsOk, PastOk, EdgeOk, SyncOk, MirrorOk, CurrentOk;
    ReachableHolds(c);
    SyncReplies.LinkIsOk(c, c.current.value);
  }

  /** A ready session first settles what is on the wire and finishes the baseline it is in. */
  lemma Prepares(start: System, c: System) returns (d: System)
    requires On(start, c) && Attached(c) && Line(c).session.pending.None? && Line(c).session.needsFull
    ensures On(start, d) && Attached(d) && d.current == c.current && d.history.lost == c.history.lost
    ensures var s := Line(d).session;
            s.epoch == Line(c).session.epoch && s.pending.None? && s.needsFull && (s.ready ==> !s.baselineActive)
  {
    hide On;
    if Line(c).session.ready {
      d := Quietens(start, c);
      if Registered(d).baselineActive { d := AllPages(start, d); }
    } else {
      d := c;
    }
  }

  /**
    A full refresh completes on the stream it is asked for: whenever the edge is attached and
    nothing is pending, in the middle of a handshake, of a baseline or at rest, smooth steps after
    the request renew the epoch and leave exactly the authorised records and the blacklist at an
    admitting edge.
   */
  lemma FullRefreshCompletes(start: System) returns (actions: seq<Action>)
    requires Reachable(start) && Attached(start) && Line(start).session.pending.None?
    ensures SmoothAll(actions)
    ensures var c := Run(start, [ScheduleFull] + actions);
            && Synchronising(c) && c.current == start.current && Line(start).session.epoch < Registered(c).epoch
            && c.edge.syncReady && c.edge.cache == Authorised(start.db) && c.edge.blocked == start.db.blocked
            && SameAccounts(start.db, c.db)
  {
    hide Reachable, Run, Calm, Underway, On, Clean;
    var asked := Flagged(start, true);
    Asked(start);
    StartIsOn(asked);
    var prepared := Prepares(asked, asked);
    var renewed := Renews(asked, prepared);
    UnderwayIsAttached(renewed);
    var c := HandshakeCompletes(asked, renewed);
    actions := Refills(asked, c);
    RunAppends(start, [ScheduleFull], actions);
  }

  lemma Asked(start: System)
    requires Reachable(start) && Attached(start)
    ensures Reachable(Flagged(start, true)) && Run(start, [ScheduleFull]) == Flagged(start, true)
  {
    hide Reachable;
    StepIsReachable(start, ScheduleFull);
    assert [ScheduleFull][..0] == [];
    assert Run(start, []) == start;
  }

  // ---- Catching up without a reconnect ---------------------------------------------------

  /** The baseline is over and nothing is under way; changes may be waiting. */
  predicate AtRest(c: System) {
    && Synchronising(c) && Quiet(Stream(c)) && NoJobs(c.edge)
    && Registered(c).pending.None? && !Registered(c).needsFull && !Registered(c).baselineActive
  }

  lemma RestSession(c: System)
    requires Reachable(c) && AtRest(c)
    ensures var s := Registered(c);
            && s.pendingRevision == s.appliedRevision && c.db.outbox.recorded == Some(s.epoch) && Lawful(c.codec)
            && Outbox.WellFormed(c.db.outbox, c.db.revision) && (forall u :: u in c.db.accounts ==> u > 0)
  {
    hide RowsOk, PastOk, EdgeOk, SyncOk, MirrorOk;
    ReachableHolds(c);
    SyncReplies.LinkIsOk(c, c.current.value);
  }

  /** The increment the push worker would prepare. */
  ghost function NextIncrement(c: System): Snapshot
    requires Synchronising(c)
  {
    var s := Registered(c);
    if s.needsBlocked then BlockedSnapshot(c.db, s) else PageSnapshot(c.db, s, Some(Outbox.Pending(c.db.outbox, s.epoch)))
  }

  lemma IncrementSettles(c: System)
    requires Reachable(c) && AtRest(c)
    ensures var t := NextIncrement(c);
            && t.incremental && !t.baseline && t.revision == c.db.revision + 1 && t.users.Keys !! t.removed
            && t.Ids() == (if Registered(c).needsBlocked then {} else Outbox.Pending(c.db.outbox, Registered(c).epoch))
  {
    hide Reachable, PageUsers, Authorised;
    RestSession(c);
    var s := Registered(c);
    var users := Outbox.Pending(c.db.outbox, s.epoch);
    LowestIsLowerSegment(Outbox.DirtyUsers(c.db.outbox, s.epoch), PAGE_LIMIT);
    SyncData.RequestedPageIsFaithful(c.db, s, users);
    assert SnapshotOk(s.(pendingCursor := 0), PageSnapshot(c.db, s, Some(users)));
  }

  lemma PushesIncrement(start: System, c: System) returns (d: System)
    requires On(start, c) && AtRest(c) && !PushChoice(c.db, Registered(c)).Nothing?
    ensures On(start, d) && Sent(d) && Registered(d).pending == Some(NextIncrement(c))
    ensures !Registered(d).needsBlocked && !Registered(d).needsFull && !Registered(d).baselineActive
    ensures Registered(d).epoch == Registered(c).epoch && d.current == c.current
    ensures d.db.outbox == Outbox.RaiseAll(c.db.outbox, NextIncrement(c).Ids(), NextIncrement(c).revision)
    ensures d.history.lost == c.history.lost
  {
    hide On, Reachable, PageSnapshot, PageUsers, Outbox.RaiseAll, FragmentCount, Fragment, BlockedSnapshot, Outbox.Pending;
    OnIsReachable(start, c);
    RestSession(c);
    IncrementSettles(c);
    var t := NextIncrement(c);
    assert c.codec.encode(t) != [];
    FragmentsMakeThePayload(c.codec.encode(t));
    Onward(start, c, Push(Done, true));
    d := Do(c, Push(Done, true));
  }

  lemma IncrementClears(o: Outbox.NodeOutbox, latest: nat, epoch: Epoch, t: Snapshot)
    requires Outbox.WellFormed(o, latest) && o.recorded == Some(epoch) && t.revision > latest && t.users.Keys !! t.removed
    ensures Outbox.DirtyUsers(Outbox.ConfirmRows(Outbox.RaiseAll(o, t.Ids(), t.revision), epoch, t.revision, t.users.Keys, t.removed, false), epoch)
         == Outbox.DirtyUsers(o, epoch) - t.Ids()
  {
    var raised := Outbox.RaiseAll(o, t.Ids(), t.revision);
    var o' := Outbox.ConfirmRows(raised, epoch, t.revision, t.users.Keys, t.removed, false);
    forall u ensures u in Outbox.DirtyUsers(o', epoch) <==> u in Outbox.DirtyUsers(o, epoch) && u !in t.Ids() {
      if u in raised.rows {
        var after := Outbox.RowAfter(raised, u, epoch, t.revision, t.users.Keys, t.removed, false);
        assert u in o.rows ==> o.rows[u].desired <= latest;
      }
    }
  }

  ghost function Backlog(c: System): nat
    requires Synchronising(c)
  {
    |Outbox.DirtyUsers(c.db.outbox, Registered(c).epoch)| + if Registered(c).needsBlocked then 1 else 0
  }

  lemma OneIncrement(start: System, c: System) returns (d: System)
    requires On(start, c) && AtRest(c) && !PushChoice(c.db, Registered(c)).Nothing?
    ensures On(start, d) && AtRest(d) && SameStream(c, d) && d.edge.syncReady && Backlog(d) < Backlog(c)
  {
    hide On, Reachable, Outbox.RaiseAll, Outbox.ConfirmRows, Sent, Delivered, Quiet, PageSnapshot, BlockedSnapshot, Outbox.DirtyUsers;
    OnIsReachable(start, c);
    RestSession(c);
    IncrementSettles(c);
    var sent := PushesIncrement(start, c);
    var delivered := Crosses(start, sent);
    DeliveredIsPending(delivered);
    d := Settles(start, delivered);
    var t, epoch := NextIncrement(c), Registered(c).epoch;
    IncrementClears(c.db.outbox, c.db.revision, epoch, t);
    var dirty := Outbox.DirtyUsers(c.db.outbox, epoch);
    LowestIsLowerSegment(dirty, PAGE_LIMIT);
    Fewer(dirty, t.Ids());
  }

  lemma Fewer(a: set<UserId>, b: set<UserId>)
    requires b <= a
    ensures |a - b| == |a| - |b|
  {
    assert a == b + (a - b);
  }

  lemma {:induction false} AllIncrements(start: System, c: System) returns (d: System)
    requires On(start, c) && AtRest(c)
    ensures On(start, d) && AtRest(d) && SameStream(c, d) && PushChoice(d.db, Registered(d)).Nothing?
    ensures d == c || d.edge.syncReady
    decreases Backlog(c)
  {
    hide On, PushChoice;
    if PushChoice(c.db, Registered(c)).Nothing? {
      d := c;
    } else {
      d := OneIncrement(start, c);
      d := AllIncrements(start, d);
    }
  }

  /** However many changes wait in the outbox, increments alone bring the edge to the authorised records. */
  lemma ChangesCatchUp(start: System) returns (actions: seq<Action>)
    requires Reachable(start) && AtRest(start)
    ensures SmoothAll(actions)
    ensures var c := Run(start, actions);
            && SameStream(start, c) && (c == start || c.edge.syncReady)
            && c.edge.cache == Authorised(start.db) && (c.edge.blocked == start.db.blocked <==> !start.history.lost)
  {
    hide Reachable, Run, PushChoice;
    StartIsOn(start);
    var c := AllIncrements(start, start);
    QuiescentMeansEqual(c);
    actions :| SmoothAll(actions) && c == Run(start, actions);
  }
}
