/** What the synchronisation protocol guarantees in every state of every run. */
module SyncTheorems {
  import opened Base
  import opened Identities
  import opened SyncProtocol
  import opened SyncInvariant
  import opened SyncSteps
  import opened SyncEdge
  import Outbox
  import SyncBlacklist
  import SyncReplies

  ghost predicate Reachable(c: System) {
    exists start, actions :: Initial(start) && c == Run(start, actions)
  }

  lemma ReachableHolds(c: System)
    requires Reachable(c)
    ensures Invariant(c)
  {
    hide Invariant;
    var start, actions :| Initial(start) && c == Run(start, actions);
    RunKeeps(start, actions);
  }

  lemma ReachableIsTraced(c: System)
    requires Reachable(c)
    ensures SyncBlacklist.Traced(c)
  {
    hide SyncBlacklist.Traced;
    var start, actions :| Initial(start) && c == Run(start, actions);
    SyncBlacklist.RunIsTraced(start, actions);
  }

  lemma StepIsReachable(c: System, a: Action)
    requires Reachable(c)
    ensures Reachable(Do(c, a))
  {
    hide Do;
    var start, actions :| Initial(start) && c == Run(start, actions);
    var longer := actions + [a];
    assert longer[..|longer| - 1] == actions;
    assert Do(c, a) == Run(start, longer);
  }

  /** The registered session of the node is ready, and the edge is at the other end of its stream. */
  predicate Synchronising(c: System) {
    && c.current.Some? && c.edgeLink == c.current && c.current.value in c.links
    && c.links[c.current.value].session.ready
  }

  function Registered(c: System): Session
    requires Synchronising(c)
  {
    c.links[c.current.value].session
  }

  // ---- No lost update --------------------------------------------------------------------

  predicate BeyondCursor(s: Session, u: UserId) { s.baselineActive && u > s.cursor }

  /** The batch under way carries the authorised record of `u`, and the edge has yet to commit it. */
  predicate InFlight(c: System, u: UserId)
    requires Synchronising(c)
  {
    var s := Registered(c);
    && s.pending.Some? && u in s.pending.value.Ids() && !Committed(s, c.edge)
    && Get(s.pending.value.users, u) == Get(Authorised(c.db), u)
  }

  /** An outbox row of the current session still asks for a newer revision. */
  predicate Wanted(c: System, u: UserId)
    requires Synchronising(c)
  {
    && u in c.db.outbox.rows && c.db.outbox.rows[u].Dirty()
    && c.db.outbox.recorded == Some(Registered(c).epoch) && c.db.outbox.rows[u].session == c.db.outbox.recorded
  }

  lemma NoLostUpdate(c: System, u: UserId)
    requires Reachable(c) && Synchronising(c)
    ensures Get(c.edge.cache, u) == Get(Authorised(c.db), u) || BeyondCursor(Registered(c), u) || InFlight(c, u) || Wanted(c, u)
  {
    hide LinksOk, EdgeOk, RowsOk, PastOk, MirrorOk;
    ReachableHolds(c);
    var a, o, s := Authorised(c.db), c.db.outbox, Registered(c);
    if s.pending.Some? && u in s.pending.value.Ids() {
      assert InsideOk(a, o, s, u);
    } else {
      assert OutsideOk(a, o, s, c.edge.cache, u);
    }
  }

  /** When the push worker finds nothing to do and nothing is under way, the edge holds exactly the authorised records. */
  lemma QuiescentMeansEqual(c: System)
    requires Reachable(c) && Synchronising(c)
    requires PushChoice(c.db, Registered(c)).Nothing? && Registered(c).pending.None?
    ensures c.edge.cache == Authorised(c.db)
    ensures c.edge.blocked == Registered(c).blocked
    ensures c.edge.blocked == c.db.blocked <==> !c.history.lost
    ensures !c.edge.resetPending && Final(c.history, Registered(c).epoch)
  {
    QuiescentSession(c);
    var a, s := Authorised(c.db), Registered(c);
    forall u ensures Get(c.edge.cache, u) == Get(a, u) {
      NoLostUpdate(c, u);
      assert Wanted(c, u) ==> u in Outbox.DirtyUsers(c.db.outbox, s.epoch);
    }
    assert c.edge.cache.Keys == a.Keys by {
      forall u ensures u in c.edge.cache <==> u in a { assert Get(c.edge.cache, u) == Get(a, u); }
    }
    forall u | u in a ensures c.edge.cache[u] == a[u] { assert Get(c.edge.cache, u) == Get(a, u); }
  }

  lemma QuiescentSession(c: System)
    requires Reachable(c) && Synchronising(c)
    requires PushChoice(c.db, Registered(c)).Nothing? && Registered(c).pending.None?
    ensures var s := Registered(c);
            && !s.baselineActive && Outbox.DirtyUsers(c.db.outbox, s.epoch) == {}
            && c.edge.blocked == s.blocked && (s.blocked == c.db.blocked <==> !c.history.lost)
            && !c.edge.resetPending && Final(c.history, s.epoch)
  {
    hide RowsOk, PastOk, SyncOk, Idle, Transferring, Final, GateOk;
    ReachableIsTraced(c);
    ReachableHolds(c);
    var s := Registered(c);
    SyncReplies.LinkIsOk(c, c.current.value);
    LowestIsLowerSegment(Outbox.DirtyUsers(c.db.outbox, s.epoch), PAGE_LIMIT);
  }

  // ---- Acknowledgements ------------------------------------------------------------------

  /** What was prepared, committed or confirmed is never rewritten. */
  lemma HistoryGrows(c: System, a: Action)
    requires Reachable(c)
    ensures Extends(c.history, Do(c, a).history)
  {
    hide Invariant, Extends, JobSnapshot, Applied, DoPush, DoConnect, DoReceive, DoWork, DoEdgeMessage, Flagged, Mutated;
    ReachableHolds(c);
    match a
    case Push(sql, room) => PushExtends(c, sql, room);
    case EdgeFinishesJob(ok) => Grown(c.history, c.history); CommitExtends(c);
    case EdgeDetach(commits, emptied) => Grown(c.history, c.history); CommitExtends(c);
    case _ => OtherExtends(c, a);
  }

  lemma Grown(h: History, h': History)
    requires h'.prepared == h.prepared && h'.committed == h.committed && h.acked <= h'.acked
    ensures Extends(h, h')
  {
  }

  lemma OtherExtends(c: System, a: Action)
    requires !a.Push? && !a.EdgeFinishesJob? && !a.EdgeDetach?
    ensures Extends(c.history, Do(c, a).history)
  {
    hide Extends, EdgeReceive, OnAck, OnCleared, OnChunkAck, Mutated, DoPush, DoEdgeFinish, DoEdgeDetach;
    Grown(c.history, Do(c, a).history);
  }

  lemma RecordedExtends(h: History, blocked: map<Ip, Block>, revision: nat, before: Session, after: Session)
    requires forall k :: k in h.prepared ==> k.1 <= revision
    requires after.pending == before.pending || (after.pending.Some? && after.pending.value.revision == revision + 1)
    ensures Extends(h, Recorded(h, blocked, before, after))
  {
  }

  /** A push makes a snapshot with a revision of its own pending, or none. */
  lemma PushIsNew(c: System, l: Link, requested: Option<set<UserId>>, sql: Sql, room: bool)
    ensures var p := PushPage(c.codec, c.db, l, requested, sql, room).link.session.pending;
            p == l.session.pending || (p.Some? && p.value.revision == c.db.revision + 1)
    ensures var p := PushBlocked(c.codec, c.db, l, sql, room).link.session.pending;
            p == l.session.pending || (p.Some? && p.value.revision == c.db.revision + 1)
  {
    hide PageUsers, Candidates, Outbox.Prepare, ChangedBlocks, Authorised, NextChunk, FragmentCount;
  }

  lemma PushExtends(c: System, sql: Sql, room: bool)
    requires Invariant(c)
    ensures Extends(c.history, DoPush(c, sql, room).history)
  {
    hide LinksOk, EdgeOk, CurrentOk, DatabaseOk, RowsOk, PushChoice, PushPage, PushBlocked, RequestReset, Recorded, Extends;
    Grown(c.history, c.history);
    if c.current.Some? && c.current.value in c.links {
      var l := c.links[c.current.value];
      var choice := PushChoice(c.db, l.session);
      var requested := if choice.Page? then choice.requested else None;
      PushIsNew(c, l, requested, sql, room);
      RecordedExtends(c.history, c.db.blocked, c.db.revision, l.session, PushPage(c.codec, c.db, l, requested, sql, room).link.session);
      RecordedExtends(c.history, c.db.blocked, c.db.revision, l.session, PushBlocked(c.codec, c.db, l, sql, room).link.session);
    }
  }

  lemma CommitExtends(c: System)
    requires Invariant(c)
    ensures c.edgeLink.Some? && c.edge.executing.Some? ==>
              var job := c.edge.executing.value;
              var t := JobSnapshot(c.codec, c.edge, job);
              t.Some? ==> Extends(c.history, c.history.(committed := c.history.committed[(job.epoch, job.revision) := t.value]))
  {
    hide Invariant, StoreOk, Working, SessionOk;
    if Executing(c) {
      ExecutingFacts(c);
      CommitKeepsPast(c);
    }
  }

  /** A revision number names one snapshot, over all epochs and sessions. */
  ghost predicate RevisionsAreUnique(h: History) {
    forall k, m :: k in h.prepared && m in h.prepared && k.1 == m.1 ==> k == m
  }

  lemma {:induction false} RevisionsNeverRepeat(start: System, actions: seq<Action>)
    requires Initial(start)
    ensures RevisionsAreUnique(Run(start, actions).history)
    decreases |actions|
  {
    hide Invariant, Do;
    if actions != [] {
      var init, last := actions[..|actions| - 1], actions[|actions| - 1];
      RevisionsNeverRepeat(start, init);
      RunKeeps(start, init);
      StepNamesNew(Run(start, init), last);
    }
  }

  /** A step prepares nothing, or one snapshot under a number above all numbers in use. */
  lemma StepNamesNew(c: System, a: Action)
    requires Invariant(c) && RevisionsAreUnique(c.history)
    ensures RevisionsAreUnique(Do(c, a).history)
  {
    hide Invariant, RevisionsAreUnique, EdgeReceive, JobSnapshot, Applied, Mutated, DoPush, OnAck, OnCleared, OnChunkAck;
    if a.Push? {
      PushNamesNew(c, a.sql, a.room);
    } else {
      SamePrepared(c.history, Do(c, a).history);
    }
  }

  lemma SamePrepared(h: History, h': History)
    requires RevisionsAreUnique(h) && h'.prepared == h.prepared
    ensures RevisionsAreUnique(h')
  {
  }

  lemma PushNamesNew(c: System, sql: Sql, room: bool)
    requires Invariant(c) && RevisionsAreUnique(c.history)
    ensures RevisionsAreUnique(DoPush(c, sql, room).history)
  {
    hide LinksOk, EdgeOk, CurrentOk, DatabaseOk, RowsOk, PushChoice, PushPage, PushBlocked, RequestReset, Recorded, RevisionsAreUnique;
    if c.current.Some? && c.current.value in c.links {
      var l := c.links[c.current.value];
      var choice := PushChoice(c.db, l.session);
      var requested := if choice.Page? then choice.requested else None;
      PushIsNew(c, l, requested, sql, room);
      RecordedNamesNew(c.history, c.db.blocked, c.db.revision, l.session, PushPage(c.codec, c.db, l, requested, sql, room).link.session);
      RecordedNamesNew(c.history, c.db.blocked, c.db.revision, l.session, PushBlocked(c.codec, c.db, l, sql, room).link.session);
    }
  }

  lemma RecordedNamesNew(h: History, blocked: map<Ip, Block>, revision: nat, before: Session, after: Session)
    requires RevisionsAreUnique(h) && forall k :: k in h.prepared ==> k.1 <= revision
    requires after.pending == before.pending || (after.pending.Some? && after.pending.value.revision == revision + 1)
    ensures RevisionsAreUnique(Recorded(h, blocked, before, after))
  {
  }

  /**
    A row says `applied == r` under the recorded epoch only if the edge committed, in that
    epoch, exactly the snapshot that was prepared as revision `r`, and this snapshot settled the
    user; the user counts as cached exactly when the snapshot carried a record for it.
   */
  lemma RowsClaimOnlyCommits(c: System, u: UserId)
    requires Reachable(c) && u in c.db.outbox.rows && c.db.outbox.rows[u].applied > 0
    ensures var row := c.db.outbox.rows[u];
            && row.session == c.db.outbox.recorded && row.session.Some?
            && var k := (row.session.value, row.applied);
               && k in c.history.committed && k in c.history.prepared
               && c.history.committed[k] == c.history.prepared[k] && c.history.committed[k].revision == row.applied
               && u in c.history.committed[k].Ids()
               && (row.cached <==> u in c.history.committed[k].users)
  {
    hide LinksOk, EdgeOk, CurrentOk;
    ReachableHolds(c);
    assert RowOk(c.history, c.db.outbox.recorded, u, c.db.outbox.rows[u]);
  }

  /** The answers that may touch the outbox: those of the registered session to what it awaits. */
  predicate Expected(c: System, link: nat)
    requires link in c.links && c.links[link].jobs != []
  {
    var s := c.links[link].session;
    && c.current == Some(link)
    && match c.links[link].jobs[0]
       case Cleared(epoch) => epoch == s.epoch && !s.ready
       case Ack(epoch, revision) =>
         && epoch == s.epoch && s.pending.Some? && s.pending.value.revision == revision && revision > s.appliedRevision
         && s.chunkIndex == s.chunkTotal
       case ChunkAck(_, _, _) => false
  }

  /**
    Answers of replaced sessions, of old epochs, of old revisions and of unfinished transfers
    never change the database, the session or the history, however the transaction ends.
   */
  lemma StaleAnswersChangeNothing(c: System, link: nat, sql: Sql, room: bool)
    requires link in c.links && c.links[link].jobs != [] && !Expected(c, link)
    ensures Untouched(c, Do(c, Work(link, sql, room)))
  {
    hide OnAck, OnCleared, Settled;
    var l := c.links[link];
    match l.jobs[0]
    case Cleared(epoch) =>
      StaleCleared(c.db, l, c.current == Some(link), epoch, sql);
      Unsettled(c, link, OnCleared(c.db, l, c.current == Some(link), epoch, sql));
    case Ack(epoch, revision) =>
      StaleAck(c.db, l, c.current == Some(link), epoch, revision, sql, room);
      Unsettled(c, link, OnAck(c.db, l, c.current == Some(link), epoch, revision, sql, room));
    case ChunkAck(_, _, _) =>
  }

  predicate Untouched(c: System, d: System) {
    && d.db == c.db && d.history == c.history && d.edge == c.edge && d.links.Keys == c.links.Keys
    && (forall k :: k in c.links ==> d.links[k].session == c.links[k].session)
  }

  lemma Unsettled(c: System, link: nat, r: Handled)
    requires link in c.links && c.links[link].jobs != [] && r.db == c.db && r.link == c.links[link]
    ensures Untouched(c, Settled(c, link, r, c.history))
  {
  }

  lemma StaleCleared(db: Database, l: Link, current: bool, epoch: Epoch, sql: Sql)
    requires !(current && epoch == l.session.epoch && !l.session.ready)
    ensures var r := OnCleared(db, l, current, epoch, sql);
            r.db == db && r.link == l && !r.verdict.Late?
  {
  }

  /** On the current stream a receipt of an earlier epoch, of a confirmed snapshot or of an earlier fragment is passed over. */
  lemma StaleReceiptsPass(db: Database, l: Link, epoch: Epoch, revision: nat, sequence: nat, room: bool)
    requires l.session.pending.Some? && epoch <= l.session.epoch && revision <= l.session.pendingRevision
    requires epoch < l.session.epoch || revision <= l.session.appliedRevision
             || (revision == l.session.pendingRevision && sequence < l.session.chunkIndex)
    ensures OnChunkAck(db, l, true, epoch, revision, sequence, room) == Handled(db, l, Pass)
  {
  }

  lemma StaleAck(db: Database, l: Link, current: bool, epoch: Epoch, revision: nat, sql: Sql, room: bool)
    requires var s := l.session;
             !(current && epoch == s.epoch && s.pending.Some? && s.pending.value.revision == revision
               && revision > s.appliedRevision && s.chunkIndex == s.chunkTotal)
    ensures var r := OnAck(db, l, current, epoch, revision, sql, room);
            r.db == db && r.link == l && !r.verdict.Late?
  {
  }

  /** Reading the stream never touches the database; only the two job kinds above do. */
  lemma ReceivingChangesNothing(c: System, link: nat, room: bool, keep: bool)
    ensures Do(c, Receive(link, room, keep)).db == c.db && Do(c, Receive(link, room, keep)).history == c.history
  {
  }

  /** An acknowledgement that does get through names a snapshot the edge committed. */
  lemma AcceptedAckIsCommitted(c: System, link: nat)
    requires Reachable(c) && link in c.links && c.links[link].jobs != [] && c.links[link].jobs[0].Ack?
    requires Expected(c, link)
    ensures var s := c.links[link].session;
            (s.epoch, s.pendingRevision) in c.history.committed
            && c.history.committed[(s.epoch, s.pendingRevision)] == s.pending.value
  {
    hide EdgeOk, CurrentOk, RowsOk, DatabaseOk;
    ReachableHolds(c);
    SyncReplies.LinkIsOk(c, link);
    var l := c.links[link];
    assert l.jobs[0] in l.up + l.jobs;
  }

  // ---- Fragments -------------------------------------------------------------------------

  function Joined(payload: seq<byte>, n: nat): seq<byte> {
    if n == 0 then [] else Joined(payload, n - 1) + Fragment(payload, n - 1)
  }

  lemma {:induction false} JoinedIsPrefix(payload: seq<byte>, n: nat)
    ensures Joined(payload, n) == payload[..FragmentEnd(payload, n)]
  {
    if n > 0 { JoinedIsPrefix(payload, n - 1); }
  }

  lemma FragmentsMakeThePayload(payload: seq<byte>)
    requires payload != []
    ensures FragmentCount(payload) > 0
    ensures (FragmentCount(payload) - 1) * (512 * 1024) < |payload| <= FragmentCount(payload) * (512 * 1024)
    ensures forall k :: 0 <= k < FragmentCount(payload) ==> 0 < |Fragment(payload, k)| <= 512 * 1024
    ensures forall k :: 0 <= k < FragmentCount(payload) - 1 ==> |Fragment(payload, k)| == 512 * 1024
    ensures Joined(payload, FragmentCount(payload)) == payload
  {
    var n := FragmentCount(payload);
    JoinedIsPrefix(payload, n);
    assert FragmentEnd(payload, n) == |payload|;
  }

  function Unacknowledged(l: Link): nat { Fragments(l.down) + Receipts(l.up) }

  function Fragments(down: seq<Down>): nat {
    if down == [] then 0 else (if down[0].Chunk? then 1 else 0) + Fragments(down[1..])
  }

  function Receipts(up: seq<Up>): nat {
    if up == [] then 0 else (if up[0].ChunkAck? then 1 else 0) + Receipts(up[1..])
  }

  /** At most one fragment is under way, and it is the one the session counts as next. */
  lemma OneFragmentAtATime(c: System)
    requires Reachable(c) && c.edgeLink.Some?
    ensures c.edgeLink.value in c.links
    ensures Unacknowledged(c.links[c.edgeLink.value]) <= 1
  {
    hide RowsOk, PastOk, DatabaseOk, CurrentOk, GateOk, PromiseOk, LinksOk;
    ReachableHolds(c);
    OneFragment(c.links[c.edgeLink.value], c.edge);
  }

  lemma OneFragment(l: Link, e: Edge)
    requires FlowOk(l, e)
    ensures Unacknowledged(l) <= 1
  {
    if l.session.ready {
      FewFragments(l.down);
      FewReceipts(l.up);
    } else {
      forall i | 0 <= i < |l.down| ensures !l.down[i].Chunk? { assert WelcomeOk(l.session, l.down, i); }
      forall i | 0 <= i < |l.up| ensures !l.up[i].ChunkAck? { assert l.up[i] in l.jobs + l.up; }
      NoFragments(l.down);
      NoReceipts(l.up);
    }
  }

  lemma FewFragments(down: seq<Down>)
    requires |down| <= 2
    ensures Fragments(down) == (if |down| > 0 && down[0].Chunk? then 1 else 0) + (if |down| > 1 && down[1].Chunk? then 1 else 0)
  {
    if |down| == 2 { assert down[1..] == [down[1]]; }
  }

  lemma FewReceipts(up: seq<Up>)
    requires |up| <= 2
    ensures Receipts(up) == (if |up| > 0 && up[0].ChunkAck? then 1 else 0) + (if |up| > 1 && up[1].ChunkAck? then 1 else 0)
  {
    if |up| == 2 { assert up[1..] == [up[1]]; }
  }

  lemma {:induction false} NoFragments(down: seq<Down>)
    requires forall i :: 0 <= i < |down| ==> !down[i].Chunk?
    ensures Fragments(down) == 0
  {
    if down != [] { NoFragments(down[1..]); }
  }

  lemma {:induction false} NoReceipts(up: seq<Up>)
    requires forall i :: 0 <= i < |up| ==> !up[i].ChunkAck?
    ensures Receipts(up) == 0
  {
    if up != [] { NoReceipts(up[1..]); }
  }

  /** Any apply job the edge queues or runs carries the very bytes that were prepared for its revision. */
  lemma JobsCarryThePreparedBytes(c: System, job: Job)
    requires Reachable(c) && job.ApplyJob? && (c.edge.executing == Some(job) || c.edge.queued == Some(job))
    requires c.edgeLink.Some?
    ensures (job.epoch, job.revision) in c.history.prepared
    ensures job.payload == c.codec.encode(c.history.prepared[(job.epoch, job.revision)])
  {
    hide RowsOk, PastOk, DatabaseOk, CurrentOk, GateOk, PromiseOk;
    ReachableHolds(c);
    SyncReplies.LinkIsOk(c, c.edgeLink.value);
  }

  /** The edge never rejects a fragment or a confirmation, and an executing snapshot always passes its checks. */
  lemma EdgeNeverRejects(c: System)
    requires Reachable(c) && c.edgeLink.Some?
    ensures c.edgeLink.value in c.links
    ensures var down := c.links[c.edgeLink.value].down;
            down != [] && !down[0].Welcome? ==> EdgeReceive(c.edge, down[0]).Some?
    ensures Executing(c) ==> JobSnapshot(c.codec, c.edge, c.edge.executing.value).Some?
  {
    hide RowsOk, PastOk, DatabaseOk, CurrentOk, GateOk, PromiseOk, FlowOk, SessionOk, EdgeReceive;
    ReachableHolds(c);
    var l := c.links[c.edgeLink.value];
    SyncReplies.LinkIsOk(c, c.edgeLink.value);
    if l.down != [] { MessageKeepsFlow(c.codec, l, c.edge); }
    if Executing(c) { ExecutingFacts(c); }
  }

  // ---- Admission gate --------------------------------------------------------------------

  /**
    While the edge admits clients, the final baseline page of its current epoch is committed
    and confirmed, no reset is pending and no batch is being received or applied.
   */
  lemma AdmissionGate(c: System)
    requires Reachable(c) && c.edge.syncReady
    ensures c.edgeLink.Some? && c.edge.epoch.Some? && Final(c.history, c.edge.epoch.value)
    ensures !c.edge.resetPending && c.edge.buffer == [] && NoJobs(c.edge)
  {
    hide RowsOk, PastOk, DatabaseOk, CurrentOk, LinksOk, FlowOk, PromiseOk, Final;
    ReachableHolds(c);
  }

  /**
    Admission opens in one way only, whoever sends what: the edge reads the confirmation of the
    epoch it is in, for the revision it committed last, and it is marked complete. A fence, a
    welcome and the first fragment of a transfer close it.
   */
  lemma AdmissionOpensOnlyByConfirmation(c: System, a: Action)
    ensures !c.edge.syncReady && Do(c, a).edge.syncReady ==>
              && a.EdgeTakesMessage? && c.edgeLink.Some? && c.edgeLink.value in c.links && c.edge.epoch.Some?
              && var down := c.links[c.edgeLink.value].down;
                 down != [] && down[0] == Confirmed(c.edge.epoch.value, c.edge.locallyApplied, true)
    ensures a.EdgeFence? ==> !Do(c, a).edge.syncReady
  {
    hide DoPush, DoReceive, DoWork, Mutated, Flagged, JobSnapshot, CacheAfter;
    match a
    case Push(sql, room) => PushLeavesEdge(c, sql, room);
    case Receive(link, room, keep) => ReceiveLeavesEdge(c, link, room, keep);
    case Work(link, sql, room) => WorkLeavesEdge(c, link, sql, room);
    case ScheduleFull => FlaggedLeavesEdge(c, true);
    case SetBlocked(blocked, announced) => FlaggedLeavesEdge(c.(db := c.db.(blocked := blocked)), false);
    case _ =>
  }

  lemma PushLeavesEdge(c: System, sql: Sql, room: bool)
    ensures DoPush(c, sql, room).edge == c.edge
  {
    hide PushChoice, PushBlocked, PushPage, Recorded;
  }

  lemma ReceiveLeavesEdge(c: System, link: nat, room: bool, keep: bool)
    ensures DoReceive(c, link, room, keep).edge == c.edge
  {
    hide OnChunkAck;
  }

  lemma WorkLeavesEdge(c: System, link: nat, sql: Sql, room: bool)
    ensures DoWork(c, link, sql, room).edge == c.edge
  {
    hide OnCleared, OnAck;
  }

  lemma FlaggedLeavesEdge(c: System, full: bool)
    ensures Flagged(c, full).edge == c.edge
  {
  }

  /** An edge without a stream admits nobody and gives out no lease until a new baseline is complete; so does one whose reset failed. */
  lemma DetachedIsShut(c: System)
    requires Reachable(c)
    ensures c.edgeLink.None? ==> !c.edge.syncReady && c.edge.resetPending
    ensures var d := Do(c, EdgeFinishesJob(false));
            c.edgeLink.Some? && c.edge.executing.Some? && c.edge.executing.value.ResetJob? ==> d.edge.resetPending && !d.edge.syncReady
  {
    hide RowsOk, PastOk, DatabaseOk, CurrentOk, LinksOk, FlowOk, PromiseOk, Final;
    ReachableHolds(c);
  }

  /** A refresh is asked for once: the welcome goes out and the worker waits for the edge, or the session ends. */
  lemma RefreshIsAskedOnce(c: System, sql: Sql, room: bool)
    requires c.current.Some? && c.current.value in c.links && c.links[c.current.value].open
    requires PushChoice(c.db, c.links[c.current.value].session).NewEpoch?
    ensures var d := Do(c, Push(sql, room));
            var l, l' := c.links[c.current.value], d.links[c.current.value];
            && d.db == c.db && l'.session.epoch == c.nextEpoch && d.nextEpoch == c.nextEpoch + 1
            && (room ==> d.current == c.current && l'.open && l'.down == l.down + [Welcome(c.nextEpoch)] && PushChoice(d.db, l'.session).Nothing?)
            && (!room ==> d.current.None? && !l'.open && l'.down == l.down)
  {
  }

  // ---- Blacklist -------------------------------------------------------------------------

  /** With nothing in flight the edge holds the session's copy. */
  lemma BlacklistMirror(c: System)
    requires Reachable(c) && Synchronising(c) && Registered(c).pending.None?
    ensures c.edge.blocked == Registered(c).blocked
  {
    hide RowsOk, PastOk, DatabaseOk, LinksOk, EdgeOk, SyncOk, OwnerOk;
    ReachableHolds(c);
  }

  /** The difference between the edge's list and the database's, if there is one, is going to be delivered. */
  ghost predicate Mirrored(c: System)
    requires Synchronising(c)
  {
    SyncBlacklist.Promised(c.db.blocked, Registered(c))
  }

  /** In every reachable state the promise is kept exactly if no change was lost. */
  lemma MirroredIffNothingLost(c: System)
    requires Reachable(c) && Synchronising(c)
    ensures Mirrored(c) <==> !c.history.lost
  {
    hide Reachable;
    ReachableIsTraced(c);
  }

  /**
    A committed change of the blacklist keeps the promise exactly if it is announced, the list is
    going to be read again anyway, or it is the list that the edge is about to hold: not the list
    it holds now, when a difference is in flight.
   */
  lemma ChangeIsMirroredIff(c: System, blocked: map<Ip, Block>, announced: bool)
    requires Reachable(c) && Synchronising(c)
    ensures var d := Do(c, SetBlocked(blocked, announced));
            && Synchronising(d)
            && (Mirrored(d) <==> announced || Rereads(Registered(c)) || blocked == MirrorTarget(Registered(c)))
            && (Mirrored(d) <==> !d.history.lost)
  {
    hide Reachable;
    ReachableIsTraced(c);
    SyncBlacklist.SetBlockedIsTraced(c, blocked, announced);
  }

  /** When every change is announced, the promise holds in every state of the run. */
  lemma AnnouncedChangesAreMirrored(start: System, actions: seq<Action>)
    requires Initial(start) && forall i :: 0 <= i < |actions| && actions[i].SetBlocked? ==> actions[i].announced
    ensures var c := Run(start, actions);
            !c.history.lost && (Synchronising(c) ==> Mirrored(c))
  {
    hide Run, Reachable;
    SyncBlacklist.AnnouncedIsNeverLost(start, actions);
    SyncBlacklist.RunIsTraced(start, actions);
  }

  // ---- Outbox ----------------------------------------------------------------------------

  lemma OutboxStaysWellFormed(c: System)
    requires Reachable(c)
    ensures Outbox.WellFormed(c.db.outbox, c.db.revision)
  {
    hide RowsOk, PastOk, CurrentOk, LinksOk, EdgeOk;
    ReachableHolds(c);
  }
}
