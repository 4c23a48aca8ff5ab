/** The edge's steps keep the invariant, and with them every action does. */
module SyncEdge {
  import opened Base
  import opened Identities
  import opened SyncProtocol
  import opened SyncInvariant
  import opened SyncSteps
  import opened SyncReplies
  import Outbox
  import SyncFlow
  import SyncData

  lemma MessageKeepsGate(h: History, l: Link, e: Edge, m: Down)
    requires GateOk(h, e) && PromiseOk(h, l, e) && FlowOk(l, e) && l.down != [] && m == l.down[0] && EdgeReceive(e, m).Some?
    ensures GateOk(h, EdgeReceive(e, m).value.0)
  {
    assert m in l.down;
    if !l.session.ready { assert WelcomeOk(l.session, l.down, 0); }
  }

  /** The receive loop never rejects a fragment or a confirmation, and what it queues keeps the flow. */
  lemma MessageKeepsFlow(codec: Codec, l: Link, e: Edge)
    requires Lawful(codec) && SessionOk(codec, l.session) && FlowOk(l, e) && l.down != []
    ensures !l.down[0].Welcome? ==> EdgeReceive(e, l.down[0]).Some?
    ensures EdgeReceive(e, l.down[0]).Some? ==>
      var (e', replies) := EdgeReceive(e, l.down[0]).value;
      && FlowOk(l.(down := l.down[1..], up := l.up + replies), e')
      && e' == e.(epoch := e'.epoch, buffer := e'.buffer, chunkRevision := e'.chunkRevision, chunkIndex := e'.chunkIndex,
                  chunkTotal := e'.chunkTotal, queued := e'.queued, syncReady := e'.syncReady)
      && (forall r :: r in replies ==> r.ChunkAck?)
  {
    hide FlowOk, SessionOk;
    if EdgeReceive(e, l.down[0]).Some? {
      var replies := EdgeReceive(e, l.down[0]).value.1;
      assert replies == [] ==> l.up + replies == l.up;
    }
    match l.down[0]
    case Welcome(_) => if EdgeReceive(e, l.down[0]).Some? { SyncFlow.FlowAfterWelcome(l, e); }
    case Chunk(_, _, _, _, _) => SyncFlow.FlowAfterChunk(codec, l, e);
    case Confirmed(_, _, _) => SyncFlow.FlowAfterConfirmed(l, e);
  }

  lemma EdgeMessageKeeps(c: System)
    requires Invariant(c)
    ensures Invariant(DoEdgeMessage(c))
  {
    hide RowsOk, PastOk, DatabaseOk, CurrentOk, FlowOk, PromiseOk, GateOk, SessionOk, EdgeReceive;
    if c.edgeLink.Some? && c.links[c.edgeLink.value].down != [] {
      var id := c.edgeLink.value;
      var l := c.links[id];
      MessageKeepsFlow(c.codec, l, c.edge);
      if EdgeReceive(c.edge, l.down[0]).Some? {
        var (e', replies) := EdgeReceive(c.edge, l.down[0]).value;
        MessageKeepsGate(c.history, l, c.edge, l.down[0]);
        TrafficKeeps(c, id, l.(down := l.down[1..], up := l.up + replies), e');
      }
    }
  }

  lemma TakeKeeps(c: System)
    requires Invariant(c) && c.edgeLink.Some? && c.edge.executing.None?
    ensures Invariant(c.(edge := c.edge.(executing := c.edge.queued, queued := None)))
  {
    hide RowsOk, PastOk, DatabaseOk, CurrentOk, FlowOk, PromiseOk;
    var id := c.edgeLink.value;
    var e' := c.edge.(executing := c.edge.queued, queued := None);
    SyncFlow.FlowAfterTake(c.links[id], c.edge);
    TrafficKeeps(c, id, c.links[id], e');
    assert c.(links := c.links[id := c.links[id]], edge := e') == c.(edge := e');
  }

  lemma FenceKeeps(c: System)
    requires Invariant(c)
    ensures Invariant(c.(edge := c.edge.(syncReady := false)))
  {
    hide RowsOk, PastOk, DatabaseOk, LinkOk, OwnerOk, FlowOk, SyncOk, MirrorOk;
    var e' := c.edge.(syncReady := false);
    if c.edgeLink.Some? { FenceKeepsFlow(c.links[c.edgeLink.value], c.edge); }
    if c.current.Some? && c.edgeLink == c.current && c.links[c.current.value].session.ready {
      ChunkIndexIsIrrelevant(Authorised(c.db), c.db.outbox, c.links[c.current.value].session, c.links[c.current.value].session, c.edge, e');
      MirrorIgnoresConnection(c.links[c.current.value].session, c.edge, e');
    }
  }

  lemma FenceKeepsFlow(l: Link, e: Edge)
    requires FlowOk(l, e)
    ensures FlowOk(l, e.(syncReady := false))
  {
  }

  // ---- Jobs ------------------------------------------------------------------------------

  lemma FailedResetKeeps(c: System)
    requires Invariant(c) && c.edgeLink.Some? && c.edge.executing.Some? && c.edge.executing.value.ResetJob?
    ensures Invariant(c.(edge := c.edge.(resetPending := true)))
  {
    hide RowsOk, PastOk, DatabaseOk, LinkOk, OwnerOk, SyncOk, MirrorOk;
    var l := c.links[c.edgeLink.value];
    ResetJobMeansHandshake(l, c.edge);
  }

  lemma ResetJobMeansHandshake(l: Link, e: Edge)
    requires FlowOk(l, e) && e.executing.Some? && e.executing.value.ResetJob?
    ensures !l.session.ready && !e.syncReady && forall m :: m in l.down ==> !m.Confirmed?
  {
    if !l.session.ready {
      forall i | 0 <= i < |l.down| ensures !l.down[i].Confirmed? { assert WelcomeOk(l.session, l.down, i); }
    }
  }

  lemma ResetKeeps(c: System)
    requires Invariant(c) && c.edgeLink.Some? && c.edge.executing.Some? && c.edge.executing.value.ResetJob?
    ensures Invariant(DoEdgeFinish(c, true))
  {
    hide RowsOk, PastOk, DatabaseOk, OwnerOk, SyncOk, MirrorOk, FlowOk;
    var id := c.edgeLink.value;
    var l := c.links[id];
    var c' := DoEdgeFinish(c, true);
    ResetJobMeansHandshake(l, c.edge);
    SyncFlow.FlowAfterEmptying(l, c.edge);
    LinksAfter(c, id, c');
  }

  ghost function AfterCommit(c: System): System
    requires c.edgeLink.Some? && c.edgeLink.value in c.links && c.links[c.edgeLink.value].session.pending.Some?
  {
    var id := c.edgeLink.value;
    var l := c.links[id];
    var s := l.session;
    c.(edge := Applied(c.edge, s.pending.value).(executing := None, locallyApplied := s.pendingRevision),
       links := c.links[id := l.(up := l.up + [Ack(s.epoch, s.pendingRevision)])],
       history := c.history.(committed := c.history.committed[(s.epoch, s.pendingRevision) := s.pending.value]))
  }

  ghost predicate Executing(c: System) {
    c.edgeLink.Some? && c.edge.executing.Some? && c.edge.executing.value.ApplyJob?
  }

  lemma ExecutingFacts(c: System)
    requires Invariant(c) && Executing(c)
    ensures c.edgeLink.value in c.links
    ensures var l := c.links[c.edgeLink.value];
            var s := l.session;
            && SessionOk(c.codec, s) && s.ready && s.pending.Some? && StoreOk(s, c.edge)
            && Working(l, c.edge) && !Committed(s, c.edge)
            && c.edge.executing.value == ApplyJob(s.epoch, s.pendingRevision, s.payload)
            && JobSnapshot(c.codec, c.edge, c.edge.executing.value) == s.pending
            && (s.epoch, s.pendingRevision) in c.history.prepared
            && c.history.prepared[(s.epoch, s.pendingRevision)] == s.pending.value
  {
    hide RowsOk, PastOk, DatabaseOk, CurrentOk, GateOk, PromiseOk;
    LinkIsOk(c, c.edgeLink.value);
    SyncFlow.FlowAfterFinish(c.codec, c.links[c.edgeLink.value], c.edge);
  }

  lemma CommitKeepsPast(c: System)
    requires Invariant(c) && Executing(c)
    ensures var s := c.links[c.edgeLink.value].session;
            s.pending.Some? &&
            var h' := c.history.(committed := c.history.committed[(s.epoch, s.pendingRevision) := s.pending.value]);
            PastOk(h', c.db.revision, c.nextEpoch) && Extends(c.history, h') && RowsOk(h', c.db.outbox)
  {
    hide EdgeOk, CurrentOk, LinksOk, StoreOk, Working, SessionOk, JobSnapshot;
    ExecutingFacts(c);
    var s := c.links[c.edgeLink.value].session;
    var h' := c.history.(committed := c.history.committed[(s.epoch, s.pendingRevision) := s.pending.value]);
    assert Extends(c.history, h');
    RowsMonotone(c.history, h', c.db.outbox);
  }

  lemma CommitKeepsLinks(c: System)
    requires Invariant(c) && Executing(c)
    ensures c.links[c.edgeLink.value].session.pending.Some? && LinksOk(AfterCommit(c))
  {
    hide EdgeOk, CurrentOk, StoreOk, Working, SessionOk, JobSnapshot, RowsOk, PastOk;
    ExecutingFacts(c);
    CommitKeepsPast(c);
    var id := c.edgeLink.value;
    var c' := AfterCommit(c);
    LinkMonotone(c.codec, c.history, c.db.revision, c.nextEpoch, c.links[id], c'.history, c.db.revision, c.nextEpoch);
    LinksAfter(c, id, c');
  }

  lemma CommitKeepsEdge(c: System)
    requires Invariant(c) && Executing(c)
    ensures c.links[c.edgeLink.value].session.pending.Some? && EdgeOk(AfterCommit(c))
  {
    hide CurrentOk, StoreOk, SessionOk, JobSnapshot, RowsOk, PastOk, FlowOk, LinksOk;
    ExecutingFacts(c);
    CommitKeepsPast(c);
    var id := c.edgeLink.value;
    var l := c.links[id];
    var c' := AfterCommit(c);
    PromiseMonotone(c.history, c'.history, l, c.edge);
    SyncFlow.FlowAfterFinish(c.codec, l, c.edge);
  }

  lemma CommitKeepsCurrent(c: System)
    requires Invariant(c) && Executing(c)
    ensures c.links[c.edgeLink.value].session.pending.Some? && CurrentOk(AfterCommit(c))
  {
    hide StoreOk, SessionOk, JobSnapshot, RowsOk, PastOk, FlowOk, LinksOk, OwnerOk, SyncOk, MirrorOk, EdgeOk;
    ExecutingFacts(c);
    var c' := AfterCommit(c);
    var s := c.links[c.edgeLink.value].session;
    if c.current == c.edgeLink {
      SyncData.CommitKeepsSync(c.codec, Authorised(c.db), c.db.outbox, s, c.edge);
      SyncData.CommitKeepsMirror(c.codec, s, c.edge);
      ChunkIndexIsIrrelevant(Authorised(c.db), c.db.outbox, s, s, Applied(c.edge, s.pending.value), c'.edge);
      MirrorIgnoresConnection(s, Applied(c.edge, s.pending.value), c'.edge);
    }
  }

  lemma MirrorIgnoresConnection(s: Session, e: Edge, e': Edge)
    requires MirrorOk(s, e) && e'.blocked == e.blocked && e'.lastRevision == e.lastRevision
    ensures MirrorOk(s, e')
  {
  }

  lemma CommitKeeps(c: System)
    requires Invariant(c) && Executing(c)
    ensures Invariant(DoEdgeFinish(c, true))
  {
    hide LinksOk, EdgeOk, CurrentOk, RowsOk, PastOk, DatabaseOk, StoreOk, Working, SessionOk;
    ExecutingFacts(c);
    CommitKeepsPast(c);
    CommitKeepsLinks(c);
    CommitKeepsEdge(c);
    CommitKeepsCurrent(c);
    assert DoEdgeFinish(c, true) == AfterCommit(c);
  }

  lemma FinishKeeps(c: System, ok: bool)
    requires Invariant(c)
    ensures Invariant(DoEdgeFinish(c, ok))
  {
    hide Invariant;
    if c.edgeLink.Some? && c.edge.executing.Some? {
      if c.edge.executing.value.ResetJob? {
        if ok { ResetKeeps(c); } else { FailedResetKeeps(c); }
      } else if ok {
        CommitKeeps(c);
      }
    }
  }

  lemma DetachKeeps(c: System, commits: bool, emptied: bool)
    requires Invariant(c)
    ensures Invariant(DoEdgeDetach(c, commits, emptied))
  {
    hide FlowOk, PromiseOk, OwnerOk, SyncOk, MirrorOk, StoreOk, Working, SessionOk, DatabaseOk;
    if c.edgeLink.Some? {
      var c' := DoEdgeDetach(c, commits, emptied);
      if commits && Executing(c) {
        ExecutingFacts(c);
        CommitKeepsPast(c);
      }
      LinksKept(c, c');
    }
  }

  // ---- All actions -----------------------------------------------------------------------

  lemma ActionKeeps(c: System, a: Action)
    requires Invariant(c)
    ensures Invariant(Do(c, a))
  {
    hide Invariant;
    match a
    case Connect(legacyAdmission) => if c.edgeLink.None? { ConnectKeeps(c, legacyAdmission); }
    case EndSession => if c.current.Some? && c.current.value in c.links { CloseKeeps(c, c.current.value); }
    case Push(sql, room) => PushKeeps(c, sql, room);
    case ScheduleFull => FlagKeeps(c, true);
    case Receive(link, room, keep) => ReceiveKeeps(c, link, room, keep);
    case Work(link, sql, room) => WorkKeeps(c, link, sql, room);
    case EdgeTakesMessage => EdgeMessageKeeps(c);
    case EdgeTakesJob => if c.edgeLink.Some? && c.edge.executing.None? { TakeKeeps(c); }
    case EdgeFinishesJob(ok) => FinishKeeps(c, ok);
    case EdgeFence => FenceKeeps(c);
    case EdgeDetach(commits, emptied) => DetachKeeps(c, commits, emptied);
    case Mutate(user, account, granted) =>
      if user in c.db.accounts && (granted ==> account.Some?) { MutateKeeps(c, user, account, granted); }
    case CreateUser(user, created) =>
      if user > 0 && user !in c.db.accounts { CreateUserKeeps(c, user, created); }
    case SetBlocked(blocked, announced) => SetBlockedKeeps(c, blocked, announced);
    case Elsewhere(revisions) => ElsewhereKeeps(c, revisions);
  }

  /** The invariant holds in every state of every run. */
  lemma {:induction false} RunKeeps(c: System, actions: seq<Action>)
    requires Initial(c)
    ensures Invariant(Run(c, actions))
    decreases |actions|
  {
    hide Invariant;
    if actions == [] {
      InitialHolds(c);
    } else {
      RunKeeps(c, actions[..|actions| - 1]);
      ActionKeeps(Run(c, actions[..|actions| - 1]), actions[|actions| - 1]);
    }
  }
}
