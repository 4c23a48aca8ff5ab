/**
  Cache protocol 3 between the controller and one registered edge node, as a transition system.
  Every handler and every administrator mutation is one atomic step: the controller's
  consistency lock makes reading a page, preparing it, confirming it and mutating exclusive.
 */
module SyncProtocol {
  import opened Base
  import opened Identities
  import Outbox

  const CHUNK_BYTES := 524288

  // ---- Messages and local states ---------------------------------------------------------

  /** The payload encoding; the protocol needs only that decoding inverts it. */
  datatype Codec = Codec(encode: Snapshot -> seq<byte>, decode: seq<byte> -> Option<Snapshot>)

  ghost predicate Lawful(c: Codec) {
    forall s :: c.encode(s) != [] && c.decode(c.encode(s)) == Some(s)
  }

  datatype Down =
    | Welcome(epoch: Epoch)
    | Chunk(epoch: Epoch, revision: nat, index: nat, total: nat, data: seq<byte>)
    | Confirmed(epoch: Epoch, revision: nat, complete: bool)

  datatype Up =
    | Cleared(epoch: Epoch)
    | ChunkAck(epoch: Epoch, revision: nat, sequence: nat)
    | Ack(epoch: Epoch, revision: nat)

  /** The controller's session for one stream. */
  datatype Session = Session(
    epoch: Epoch, ready: bool, needsFull: bool, needsBlocked: bool, legacyAdmission: bool,
    baselineActive: bool, cursor: int, pendingCursor: int,
    pendingRevision: nat, appliedRevision: nat, pending: Option<Snapshot>,
    payload: seq<byte>, chunkIndex: nat, chunkTotal: nat, blocked: map<Ip, Block>)

  /** A stream: its session, a queue each way, and the controller's queue of identity jobs. */
  datatype Link = Link(session: Session, down: seq<Down>, up: seq<Up>, jobs: seq<Up>, open: bool)

  datatype Job = ResetJob(epoch: Epoch) | ApplyJob(epoch: Epoch, revision: nat, payload: seq<byte>)

  /** The edge: its durable cache, and the state of its current connection. */
  datatype Edge = Edge(
    cache: map<UserId, Identity>, blocked: map<Ip, Block>, lastRevision: Option<nat>, resetPending: bool,
    epoch: Option<Epoch>, buffer: seq<byte>, chunkRevision: nat, chunkIndex: nat, chunkTotal: nat,
    executing: Option<Job>, queued: Option<Job>, locallyApplied: nat, syncReady: bool)

  /** The controller's database, as far as it concerns this node. */
  datatype Database = Database(accounts: map<UserId, Identity>, access: set<UserId>, blocked: map<Ip, Block>,
                               revision: nat, outbox: Outbox.NodeOutbox)

  /** What this node is authorised to know. */
  function Authorised(db: Database): map<UserId, Identity> { Restrict(db.accounts, db.access) }

  /** How a SQL transaction ends: committed, rolled back, or committed but reported as failed. */
  datatype Sql = Done | Lost | Unsure

  // ---- Fragments -------------------------------------------------------------------------

  function FragmentEnd(payload: seq<byte>, k: nat): nat {
    if k * CHUNK_BYTES < |payload| then k * CHUNK_BYTES else |payload|
  }

  function Fragment(payload: seq<byte>, k: nat): seq<byte> {
    payload[FragmentEnd(payload, k)..FragmentEnd(payload, k + 1)]
  }

  function FragmentCount(payload: seq<byte>): nat { (|payload| + CHUNK_BYTES - 1) / CHUNK_BYTES }

  function NextChunk(s: Session): Down {
    Chunk(s.epoch, s.pendingRevision, s.chunkIndex, s.chunkTotal, Fragment(s.payload, s.chunkIndex))
  }

  // ---- Controller: pushing ---------------------------------------------------------------

  datatype Enqueued = Enqueued(db: Database, link: Link, ok: bool)

  /** The session once `t` is prepared. */
  function Prepared(codec: Codec, s: Session, t: Snapshot): Session {
    s.(pendingRevision := t.revision, pending := Some(t), needsFull := s.needsFull && (t.incremental || t.baseline),
       payload := codec.encode(t), chunkIndex := 0, chunkTotal := FragmentCount(codec.encode(t)))
  }

  /** The link once `t` is prepared and its first fragment queued. */
  function WithBatch(codec: Codec, l: Link, t: Snapshot, room: bool): Link {
    var s := Prepared(codec, l.session, t);
    l.(session := s, down := if room then l.down + [NextChunk(s)] else l.down)
  }

  function Enqueue(codec: Codec, db: Database, l: Link, t: Snapshot, sql: Sql, room: bool): Enqueued {
    var rows := Outbox.Prepare(db.outbox, l.session.epoch, t.revision, t.Ids());
    if sql.Lost? || rows.None? then Enqueued(db, l, false)
    else if sql.Unsure? then Enqueued(db.(outbox := rows.value), l, false)
    else Enqueued(db.(outbox := rows.value), WithBatch(codec, l, t, room), room)
  }

  ghost function Candidates(db: Database, after: int, requested: Option<set<UserId>>): set<UserId> {
    set u | u in Authorised(db) && u > after && (requested.Some? ==> u in requested.value)
  }

  ghost function PageUsers(db: Database, after: int, requested: Option<set<UserId>>): set<UserId> {
    Lowest(Candidates(db, after, requested), PAGE_LIMIT)
  }

  ghost function PageSnapshot(db: Database, s: Session, requested: Option<set<UserId>>): Snapshot {
    var after := if s.baselineActive then s.cursor else 0;
    var users := PageUsers(db, after, requested);
    var end := s.baselineActive && |Candidates(db, after, requested)| <= PAGE_LIMIT;
    Snapshot(db.revision + 1, !s.baselineActive, s.baselineActive, end,
             Restrict(Authorised(db), users), if requested.Some? then requested.value - users else {},
             end, if end then db.blocked else map[], {})
  }

  ghost function PushPage(codec: Codec, db: Database, l: Link, requested: Option<set<UserId>>, sql: Sql, room: bool): Enqueued {
    var s := l.session;
    var after := if s.baselineActive then s.cursor else 0;
    var snapshot := PageSnapshot(db, s, requested);
    Enqueue(codec, db.(revision := db.revision + 1),
            l.(session := s.(pendingCursor := Greatest(PageUsers(db, after, requested), after))), snapshot, sql, room)
  }

  /** The entries of the wanted list that the mirror lacks, and the addresses it should drop. */
  function ChangedBlocks(have: map<Ip, Block>, want: map<Ip, Block>): map<Ip, Block> {
    map ip | ip in want && Get(have, ip) != Some(want[ip]) :: want[ip]
  }

  function BlockedSnapshot(db: Database, s: Session): Snapshot {
    if s.legacyAdmission
    then Snapshot(db.revision + 1, true, false, false, map[], {}, true, db.blocked, {})
    else Snapshot(db.revision + 1, true, false, false, map[], {}, false,
                  ChangedBlocks(s.blocked, db.blocked), s.blocked.Keys - db.blocked.Keys)
  }

  ghost function PushBlocked(codec: Codec, db: Database, l: Link, sql: Sql, room: bool): Enqueued {
    var e := Enqueue(codec, db.(revision := db.revision + 1), l.(session := l.session.(needsBlocked := false)),
                     BlockedSnapshot(db, l.session), sql, room);
    if e.ok then e else e.(link := e.link.(session := e.link.session.(needsBlocked := true)))
  }

  function RequestReset(l: Link, renewed: Epoch, room: bool): Link {
    l.(session := l.session.(epoch := renewed, ready := false, needsFull := false),
       down := if room then l.down + [Welcome(renewed)] else l.down,
       open := room)
  }

  datatype PushKind = Nothing | NewEpoch | Blacklist | Page(requested: Option<set<UserId>>)

  /** Which of its branches the push worker takes. */
  ghost function PushChoice(db: Database, s: Session): PushKind {
    if s.pendingRevision > s.appliedRevision then Nothing
    else if s.needsFull && !s.ready then NewEpoch
    else if !s.ready then Nothing
    else if s.needsFull && !s.baselineActive then NewEpoch
    else if s.needsBlocked && !s.needsFull && !s.baselineActive then Blacklist
    else if !s.needsFull && !s.baselineActive then
      var users := Outbox.Pending(db.outbox, s.epoch);
      if users == {} then Nothing else Page(Some(users))
    else Page(None)
  }

  // ---- Controller: answering -------------------------------------------------------------

  /** `Pass` consumes the message; `Retry` keeps it; `Fail` ends the session untouched; `Late` ends it after the change. */
  datatype Verdict = Pass | Retry | Fail | Late

  datatype Handled = Handled(db: Database, link: Link, verdict: Verdict)

  function OnCleared(db: Database, l: Link, current: bool, epoch: Epoch, sql: Sql): Handled {
    var s := l.session;
    if epoch != s.epoch then Handled(db, l, Pass)
    else if !current then Handled(db, l, Fail)
    else if s.ready then Handled(db, l, Pass)
    else if sql.Lost? then Handled(db, l, Retry)
    else
      var db' := db.(outbox := Outbox.Reset(epoch));
      if sql.Unsure? then Handled(db', l, Retry)
      else Handled(db', l.(session := s.(ready := true, needsFull := false, baselineActive := true, cursor := 0,
                                         pendingRevision := 0, appliedRevision := 0, pending := None,
                                         blocked := map[])), Pass)
  }

  function OnChunkAck(db: Database, l: Link, current: bool, epoch: Epoch, revision: nat, sequence: nat, room: bool): Handled {
    var s := l.session;
    if current && epoch != s.epoch then Handled(db, l, Pass)
    else if epoch == s.epoch && revision <= s.appliedRevision then Handled(db, l, Pass)
    else if !current || epoch != s.epoch || s.pending.None? || revision != s.pendingRevision then Handled(db, l, Fail)
    else if sequence < s.chunkIndex then Handled(db, l, Pass)
    else if sequence != s.chunkIndex || s.chunkIndex >= s.chunkTotal then Handled(db, l, Fail)
    else
      var s' := s.(chunkIndex := s.chunkIndex + 1);
      if s'.chunkIndex < s'.chunkTotal
      then Handled(db, l.(session := s', down := if room then l.down + [NextChunk(s')] else l.down), if room then Pass else Late)
      else Handled(db, l.(session := s'), Pass)
  }

  function BlockedAfter(have: map<Ip, Block>, snapshot: Snapshot): map<Ip, Block> {
    ((if snapshot.replaceBlocked then map[] else have) + snapshot.blocked) - snapshot.removedBlocked
  }

  function SessionConfirmed(s: Session, snapshot: Snapshot): Session {
    var t := s.(appliedRevision := snapshot.revision, pending := None, payload := [],
                blocked := BlockedAfter(s.blocked, snapshot));
    if snapshot.baseline then t.(cursor := s.pendingCursor, baselineActive := !snapshot.baselineEnd) else t
  }

  function OnAck(db: Database, l: Link, current: bool, epoch: Epoch, revision: nat, sql: Sql, room: bool): Handled {
    var s := l.session;
    if !current then Handled(db, l, Fail)
    else if epoch != s.epoch then Handled(db, l, Pass)
    else if revision <= s.appliedRevision then Handled(db, l, Pass)
    else if s.pending.None? || s.pending.value.revision != revision then Handled(db, l, Fail)
    else if s.chunkIndex != s.chunkTotal then Handled(db, l, Fail)
    else
      var snapshot := s.pending.value;
      var rows := Outbox.Confirm(db.outbox, epoch, revision, snapshot.users.Keys, snapshot.removed,
                                 !snapshot.incremental && !snapshot.baseline);
      if sql.Lost? || rows.None? then Handled(db, l, Retry)
      else
        var db' := db.(outbox := rows.value);
        if sql.Unsure? then Handled(db', l, Retry)
        else
          var reply := Confirmed(epoch, revision, !snapshot.baseline || snapshot.baselineEnd);
          Handled(db', l.(session := SessionConfirmed(s, snapshot), down := if room then l.down + [reply] else l.down),
                  if room then Pass else Late)
  }

  // ---- Edge ------------------------------------------------------------------------------

  function Emptied(e: Edge): Edge {
    e.(cache := map[], blocked := map[], lastRevision := None, resetPending := true)
  }

  function Disconnected(e: Edge): Edge {
    e.(epoch := None, buffer := [], executing := None, queued := None, locallyApplied := 0, syncReady := false)
  }

  /** Receiving a message; `None` means the receive loop reports an error and stops. */
  function EdgeReceive(e: Edge, m: Down): Option<(Edge, seq<Up>)> {
    match m
    case Welcome(epoch) =>
      if e.queued.Some? then None
      else Some((e.(epoch := Some(epoch), syncReady := false, buffer := [], queued := Some(ResetJob(epoch))), []))
    case Chunk(epoch, revision, index, total, data) =>
      if e.epoch != Some(epoch) then None
      else if index == 0 && e.buffer != [] then None
      else
        var e1 := if index == 0
                  then e.(chunkRevision := revision, chunkTotal := total, chunkIndex := 0, syncReady := false) else e;
        if total < 1 || total != e1.chunkTotal || index != e1.chunkIndex || revision != e1.chunkRevision
           || data == [] || |data| > CHUNK_BYTES then None
        else
          var bytes := e1.buffer + data;
          var ack := ChunkAck(epoch, revision, index);
          if index + 1 != total then Some((e1.(buffer := bytes, chunkIndex := index + 1), [ack]))
          else if e1.queued.Some? then None
          else Some((e1.(buffer := [], chunkIndex := index + 1, queued := Some(ApplyJob(epoch, revision, bytes))), [ack]))
    case Confirmed(epoch, revision, complete) =>
      if e.epoch != Some(epoch) || revision != e.locallyApplied then None
      else Some((e.(syncReady := complete), []))
  }

  /** The checks a snapshot passes before the edge writes anything, primary keys included. */
  predicate Accepts(e: Edge, s: Snapshot) {
    && (s.baseline ==> e.resetPending)
    && !(s.baseline && s.incremental)
    && s.revision > 0
    && (s.baseline && e.lastRevision.Some? ==> s.revision > e.lastRevision.value)
    && (s.incremental ==> e.lastRevision.Some? && s.revision > e.lastRevision.value)
    && (s.baseline ==> s.users.Keys !! e.cache.Keys)
  }

  function CacheAfter(cache: map<UserId, Identity>, s: Snapshot): map<UserId, Identity> {
    if s.incremental then (cache - s.removed) + s.users
    else if s.baseline then cache + s.users
    else s.users
  }

  function Applied(e: Edge, s: Snapshot): Edge {
    var replace := s.replaceBlocked || (!s.incremental && (!s.baseline || s.baselineEnd));
    e.(cache := CacheAfter(e.cache, s),
       blocked := ((if replace then map[] else e.blocked) + s.blocked) - s.removedBlocked,
       lastRevision := Some(s.revision),
       resetPending := e.resetPending && (s.incremental || (s.baseline && !s.baselineEnd)))
  }

  /** The snapshot a job would commit, if the edge accepts it. */
  ghost function JobSnapshot(codec: Codec, e: Edge, job: Job): Option<Snapshot> {
    if job.ResetJob? then None
    else
      var s := codec.decode(job.payload);
      if s.Some? && s.value.revision == job.revision && Accepts(e, s.value) then s else None
  }

  // ---- The whole system ------------------------------------------------------------------

  /**
    What happened so far, for stating properties of whole runs: the snapshots prepared and
    committed, the confirmations, the blacklist as it was last read for a snapshot, and whether
    a change of it came when nobody was going to read it again.
   */
  datatype History = History(
    prepared: map<(Epoch, nat), Snapshot>, committed: map<(Epoch, nat), Snapshot>, acked: set<(Epoch, nat)>,
    read: map<Ip, Block>, lost: bool)

  /** The last page of the baseline, which carries the blacklist, is still to be read. */
  predicate EndPageToCome(s: Session) { s.baselineActive && !(s.pending.Some? && s.pending.value.baselineEnd) }

  /** The session is going to read the blacklist again. */
  predicate Rereads(s: Session) { !s.ready || s.needsFull || s.needsBlocked || EndPageToCome(s) }

  datatype System = System(codec: Codec, db: Database, links: map<nat, Link>, current: Option<nat>,
                           edgeLink: Option<nat>, edge: Edge, nextEpoch: Epoch, nextLink: nat, history: History)

  datatype Action =
    | Connect(legacyAdmission: bool)
    | EndSession
    | Push(sql: Sql, room: bool)
    | ScheduleFull
    | Receive(link: nat, room: bool, keep: bool)
    | Work(link: nat, sql: Sql, room: bool)
    | EdgeTakesMessage
    | EdgeTakesJob
    | EdgeFinishesJob(ok: bool)
    | EdgeFence
    | EdgeDetach(commits: bool, emptied: bool)
    | Mutate(user: UserId, account: Option<Identity>, granted: bool)
    | CreateUser(user: UserId, created: Identity)
    | SetBlocked(blocked: map<Ip, Block>, announced: bool)
    | Elsewhere(revisions: nat)

  function NewSession(epoch: Epoch, legacyAdmission: bool): Session {
    Session(epoch, false, false, false, legacyAdmission, false, 0, 0, 0, 0, None, [], 0, 0, map[])
  }

  ghost function DoConnect(c: System, legacyAdmission: bool): System {
    c.(links := c.links[c.nextLink := Link(NewSession(c.nextEpoch, legacyAdmission), [Welcome(c.nextEpoch)], [], [], true)],
       current := Some(c.nextLink), edgeLink := Some(c.nextLink), edge := Emptied(Disconnected(c.edge)),
       nextEpoch := c.nextEpoch + 1, nextLink := c.nextLink + 1, history := c.history.(lost := false))
  }

  /** A snapshot that says nothing about users is a blacklist push. */
  predicate ReadsBlacklist(t: Snapshot) { t.baselineEnd || t.Ids() == {} }

  /** The history after a push: the snapshot it made pending, and the blacklist if it read that. */
  function Recorded(h: History, blocked: map<Ip, Block>, before: Session, after: Session): History {
    if after.pending.Some? && after.pending != before.pending
    then h.(prepared := h.prepared[(after.epoch, after.pending.value.revision) := after.pending.value],
            read := if ReadsBlacklist(after.pending.value) then blocked else h.read)
    else h
  }

  ghost function DoPush(c: System, sql: Sql, room: bool): System {
    if c.current.None? || c.current.value !in c.links || !c.links[c.current.value].open then c
    else
      var id := c.current.value;
      var l := c.links[id];
      match PushChoice(c.db, l.session)
      case Nothing => c
      case NewEpoch =>
        c.(links := c.links[id := RequestReset(l, c.nextEpoch, room)], nextEpoch := c.nextEpoch + 1,
           current := if room then c.current else None)
      case Blacklist =>
        var e := PushBlocked(c.codec, c.db, l, sql, room);
        c.(db := e.db, links := c.links[id := e.link], history := Recorded(c.history, c.db.blocked, l.session, e.link.session))
      case Page(requested) =>
        var e := PushPage(c.codec, c.db, l, requested, sql, room);
        c.(db := e.db, links := c.links[id := e.link], history := Recorded(c.history, c.db.blocked, l.session, e.link.session))
  }

  /** Ends the session of link `id` at the controller; the edge may still read what was sent. */
  function Closed(c: System, id: nat): System
    requires id in c.links
  {
    c.(links := c.links[id := c.links[id].(open := false)], current := if c.current == Some(id) then None else c.current)
  }

  ghost function DoReceive(c: System, id: nat, room: bool, keep: bool): System {
    if id !in c.links || !c.links[id].open || c.links[id].up == [] then c
    else
      var l := c.links[id];
      var rest := l.(up := l.up[1..]);
      match l.up[0]
      case ChunkAck(epoch, revision, sequence) =>
        var r := OnChunkAck(c.db, l, c.current == Some(id), epoch, revision, sequence, room);
        if r.verdict.Pass? then c.(links := c.links[id := r.link.(up := l.up[1..])])
        else if r.verdict.Late? then Closed(c.(links := c.links[id := r.link.(up := l.up[1..])]), id)
        else Closed(c, id)
      case _ => c.(links := c.links[id := if keep then rest.(jobs := l.jobs + [l.up[0]]) else rest])
  }

  ghost function DoWork(c: System, id: nat, sql: Sql, room: bool): System {
    if id !in c.links || !c.links[id].open || c.links[id].jobs == [] then c
    else
      var l := c.links[id];
      var current := c.current == Some(id);
      match l.jobs[0]
      case ChunkAck(_, _, _) => c
      case Cleared(epoch) => Settled(c, id, OnCleared(c.db, l, current, epoch, sql), c.history)
      case Ack(epoch, revision) =>
        var r := OnAck(c.db, l, current, epoch, revision, sql, room);
        Settled(c, id, r, if r.link.session.appliedRevision != l.session.appliedRevision
                          then c.history.(acked := c.history.acked + {(epoch, revision)}) else c.history)
  }

  ghost function Settled(c: System, id: nat, r: Handled, h: History): System
    requires id in c.links && c.links[id].jobs != []
  {
    var popped := r.link.(jobs := c.links[id].jobs[1..]);
    match r.verdict
    case Pass => c.(db := r.db, links := c.links[id := popped], history := h)
    case Retry => c.(db := r.db)
    case Fail => Closed(c, id)
    case Late => Closed(c.(db := r.db, links := c.links[id := popped], history := h), id)
  }

  ghost function DoEdgeMessage(c: System): System {
    if c.edgeLink.None? || c.edgeLink.value !in c.links || c.links[c.edgeLink.value].down == [] then c
    else
      var id := c.edgeLink.value;
      var l := c.links[id];
      match EdgeReceive(c.edge, l.down[0])
      case None => c
      case Some((e, replies)) =>
        c.(edge := e, links := c.links[id := l.(down := l.down[1..], up := l.up + replies)])
  }

  ghost function DoEdgeFinish(c: System, ok: bool): System {
    if c.edgeLink.None? || c.edgeLink.value !in c.links || c.edge.executing.None? then c
    else
      var id := c.edgeLink.value;
      var l := c.links[id];
      match c.edge.executing.value
      case ResetJob(epoch) =>
        if !ok then c.(edge := c.edge.(resetPending := true))
        else c.(edge := Emptied(c.edge).(executing := None, locallyApplied := 0),
                links := c.links[id := l.(up := l.up + [Cleared(epoch)])])
      case ApplyJob(epoch, revision, payload) =>
        var s := JobSnapshot(c.codec, c.edge, c.edge.executing.value);
        if !ok || s.None? then c
        else c.(edge := Applied(c.edge, s.value).(executing := None, locallyApplied := revision),
                links := c.links[id := l.(up := l.up + [Ack(epoch, revision)])],
                history := c.history.(committed := c.history.committed[(epoch, revision) := s.value]))
  }

  /** The connection is lost; the apply worker is joined, with or without committing, before the cache is discarded. */
  ghost function DoEdgeDetach(c: System, commits: bool, emptied: bool): System {
    if c.edgeLink.None? then c
    else
      var job := if commits then c.edge.executing else None;
      var s := if job.Some? then JobSnapshot(c.codec, c.edge, job.value) else None;
      var e := if s.Some? then Applied(c.edge, s.value) else c.edge;
      var h := if s.Some? then c.history.(committed := c.history.committed[(job.value.epoch, job.value.revision) := s.value])
               else c.history;
      c.(edgeLink := None, history := h,
         edge := if emptied then Emptied(Disconnected(e)) else Disconnected(e).(resetPending := true))
  }

  /** Asks the registered session for a full refresh or for the current blacklist. */
  function Flagged(c: System, full: bool): System {
    if c.current.None? || c.current.value !in c.links then c
    else
      var l := c.links[c.current.value];
      var s := if full then l.session.(needsFull := true) else l.session.(needsBlocked := true);
      c.(links := c.links[c.current.value := l.(session := s)], history := c.history.(lost := false))
  }

  /** Nobody hears of the change, and nobody is going to look. */
  predicate Loses(c: System, blocked: map<Ip, Block>) {
    && c.current.Some? && c.current.value in c.links
    && !Rereads(c.links[c.current.value].session) && blocked != c.history.read
  }

  /** A business change and the outbox entry it causes commit together. */
  function Mutated(db: Database, user: UserId, account: Option<Identity>, granted: bool): Database {
    var accounts := if account.Some? then db.accounts[user := account.value] else db.accounts - {user};
    var access := if granted then db.access + {user} else db.access - {user};
    db.(accounts := accounts, access := access, revision := db.revision + 1,
        outbox := Outbox.MarkDirty(db.outbox, user, granted, db.revision + 1))
  }

  ghost function Do(c: System, a: Action): System {
    match a
    case Connect(legacyAdmission) => if c.edgeLink.Some? then c else DoConnect(c, legacyAdmission)
    case EndSession =>
      if c.current.Some? && c.current.value in c.links then Closed(c, c.current.value) else c
    case Push(sql, room) => DoPush(c, sql, room)
    case ScheduleFull => Flagged(c, true)
    case Receive(link, room, keep) => DoReceive(c, link, room, keep)
    case Work(link, sql, room) => DoWork(c, link, sql, room)
    case EdgeTakesMessage => DoEdgeMessage(c)
    case EdgeTakesJob =>
      if c.edgeLink.None? || c.edge.executing.Some? then c
      else c.(edge := c.edge.(executing := c.edge.queued, queued := None))
    case EdgeFinishesJob(ok) => DoEdgeFinish(c, ok)
    case EdgeFence => c.(edge := c.edge.(syncReady := false))
    case EdgeDetach(commits, emptied) => DoEdgeDetach(c, commits, emptied)
    case Mutate(user, account, granted) =>
      if user in c.db.accounts && (granted ==> account.Some?) then c.(db := Mutated(c.db, user, account, granted)) else c
    case CreateUser(user, created) =>
      if user > 0 && user !in c.db.accounts then c.(db := c.db.(accounts := c.db.accounts[user := created])) else c
    case SetBlocked(blocked, announced) =>
      var d := c.(db := c.db.(blocked := blocked));
      if announced then Flagged(d, false)
      else d.(history := d.history.(lost := Loses(c, blocked)))
    case Elsewhere(revisions) => c.(db := c.db.(revision := c.db.revision + revisions))
  }

  ghost function Run(c: System, actions: seq<Action>): System
    decreases |actions|
  {
    if actions == [] then c else Do(Run(c, actions[..|actions| - 1]), actions[|actions| - 1])
  }

  /** Any database of the node, a controller without sessions and a freshly booted edge. */
  ghost predicate Initial(c: System) {
    && Lawful(c.codec)
    && c.links == map[] && c.current.None? && c.edgeLink.None?
    && c.edge == Emptied(Disconnected(c.edge))
    && c.history == History(map[], map[], {}, map[], false)
    && (forall u :: u in c.db.accounts ==> u > 0)
    && c.db.access <= c.db.accounts.Keys
    && Outbox.WellFormed(c.db.outbox, c.db.revision)
    && (forall u :: u in c.db.outbox.rows ==> c.db.outbox.rows[u].applied == 0 && !c.db.outbox.rows[u].cached)
    && (c.db.outbox.recorded.Some? ==> c.db.outbox.recorded.value < c.nextEpoch)
  }
}
