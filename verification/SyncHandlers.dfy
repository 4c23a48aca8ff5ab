/**
  The handlers of both ends as the program runs them, fields updated in place, each proved
  against the step of the protocol it performs.
 */
module SyncHandlers {
  import opened Base
  import opened Identities
  import opened SyncProtocol
  import Outbox
  import SyncPaging

  /** The controller's session of one stream and its send queue. */
  class NodeSession {
    const node: Outbox.NodeId
    const legacyAdmission: bool
    var epoch: Epoch
    var ready: bool
    var needsFull: bool
    var needsBlocked: bool
    var baselineActive: bool
    var cursor: int
    var pendingCursor: int
    var pendingRevision: nat
    var appliedRevision: nat
    var pending: Option<Snapshot>
    var payload: seq<byte>
    var chunkIndex: nat
    var chunkTotal: nat
    var blocked: map<Ip, Block>
    var send: seq<Down>

    function Value(): Session
      reads this
    {
      Session(epoch, ready, needsFull, needsBlocked, legacyAdmission, baselineActive, cursor, pendingCursor,
              pendingRevision, appliedRevision, pending, payload, chunkIndex, chunkTotal, blocked)
    }

    /** The session is the controller's part of the protocol's link `l`. */
    ghost predicate Is(l: Link)
      reads this
    {
      l.session == Value() && l.down == send
    }

    method RequestCacheReset(renewed: Epoch, room: bool, ghost l: Link) returns (ok: bool)
      requires Is(l)
      modifies this
      ensures ok == room && Is(RequestReset(l, renewed, room)) && RequestReset(l, renewed, room).open == ok
    {
      epoch := renewed;
      ready := false;
      needsFull := false;
      if room { send := send + [Welcome(renewed)]; }
      return room;
    }

    method SendIdentityChunk(room: bool) returns (ok: bool)
      modifies this`send
      ensures ok == room && send == if room then old(send) + [NextChunk(Value())] else old(send)
    {
      var start := if chunkIndex * CHUNK_BYTES < |payload| then chunkIndex * CHUNK_BYTES else |payload|;
      var end := chunkIndex * CHUNK_BYTES + CHUNK_BYTES;
      if end > |payload| { end := |payload|; }
      if room { send := send + [Chunk(epoch, pendingRevision, chunkIndex, chunkTotal, payload[start..end])]; }
      return room;
    }

    method AcceptCacheCleared(store: Outbox.Store, current: bool, from: Epoch, sql: Sql, ghost db: Database, ghost l: Link)
      returns (verdict: Verdict)
      requires Is(l) && db.outbox == store.Node(node)
      modifies this, store`rows, store`sessions
      ensures var r := OnCleared(db, l, current, from, sql);
              Is(r.link) && r.db.outbox == store.Node(node) && r.verdict == verdict
      ensures forall m :: m != node ==> store.Node(m) == old(store.Node(m))
    {
      hide Outbox.Reset;
      if from != epoch { return Pass; }
      if !current { return Fail; }
      if ready { return Pass; }
      if sql.Lost? { return Retry; }
      store.ResetNodeIdentityCache(node, from);
      if sql.Unsure? { return Retry; }
      StartBaseline();
      return Pass;
    }

    method StartBaseline()
      modifies `ready, `needsFull, `baselineActive, `cursor, `pendingRevision, `appliedRevision, `pending, `blocked
      ensures Value() == old(Value()).(ready := true, needsFull := false, baselineActive := true, cursor := 0,
                                       pendingRevision := 0, appliedRevision := 0, pending := None, blocked := map[])
    {
      ready := true;
      needsFull := false;
      baselineActive := true;
      cursor := 0;
      pendingRevision := 0;
      appliedRevision := 0;
      pending := None;
      blocked := map[];
    }

    method AcceptIdentityProgress(current: bool, from: Epoch, revision: nat, sequence: nat, room: bool,
                                  ghost db: Database, ghost l: Link)
      returns (verdict: Verdict)
      requires Is(l)
      modifies this
      ensures var r := OnChunkAck(db, l, current, from, revision, sequence, room);
              Is(r.link) && r.db == db && r.verdict == verdict
    {
      if current && from != epoch { return Pass; }
      if from == epoch && revision <= appliedRevision { return Pass; }
      if !current || from != epoch || pending.None? || revision != pendingRevision { return Fail; }
      if sequence < chunkIndex { return Pass; }
      if sequence != chunkIndex || chunkIndex >= chunkTotal { return Fail; }
      chunkIndex := chunkIndex + 1;
      if chunkIndex < chunkTotal {
        var sent := SendIdentityChunk(room);
        return if sent then Pass else Late;
      }
      return Pass;
    }

    method EnqueueIdentity(store: Outbox.Store, codec: Codec, t: Snapshot, ids: seq<UserId>, sql: Sql, room: bool,
                           ghost db: Database, ghost l: Link)
      returns (ok: bool)
      requires Is(l) && db.outbox == store.Node(node) && Elements(ids) == t.Ids()
      modifies this, store`rows
      ensures var r := Enqueue(codec, db, l, t, sql, room);
              Is(r.link) && r.db.outbox == store.Node(node) && r.ok == ok
      ensures forall m :: m != node ==> store.Node(m) == old(store.Node(m))
    {
      hide Outbox.RaiseAll, Prepared, NextChunk;
      if sql.Lost? { return false; }
      var prepared := store.PrepareNodeIdentityCache(node, epoch, t.revision, ids);
      if !prepared || sql.Unsure? { return false; }
      StartBatch(codec, t);
      ok := SendIdentityChunk(room);
    }

    method StartBatch(codec: Codec, t: Snapshot)
      modifies `pendingRevision, `pending, `needsFull, `payload, `chunkIndex, `chunkTotal
      ensures Value() == Prepared(codec, old(Value()), t)
    {
      pendingRevision := t.revision;
      pending := Some(t);
      if !t.incremental && !t.baseline { needsFull := false; }
      payload := codec.encode(t);
      chunkIndex := 0;
      chunkTotal := (|payload| + CHUNK_BYTES - 1) / CHUNK_BYTES;
    }

    method ConfirmIdentity(store: Outbox.Store, current: bool, from: Epoch, revision: nat, sql: Sql, room: bool,
                           ghost db: Database, ghost l: Link)
      returns (verdict: Verdict)
      requires Is(l) && db.outbox == store.Node(node)
      modifies this, store`rows
      ensures var r := OnAck(db, l, current, from, revision, sql, room);
              Is(r.link) && r.db.outbox == store.Node(node) && r.verdict == verdict
      ensures forall m :: m != node ==> store.Node(m) == old(store.Node(m))
    {
      hide Outbox.ConfirmRows, SessionConfirmed;
      if !current { return Fail; }
      if from != epoch { return Pass; }
      if revision <= appliedRevision { return Pass; }
      if pending.None? || pending.value.revision != revision { return Fail; }
      if chunkIndex != chunkTotal { return Fail; }
      if sql.Lost? { return Retry; }
      var t := pending.value;
      var users := Listed(t.users.Keys);
      var removed := Listed(t.removed);
      var stored := store.ConfirmNodeIdentityCache(node, epoch, revision, users, removed, !t.incremental && !t.baseline);
      if !stored || sql.Unsure? { return Retry; }
      Advance(t);
      if room { send := send + [Confirmed(epoch, revision, !t.baseline || t.baselineEnd)]; }
      return if room then Pass else Late;
    }

    /** What the session remembers of a snapshot whose confirmation is stored. */
    method Advance(t: Snapshot)
      modifies `appliedRevision, `pending, `payload, `blocked, `cursor, `baselineActive
      ensures Value() == SessionConfirmed(old(Value()), t)
    {
      appliedRevision := t.revision;
      pending := None;
      payload := [];
      if t.replaceBlocked { blocked := map[]; }
      blocked := blocked + t.blocked;
      blocked := blocked - t.removedBlocked;
      if t.baseline {
        cursor := pendingCursor;
        baselineActive := !t.baselineEnd;
      }
    }

    /** The blacklist difference, built by one loop over the wanted rows and one over the mirror. */
    method BlockedIPMessage(store: Outbox.Store, blocks: map<Ip, Block>, ghost db: Database) returns (t: Snapshot)
      requires db.blocked == blocks && db.revision == store.revision
      modifies this`needsBlocked, store`revision
      ensures !needsBlocked && store.revision == db.revision + 1 && t == BlockedSnapshot(db, old(Value()))
    {
      var revision := store.NextIdentityRevision();
      var changed: map<Ip, Block> := map[];
      var left := blocks.Keys;
      while left != {}
        invariant left <= blocks.Keys
        invariant changed == map ip | ip in blocks.Keys - left && Get(blocked, ip) != Some(blocks[ip]) :: blocks[ip]
        decreases left
      {
        var ip :| ip in left;
        left := left - {ip};
        if ip !in blocked || blocked[ip] != blocks[ip] { changed := changed[ip := blocks[ip]]; }
      }
      var gone: set<Ip> := {};
      left := blocked.Keys;
      while left != {}
        invariant left <= blocked.Keys
        invariant gone == (blocked.Keys - left) - blocks.Keys
        decreases left
      {
        var ip :| ip in left;
        left := left - {ip};
        if ip !in blocks { gone := gone + {ip}; }
      }
      assert changed == ChangedBlocks(blocked, blocks);
      t := Snapshot(revision, true, false, false, map[], {}, false, changed, gone);
      if legacyAdmission { t := t.(replaceBlocked := true, blocked := blocks, removedBlocked := {}); }
      needsBlocked := false;
    }

    /** Where the page starts: at the cursor of a baseline, else at the first user. */
    function After(): int
      reads this
    {
      if baselineActive then cursor else 0
    }

    /** `rows` answers the page query, `records` and `blocks` are what the other queries find. */
    method IdentityPageMessage(store: Outbox.Store, rows: seq<UserId>, users: Option<seq<UserId>>, records: map<UserId, Identity>,
                               blocks: map<Ip, Block>, ghost db: Database) returns (t: Snapshot)
      requires records == Authorised(db) && blocks == db.blocked && db.revision == store.revision
      requires users.Some? ==> !baselineActive && |users.value| <= PAGE_LIMIT
      requires Answers(rows, Candidates(db, After(), Wanted(users)))
      modifies `pendingCursor, store`revision
      ensures store.revision == db.revision + 1 && t == PageSnapshot(db, old(Value()), Wanted(users))
      ensures pendingCursor == Greatest(PageUsers(db, After(), Wanted(users)), After())
    {
      ghost var candidates := Candidates(db, After(), Wanted(users));
      assert users.Some? ==> candidates <= Elements(users.value);
      hide Candidates, Lowest, Greatest, Restrict, Authorised, Elements;
      var read := SyncPaging.ReadNodeIdentityPage(candidates, rows, After(), users, PAGE_LIMIT);
      var page := read.value;
      var revision := store.NextIdentityRevision();
      var end := baselineActive && page.end;
      t := Snapshot(revision, !baselineActive, baselineActive, end, Restrict(records, Elements(page.users)), Elements(page.removed),
                    end, if end then blocks else map[], {});
      pendingCursor := page.lastId;
    }

    /**
      One turn of the push worker for this session. `dirty` answers the query for pending users
      and `rows` the page query, both as the branch that is taken puts them.
     */
    method PushNodeIdentity(store: Outbox.Store, codec: Codec, renewed: Epoch, dirty: seq<UserId>, rows: seq<UserId>,
                            records: map<UserId, Identity>, blocks: map<Ip, Block>, sql: Sql, room: bool,
                            ghost db: Database, ghost l: Link)
      requires Is(l) && db.outbox == store.Node(node) && db.revision == store.revision
      requires records == Authorised(db) && blocks == db.blocked
      requires Elements(dirty) == Outbox.Pending(db.outbox, epoch) && |dirty| <= PAGE_LIMIT
      requires PushChoice(db, l.session).Page? ==> Answers(rows, Candidates(db, After(), PushChoice(db, l.session).requested))
      modifies this, store`rows, store`revision
      ensures var (db', l') := Pushed(codec, db, l, renewed, sql, room);
              Is(l') && store.Node(node) == db'.outbox && store.revision == db'.revision
      ensures forall m :: m != node ==> store.Node(m) == old(store.Node(m))
    {
      hide PushBlocked, PushPage, Candidates, Outbox.Pending;
      if pendingRevision > appliedRevision { return; }
      if needsFull && !ready {
        var sent := RequestCacheReset(renewed, room, l);
        return;
      }
      if !ready { return; }
      if needsFull && !baselineActive {
        var sent := RequestCacheReset(renewed, room, l);
        return;
      }
      if needsBlocked && !needsFull && !baselineActive {
        PushBlacklist(store, codec, blocks, sql, room, db, l);
        return;
      }
      var users: Option<seq<UserId>> := None;
      if !needsFull && !baselineActive {
        if |dirty| == 0 {
          assert Elements(dirty) == {};
          return;
        }
        assert dirty[0] in Elements(dirty);
        users := Some(dirty);
      }
      PushUsers(store, codec, rows, users, records, blocks, sql, room, db, l);
    }

    method PushBlacklist(store: Outbox.Store, codec: Codec, blocks: map<Ip, Block>, sql: Sql, room: bool, ghost db: Database, ghost l: Link)
      requires Is(l) && db.outbox == store.Node(node) && db.revision == store.revision && blocks == db.blocked
      modifies this, store`rows, store`revision
      ensures var p := PushBlocked(codec, db, l, sql, room);
              Is(p.link) && store.Node(node) == p.db.outbox && store.revision == p.db.revision
      ensures forall m :: m != node ==> store.Node(m) == old(store.Node(m))
    {
      hide Enqueue, BlockedSnapshot;
      var t := BlockedIPMessage(store, blocks, db);
      var ids := IdsOf(t);
      ghost var l1 := l.(session := l.session.(needsBlocked := false));
      ghost var db1 := db.(revision := db.revision + 1);
      var ok := EnqueueIdentity(store, codec, t, ids, sql, room, db1, l1);
      EnqueueKeepsRevision(codec, db1, l1, t, sql, room);
      if !ok { needsBlocked := true; }
    }

    method PushUsers(store: Outbox.Store, codec: Codec, rows: seq<UserId>, users: Option<seq<UserId>>, records: map<UserId, Identity>,
                     blocks: map<Ip, Block>, sql: Sql, room: bool, ghost db: Database, ghost l: Link)
      requires Is(l) && db.outbox == store.Node(node) && db.revision == store.revision
      requires records == Authorised(db) && blocks == db.blocked
      requires users.Some? ==> !baselineActive && |users.value| <= PAGE_LIMIT
      requires Answers(rows, Candidates(db, After(), Wanted(users)))
      modifies this, store`rows, store`revision
      ensures var p := PushPage(codec, db, l, Wanted(users), sql, room);
              Is(p.link) && store.Node(node) == p.db.outbox && store.revision == p.db.revision
      ensures forall m :: m != node ==> store.Node(m) == old(store.Node(m))
    {
      hide Enqueue, PageSnapshot, PageUsers, Candidates;
      ghost var after := After();
      var t := IdentityPageMessage(store, rows, users, records, blocks, db);
      var ids := IdsOf(t);
      ghost var l1 := l.(session := l.session.(pendingCursor := Greatest(PageUsers(db, after, Wanted(users)), after)));
      ghost var db1 := db.(revision := db.revision + 1);
      var ok := EnqueueIdentity(store, codec, t, ids, sql, room, db1, l1);
      EnqueueKeepsRevision(codec, db1, l1, t, sql, room);
    }
  }

  lemma EnqueueKeepsRevision(codec: Codec, db: Database, l: Link, t: Snapshot, sql: Sql, room: bool)
    ensures Enqueue(codec, db, l, t, sql, room).db.revision == db.revision
  {
  }

  function Wanted(users: Option<seq<UserId>>): Option<set<UserId>> {
    if users.Some? then Some(Elements(users.value)) else None
  }

  /** What `SELECT .. ORDER BY id LIMIT 65` returns. */
  ghost predicate Answers(rows: seq<UserId>, candidates: set<UserId>) {
    SyncPaging.Ascending(rows) && Elements(rows) == Lowest(candidates, PAGE_LIMIT + 1)
  }

  /** The protocol's push, branch by branch. */
  ghost function Pushed(codec: Codec, db: Database, l: Link, renewed: Epoch, sql: Sql, room: bool): (Database, Link) {
    match PushChoice(db, l.session)
    case Nothing => (db, l)
    case NewEpoch => (db, RequestReset(l, renewed, room))
    case Blacklist => var p := PushBlocked(codec, db, l, sql, room); (p.db, p.link)
    case Page(requested) => var p := PushPage(codec, db, l, requested, sql, room); (p.db, p.link)
  }

  /** The removed users and then the users that are sent. */
  method IdsOf(t: Snapshot) returns (ids: seq<UserId>)
    ensures Elements(ids) == t.Ids()
  {
    var removed := Listed(t.removed);
    var users := Listed(t.users.Keys);
    ids := removed + users;
  }

  /** The ids of a list of rows, in the order they are visited. */
  method Listed(ids: set<UserId>) returns (s: seq<UserId>)
    ensures Elements(s) == ids
  {
    s := [];
    var left := ids;
    while left != {}
      invariant left <= ids && Elements(s) == ids - left
      decreases left
    {
      ghost var witnessed := Pick(left);
      var u :| u in left;
      assert Elements(s + [u]) == Elements(s) + {u};
      s := s + [u];
      left := left - {u};
    }
  }

  /** The edge's connection: what its receive loop and its apply worker share. */
  class EdgeConnection {
    var epoch: Option<Epoch>
    var buffer: seq<byte>
    var chunkRevision: nat
    var chunkIndex: nat
    var chunkTotal: nat
    var queued: Option<Job>
    var locallyApplied: nat
    var syncReady: bool
    var outgoing: seq<Up>

    /** The connection is the volatile part of the protocol's edge `e`. */
    ghost predicate Is(e: Edge)
      reads this
    {
      && e.epoch == epoch && e.buffer == buffer && e.chunkRevision == chunkRevision && e.chunkIndex == chunkIndex
      && e.chunkTotal == chunkTotal && e.queued == queued && e.locallyApplied == locallyApplied && e.syncReady == syncReady
    }

    method QueueApply(job: Job) returns (ok: bool)
      modifies this`queued
      ensures ok == old(queued).None? && queued == if ok then Some(job) else old(queued)
    {
      if queued.Some? { return false; }
      queued := Some(job);
      return true;
    }

    /** One turn of the receive loop; `ok` is false when it reports an error and stops. */
    method Receive(m: Down, ghost e: Edge) returns (ok: bool)
      requires Is(e)
      modifies this
      ensures ok <==> EdgeReceive(e, m).Some?
      ensures ok ==> Is(EdgeReceive(e, m).value.0) && outgoing == old(outgoing) + EdgeReceive(e, m).value.1
      ensures !ok && old(!syncReady) ==> !syncReady
    {
      match m
      case Welcome(from) =>
        epoch := Some(from);
        syncReady := false;
        buffer := [];
        ok := QueueApply(ResetJob(from));
        assert outgoing + [] == outgoing;
      case Chunk(from, revision, index, total, data) =>
        if epoch != Some(from) { return false; }
        if index == 0 {
          if |buffer| > 0 { return false; }
          chunkRevision, chunkTotal, chunkIndex := revision, total, 0;
          syncReady := false;
        }
        if total < 1 || total != chunkTotal || index != chunkIndex || revision != chunkRevision
           || |data| == 0 || |data| > CHUNK_BYTES {
          return false;
        }
        buffer := buffer + data;
        outgoing := outgoing + [ChunkAck(from, revision, chunkIndex)];
        chunkIndex := chunkIndex + 1;
        ok := true;
        if chunkIndex == chunkTotal {
          var bytes := buffer;
          buffer := [];
          ok := QueueApply(ApplyJob(from, revision, bytes));
        }
      case Confirmed(from, revision, complete) =>
        if epoch != Some(from) || revision != locallyApplied { return false; }
        syncReady := complete;
        ok := true;
        assert outgoing + [] == outgoing;
    }
  }
}
