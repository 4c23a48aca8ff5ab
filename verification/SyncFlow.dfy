/** Every step keeps the shape of the traffic between a session and its edge. */
module SyncFlow {
  import opened Base
  import opened Identities
  import opened SyncProtocol
  import opened SyncInvariant

  // ---- Fragments -------------------------------------------------------------------------

  /** Fragments are non-empty and in bounds, the prefix grows by exactly one of them, and the last completes it. */
  lemma FragmentExtends(payload: seq<byte>, k: nat)
    requires k < FragmentCount(payload)
    ensures 0 < |Fragment(payload, k)| <= CHUNK_BYTES
    ensures payload[..FragmentEnd(payload, k)] + Fragment(payload, k) == payload[..FragmentEnd(payload, k + 1)]
    ensures k + 1 == FragmentCount(payload) ==> payload[..FragmentEnd(payload, k + 1)] == payload
  {
    assert k * CHUNK_BYTES < |payload|;
    assert k + 1 == FragmentCount(payload) ==> |payload| <= (k + 1) * CHUNK_BYTES;
  }

  // ---- Controller steps ------------------------------------------------------------------

  /** Sessions that differ only in what the push worker should do next. */
  ghost predicate SameTraffic(s: Session, s': Session) {
    s' == s.(needsFull := s'.needsFull, needsBlocked := s'.needsBlocked,
             pendingCursor := if s.pending.Some? then s.pendingCursor else s'.pendingCursor)
  }

  lemma FlowIgnoresFlags(l: Link, l': Link, e: Edge)
    requires SameTraffic(l.session, l'.session) && l' == l.(session := l'.session, open := l'.open)
    requires FlowOk(l, e)
    ensures FlowOk(l', e)
  {
    if !l.session.ready {
      forall i | 0 <= i < |l'.down| ensures WelcomeOk(l'.session, l'.down, i) { assert WelcomeOk(l.session, l.down, i); }
    }
  }

  lemma FlowAfterReset(codec: Codec, l: Link, e: Edge, renewed: Epoch, room: bool)
    requires SessionOk(codec, l.session) && l.session.pending.None? && l.session.epoch < renewed && FlowOk(l, e)
    ensures FlowOk(RequestReset(l, renewed, room), e)
  {
    var l' := RequestReset(l, renewed, room);
    forall i | 0 <= i < |l'.down| ensures WelcomeOk(l'.session, l'.down, i) {
      if i < |l.down| {
        assert l'.down[i] == l.down[i];
        assert !l.session.ready ==> WelcomeOk(l.session, l.down, i);
      }
    }
  }

  lemma FlowAfterEnqueue(codec: Codec, l: Link, e: Edge, t: Snapshot, room: bool)
    requires Lawful(codec) && SessionOk(codec, l.session) && l.session.ready && l.session.pending.None? && FlowOk(l, e)
    requires l.session.pendingRevision < t.revision && SnapshotOk(l.session, t)
    requires e.lastRevision != Some(t.revision)
    ensures FlowOk(WithBatch(codec, l, t, room), e)
  {
    assert codec.encode(t) != [];
  }

  lemma FlowAfterCleared(codec: Codec, db: Database, l: Link, e: Edge, current: bool, epoch: Epoch, sql: Sql)
    requires SessionOk(codec, l.session) && FlowOk(l, e)
    requires l.jobs != [] && l.jobs[0] == Cleared(epoch)
    ensures var r := OnCleared(db, l, current, epoch, sql);
            && r.verdict != Late
            && (r.verdict == Pass ==> FlowOk(r.link.(jobs := l.jobs[1..]), e))
            && (r.verdict != Pass ==> r.link == l)
  {
    var all := l.jobs + l.up;
    assert all[0] == Cleared(epoch);
    assert !l.session.ready;
    var rest := l.jobs[1..] + l.up;
    assert rest == all[1..];
    if epoch == l.session.epoch {
      assert |all| == 1;
      assert l.jobs[1..] == [] && l.up == [];
    } else {
      forall i | 0 <= i < |rest| && rest[i] == Cleared(l.session.epoch) ensures i == |rest| - 1 {
        assert all[i + 1] == Cleared(l.session.epoch);
      }
    }
  }

  lemma FlowAfterChunkAck(codec: Codec, db: Database, l: Link, e: Edge, current: bool, epoch: Epoch, revision: nat, sequence: nat, room: bool)
    requires Lawful(codec) && SessionOk(codec, l.session) && FlowOk(l, e)
    requires l.up != [] && l.up[0] == ChunkAck(epoch, revision, sequence)
    ensures var r := OnChunkAck(db, l, current, epoch, revision, sequence, room);
            && r.verdict != Retry && r.db == db
            && (r.verdict == Pass || r.verdict == Late ==> FlowOk(r.link.(up := l.up[1..]), e))
            && (r.verdict == Fail ==> r.link == l)
  {
    assert l.up[0] in l.jobs + l.up;
    assert l.session.ready && l.session.pending.Some?;
    assert l.up[1..] == [] || l.up[1..] == [Ack(l.session.epoch, l.session.pendingRevision)];
  }

  lemma FlowAfterAck(codec: Codec, db: Database, l: Link, e: Edge, current: bool, epoch: Epoch, revision: nat, sql: Sql, room: bool)
    requires SessionOk(codec, l.session) && FlowOk(l, e)
    requires l.jobs != [] && l.jobs[0] == Ack(epoch, revision)
    ensures Acknowledged(l, e) && l.session.pending.Some? && l.session.ready
    ensures epoch == l.session.epoch && revision == l.session.pendingRevision
    ensures var r := OnAck(db, l, current, epoch, revision, sql, room);
            && (r.verdict == Pass || r.verdict == Late ==> FlowOk(r.link.(jobs := l.jobs[1..]), e))
            && (r.verdict == Fail || r.verdict == Retry ==> r.link == l)
  {
    assert l.jobs[0] in l.jobs + l.up;
  }

  lemma FlowAfterReceive(l: Link, e: Edge, keep: bool)
    requires FlowOk(l, e) && l.up != [] && !l.up[0].ChunkAck?
    ensures FlowOk(l.(up := l.up[1..], jobs := if keep then l.jobs + [l.up[0]] else l.jobs), e)
  {
    var l' := l.(up := l.up[1..], jobs := if keep then l.jobs + [l.up[0]] else l.jobs);
    if !l.session.ready {
      var all, all' := l.jobs + l.up, l'.jobs + l'.up;
      if keep {
        assert all' == all;
      } else {
        assert forall m :: m in all' ==> m in all;
        forall i | 0 <= i < |all'| && all'[i] == Cleared(l.session.epoch)
          ensures i == |all'| - 1 && l.down == [] && NoJobs(e) && IsEmptied(e) && e.epoch == Some(l.session.epoch)
        {
          var j := if i < |l.jobs| then i else i + 1;
          assert all[j] == all'[i];
        }
      }
    }
  }

  // ---- Edge steps ------------------------------------------------------------------------

  lemma FlowAfterTake(l: Link, e: Edge)
    requires FlowOk(l, e) && e.executing.None?
    ensures FlowOk(l, e.(executing := e.queued, queued := None))
  {
  }

  lemma FlowAfterWelcome(l: Link, e: Edge)
    requires FlowOk(l, e) && l.down != [] && l.down[0].Welcome? && EdgeReceive(e, l.down[0]).Some?
    ensures FlowOk(l.(down := l.down[1..]), EdgeReceive(e, l.down[0]).value.0)
  {
    var l' := l.(down := l.down[1..]);
    assert WelcomeOk(l.session, l.down, 0);
    forall i | 0 <= i < |l'.down| ensures WelcomeOk(l'.session, l'.down, i) && l'.down[i].Welcome? {
      assert WelcomeOk(l.session, l.down, i + 1);
    }
    var all := l.jobs + l.up;
    forall i | 0 <= i < |all| && all[i] == Cleared(l.session.epoch) ensures false {}
  }

  lemma FlowAfterConfirmed(l: Link, e: Edge)
    requires FlowOk(l, e) && l.down != [] && l.down[0].Confirmed?
    ensures EdgeReceive(e, l.down[0]).Some?
    ensures FlowOk(l.(down := l.down[1..]), EdgeReceive(e, l.down[0]).value.0)
  {
    var l' := l.(down := l.down[1..]);
    if !l.session.ready {
      assert WelcomeOk(l.session, l.down, 0);
      forall i | 0 <= i < |l'.down| ensures WelcomeOk(l'.session, l'.down, i) && l'.down[i].Welcome? {
        assert WelcomeOk(l.session, l.down, i + 1);
      }
    }
  }

  lemma FlowAfterChunk(codec: Codec, l: Link, e: Edge)
    requires Lawful(codec) && SessionOk(codec, l.session) && FlowOk(l, e) && l.down != [] && l.down[0].Chunk?
    ensures EdgeReceive(e, l.down[0]).Some?
    ensures var (e', replies) := EdgeReceive(e, l.down[0]).value;
            FlowOk(l.(down := l.down[1..], up := l.up + replies), e')
  {
    var s := l.session;
    assert !s.ready ==> WelcomeOk(s, l.down, 0);
    assert l.down == [NextChunk(s)] && Sending(l, e);
    FragmentExtends(s.payload, s.chunkIndex);
  }

  lemma FlowAfterFinish(codec: Codec, l: Link, e: Edge)
    requires Lawful(codec) && SessionOk(codec, l.session) && FlowOk(l, e) && e.executing.Some? && e.executing.value.ApplyJob?
    ensures Working(l, e) && l.session.pending.Some? && l.session.ready
    ensures e.executing.value == ApplyJob(l.session.epoch, l.session.pendingRevision, l.session.payload)
    ensures JobSnapshot(codec, e, e.executing.value) == l.session.pending
    ensures FlowOk(l.(up := l.up + [Ack(l.session.epoch, l.session.pendingRevision)]),
                   Applied(e, l.session.pending.value).(executing := None, locallyApplied := l.session.pendingRevision))
  {
    var t := l.session.pending.value;
    assert codec.decode(codec.encode(t)) == Some(t);
    if t.baseline {
      forall u | u in t.users.Keys ensures u !in e.cache.Keys {
        assert l.session.cursor < u;
        assert u in e.cache ==> u <= l.session.cursor;
      }
    }
  }

  lemma FlowAfterEmptying(l: Link, e: Edge)
    requires FlowOk(l, e) && e.executing.Some? && e.executing.value.ResetJob?
    ensures FlowOk(l.(up := l.up + [Cleared(e.executing.value.epoch)]), Emptied(e).(executing := None, locallyApplied := 0))
  {
    var report := Cleared(e.executing.value.epoch);
    var all, all' := l.jobs + l.up, l.jobs + (l.up + [report]);
    assert all' == all + [report];
    assert !l.session.ready;
    assert l.down != [] ==> !l.down[0].Confirmed?;
    assert forall i :: 0 <= i < |all| ==> all[i] != Cleared(l.session.epoch);
  }
}
