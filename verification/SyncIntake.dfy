/** What the edge makes of whatever a controller sends, in order or not. */
module SyncIntake {
  import opened Base
  import opened Identities
  import opened SyncProtocol

  /** The bytes of the fragments, in order; other messages carry none. */
  function Data(got: seq<Down>): seq<byte> {
    if got == [] then [] else Data(got[..|got| - 1]) + (if got[|got| - 1].Chunk? then got[|got| - 1].data else [])
  }

  /** The fragments accepted since the buffer was last empty. */
  function Intake(got: seq<Down>, m: Down): seq<Down> {
    match m
    case Welcome(_) => []
    case Confirmed(_, _, _) => got
    case Chunk(_, _, index, total, _) => if index + 1 == total then [] else if index == 0 then [m] else got + [m]
  }

  /** Consecutive fragments of one transfer, each of 1 to 512 Ki bytes, ending before index `next`. */
  ghost predicate Consecutive(got: seq<Down>, epoch: Option<Epoch>, revision: nat, total: nat, next: nat) {
    forall i :: 0 <= i < |got| ==>
      && got[i].Chunk? && epoch == Some(got[i].epoch) && got[i].revision == revision && got[i].total == total
      && got[i].index == next - |got| + i && 1 <= |got[i].data| <= 512 * 1024
  }

  ghost predicate Buffered(e: Edge, got: seq<Down>) {
    e.buffer == Data(got) && Consecutive(got, e.epoch, e.chunkRevision, e.chunkTotal, e.chunkIndex)
  }

  lemma DataOneMore(got: seq<Down>, m: Down)
    requires m.Chunk?
    ensures Data(got + [m]) == Data(got) + m.data
  {
    assert (got + [m])[..|got|] == got;
  }

  lemma {:induction false} DataIsThere(got: seq<Down>)
    requires got != [] && got[0].Chunk? && got[0].data != []
    ensures Data(got) != []
  {
    if |got| > 1 { DataIsThere(got[..|got| - 1]); }
  }

  lemma ConsecutiveOneMore(got: seq<Down>, m: Down, next: nat)
    requires m.Chunk? && m.index == next && 1 <= |m.data| <= 512 * 1024
    requires Consecutive(got, Some(m.epoch), m.revision, m.total, next)
    ensures Consecutive(got + [m], Some(m.epoch), m.revision, m.total, next + 1)
  {
  }

  /**
    Whatever arrives: the buffer holds the bytes of consecutive fragments of one epoch, revision
    and total, and the fragment that completes a transfer makes exactly one job, of those bytes
    and its own; every accepted fragment is acknowledged by its own number.
   */
  lemma JobsAreConsecutive(e: Edge, m: Down, got: seq<Down>)
    requires Buffered(e, got) && EdgeReceive(e, m).Some?
    ensures var (e', replies) := EdgeReceive(e, m).value;
            && Buffered(e', Intake(got, m))
            && (m.Chunk? ==> replies == [ChunkAck(m.epoch, m.revision, m.index)] && (m.index == 0 ==> !e'.syncReady))
            && (m.Chunk? && m.index + 1 == m.total ==>
                  var all := if m.index == 0 then [m] else got + [m];
                  && e'.queued == Some(ApplyJob(m.epoch, m.revision, Data(all))) && e.queued.None?
                  && Consecutive(all, e.epoch, m.revision, m.total, m.total))
            && (!(m.Chunk? && m.index + 1 == m.total) && !m.Welcome? ==> e'.queued == e.queued)
  {
    hide Consecutive, Data;
    NothingYet();
    if m.Chunk? {
      if m.index == 0 {
        if got != [] { BufferIsThere(e, got); }
        assert [] + [m] == [m];
        DataOneMore([], m);
        ConsecutiveOneMore([], m, 0);
      } else {
        DataOneMore(got, m);
        ConsecutiveOneMore(got, m, m.index);
      }
    }
  }

  lemma NothingYet()
    ensures Data([]) == [] && forall e: Option<Epoch>, revision, total, next :: Consecutive([], e, revision, total, next)
  {
  }

  lemma BufferIsThere(e: Edge, got: seq<Down>)
    requires Buffered(e, got) && got != []
    ensures e.buffer != []
  {
    DataIsThere(got);
  }

  ghost function ReceiveAll(e: Edge, messages: seq<Down>): Option<Edge>
    decreases |messages|
  {
    if messages == [] then Some(e)
    else
      var before := ReceiveAll(e, messages[..|messages| - 1]);
      if before.None? then None
      else
        // The worker takes the job over as soon as one is queued.
        var r := EdgeReceive(before.value.(queued := None), messages[|messages| - 1]);
        if r.None? then None else Some(r.value.0)
  }

  function IntakeAll(messages: seq<Down>): seq<Down>
    decreases |messages|
  {
    if messages == [] then [] else Intake(IntakeAll(messages[..|messages| - 1]), messages[|messages| - 1])
  }

  /** So it is after any sequence of messages that the receive loop survives. */
  lemma {:induction false} BufferIsConsecutive(e: Edge, messages: seq<Down>)
    requires e.buffer == [] && ReceiveAll(e, messages).Some?
    ensures Buffered(ReceiveAll(e, messages).value, IntakeAll(messages))
    decreases |messages|
  {
    hide EdgeReceive, Intake;
    if messages != [] {
      var init := messages[..|messages| - 1];
      BufferIsConsecutive(e, init);
      JobsAreConsecutive(ReceiveAll(e, init).value.(queued := None), messages[|messages| - 1], IntakeAll(init));
    }
  }

  /**
    A job commits only the snapshot of its own revision, and pages and increments only go forward:
    a stale or repeated one is refused, and so is a page without a reset or an increment without a baseline.
   */
  lemma CommitsGoForward(codec: Codec, e: Edge, job: Job)
    requires JobSnapshot(codec, e, job).Some?
    ensures var t := JobSnapshot(codec, e, job).value;
            && job.ApplyJob? && codec.decode(job.payload) == Some(t) && t.revision == job.revision > 0
            && Applied(e, t).lastRevision == Some(job.revision)
            && (t.incremental || t.baseline ==> e.lastRevision.Some? ==> e.lastRevision.value < job.revision)
            && (t.baseline ==> e.resetPending) && (t.incremental ==> e.lastRevision.Some?)
  {
  }
}
