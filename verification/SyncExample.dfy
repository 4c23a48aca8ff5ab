/** A run that opens admission, and a blacklist change that no flag accounts for. */
module SyncExample {
  import opened Base
  import opened Identities
  import opened SyncProtocol
  import opened SyncInvariant
  import opened SyncTheorems
  import Outbox

  function Booted(): Edge {
    Edge(map[], map[], None, true, None, [], 0, 0, 0, None, None, 0, false)
  }

  function Start(codec: Codec): System {
    System(codec, Database(map[], {}, map[], 0, Outbox.NodeOutbox(None, map[])), map[], None, None, Booted(), 0, 0,
           History(map[], map[], {}, map[], false))
  }

  /** The only page of an empty node. */
  function EmptyPage(): Snapshot {
    Snapshot(1, false, true, true, map[], {}, true, map[], {})
  }

  lemma StartIsReachable(codec: Codec)
    requires Lawful(codec)
    ensures Reachable(Start(codec))
  {
    assert Initial(Start(codec));
    assert Start(codec) == Run(Start(codec), []);
  }

  function ReadySession(): Session { NewSession(0, false).(ready := true, baselineActive := true) }

  function AfterHandshake(codec: Codec): System {
    Start(codec).(db := Start(codec).db.(outbox := Outbox.Reset(0)),
                  links := map[0 := Link(ReadySession(), [], [], [], true)],
                  current := Some(0), edgeLink := Some(0), edge := Booted().(epoch := Some(0)), nextEpoch := 1, nextLink := 1)
  }

  lemma HandshakeRuns(codec: Codec)
    requires Lawful(codec)
    ensures Reachable(AfterHandshake(codec))
  {
    hide Reachable, Lawful;
    StartIsReachable(codec);
    var c0 := Start(codec);
    StepIsReachable(c0, Connect(false));
    var c1 := Do(c0, Connect(false));
    var waiting := NewSession(0, false);
    assert c1.links == map[0 := Link(waiting, [Welcome(0)], [], [], true)];
    StepIsReachable(c1, EdgeTakesMessage);
    var c2 := Do(c1, EdgeTakesMessage);
    assert c2.links[0] == Link(waiting, [], [], [], true);
    assert c2.edge == Booted().(epoch := Some(0), queued := Some(ResetJob(0)));
    StepIsReachable(c2, EdgeTakesJob);
    var c3 := Do(c2, EdgeTakesJob);
    StepIsReachable(c3, EdgeFinishesJob(true));
    var c4 := Do(c3, EdgeFinishesJob(true));
    assert c4.links[0] == Link(waiting, [], [Cleared(0)], [], true);
    StepIsReachable(c4, Receive(0, true, true));
    var c5 := Do(c4, Receive(0, true, true));
    assert c5.links[0] == Link(waiting, [], [], [Cleared(0)], true);
    StepIsReachable(c5, Work(0, Done, true));
    var c6 := Do(c5, Work(0, Done, true));
    assert c6.links[0] == Link(ReadySession(), [], [], [], true);
    assert c6 == AfterHandshake(codec);
  }

  function Payload(codec: Codec): seq<byte> { codec.encode(EmptyPage()) }

  /** The page is prepared and its only fragment is on the wire. */
  function AfterPush(codec: Codec): System {
    var c := AfterHandshake(codec);
    var s := ReadySession().(pendingRevision := 1, pending := Some(EmptyPage()), payload := Payload(codec), chunkTotal := 1);
    c.(db := c.db.(revision := 1),
       links := map[0 := Link(s, [Chunk(0, 1, 0, 1, Payload(codec))], [], [], true)],
       history := c.history.(prepared := map[(0, 1) := EmptyPage()]))
  }

  lemma PushRuns(codec: Codec)
    requires Lawful(codec) && |Payload(codec)| <= CHUNK_BYTES
    ensures Reachable(AfterPush(codec))
  {
    hide Reachable;
    HandshakeRuns(codec);
    var c := AfterHandshake(codec);
    StepIsReachable(c, Push(Done, true));
    assert Authorised(c.db) == map[];
    assert Candidates(c.db, 0, None) == {};
    assert PageUsers(c.db, 0, None) == {};
    assert PageSnapshot(c.db, ReadySession(), None) == EmptyPage();
    assert Payload(codec) != [];
    assert Fragment(Payload(codec), 0) == Payload(codec);
    assert FragmentCount(Payload(codec)) == 1;
    assert PushChoice(c.db, ReadySession()) == Page(None);
    assert Greatest(PageUsers(c.db, 0, None), 0) == 0;
    var d := Do(c, Push(Done, true));
    assert Outbox.RaiseAll(Outbox.Reset(0), {}, 1) == Outbox.Reset(0);
    assert EmptyPage().Ids() == {};
    var e := PushPage(codec, c.db, c.links[0], None, Done, true);
    assert Outbox.Prepare(c.db.outbox, 0, 1, EmptyPage().Ids()) == Some(Outbox.Reset(0));
    assert e == Enqueued(c.db.(revision := 1), AfterPush(codec).links[0], true);
    assert d.history == AfterPush(codec).history;
    assert d == AfterPush(codec);
  }

  /** The edge committed the page and the controller has its receipt. */
  function AfterApply(codec: Codec): System {
    var c := AfterPush(codec);
    var s := c.links[0].session.(chunkIndex := 1);
    c.(links := map[0 := Link(s, [], [], [Ack(0, 1)], true)],
       edge := c.edge.(lastRevision := Some(1), resetPending := false, locallyApplied := 1,
                       chunkRevision := 1, chunkTotal := 1, chunkIndex := 1),
       history := c.history.(committed := map[(0, 1) := EmptyPage()]))
  }

  lemma ApplyRuns(codec: Codec)
    requires Lawful(codec) && |Payload(codec)| <= CHUNK_BYTES
    ensures Reachable(AfterApply(codec))
  {
    hide Reachable;
    PushRuns(codec);
    var c := AfterPush(codec);
    var l := c.links[0];
    assert Payload(codec) != [];
    StepIsReachable(c, EdgeTakesMessage);
    var c1 := Do(c, EdgeTakesMessage);
    assert [] + Payload(codec) == Payload(codec);
    assert c1.links[0] == l.(down := [], up := [ChunkAck(0, 1, 0)]);
    StepIsReachable(c1, EdgeTakesJob);
    var c2 := Do(c1, EdgeTakesJob);
    assert c2.edge.executing == Some(ApplyJob(0, 1, Payload(codec)));
    StepIsReachable(c2, EdgeFinishesJob(true));
    assert JobSnapshot(codec, c2.edge, c2.edge.executing.value) == Some(EmptyPage());
    var c3 := Do(c2, EdgeFinishesJob(true));
    assert c3.links[0] == l.(down := [], up := [ChunkAck(0, 1, 0), Ack(0, 1)]);
    StepIsReachable(c3, Receive(0, true, true));
    var c4 := Do(c3, Receive(0, true, true));
    assert c4.links[0] == l.(session := l.session.(chunkIndex := 1), down := [], up := [Ack(0, 1)]);
    StepIsReachable(c4, Receive(0, true, true));
    var c5 := Do(c4, Receive(0, true, true));
    assert c5.links[0] == AfterApply(codec).links[0];
    assert c5.links == AfterApply(codec).links;
    assert c5 == AfterApply(codec);
  }

  /** The confirmation arrived: the edge admits clients and nothing is left to push. */
  lemma AdmissionOpens(codec: Codec) returns (c: System)
    requires Lawful(codec) && |Payload(codec)| <= CHUNK_BYTES
    ensures Reachable(c) && Synchronising(c) && c.edge.syncReady
    ensures Registered(c).pending.None? && !Registered(c).baselineActive && !Registered(c).needsBlocked && !Registered(c).needsFull
    ensures Registered(c).blocked == c.db.blocked && c.db.outbox.rows == map[]
  {
    hide Reachable;
    ApplyRuns(codec);
    var b := AfterApply(codec);
    StepIsReachable(b, Work(0, Done, true));
    var d := Do(b, Work(0, Done, true));
    assert d.links[0].down == [Confirmed(0, 1, true)];
    StepIsReachable(d, EdgeTakesMessage);
    c := Do(d, EdgeTakesMessage);
  }

  /**
    The mirror can differ from the database while nothing is in flight and no flag is up: the
    blacklist change of a request that is answered with an error is committed, not announced.
   */
  lemma BlacklistCanDriftSilently(codec: Codec) returns (c: System)
    requires Lawful(codec) && |Payload(codec)| <= CHUNK_BYTES
    ensures Reachable(c) && Synchronising(c) && Registered(c).pending.None?
    ensures PushChoice(c.db, Registered(c)).Nothing? && !Mirrored(c) && c.edge.blocked != c.db.blocked
  {
    var b := AdmissionOpens(codec);
    var blocked: map<Ip, Block> := b.db.blocked["192.0.2.1" := Block("", if "192.0.2.1" in b.db.blocked then b.db.blocked["192.0.2.1"].createdAt + 1 else 0)];
    StepIsReachable(b, SetBlocked(blocked, false));
    c := Do(b, SetBlocked(blocked, false));
    assert blocked["192.0.2.1"] == c.db.blocked["192.0.2.1"];
    assert Outbox.DirtyUsers(c.db.outbox, Registered(c).epoch) == {};
    BlacklistMirror(c);
  }
}
