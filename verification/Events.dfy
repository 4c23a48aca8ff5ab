/** Event ingestion over a network that loses, repeats and delays batches and acknowledgements. */
module Events {
  import opened Base

  type EventId = string

  const MAX_INT64 := 0x7fff_ffff_ffff_ffff

  datatype Event = Event(id: EventId, dpi: bool, parses: bool)

  /** `stored` is the event table; `view` lists the ids entered into the DPI view. */
  datatype Controller = Controller(stored: map<EventId, int>, kinds: map<EventId, bool>, view: seq<EventId>)

  // ---- Sequence numbers ------------------------------------------------------------------

  predicate BatchOk(sequence: int, size: nat) { 0 <= sequence <= (MAX_INT64 - 999) / 1000 && size <= 100 }

  function Position(sequence: int, index: int): int { sequence * 1000 + index }

  /** Positions of accepted batches fit the column and never coincide. */
  lemma PositionsAreDistinct(s1: int, n1: nat, i1: int, s2: int, n2: nat, i2: int)
    requires BatchOk(s1, n1) && BatchOk(s2, n2) && 0 <= i1 < n1 && 0 <= i2 < n2
    ensures 0 <= Position(s1, i1) <= MAX_INT64
    ensures Position(s1, i1) == Position(s2, i2) <==> s1 == s2 && i1 == i2
  {
    assert s1 < s2 ==> Position(s1, i1) < 1000 * (s1 + 1) <= Position(s2, i2);
    assert s2 < s1 ==> Position(s2, i2) < 1000 * (s2 + 1) <= Position(s1, i1);
  }

  // ---- Storing ---------------------------------------------------------------------------

  /** The two unique keys of the event table. */
  predicate Taken(c: Controller, position: int, id: EventId) { id in c.stored || position in c.stored.Values }

  function Inserted(c: Controller, position: int, e: Event): Controller {
    Controller(c.stored[e.id := position], c.kinds[e.id := e.dpi], if e.dpi then c.view + [e.id] else c.view)
  }

  /** The event is stored afterwards, or an error is reported and nothing changed. */
  function Stored(c: Controller, position: int, e: Event, commits: bool): (Controller, bool) {
    if e.dpi && !e.parses then (c, false)
    else if Taken(c, position, e.id) then (c, e.id in c.stored && commits)
    else if commits then (Inserted(c, position, e), true)
    else (c, false)
  }

  class Store {
    var stored: map<EventId, int>
    var kinds: map<EventId, bool>
    var view: seq<EventId>

    function Value(): Controller
      reads this
    {
      Controller(stored, kinds, view)
    }

    /** `INSERT IGNORE` and the DPI row in one transaction. */
    method RecordNodeEventDurably(position: int, e: Event, commits: bool) returns (ok: bool)
      modifies this
      ensures (Value(), ok) == Stored(old(Value()), position, e, commits)
    {
      if e.dpi && !e.parses { return false; }
      var inserted := !(e.id in stored || position in stored.Values);
      if !inserted {
        if e.id !in stored { return false; }
      }
      if !commits { return false; }
      if inserted {
        stored := stored[e.id := position];
        kinds := kinds[e.id := e.dpi];
        if e.dpi { view := view + [e.id]; }
      }
      return true;
    }

    /** `commits[i]` says whether the transaction of event `i` commits. */
    method RecordEventBatch(sequence: int, events: seq<Event>, commits: seq<bool>) returns (acked: seq<EventId>)
      requires |commits| == |events|
      modifies this
      ensures (Value(), acked) == Recorded(old(Value()), sequence, events, commits)
    {
      if sequence < 0 || sequence > (MAX_INT64 - 999) / 1000 || |events| > 100 { return []; }
      acked := [];
      for index := 0 to |events|
        invariant (Value(), acked) == RecordFirst(old(Value()), sequence, events, commits, index)
      {
        if events[index].id == "" { continue; }
        var ok := RecordNodeEventDurably(sequence * 1000 + index, events[index], commits[index]);
        if ok { acked := acked + [events[index].id]; }
      }
    }
  }

  function RecordFirst(c: Controller, sequence: int, events: seq<Event>, commits: seq<bool>, n: nat): (Controller, seq<EventId>)
    requires n <= |events| == |commits|
  {
    if n == 0 then (c, [])
    else
      var (d, acked) := RecordFirst(c, sequence, events, commits, n - 1);
      var e := events[n - 1];
      if e.id == "" then (d, acked)
      else
        var (d', ok) := Stored(d, Position(sequence, n - 1), e, commits[n - 1]);
        (d', if ok then acked + [e.id] else acked)
  }

  function Recorded(c: Controller, sequence: int, events: seq<Event>, commits: seq<bool>): (Controller, seq<EventId>)
    requires |events| == |commits|
  {
    if !BatchOk(sequence, |events|) then (c, []) else RecordFirst(c, sequence, events, commits, |events|)
  }

  // ---- One controller --------------------------------------------------------------------

  /** The view holds every stored DPI event once, and nothing else. */
  ghost predicate ViewOk(c: Controller) {
    && c.stored.Keys == c.kinds.Keys
    && (forall i, j :: 0 <= i < j < |c.view| ==> c.view[i] != c.view[j])
    && (forall id :: id in c.view <==> id in c.kinds && c.kinds[id])
    && (forall a, b :: a in c.stored && b in c.stored && a != b ==> c.stored[a] != c.stored[b])
  }

  lemma StoringKeeps(c: Controller, position: int, e: Event, commits: bool)
    requires ViewOk(c)
    ensures var (d, ok) := Stored(c, position, e, commits);
            ViewOk(d) && c.stored.Keys <= d.stored.Keys && (ok ==> e.id in d.stored)
  {
    if !Taken(c, position, e.id) {
      forall a | a in c.stored ensures c.stored[a] != position { assert c.stored[a] in c.stored.Values; }
    }
  }

  /** A transaction that commits is refused only for an unreadable DPI event or a position that another event holds. */
  lemma StoredUnlessForeign(c: Controller, position: int, e: Event, commits: bool)
    requires ViewOk(c)
    ensures var (d, ok) := Stored(c, position, e, commits);
            && (ok <==> commits && (e.dpi ==> e.parses) && forall id :: id in c.stored && c.stored[id] == position ==> id == e.id || e.id in c.stored)
            && (ok && e.id !in c.stored ==> Get(d.stored, e.id) == Some(position) && Get(d.kinds, e.id) == Some(e.dpi))
            && (forall id :: id in c.stored ==> Get(d.stored, id) == Some(c.stored[id]) && Get(d.kinds, id) == Get(c.kinds, id))
            && (!ok || e.id in c.stored ==> d == c)
  {
    if position in c.stored.Values {
      var id :| id in c.stored && c.stored[id] == position;
    }
    if id :| id in c.stored && c.stored[id] == position { assert c.stored[id] in c.stored.Values; }
  }

  /** Event `i` of the batch can be stored as far as itself and its transaction go. */
  predicate Storable(events: seq<Event>, commits: seq<bool>, i: nat)
    requires i < |events| == |commits|
  {
    events[i].id != "" && commits[i] && (events[i].dpi ==> events[i].parses)
  }

  /**
    A batch acknowledges exactly the ids that are stored afterwards, by it or before, and that it
    carries in a readable event whose transaction commits: so a repeated batch acknowledges again.
   */
  lemma {:induction false} AcknowledgedExactly(c: Controller, sequence: int, events: seq<Event>, commits: seq<bool>, n: nat, id: EventId)
    requires ViewOk(c) && n <= |events| == |commits|
    ensures var (d, acked) := RecordFirst(c, sequence, events, commits, n);
            id in acked <==> id in d.stored && exists i :: 0 <= i < n && events[i].id == id && Storable(events, commits, i)
  {
    hide ViewOk, Stored;
    if n > 0 {
      AcknowledgedExactly(c, sequence, events, commits, n - 1, id);
      RecordingKeeps(c, sequence, events, commits, n - 1);
      var d := RecordFirst(c, sequence, events, commits, n - 1).0;
      StoredUnlessForeign(d, Position(sequence, n - 1), events[n - 1], commits[n - 1]);
      StoringKeeps(d, Position(sequence, n - 1), events[n - 1], commits[n - 1]);
      StoredAddsOne(d, Position(sequence, n - 1), events[n - 1], commits[n - 1]);
      if events[n - 1].id == id && Storable(events, commits, n - 1) {
        assert exists i :: 0 <= i < n && events[i].id == id && Storable(events, commits, i);
      }
    }
  }

  lemma {:induction false} RecordingKeeps(c: Controller, sequence: int, events: seq<Event>, commits: seq<bool>, n: nat)
    requires ViewOk(c) && n <= |events| == |commits|
    ensures var (d, acked) := RecordFirst(c, sequence, events, commits, n);
            ViewOk(d) && c.stored.Keys <= d.stored.Keys && forall id :: id in acked ==> id in d.stored
  {
    if n > 0 {
      RecordingKeeps(c, sequence, events, commits, n - 1);
      var d := RecordFirst(c, sequence, events, commits, n - 1).0;
      StoringKeeps(d, Position(sequence, n - 1), events[n - 1], commits[n - 1]);
    }
  }

  // ---- Both ends -------------------------------------------------------------------------

  /** `acks` holds every acknowledgement ever sent; any of them may arrive, any number of times, or never. */
  datatype System = System(controller: Controller, acks: seq<seq<EventId>>, acknowledged: set<EventId>)

  const START := System(Controller(map[], map[], []), [], {})

  datatype Step =
    | Deliver(sequence: int, events: seq<Event>, commits: seq<bool>)
    | DeliverAck(index: nat)

  /** The edge's loop over an acknowledgement. */
  method AcknowledgeEvents(marked: set<EventId>, ids: seq<EventId>) returns (r: set<EventId>)
    ensures r == marked + Elements(ids)
  {
    r := marked;
    for i := 0 to |ids|
      invariant r == marked + Elements(ids[..i])
    {
      assert ids[..i + 1] == ids[..i] + [ids[i]];
      r := r + {ids[i]};
    }
    assert ids[..|ids|] == ids;
  }

  function Take(s: System, step: Step): System {
    match step
    case Deliver(sequence, events, commits) =>
      if |commits| != |events| then s
      else
        var (d, acked) := Recorded(s.controller, sequence, events, commits);
        s.(controller := d, acks := s.acks + [acked])
    case DeliverAck(index) =>
      if index >= |s.acks| then s else s.(acknowledged := s.acknowledged + Elements(s.acks[index]))
  }

  function Run(steps: seq<Step>): System
    decreases |steps|
  {
    if steps == [] then START else Take(Run(steps[..|steps| - 1]), steps[|steps| - 1])
  }

  ghost predicate Good(s: System) {
    && ViewOk(s.controller)
    && (forall i :: 0 <= i < |s.acks| ==> forall id :: id in s.acks[i] ==> id in s.controller.stored)
    && s.acknowledged <= s.controller.stored.Keys
  }

  /**
    In every run: an event is marked acknowledged at the edge only if the controller stored it,
    and each stored DPI event is in the view exactly once.
   */
  lemma {:induction false} AcknowledgedIsStored(steps: seq<Step>)
    ensures var s := Run(steps);
            && Good(s) && s.acknowledged <= s.controller.stored.Keys
            && forall id :: multiset(s.controller.view)[id] == if id in s.controller.kinds && s.controller.kinds[id] then 1 else 0
    decreases |steps|
  {
    if steps != [] {
      AcknowledgedIsStored(steps[..|steps| - 1]);
      StepKeeps(Run(steps[..|steps| - 1]), steps[|steps| - 1]);
    }
    var c := Run(steps).controller;
    forall id ensures multiset(c.view)[id] == if id in c.kinds && c.kinds[id] then 1 else 0 { Once(c.view, id); }
  }

  /**
    A batch that is too large, or whose positions would leave the 64-bit column, is ignored as a
    whole; any other is worked through.
   */
  lemma RefusedIff(c: Controller, sequence: int, events: seq<Event>, commits: seq<bool>)
    requires |events| == |commits|
    ensures Recorded(c, sequence, events, commits) ==
            if sequence < 0 || sequence * 1000 + 999 > MAX_INT64 || |events| > 100 then (c, [])
            else RecordFirst(c, sequence, events, commits, |events|)
  {
  }

  /**
    Retries come to an end: in every state of every run, an event that can be stored and whose
    position no other event holds is acknowledged once a batch with it commits and the answer arrives.
   */
  lemma RetrySucceeds(steps: seq<Step>, sequence: int, e: Event)
    requires 0 <= sequence && sequence * 1000 + 999 <= MAX_INT64 && e.id != "" && (e.dpi ==> e.parses)
    requires var stored := Run(steps).controller.stored;
             e.id in stored || forall id :: id in stored ==> stored[id] != sequence * 1000
    ensures var s := Take(Run(steps), Deliver(sequence, [e], [true]));
            e.id in Take(s, DeliverAck(|s.acks| - 1)).acknowledged
  {
    hide ViewOk, Stored;
    var c := Run(steps).controller;
    AcknowledgedIsStored(steps);
    StoredUnlessForeign(c, Position(sequence, 0), e, true);
    var r := RecordFirst(c, sequence, [e], [true], 1);
    assert RecordFirst(c, sequence, [e], [true], 0) == (c, []);
    assert r.1 == [e.id];
  }

  lemma StepKeeps(s: System, step: Step)
    requires Good(s)
    ensures Good(Take(s, step))
  {
    hide ViewOk;
    match step
    case Deliver(sequence, events, commits) =>
      if |commits| == |events| { RecordingKeeps(s.controller, sequence, events, commits, |events|); }
    case DeliverAck(index) =>
      if index < |s.acks| { assert forall id :: id in s.acks[index] ==> id in s.controller.stored; }
  }

  // ---- Where stored events come from -----------------------------------------------------

  /** Some delivered batch carried the event at this index, with this sequence number, kind and position. */
  ghost predicate Delivered(steps: seq<Step>, j: nat, i: nat, id: EventId, position: int, dpi: bool) {
    && j < |steps| && steps[j].Deliver? && |steps[j].commits| == |steps[j].events|
    && BatchOk(steps[j].sequence, |steps[j].events|) && i < |steps[j].events|
    && steps[j].events[i].id == id && id != "" && steps[j].events[i].dpi == dpi && (dpi ==> steps[j].events[i].parses)
    && position == steps[j].sequence * 1000 + i
  }

  ghost predicate HasSource(steps: seq<Step>, c: Controller, id: EventId) {
    && id in c.stored && id in c.kinds
    && exists j: nat, i: nat :: Delivered(steps, j, i, id, c.stored[id], c.kinds[id])
  }

  ghost predicate Sourced(steps: seq<Step>, c: Controller) { forall id :: id in c.stored ==> HasSource(steps, c, id) }

  lemma SourceStays(steps: seq<Step>, more: seq<Step>, c: Controller, d: Controller, id: EventId)
    requires steps <= more && HasSource(steps, c, id) && Get(d.stored, id) == Get(c.stored, id) && Get(d.kinds, id) == Get(c.kinds, id)
    ensures HasSource(more, d, id)
  {
    var j: nat, i: nat :| Delivered(steps, j, i, id, c.stored[id], c.kinds[id]);
    assert more[j] == steps[j];
    assert Delivered(more, j, i, id, d.stored[id], d.kinds[id]);
  }

  lemma {:induction false} BatchIsSourced(steps: seq<Step>, c: Controller, n: nat)
    requires steps != [] && Sourced(steps, c) && ViewOk(c)
    requires var last := steps[|steps| - 1];
             && last.Deliver? && |last.commits| == |last.events| && BatchOk(last.sequence, |last.events|) && n <= |last.events|
    ensures var last := steps[|steps| - 1];
            Sourced(steps, RecordFirst(c, last.sequence, last.events, last.commits, n).0)
  {
    hide ViewOk, Stored, HasSource;
    if n > 0 {
      var j := |steps| - 1;
      var last := steps[j];
      BatchIsSourced(steps, c, n - 1);
      RecordingKeeps(c, last.sequence, last.events, last.commits, n - 1);
      var d := RecordFirst(c, last.sequence, last.events, last.commits, n - 1).0;
      var d' := RecordFirst(c, last.sequence, last.events, last.commits, n).0;
      var e := last.events[n - 1];
      if e.id != "" {
        StoredUnlessForeign(d, Position(last.sequence, n - 1), e, last.commits[n - 1]);
        StoredAddsOne(d, Position(last.sequence, n - 1), e, last.commits[n - 1]);
        forall id | id in d'.stored ensures HasSource(steps, d', id) {
          if id in d.stored { SourceStays(steps, steps, d, d', id); } else { NewHasSource(steps, n - 1, d'); }
        }
      }
    }
  }

  lemma StoredAddsOne(c: Controller, position: int, e: Event, commits: bool)
    ensures var (d, ok) := Stored(c, position, e, commits); forall id :: id in d.stored && id !in c.stored ==> id == e.id && ok
  {
  }

  lemma NewHasSource(steps: seq<Step>, i: nat, d: Controller)
    requires steps != [] && steps[|steps| - 1].Deliver? && i < |steps[|steps| - 1].events|
    requires var last, e := steps[|steps| - 1], steps[|steps| - 1].events[i];
             && Get(d.stored, e.id) == Some(last.sequence * 1000 + i) && Get(d.kinds, e.id) == Some(e.dpi)
             && |last.commits| == |last.events| && BatchOk(last.sequence, |last.events|) && e.id != "" && (e.dpi ==> e.parses)
    ensures HasSource(steps, d, steps[|steps| - 1].events[i].id)
  {
    var e := steps[|steps| - 1].events[i];
    assert Delivered(steps, |steps| - 1, i, e.id, d.stored[e.id], d.kinds[e.id]);
  }

  /**
    In every run, each stored event was delivered in an accepted batch, at the position that its
    sequence number and index give, and it is filed under its own kind.
   */
  lemma {:induction false} StoredWasDelivered(steps: seq<Step>)
    ensures Sourced(steps, Run(steps).controller)
    decreases |steps|
  {
    hide HasSource, RecordFirst, ViewOk;
    if steps != [] {
      var init, last := steps[..|steps| - 1], steps[|steps| - 1];
      var c := Run(init).controller;
      StoredWasDelivered(init);
      AcknowledgedIsStored(init);
      forall id | id in c.stored ensures HasSource(steps, c, id) { SourceStays(init, steps, c, c, id); }
      if last.Deliver? && |last.commits| == |last.events| && BatchOk(last.sequence, |last.events|) {
        BatchIsSourced(steps, c, |last.events|);
      }
    }
  }
}
