/** Executing configuration commands on the edge: deduplication, supersession and the revision record. */
module Commands {
  import opened Base

  type CommandId = string

  datatype Kind = RuntimeSettings | Permissions | AdvancedSettings | BlockIp | UnblockIp | DisconnectClient
                | DisconnectConnection | ResetTls | OtherKind

  predicate IsConfiguration(k: Kind) { k.RuntimeSettings? || k.Permissions? || k.AdvancedSettings? }

  /** The kinds whose settings must not roll back. */
  const CONFIGURATIONS := {RuntimeSettings, Permissions, AdvancedSettings}

  /** A command; `revision` is the number in its payload, zero when there is none. */
  datatype Command = Command(id: CommandId, kind: Kind, revision: int, body: string)

  datatype Result = Succeeded(superseded: bool) | Failed

  datatype Status = Executing | Finished(result: Result)

  /** A result reported to the controller; `Retry` is reported without being stored. */
  datatype Reply = Answer(result: Result) | Retry

  datatype Edge = Edge(received: map<CommandId, Status>, recorded: map<Kind, int>, settings: map<Kind, Command>,
                       executed: seq<Command>)

  const FRESH := Edge(map[], map[], map[], [])

  /** What the environment decides: whether each durable write succeeds, and whether execution does. */
  datatype Outcome = Outcome(begins: bool, expired: bool, executes: bool, confirms: bool, finishes: bool)

  predicate Superseded(e: Edge, c: Command) {
    IsConfiguration(c.kind) && c.kind in e.recorded && e.recorded[c.kind] > 0 && c.revision < e.recorded[c.kind]
  }

  function Confirmed(e: Edge, c: Command): Edge {
    if !IsConfiguration(c.kind) then e
    else e.(recorded := e.recorded[c.kind := if c.kind in e.recorded then Max(e.recorded[c.kind], c.revision) else c.revision])
  }

  function Executed(e: Edge, c: Command): Edge {
    e.(settings := if IsConfiguration(c.kind) then e.settings[c.kind := c] else e.settings, executed := e.executed + [c])
  }

  function Stored(e: Edge, c: Command, r: Result, finishes: bool): (Edge, Reply) {
    if finishes then (e.(received := e.received[c.id := Finished(r)]), Answer(r)) else (e, Retry)
  }

  /** The part of the handler after the command is known to be due for execution. */
  function Perform(e: Edge, c: Command, o: Outcome): (Edge, Reply) {
    if Superseded(e, c) then Stored(e, c, Succeeded(true), o.finishes)
    else if !IsConfiguration(c.kind) && o.expired then (Stored(e, c, Failed, o.finishes).0, Answer(Failed))
    else if c.kind.OtherKind? || !o.executes then Stored(e, c, Failed, o.finishes)
    else if !o.confirms then (Executed(e, c), Retry)
    else Stored(Confirmed(Executed(e, c), c), c, Succeeded(false), o.finishes)
  }

  function Handle(e: Edge, c: Command, o: Outcome): (Edge, Reply) {
    if c.id in e.received then
      match e.received[c.id]
      case Finished(r) => (e, Answer(r))
      case Executing => if c.kind.OtherKind? then (e, Answer(Failed)) else Perform(e, c, o)
    else if !o.begins then (e, Retry)
    else Perform(e.(received := e.received[c.id := Executing]), c, o)
  }

  datatype Delivery = Delivery(command: Command, outcome: Outcome)

  function Run(e: Edge, deliveries: seq<Delivery>): Edge
    decreases |deliveries|
  {
    if deliveries == [] then e
    else
      var last := deliveries[|deliveries| - 1];
      Handle(Run(e, deliveries[..|deliveries| - 1]), last.command, last.outcome).0
  }

  // ---- No rollback -----------------------------------------------------------------------

  /** The greatest revision that was executed for `k`, at least `otherwise`. */
  function Greatest(executed: seq<Command>, k: Kind, otherwise: int): (g: int)
    ensures g >= otherwise
    ensures forall i :: 0 <= i < |executed| && executed[i].kind == k ==> executed[i].revision <= g
    ensures g == otherwise || exists i :: 0 <= i < |executed| && executed[i].kind == k && executed[i].revision == g
  {
    if executed == [] then otherwise
    else
      var c := executed[|executed| - 1];
      var g := Greatest(executed[..|executed| - 1], k, otherwise);
      if c.kind == k && c.revision > g then c.revision else g
  }

  /** The settings of a kind are those of a command with the greatest executed revision, which is the one on record. */
  ghost predicate CurrentFor(e: Edge, k: Kind) {
    && Newest(e, k)
    && (k in e.settings <==> k in e.recorded)
    && (k in e.settings ==> e.settings[k].revision == e.recorded[k])
  }

  ghost predicate Current(e: Edge) {
    e.settings.Keys <= CONFIGURATIONS && forall k :: k in CONFIGURATIONS ==> CurrentFor(e, k)
  }

  /** Executing a command that gets recorded keeps the settings current, unless it undercuts a recorded revision that is not positive. */
  lemma PerformIsCurrentIff(e: Edge, c: Command, o: Outcome)
    requires Current(e) && (o.executes ==> o.confirms)
    ensures Current(Perform(e, c, o).0) <==>
            !(o.executes && IsConfiguration(c.kind) && c.kind in e.recorded && c.revision < e.recorded[c.kind] <= 0)
  {
    var e' := Perform(e, c, o).0;
    if !Superseded(e, c) && (IsConfiguration(c.kind) || !o.expired) && !c.kind.OtherKind? && o.executes {
      ExecuteIsCurrentIff(e, c);
      CurrentIgnoresReceived(Confirmed(Executed(e, c), c), e');
    } else {
      CurrentIgnoresReceived(e, e');
    }
  }

  lemma CurrentIgnoresReceived(e: Edge, e': Edge)
    requires e' == e.(received := e'.received)
    ensures Current(e) <==> Current(e')
  {
  }

  lemma ExecuteIsCurrentIff(e: Edge, c: Command)
    requires Current(e)
    ensures Current(Confirmed(Executed(e, c), c)) <==>
            !(IsConfiguration(c.kind) && c.kind in e.recorded && c.revision < e.recorded[c.kind])
  {
    hide CurrentFor;
    var e' := Confirmed(Executed(e, c), c);
    forall k | k in CONFIGURATIONS ensures CurrentFor(e', k) <==> !(c.kind == k && k in e.recorded && c.revision < e.recorded[k]) {
      ExecuteIsCurrentForIff(e, c, k);
    }
  }

  lemma ExecuteIsCurrentForIff(e: Edge, c: Command, k: Kind)
    requires CurrentFor(e, k) && k in CONFIGURATIONS
    ensures CurrentFor(Confirmed(Executed(e, c), c), k) <==> !(c.kind == k && k in e.recorded && c.revision < e.recorded[k])
  {
    hide Newest;
    ExecutedIsNewestIff(e, c, k);
    NewestDependsOn(Executed(e, c), Confirmed(Executed(e, c), c), k);
  }

  /**
    Deliveries may repeat, arrive in any order and fail anywhere except between execution and
    its revision record; revisions are counted from zero.
   */
  ghost predicate Recorded(deliveries: seq<Delivery>) {
    forall i :: 0 <= i < |deliveries| ==>
      deliveries[i].command.revision >= 0 && (deliveries[i].outcome.executes ==> deliveries[i].outcome.confirms)
  }

  ghost predicate NeverNegative(e: Edge) { forall k :: k in e.recorded ==> e.recorded[k] >= 0 }

  lemma HandleKeepsCurrent(e: Edge, c: Command, o: Outcome)
    requires Current(e) && NeverNegative(e) && c.revision >= 0 && (o.executes ==> o.confirms)
    ensures Current(Handle(e, c, o).0) && NeverNegative(Handle(e, c, o).0)
  {
    hide Current;
    var begun := e.(received := e.received[c.id := Executing]);
    CurrentIgnoresReceived(e, begun);
    PerformIsCurrentIff(e, c, o);
    PerformIsCurrentIff(begun, c, o);
  }

  lemma {:induction false} ConfigurationNeverRollsBack(deliveries: seq<Delivery>)
    requires Recorded(deliveries)
    ensures NeverRolledBack(Run(FRESH, deliveries))
    ensures Current(Run(FRESH, deliveries)) && NeverNegative(Run(FRESH, deliveries))
    decreases |deliveries|
  {
    if deliveries != [] {
      var init, last := deliveries[..|deliveries| - 1], deliveries[|deliveries| - 1];
      ConfigurationNeverRollsBack(init);
      HandleKeepsCurrent(Run(FRESH, init), last.command, last.outcome);
    }
    CurrentIsNewest(Run(FRESH, deliveries));
  }

  // ---- Records that are lost --------------------------------------------------------------

  /** The promise itself: the settings of a kind are those of an executed command, and no executed command of the kind is newer. */
  ghost predicate Newest(e: Edge, k: Kind) {
    && (k in e.settings <==> exists i :: 0 <= i < |e.executed| && e.executed[i].kind == k)
    && (k in e.settings ==>
          && e.settings[k] in e.executed && e.settings[k].kind == k
          && forall i :: 0 <= i < |e.executed| && e.executed[i].kind == k ==> e.executed[i].revision <= e.settings[k].revision)
  }

  ghost predicate NeverRolledBack(e: Edge) {
    e.settings.Keys <= CONFIGURATIONS && forall k :: k in CONFIGURATIONS ==> Newest(e, k)
  }

  /** The handler gets past the record of received commands. */
  predicate Due(e: Edge, c: Command, o: Outcome) {
    if c.id in e.received then e.received[c.id].Executing? && !c.kind.OtherKind? else o.begins
  }

  /** The handler gets as far as executing the command. */
  predicate Executes(e: Edge, c: Command, o: Outcome) {
    && Due(e, c, o) && !c.kind.OtherKind? && o.executes && !Superseded(e, c) && (IsConfiguration(c.kind) || !o.expired)
  }

  /** It executes a configuration that is older than the settings it replaces. */
  predicate Undercuts(e: Edge, c: Command, o: Outcome) {
    Executes(e, c, o) && IsConfiguration(c.kind) && c.kind in e.settings && c.revision < e.settings[c.kind].revision
  }

  lemma HandleEffect(e: Edge, c: Command, o: Outcome)
    ensures var e' := Handle(e, c, o).0;
            if Executes(e, c, o) then e'.settings == Executed(e, c).settings && e'.executed == Executed(e, c).executed
            else e'.settings == e.settings && e'.executed == e.executed
  {
  }

  lemma ExecutedIsNewestIff(e: Edge, c: Command, k: Kind)
    requires Newest(e, k) && IsConfiguration(k)
    ensures Newest(Executed(e, c), k) <==> !(c.kind == k && k in e.settings && c.revision < e.settings[k].revision)
  {
    var e' := Executed(e, c);
    assert e'.executed[|e.executed|] == c;
    assert forall i :: 0 <= i < |e.executed| ==> e'.executed[i] == e.executed[i];
    if k in e.settings {
      var i :| 0 <= i < |e.executed| && e.executed[i] == e.settings[k];
      assert e'.executed[i].kind == k && e'.executed[i].revision == e.settings[k].revision;
    }
  }

  lemma NewestDependsOn(e: Edge, e': Edge, k: Kind)
    requires e'.settings == e.settings && e'.executed == e.executed
    ensures Newest(e, k) <==> Newest(e', k)
  {
  }

  /**
    For every outcome, records lost or not: handling a command keeps the promise exactly unless
    it executes a configuration older than the settings, which the recorded revision lets
    through when it lags behind them or is not positive.
   */
  lemma HandleKeepsPromiseIff(e: Edge, c: Command, o: Outcome)
    requires NeverRolledBack(e)
    ensures NeverRolledBack(Handle(e, c, o).0) <==> !Undercuts(e, c, o)
  {
    hide Newest;
    var e' := Handle(e, c, o).0;
    HandleEffect(e, c, o);
    var base := if Executes(e, c, o) then Executed(e, c) else e;
    assert e'.settings.Keys <= CONFIGURATIONS;
    forall k | k in CONFIGURATIONS ensures Newest(e', k) <==> !(Undercuts(e, c, o) && c.kind == k) {
      NewestDependsOn(base, e', k);
      if Executes(e, c, o) { ExecutedIsNewestIff(e, c, k); }
    }
  }

  /** What lets an older configuration through, in terms of the record: it is missing, not positive, or no newer than the command. */
  lemma UndercutsMeansRecordLags(e: Edge, c: Command, o: Outcome)
    requires Undercuts(e, c, o)
    ensures c.kind !in e.recorded || e.recorded[c.kind] <= 0 || e.recorded[c.kind] <= c.revision < e.settings[c.kind].revision
  {
  }

  /** The edge after the first `n` deliveries. */
  function After(deliveries: seq<Delivery>, n: nat): Edge
    requires n <= |deliveries|
  {
    Run(FRESH, deliveries[..n])
  }

  lemma OneMoreDelivery(deliveries: seq<Delivery>, n: nat)
    requires n < |deliveries|
    ensures After(deliveries, n + 1) == Handle(After(deliveries, n), deliveries[n].command, deliveries[n].outcome).0
  {
    assert deliveries[..n + 1][..n] == deliveries[..n];
  }

  ghost predicate KeptThroughout(deliveries: seq<Delivery>) {
    forall n :: 0 <= n <= |deliveries| ==> NeverRolledBack(After(deliveries, n))
  }

  ghost predicate NothingUndercuts(deliveries: seq<Delivery>) {
    forall n :: 0 <= n < |deliveries| ==> !Undercuts(After(deliveries, n), deliveries[n].command, deliveries[n].outcome)
  }

  /** A run keeps the promise throughout exactly if no delivery in it undercuts the settings. */
  lemma RunKeepsPromiseIff(deliveries: seq<Delivery>)
    ensures KeptThroughout(deliveries) <==> NothingUndercuts(deliveries)
  {
    hide NeverRolledBack, Undercuts, After;
    if KeptThroughout(deliveries) {
      forall n | 0 <= n < |deliveries| ensures !Undercuts(After(deliveries, n), deliveries[n].command, deliveries[n].outcome) {
        assert NeverRolledBack(After(deliveries, n)) && NeverRolledBack(After(deliveries, n + 1));
        OneMoreDelivery(deliveries, n);
        HandleKeepsPromiseIff(After(deliveries, n), deliveries[n].command, deliveries[n].outcome);
      }
    }
    if NothingUndercuts(deliveries) {
      forall n | 0 <= n <= |deliveries| ensures NeverRolledBack(After(deliveries, n)) { KeptUpTo(deliveries, n); }
    }
  }

  lemma {:induction false} KeptUpTo(deliveries: seq<Delivery>, n: nat)
    requires NothingUndercuts(deliveries) && n <= |deliveries|
    ensures NeverRolledBack(After(deliveries, n))
  {
    hide NeverRolledBack, Undercuts;
    if n == 0 {
      FreshKeepsPromise();
    } else {
      KeptUpTo(deliveries, n - 1);
      OneMoreDelivery(deliveries, n - 1);
      HandleKeepsPromiseIff(After(deliveries, n - 1), deliveries[n - 1].command, deliveries[n - 1].outcome);
    }
  }

  lemma FreshKeepsPromise()
    ensures NeverRolledBack(FRESH)
  {
  }

  /** Deliveries whose revisions never go back, kind by kind. */
  ghost predicate InOrder(deliveries: seq<Delivery>) {
    forall i, j :: 0 <= i < j < |deliveries| && deliveries[i].command.kind == deliveries[j].command.kind ==>
      deliveries[i].command.revision <= deliveries[j].command.revision
  }

  ghost predicate FromDeliveries(executed: seq<Command>, deliveries: seq<Delivery>) {
    forall i :: 0 <= i < |executed| ==> exists j :: 0 <= j < |deliveries| && deliveries[j].command == executed[i]
  }

  lemma {:induction false} ExecutedWereDelivered(deliveries: seq<Delivery>, n: nat)
    requires n <= |deliveries|
    ensures FromDeliveries(After(deliveries, n).executed, deliveries[..n])
  {
    if n > 0 {
      ExecutedWereDelivered(deliveries, n - 1);
      OneMoreDelivery(deliveries, n - 1);
      var e, e', c := After(deliveries, n - 1), After(deliveries, n), deliveries[n - 1].command;
      HandleEffect(e, c, deliveries[n - 1].outcome);
      forall i | 0 <= i < |e'.executed| ensures exists j :: 0 <= j < n && deliveries[..n][j].command == e'.executed[i] {
        if i < |e.executed| {
          var j :| 0 <= j < n - 1 && deliveries[..n - 1][j].command == e.executed[i];
          assert deliveries[..n][j].command == e'.executed[i];
        } else {
          assert deliveries[..n][n - 1].command == e'.executed[i];
        }
      }
    }
  }

  lemma {:induction false} OrderedIsKept(deliveries: seq<Delivery>, n: nat)
    requires InOrder(deliveries) && n <= |deliveries|
    ensures NeverRolledBack(After(deliveries, n))
  {
    hide NeverRolledBack, InOrder, Undercuts;
    if n == 0 {
      FreshKeepsPromise();
    } else {
      OrderedIsKept(deliveries, n - 1);
      NextDoesNotUndercut(deliveries, n - 1);
      OneMoreDelivery(deliveries, n - 1);
      HandleKeepsPromiseIff(After(deliveries, n - 1), deliveries[n - 1].command, deliveries[n - 1].outcome);
    }
  }

  lemma NextDoesNotUndercut(deliveries: seq<Delivery>, n: nat)
    requires InOrder(deliveries) && n < |deliveries| && NeverRolledBack(After(deliveries, n))
    ensures !Undercuts(After(deliveries, n), deliveries[n].command, deliveries[n].outcome)
  {
    hide After, Executes;
    var e, c := After(deliveries, n), deliveries[n].command;
    ExecutedWereDelivered(deliveries, n);
    if IsConfiguration(c.kind) && c.kind in e.settings {
      SettingsWereExecuted(e, c.kind);
      var i :| 0 <= i < |e.executed| && e.executed[i] == e.settings[c.kind];
      var j :| 0 <= j < n && deliveries[..n][j].command == e.executed[i];
      assert deliveries[j].command == e.settings[c.kind];
    }
  }

  /** Delivered in order, settings never roll back, however many records are lost. */
  lemma OrderedDeliveriesNeverRollBack(deliveries: seq<Delivery>)
    requires InOrder(deliveries)
    ensures KeptThroughout(deliveries)
  {
    hide NeverRolledBack, After;
    forall n | 0 <= n <= |deliveries| ensures NeverRolledBack(After(deliveries, n)) { OrderedIsKept(deliveries, n); }
  }

  lemma SettingsWereExecuted(e: Edge, k: Kind)
    requires NeverRolledBack(e) && IsConfiguration(k) && k in e.settings
    ensures e.settings[k] in e.executed && e.settings[k].kind == k
  {
  }

  /** Settings that did roll back are put right by the next execution of a command as new as any executed one, such as the retry of the newest. */
  lemma NewestRetryRestores(e: Edge, c: Command, o: Outcome)
    requires IsConfiguration(c.kind) && Executes(e, c, o)
    requires forall i :: 0 <= i < |e.executed| && e.executed[i].kind == c.kind ==> e.executed[i].revision <= c.revision
    ensures Newest(Handle(e, c, o).0, c.kind)
  {
    HandleEffect(e, c, o);
    var e' := Executed(e, c);
    assert e'.executed[|e.executed|] == c;
    NewestDependsOn(e', Handle(e, c, o).0, c.kind);
  }

  /** With every record in place the settings are those of the greatest revision, and so never rolled back. */
  lemma CurrentIsNewest(e: Edge)
    requires Current(e)
    ensures NeverRolledBack(e)
  {
  }

  // ---- Finished commands ------------------------------------------------------------------

  lemma FinishedStays(e: Edge, c: Command, o: Outcome, id: CommandId)
    requires id in e.received && e.received[id].Finished?
    ensures var e' := Handle(e, c, o).0;
            && id in e'.received && e'.received[id] == e.received[id]
            && (e'.executed == e.executed || (c.id != id && e'.executed == e.executed + [c]))
  {
  }

  /** Once a command is finished, its record stays and it never executes again, whatever is delivered. */
  lemma {:induction false} FinishedNeverExecutesAgain(deliveries: seq<Delivery>, n: nat, m: nat, id: CommandId)
    requires n <= m <= |deliveries| && id in After(deliveries, n).received && After(deliveries, n).received[id].Finished?
    ensures var e, e' := After(deliveries, n), After(deliveries, m);
            && id in e'.received && e'.received[id] == e.received[id] && e.executed <= e'.executed
            && forall i :: |e.executed| <= i < |e'.executed| ==> e'.executed[i].id != id
  {
    hide After, Handle;
    if n < m {
      FinishedNeverExecutesAgain(deliveries, n, m - 1, id);
      OneMoreDelivery(deliveries, m - 1);
      FinishedStays(After(deliveries, m - 1), deliveries[m - 1].command, deliveries[m - 1].outcome, id);
    }
  }

  // ---- What is answered -------------------------------------------------------------------

  predicate IsFinished(e: Edge, id: CommandId) { id in e.received && e.received[id].Finished? }

  /**
    What becomes of a command that is not finished yet. A plain success is stored exactly for an
    execution that is confirmed and recorded, a superseded one exactly for a configuration older
    than the recorded revision, a failure exactly for everything else that is due; whatever is
    stored is also the answer.
   */
  lemma StoredResultIff(e: Edge, c: Command, o: Outcome)
    requires !IsFinished(e, c.id)
    ensures var (e', reply) := Handle(e, c, o);
            && (IsFinished(e', c.id) ==> reply == Answer(e'.received[c.id].result))
            && (IsFinished(e', c.id) && e'.received[c.id].result == Succeeded(false) <==> Executes(e, c, o) && o.confirms && o.finishes)
            && (IsFinished(e', c.id) && e'.received[c.id].result == Succeeded(true) <==> Due(e, c, o) && Superseded(e, c) && o.finishes)
            && (IsFinished(e', c.id) && e'.received[c.id].result == Failed <==>
                  Due(e, c, o) && !Superseded(e, c) && !Executes(e, c, o) && o.finishes)
  {
  }

  /**
    What is answered, stored or not. A success is never claimed for a command that did not
    execute; only an expired command, and one of an unknown kind that was cut short, may be
    answered as failed without a stored result.
   */
  lemma AnswersAreHonest(e: Edge, c: Command, o: Outcome)
    requires !IsFinished(e, c.id)
    ensures var reply := Handle(e, c, o).1;
            && (reply == Answer(Succeeded(false)) <==> Executes(e, c, o) && o.confirms && o.finishes)
            && (reply == Answer(Succeeded(true)) <==> Due(e, c, o) && Superseded(e, c) && o.finishes)
            && (reply == Answer(Failed) <==>
                  || (c.id in e.received && c.kind.OtherKind?)
                  || (Due(e, c, o) && !Superseded(e, c) && !Executes(e, c, o) && (o.finishes || (!IsConfiguration(c.kind) && o.expired))))
  {
  }

  lemma OthersKeepTheirRecord(e: Edge, c: Command, o: Outcome, id: CommandId)
    requires id != c.id
    ensures Get(Handle(e, c, o).0.received, id) == Get(e.received, id)
  {
  }

  /** A command of this id was executed. */
  ghost predicate WasExecuted(e: Edge, id: CommandId) { exists i :: 0 <= i < |e.executed| && e.executed[i].id == id }

  ghost predicate Honest(e: Edge) {
    forall id :: IsFinished(e, id) && e.received[id].result == Succeeded(false) ==> WasExecuted(e, id)
  }

  lemma HandleKeepsHonest(e: Edge, c: Command, o: Outcome)
    requires Honest(e)
    ensures Honest(Handle(e, c, o).0)
  {
    hide Handle;
    var e' := Handle(e, c, o).0;
    HandleEffect(e, c, o);
    forall id | IsFinished(e', id) && e'.received[id].result == Succeeded(false) ensures WasExecuted(e', id) {
      if IsFinished(e, id) {
        FinishedStays(e, c, o, id);
        var i :| 0 <= i < |e.executed| && e.executed[i].id == id;
        assert e'.executed[i].id == id;
      } else if IsFinished(e, c.id) {
        FinishedIsAnswered(e, c, o);
      } else {
        if id != c.id { OthersKeepTheirRecord(e, c, o, id); }
        StoredResultIff(e, c, o);
        assert e'.executed[|e.executed|].id == id;
      }
    }
  }

  lemma FinishedIsAnswered(e: Edge, c: Command, o: Outcome)
    requires IsFinished(e, c.id)
    ensures Handle(e, c, o) == (e, Answer(e.received[c.id].result))
  {
  }

  /** What the handler answers to delivery `n` of a run. */
  function ReplyTo(deliveries: seq<Delivery>, n: nat): Reply
    requires n < |deliveries|
  {
    Handle(After(deliveries, n), deliveries[n].command, deliveries[n].outcome).1
  }

  lemma {:induction false} SuccessMeansExecuted(deliveries: seq<Delivery>, n: nat)
    requires n <= |deliveries|
    ensures Honest(After(deliveries, n))
  {
    hide Honest, Handle;
    if n == 0 {
      FreshIsHonest();
    } else {
      SuccessMeansExecuted(deliveries, n - 1);
      OneMoreDelivery(deliveries, n - 1);
      HandleKeepsHonest(After(deliveries, n - 1), deliveries[n - 1].command, deliveries[n - 1].outcome);
    }
  }

  lemma FreshIsHonest()
    ensures Honest(FRESH)
  {
  }

  /**
    Over whole runs: a stored plain success implies that a command of that id was executed, and
    every later delivery of the id is answered with exactly the stored result.
   */
  lemma StoredResultIsTheAnswer(deliveries: seq<Delivery>, n: nat, m: nat)
    requires n <= m < |deliveries| && IsFinished(After(deliveries, n), deliveries[m].command.id)
    ensures var e, id := After(deliveries, n), deliveries[m].command.id;
            && ReplyTo(deliveries, m) == Answer(e.received[id].result)
            && (e.received[id].result == Succeeded(false) ==> WasExecuted(e, id))
  {
    hide After, Handle;
    SuccessMeansExecuted(deliveries, n);
    FinishedNeverExecutesAgain(deliveries, n, m, deliveries[m].command.id);
    FinishedIsAnswered(After(deliveries, m), deliveries[m].command, deliveries[m].outcome);
  }

  /**
    With every record in place, a configuration that is due is answered as superseded exactly if
    a newer one of its kind was executed before; no other kind ever is.
   */
  lemma SupersededIff(deliveries: seq<Delivery>, n: nat)
    requires Recorded(deliveries) && n < |deliveries| && deliveries[n].outcome.finishes
    requires Due(After(deliveries, n), deliveries[n].command, deliveries[n].outcome)
    ensures var e, c := After(deliveries, n), deliveries[n].command;
            ReplyTo(deliveries, n) == Answer(Succeeded(true)) <==>
            c.kind in CONFIGURATIONS && exists i :: 0 <= i < |e.executed| && e.executed[i].kind == c.kind && e.executed[i].revision > c.revision
  {
    hide Handle, After;
    var e, c, o := After(deliveries, n), deliveries[n].command, deliveries[n].outcome;
    RecordsAreCurrent(deliveries, n);
    DueIsNotFinished(e, c, o);
    AnswersAreHonest(e, c, o);
    assert c.kind in CONFIGURATIONS <==> IsConfiguration(c.kind);
    assert c.kind in CONFIGURATIONS ==> CurrentFor(e, c.kind);
    if c.kind in CONFIGURATIONS && c.kind in e.settings {
      var i :| 0 <= i < |e.executed| && e.executed[i] == e.settings[c.kind];
      assert e.executed[i].kind == c.kind && e.executed[i].revision == e.recorded[c.kind];
    }
  }

  lemma DueIsNotFinished(e: Edge, c: Command, o: Outcome)
    requires Due(e, c, o)
    ensures !IsFinished(e, c.id)
  {
  }

  lemma RecordsAreCurrent(deliveries: seq<Delivery>, n: nat)
    requires Recorded(deliveries) && n <= |deliveries|
    ensures Current(After(deliveries, n)) && NeverNegative(After(deliveries, n))
  {
    assert forall i :: 0 <= i < n ==> deliveries[..n][i] == deliveries[i];
    ConfigurationNeverRollsBack(deliveries[..n]);
  }

  /** Every execution left its command's id on record, and none was of an unknown kind. */
  ghost predicate Remembered(e: Edge) {
    forall i :: 0 <= i < |e.executed| ==> e.executed[i].id in e.received && !e.executed[i].kind.OtherKind?
  }

  lemma HandleKeepsRemembered(e: Edge, c: Command, o: Outcome)
    requires Remembered(e)
    ensures Remembered(Handle(e, c, o).0)
  {
    hide Handle;
    var e' := Handle(e, c, o).0;
    HandleEffect(e, c, o);
    HandleRemembers(e, c, o);
  }

  /** What is on record stays on record, and so does whatever is begun. */
  lemma HandleRemembers(e: Edge, c: Command, o: Outcome)
    ensures var received := Handle(e, c, o).0.received;
            e.received.Keys <= received.Keys && (c.id in received <==> c.id in e.received || o.begins)
  {
  }

  /**
    In every run, whatever is lost: a command is put on record before it executes, and a command
    of an unknown kind never executes.
   */
  lemma {:induction false} ExecutedIsOnRecord(deliveries: seq<Delivery>, n: nat)
    requires n <= |deliveries|
    ensures Remembered(After(deliveries, n))
  {
    hide Handle;
    if n > 0 {
      ExecutedIsOnRecord(deliveries, n - 1);
      OneMoreDelivery(deliveries, n - 1);
      HandleKeepsRemembered(After(deliveries, n - 1), deliveries[n - 1].command, deliveries[n - 1].outcome);
    }
  }

  /** Every executed command is finished, and none was executed twice. */
  ghost predicate OnceEach(e: Edge) {
    && (forall i :: 0 <= i < |e.executed| ==> IsFinished(e, e.executed[i].id))
    && (forall i, j :: 0 <= i < j < |e.executed| ==> e.executed[i].id != e.executed[j].id)
  }

  lemma HandleKeepsOnceEach(e: Edge, c: Command, o: Outcome)
    requires OnceEach(e) && (Executes(e, c, o) ==> o.confirms && o.finishes)
    ensures OnceEach(Handle(e, c, o).0)
  {
    hide Handle;
    var e' := Handle(e, c, o).0;
    HandleEffect(e, c, o);
    forall i | 0 <= i < |e'.executed| ensures IsFinished(e', e'.executed[i].id) {
      if i < |e.executed| { FinishedStays(e, c, o, e.executed[i].id); } else { StoredResultIff(e, c, o); }
    }
  }

  /** Unless the confirmation or the result of an execution is lost, no command executes twice, however often it is delivered. */
  lemma {:induction false} ExecutedAtMostOnce(deliveries: seq<Delivery>, n: nat)
    requires n <= |deliveries|
    requires forall k :: 0 <= k < n && Executes(After(deliveries, k), deliveries[k].command, deliveries[k].outcome) ==>
               deliveries[k].outcome.confirms && deliveries[k].outcome.finishes
    ensures OnceEach(After(deliveries, n))
  {
    hide Handle;
    if n > 0 {
      ExecutedAtMostOnce(deliveries, n - 1);
      OneMoreDelivery(deliveries, n - 1);
      HandleKeepsOnceEach(After(deliveries, n - 1), deliveries[n - 1].command, deliveries[n - 1].outcome);
    }
  }

  const DONE := Outcome(true, false, true, true, true)

  /** A crash between execution and record lets an older command through. */
  lemma UnrecordedExecutionCanRollBack()
    ensures var e := Run(FRESH, [Delivery(Command("new", RuntimeSettings, 5, "b"), DONE.(confirms := false)),
                                 Delivery(Command("old", RuntimeSettings, 3, "a"), DONE)]);
            RuntimeSettings in e.settings && e.settings[RuntimeSettings].revision == 3 && Greatest(e.executed, RuntimeSettings, 0) == 5
  {
    var d0, d1 := Delivery(Command("new", RuntimeSettings, 5, "b"), DONE.(confirms := false)), Delivery(Command("old", RuntimeSettings, 3, "a"), DONE);
    RunTwo(FRESH, d0, d1);
    var e := Run(FRESH, [d0, d1]);
    assert e.executed == [d0.command, d1.command];
    assert e.executed[0].revision == 5;
  }

  /** So does a negative revision after revision zero. */
  lemma NegativeRevisionCanRollBack()
    ensures var e := Run(FRESH, [Delivery(Command("new", Permissions, 0, "b"), DONE), Delivery(Command("old", Permissions, -1, "a"), DONE)]);
            Permissions in e.settings && e.settings[Permissions].revision == -1 && Greatest(e.executed, Permissions, 0) == 0
  {
    hide Run;
    var c0, c1 := Command("new", Permissions, 0, "b"), Command("old", Permissions, -1, "a");
    RunTwo(FRESH, Delivery(c0, DONE), Delivery(c1, DONE));
    var e := Handle(FRESH, c0, DONE).0;
    assert e == Edge(map["new" := Finished(Succeeded(false))], map[Permissions := 0], map[Permissions := c0], [c0]);
    assert Handle(e, c1, DONE).0.executed == [c0, c1];
  }

  lemma RunTwo(e: Edge, a: Delivery, b: Delivery)
    ensures Run(e, [a, b]) == Handle(Handle(e, a.command, a.outcome).0, b.command, b.outcome).0
  {
    assert [a][..0] == [] && Run(e, [a]) == Handle(Run(e, []), a.command, a.outcome).0;
    assert [a, b][..1] == [a];
  }

  // ---- The handler -----------------------------------------------------------------------

  /** The edge store and the running configuration, as far as commands change them. */
  class Handler {
    var received: map<CommandId, Status>
    var recorded: map<Kind, int>
    var settings: map<Kind, Command>
    var executed: seq<Command>

    function Value(): Edge
      reads this
    {
      Edge(received, recorded, settings, executed)
    }

    /** `due` says whether to execute; otherwise `cached` answers, or the write failed. */
    method BeginCommand(c: Command, writes: bool) returns (due: bool, cached: Option<Result>)
      modifies `received
      ensures received == if c.id in old(received) || !writes then old(received) else old(received)[c.id := Executing]
      ensures due <==> (if c.id in old(received) then old(received)[c.id].Executing? && !c.kind.OtherKind? else writes)
      ensures cached == if c.id !in old(received) || due then None
                        else Some(if old(received)[c.id].Executing? then Failed else old(received)[c.id].result)
    {
      if c.id in received {
        if received[c.id].Executing? {
          if !c.kind.OtherKind? { return true, None; }
          return false, Some(Failed);
        }
        return false, Some(received[c.id].result);
      }
      if writes { received := received[c.id := Executing]; }
      return writes, None;
    }

    method ConfigurationSuperseded(c: Command) returns (r: bool)
      ensures r == Superseded(Value(), c)
    {
      if !IsConfiguration(c.kind) { return false; }
      if c.kind !in recorded { return false; }
      return recorded[c.kind] > 0 && c.revision < recorded[c.kind];
    }

    method ConfirmConfiguration(c: Command)
      modifies `recorded
      ensures Value() == Confirmed(old(Value()), c)
    {
      if !IsConfiguration(c.kind) { return; }
      if c.kind in recorded && recorded[c.kind] > c.revision { return; }
      recorded := recorded[c.kind := c.revision];
    }

    method FinishCommand(c: Command, r: Result, writes: bool) returns (reply: Reply)
      modifies `received
      ensures (Value(), reply) == Stored(old(Value()), c, r, writes)
    {
      if !writes { return Retry; }
      received := received[c.id := Finished(r)];
      return Answer(r);
    }

    method HandleEdgeCommand(c: Command, o: Outcome) returns (reply: Reply)
      modifies this
      ensures (Value(), reply) == Handle(old(Value()), c, o)
    {
      var due, cached := BeginCommand(c, o.begins);
      if !due {
        if cached.Some? { return Answer(cached.value); }
        return Retry;
      }
      var superseded := ConfigurationSuperseded(c);
      if superseded {
        reply := FinishCommand(c, Succeeded(true), o.finishes);
        return;
      }
      if !IsConfiguration(c.kind) && o.expired {
        reply := FinishCommand(c, Failed, o.finishes);
        return Answer(Failed);
      }
      var supported := !c.kind.OtherKind?;
      if supported && o.executes {
        if IsConfiguration(c.kind) { settings := settings[c.kind := c]; }
        executed := executed + [c];
        if !o.confirms { return Retry; }
        ConfirmConfiguration(c);
      }
      reply := FinishCommand(c, if supported && o.executes then Succeeded(false) else Failed, o.finishes);
    }
  }
}
