/** Completing commands on the controller: the node directory follows the greatest completed revision. */
module Catalog {
  import opened Base

  type CommandId = string

  datatype Status = Pending | Delivered | Succeeded | Failed

  /** A stored command; `revision` is missing when its payload does not parse. */
  datatype Record = Record(settings: bool, revision: Option<int>, status: Status)

  datatype Report = Success(superseded: bool) | Failure | Again

  /** `written` lists the revisions written to the directory, in order. */
  datatype Directory = Directory(commands: map<CommandId, Record>, written: seq<int>)

  function Revision(r: Record): int { if r.revision.Some? then r.revision.value else 0 }

  predicate Completed(d: Directory, id: CommandId) {
    id in d.commands && d.commands[id].settings && d.commands[id].status.Succeeded?
  }

  /** What `greatestCompletedConfigurationRevision` returns over the completed settings commands. */
  ghost predicate IsGreatest(d: Directory, g: int) {
    && g >= 0
    && (forall id :: Completed(d, id) && d.commands[id].revision.Some? ==> d.commands[id].revision.value <= g)
    && (g == 0 || exists id :: Completed(d, id) && d.commands[id].revision == Some(g))
  }

  /** The loop over the payloads of the completed commands. */
  method GreatestCompletedConfigurationRevision(payloads: seq<Option<int>>) returns (g: int)
    ensures g >= 0 && (forall i :: 0 <= i < |payloads| && payloads[i].Some? ==> payloads[i].value <= g)
    ensures g == 0 || Some(g) in payloads
  {
    g := 0;
    for k := 0 to |payloads|
      invariant g >= 0 && (forall i :: 0 <= i < k && payloads[i].Some? ==> payloads[i].value <= g)
      invariant g == 0 || Some(g) in payloads[..k]
    {
      if payloads[k].Some? && payloads[k].value > g { g := payloads[k].value; }
      assert payloads[..k + 1] == payloads[..k] + [payloads[k]];
    }
    assert payloads[..|payloads|] == payloads;
  }

  class Store {
    var commands: map<CommandId, Record>
    var written: seq<int>

    function Value(): Directory
      reads this
    {
      Directory(commands, written)
    }

    /** The query behind the loop: the payloads of all completed settings commands, in some order. */
    method CompletedPayloads() returns (payloads: seq<Option<int>>)
      ensures forall id :: Completed(Value(), id) ==> commands[id].revision in payloads
      ensures forall r :: r in payloads ==> exists id :: Completed(Value(), id) && commands[id].revision == r
    {
      payloads := [];
      var left := commands.Keys;
      while left != {}
        invariant left <= commands.Keys
        invariant forall id :: Completed(Value(), id) && id !in left ==> commands[id].revision in payloads
        invariant forall r :: r in payloads ==> exists id :: Completed(Value(), id) && commands[id].revision == r
        decreases left
      {
        var id :| id in left;
        left := left - {id};
        if commands[id].settings && commands[id].status.Succeeded? {
          assert Completed(Value(), id);
          payloads := payloads + [commands[id].revision];
        }
      }
    }

    method CompleteNodeCommand(id: CommandId, report: Report) returns (ok: bool)
      modifies this
      ensures ok <==> Completes(old(Value()), id, report)
      ensures if ok then IsCompletion(old(Value()), id, report, Value()) else Value() == old(Value())
    {
      if id !in commands { return false; }
      var record := commands[id];
      if record.status.Succeeded? || record.status.Failed? { return true; }
      var status := match report case Success(_) => Succeeded case Failure => Failed case Again => Pending;
      ghost var before := Value();
      var saved := commands;
      commands := commands[id := record.(status := status)];
      if record.settings && status.Succeeded? {
        var payloads := CompletedPayloads();
        var greatest := GreatestCompletedConfigurationRevision(payloads);
        assert IsGreatest(Value(), greatest) by {
          if greatest != 0 {
            var other :| Completed(Value(), other) && commands[other].revision == Some(greatest);
          }
        }
        GreatestIsBound(Value(), greatest, Revision(record));
        GreatestIsBound(Value(), greatest, 0);
        if report.superseded || Revision(record) < greatest { return true; }
        if record.revision.None? {
          commands := saved;
          return false;
        }
        written := written + [record.revision.value];
      }
      return true;
    }
  }

  function Marked(d: Directory, id: CommandId, report: Report): Directory
    requires id in d.commands
  {
    var status := match report case Success(_) => Succeeded case Failure => Failed case Again => Pending;
    d.(commands := d.commands[id := d.commands[id].(status := status)])
  }

  predicate Open(d: Directory, id: CommandId) {
    id in d.commands && !d.commands[id].status.Succeeded? && !d.commands[id].status.Failed?
  }

  /** The completion commits: the command exists, and a settings payload that is to be written parses. */
  ghost predicate Completes(d: Directory, id: CommandId, report: Report) {
    id in d.commands
    && (Open(d, id) && d.commands[id].settings && report == Success(false) && d.commands[id].revision.None? ==>
          exists other :: Completed(Marked(d, id, report), other) && Revision(d.commands[other]) > 0)
  }

  /** The directory is rewritten exactly by a first success that is not superseded and not older than any completed command. */
  ghost predicate IsCompletion(d: Directory, id: CommandId, report: Report, d': Directory)
    requires id in d.commands
  {
    if !Open(d, id) then d' == d
    else
      && d'.commands == Marked(d, id, report).commands
      && (d'.written == d.written || d'.written == d.written + [Revision(d.commands[id])])
      && (d'.written != d.written <==>
            && d.commands[id].settings && report == Success(false)
            && Revision(d.commands[id]) >= 0
            && forall other :: Completed(d', other) ==> Revision(d.commands[other]) <= Revision(d.commands[id]))
  }

  /** Reaching the greatest completed revision is reaching every completed one, and zero. */
  lemma GreatestIsBound(d: Directory, g: int, r: int)
    requires IsGreatest(d, g)
    ensures r >= g <==> r >= 0 && forall id :: Completed(d, id) ==> Revision(d.commands[id]) <= r
  {
    if r >= 0 && g != 0 && forall id :: Completed(d, id) ==> Revision(d.commands[id]) <= r {
      var id :| Completed(d, id) && d.commands[id].revision == Some(g);
      assert Revision(d.commands[id]) == g;
    }
  }

  // ---- Whole runs ------------------------------------------------------------------------

  datatype Step =
    | Queue(id: CommandId, record: Record)
    | Deliver(id: CommandId)
    | Arrive(id: CommandId, report: Report)

  /** A command is queued, delivered, or its result arrives; a step that is refused changes nothing. */
  ghost predicate Next(d: Directory, step: Step, d': Directory) {
    match step
    case Queue(id, record) =>
      d' == if id !in d.commands && record.status.Pending? then d.(commands := d.commands[id := record]) else d
    case Deliver(id) =>
      d' == if id in d.commands && d.commands[id].status.Pending?
            then d.(commands := d.commands[id := d.commands[id].(status := Delivered)]) else d
    case Arrive(id, report) => if Completes(d, id, report) then IsCompletion(d, id, report, d') else d' == d
  }

  /** The run starts with an empty directory and no commands; step `i` leads from `run[i]` to `run[i + 1]`. */
  ghost predicate IsRun(run: seq<Directory>, steps: seq<Step>) {
    && |run| == |steps| + 1 && run[0] == Directory(map[], [])
    && forall i :: 0 <= i < |steps| ==> NextAt(run, steps, i)
  }

  ghost predicate NextAt(run: seq<Directory>, steps: seq<Step>, i: nat)
    requires |run| == |steps| + 1 && i < |steps|
  {
    Next(run[i], steps[i], run[i + 1])
  }

  /** The result that settled the command was a plain success. */
  ghost predicate Plain(run: seq<Directory>, steps: seq<Step>, id: CommandId) {
    exists i :: 0 <= i < |steps| && i < |run| && steps[i] == Arrive(id, Success(false)) && Open(run[i], id)
                && Completes(run[i], id, Success(false))
  }

  ghost predicate Ascending(s: seq<int>) { forall i, j :: 0 <= i < j < |s| ==> s[i] <= s[j] }

  /** The revision is that of a settings command that a plain success completed. */
  ghost predicate Backs(run: seq<Directory>, steps: seq<Step>, d: Directory, revision: int) {
    revision >= 0 && exists id :: Completed(d, id) && d.commands[id].revision == Some(revision) && Plain(run, steps, id)
  }

  /** Every revision written is backed by a completed command, and every plain success as great as all completed commands is written. */
  ghost predicate Good(run: seq<Directory>, steps: seq<Step>, d: Directory) {
    && Ascending(d.written)
    && (forall i :: 0 <= i < |d.written| ==> Backs(run, steps, d, d.written[i]))
    && (forall id :: Plain(run, steps, id) ==> id in d.commands && d.commands[id].status.Succeeded?)
    && (forall id :: Plain(run, steps, id) && Leads(d, id) ==> Revision(d.commands[id]) in d.written)
  }

  /** No completed settings command is newer. */
  ghost predicate Leads(d: Directory, id: CommandId) {
    Completed(d, id) && Revision(d.commands[id]) >= 0
    && forall other :: Completed(d, other) ==> Revision(d.commands[other]) <= Revision(d.commands[id])
  }

  /** What a result does to the command it is about: it settles it once and for all, or leaves it open for another try. */
  lemma ReportSettles(d: Directory, id: CommandId, report: Report, d': Directory)
    requires Completes(d, id, report) && IsCompletion(d, id, report, d')
    ensures id in d'.commands && d'.commands.Keys == d.commands.Keys
    ensures !Open(d, id) ==> d' == d
    ensures Open(d, id) ==>
              && (report.Success? <==> d'.commands[id].status.Succeeded?)
              && (report.Failure? <==> d'.commands[id].status.Failed?)
              && (report.Again? <==> Open(d', id))
    ensures forall other :: other in d.commands ==>
              && d'.commands[other].revision == d.commands[other].revision && d'.commands[other].settings == d.commands[other].settings
              && (other != id ==> d'.commands[other] == d.commands[other])
  {
  }

  lemma NextKeepsCommands(d: Directory, step: Step, d': Directory, id: CommandId)
    requires Next(d, step, d') && id in d.commands
    ensures id in d'.commands && d'.commands[id].revision == d.commands[id].revision && d'.commands[id].settings == d.commands[id].settings
    ensures !Open(d, id) ==> d'.commands[id] == d.commands[id]
  {
    if step.Arrive? && Completes(d, step.id, step.report) { ReportSettles(d, step.id, step.report, d'); }
  }

  lemma PlainOneMore(run: seq<Directory>, steps: seq<Step>, more: Directory, step: Step, id: CommandId)
    requires |run| == |steps| + 1
    ensures Plain(run + [more], steps + [step], id) <==>
            || Plain(run, steps, id)
            || (step == Arrive(id, Success(false)) && Open(run[|steps|], id) && Completes(run[|steps|], id, Success(false)))
  {
    hide Completes;
    var run', steps' := run + [more], steps + [step];
    assert run'[|steps|] == run[|steps|] && steps'[|steps|] == step;
    assert forall i :: 0 <= i < |steps| ==> steps'[i] == steps[i] && run'[i] == run[i];
    if Plain(run, steps, id) {
      var i :| 0 <= i < |steps| && i < |run| && steps[i] == Arrive(id, Success(false)) && Open(run[i], id) && Completes(run[i], id, Success(false));
      assert steps'[i] == Arrive(id, Success(false));
    }
  }

  lemma BacksStays(run: seq<Directory>, steps: seq<Step>, d: Directory, d': Directory, step: Step, revision: int)
    requires |run| == |steps| + 1 && Backs(run, steps, d, revision) && Next(d, step, d')
    ensures Backs(run + [d'], steps + [step], d', revision)
  {
    hide Next, Plain;
    var id :| Completed(d, id) && d.commands[id].revision == Some(revision) && Plain(run, steps, id);
    NextKeepsCommands(d, step, d', id);
    PlainOneMore(run, steps, d', step, id);
    assert Completed(d', id) && d'.commands[id].revision == Some(revision);
  }

  /** Completed commands stay, so whoever leads afterwards led before, or is the one just completed. */
  lemma LeadsBefore(d: Directory, step: Step, d': Directory, id: CommandId)
    requires Next(d, step, d') && Leads(d', id) && Completed(d, id)
    ensures Leads(d, id) && Revision(d'.commands[id]) == Revision(d.commands[id])
  {
    hide Next;
    NextKeepsCommands(d, step, d', id);
    forall other | Completed(d, other) ensures Revision(d.commands[other]) <= Revision(d.commands[id]) {
      NextKeepsCommands(d, step, d', other);
      assert Completed(d', other);
    }
  }

  /** A plain success that leads is written. */
  lemma LeaderIsWritten(d: Directory, id: CommandId, d': Directory)
    requires Open(d, id) && Completes(d, id, Success(false)) && IsCompletion(d, id, Success(false), d')
    ensures Leads(d', id) ==> d'.written == d.written + [Revision(d.commands[id])]
    ensures d'.written == d.written || (d'.written == d.written + [Revision(d.commands[id])] && Leads(d', id) && d.commands[id].revision.Some?)
  {
    if d'.written != d.written && d.commands[id].revision.None? {
      var other :| Completed(Marked(d, id, Success(false)), other) && Revision(d.commands[other]) > 0;
      assert Completed(d', other);
    }
  }

  lemma OnlyLeadersAreWritten(d: Directory, step: Step, d': Directory)
    requires Next(d, step, d') && d'.written != d.written
    ensures step.Arrive? && step.report == Success(false) && Open(d, step.id) && Completes(d, step.id, step.report)
    ensures IsCompletion(d, step.id, step.report, d')
  {
  }

  lemma WrittenStaysBacked(run: seq<Directory>, steps: seq<Step>, d: Directory, step: Step, d': Directory)
    requires |run| == |steps| + 1 && run[|steps|] == d && Good(run, steps, d) && Next(d, step, d')
    ensures Ascending(d'.written)
    ensures forall i :: 0 <= i < |d'.written| ==> Backs(run + [d'], steps + [step], d', d'.written[i])
  {
    hide Next, Plain, Leads;
    forall i | 0 <= i < |d.written| ensures Backs(run + [d'], steps + [step], d', d.written[i]) {
      BacksStays(run, steps, d, d', step, d.written[i]);
    }
    if d'.written != d.written {
      OnlyLeadersAreWritten(d, step, d');
      LeaderIsWritten(d, step.id, d');
      ReportSettles(d, step.id, step.report, d');
      PlainOneMore(run, steps, d', step, step.id);
      NewIsBacked(run + [d'], steps + [step], d', step.id);
      forall i | 0 <= i < |d.written| ensures d.written[i] <= Revision(d.commands[step.id]) {
        BackedBelow(run + [d'], steps + [step], d', d.written[i], step.id);
      }
    }
  }

  lemma NewIsBacked(run: seq<Directory>, steps: seq<Step>, d: Directory, id: CommandId)
    requires Leads(d, id) && d.commands[id].revision.Some? && Plain(run, steps, id)
    ensures Backs(run, steps, d, Revision(d.commands[id]))
  {
  }

  lemma BackedBelow(run: seq<Directory>, steps: seq<Step>, d: Directory, revision: int, id: CommandId)
    requires Backs(run, steps, d, revision) && Leads(d, id)
    ensures revision <= Revision(d.commands[id])
  {
    var other :| Completed(d, other) && d.commands[other].revision == Some(revision) && Plain(run, steps, other);
    assert Revision(d.commands[other]) == revision;
  }

  lemma PlainStaysWritten(run: seq<Directory>, steps: seq<Step>, d: Directory, step: Step, d': Directory, id: CommandId)
    requires |run| == |steps| + 1 && run[|steps|] == d && Good(run, steps, d) && Next(d, step, d')
    requires Plain(run + [d'], steps + [step], id)
    ensures id in d'.commands && d'.commands[id].status.Succeeded?
    ensures Leads(d', id) ==> Revision(d'.commands[id]) in d'.written
  {
    hide Plain, Leads, Completes;
    PlainOneMore(run, steps, d', step, id);
    WrittenGrows(d, step, d');
    if Plain(run, steps, id) {
      NextKeepsCommands(d, step, d', id);
      if Leads(d', id) {
        LeaderIsCompleted(d', id);
        LeadsBefore(d, step, d', id);
      }
    } else {
      ReportSettles(d, id, Success(false), d');
      LeaderIsWritten(d, id, d');
    }
  }

  lemma LeaderIsCompleted(d: Directory, id: CommandId)
    requires Leads(d, id)
    ensures Completed(d, id)
  {
  }

  lemma WrittenGrows(d: Directory, step: Step, d': Directory)
    requires Next(d, step, d')
    ensures d.written <= d'.written
  {
  }

  lemma {:induction false} RunIsGood(run: seq<Directory>, steps: seq<Step>)
    requires IsRun(run, steps)
    ensures Good(run, steps, run[|steps|])
    decreases |steps|
  {
    hide Next, Plain, Leads, Backs;
    if steps == [] {
      NothingIsPlain(run);
    } else {
      var run0, steps0 := run[..|steps|], steps[..|steps| - 1];
      var d, step, d' := run[|steps| - 1], steps[|steps| - 1], run[|steps|];
      assert run0 + [d'] == run && steps0 + [step] == steps;
      forall i | 0 <= i < |steps0| ensures NextAt(run0, steps0, i) { assert NextAt(run, steps, i); }
      RunIsGood(run0, steps0);
      assert NextAt(run, steps, |steps| - 1);
      WrittenStaysBacked(run0, steps0, d, step, d');
      forall id | Plain(run, steps, id)
        ensures id in d'.commands && d'.commands[id].status.Succeeded? && (Leads(d', id) ==> Revision(d'.commands[id]) in d'.written)
      {
        PlainStaysWritten(run0, steps0, d, step, d', id);
      }
    }
  }

  lemma NothingIsPlain(run: seq<Directory>)
    ensures forall id :: !Plain(run, [], id)
  {
  }

  /**
    Over duplicated, reordered and late results: the revisions written to the directory never
    decrease, each is that of a settings command the edge really executed, and the directory
    ends with the greatest completed revision exactly if a command of that revision was executed
    and not superseded.
   */
  lemma CatalogNeverRollsBack(run: seq<Directory>, steps: seq<Step>)
    requires IsRun(run, steps)
    ensures var d := run[|steps|];
            && Ascending(d.written)
            && (forall i :: 0 <= i < |d.written| ==> Backs(run, steps, d, d.written[i]))
            && (forall id :: Leads(d, id) ==>
                  (d.written != [] && d.written[|d.written| - 1] == Revision(d.commands[id]) <==>
                   Backs(run, steps, d, Revision(d.commands[id]))))
  {
    hide NextAt, Plain, Backs;
    RunIsGood(run, steps);
    var d := run[|steps|];
    forall id | Leads(d, id)
      ensures d.written != [] && d.written[|d.written| - 1] == Revision(d.commands[id]) <==>
              Backs(run, steps, d, Revision(d.commands[id]))
    {
      if Backs(run, steps, d, Revision(d.commands[id])) { GreatestIsLast(run, steps, d, id); }
    }
  }

  lemma GreatestIsLast(run: seq<Directory>, steps: seq<Step>, d: Directory, id: CommandId)
    requires Good(run, steps, d) && Leads(d, id) && Backs(run, steps, d, Revision(d.commands[id]))
    ensures d.written != [] && d.written[|d.written| - 1] == Revision(d.commands[id])
  {
    hide Plain;
    var revision := Revision(d.commands[id]);
    var other :| Completed(d, other) && d.commands[other].revision == Some(revision) && Plain(run, steps, other);
    assert Leads(d, other);
    var i :| 0 <= i < |d.written| && d.written[i] == revision;
    BackedBelow(run, steps, d, d.written[|d.written| - 1], id);
  }

  /** A settled command stays as it is, whatever arrives later. */
  lemma {:induction false} SettledStays(run: seq<Directory>, steps: seq<Step>, n: nat, m: nat, id: CommandId)
    requires IsRun(run, steps) && n <= m <= |steps| && id in run[n].commands && !Open(run[n], id)
    ensures id in run[m].commands && run[m].commands[id] == run[n].commands[id]
  {
    hide Next;
    if n < m {
      SettledStays(run, steps, n, m - 1, id);
      assert NextAt(run, steps, m - 1);
      NextKeepsCommands(run[m - 1], steps[m - 1], run[m], id);
    }
  }
}
