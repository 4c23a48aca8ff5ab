/** Disconnecting a client by command, replayed after crashes and interleaved with new leases. */
module Disconnects {
  import opened Base
  import opened EdgeState

  type CommandId = string

  /** `effects` are the durable markers; `reauths` lists the commands that queued a reauth, in order. */
  datatype Node = Node(leases: map<LeaseId, Lease>, clients: set<(int, string)>, effects: map<CommandId, seq<LeaseId>>,
                       reauths: seq<CommandId>)

  predicate ActiveFor(leases: map<LeaseId, Lease>, token: int, client: string, id: LeaseId) {
    id in leases && leases[id].active && leases[id].token == token && leases[id].client == client
  }

  /** `ids` lists each active lease of the client once. */
  ghost predicate Lists(leases: map<LeaseId, Lease>, token: int, client: string, ids: seq<LeaseId>) {
    && (forall id :: id in ids <==> ActiveFor(leases, token, client, id))
    && (forall i, j :: 0 <= i < j < |ids| ==> ids[i] != ids[j])
  }

  class Store {
    var leases: map<LeaseId, Lease>
    var clients: set<(int, string)>
    var effects: map<CommandId, seq<LeaseId>>
    var reauths: seq<CommandId>

    function Value(): Node
      reads this
    {
      Node(leases, clients, effects, reauths)
    }

    method ActiveLeases(token: int, client: string) returns (ids: seq<LeaseId>)
      ensures Lists(leases, token, client, ids)
    {
      ids := [];
      var left := leases.Keys;
      while left != {}
        invariant left <= leases.Keys
        invariant forall id :: id in ids <==> id !in left && ActiveFor(leases, token, client, id)
        invariant forall i, j :: 0 <= i < j < |ids| ==> ids[i] != ids[j]
        decreases left
      {
        var id :| id in left;
        left := left - {id};
        if leases[id].active && leases[id].token == token && leases[id].client == client { ids := ids + [id]; }
      }
    }

    /** Revocation, reauth message and marker commit together; a marker that is there answers alone. */
    method DisconnectClientForCommand(command: CommandId, token: int, client: string, commits: bool) returns (r: Option<seq<LeaseId>>)
      modifies this
      ensures Disconnected(old(Value()), command, token, client, commits, Value(), r)
    {
      if command in effects { return Some(effects[command]); }
      if (token, client) !in clients { return None; }
      var ids := ActiveLeases(token, client);
      if !commits { return None; }
      leases := map id | id in leases ::
        if leases[id].token == token && leases[id].client == client && leases[id].active then leases[id].(active := false) else leases[id];
      reauths := reauths + [command];
      effects := effects[command := ids];
      return Some(ids);
    }
  }

  /** What one execution may do, whatever order the leases are listed in. */
  ghost predicate Disconnected(n: Node, command: CommandId, token: int, client: string, commits: bool, n': Node, r: Option<seq<LeaseId>>) {
    if command in n.effects then n' == n && r == Some(n.effects[command])
    else if (token, client) !in n.clients || !commits then n' == n && r.None?
    else
      && r.Some? && Lists(n.leases, token, client, r.value)
      && n' == n.(leases := RevokedFor(n.leases, token, client), reauths := n.reauths + [command],
                  effects := n.effects[command := r.value])
  }

  // ---- Whole runs ------------------------------------------------------------------------

  /** A step: some command executes or is replayed, or the leases and clients change in any other way. */
  ghost predicate Next(n: Node, n': Node) {
    || (exists command, token, client, commits, r :: Disconnected(n, command, token, client, commits, n', r))
    || (n'.effects == n.effects && n'.reauths == n.reauths)
  }

  /** One reauth per marker, one marker per command. */
  ghost predicate Good(n: Node) {
    && (forall i, j :: 0 <= i < j < |n.reauths| ==> n.reauths[i] != n.reauths[j])
    && (forall c :: c in n.effects <==> c in n.reauths)
  }

  lemma NextKeeps(n: Node, n': Node)
    requires Good(n) && Next(n, n')
    ensures Good(n')
    ensures forall c :: c in n.effects ==> c in n'.effects && n'.effects[c] == n.effects[c]
  {
  }

  ghost predicate IsRun(run: seq<Node>) {
    |run| > 0 && Good(run[0]) && forall i :: 0 <= i < |run| - 1 ==> Next(run[i], run[i + 1])
  }

  lemma {:induction false} MarkersStay(run: seq<Node>, k: nat, command: CommandId)
    requires IsRun(run) && k < |run| && command in run[k].effects
    ensures Good(run[|run| - 1])
    ensures command in run[|run| - 1].effects && run[|run| - 1].effects[command] == run[k].effects[command]
    decreases |run|
  {
    GoodAlong(run, |run| - 1);
    if k < |run| - 1 {
      var init := run[..|run| - 1];
      MarkersStay(init, k, command);
      assert Next(run[|run| - 2], run[|run| - 2 + 1]);
      NextKeeps(run[|run| - 2], run[|run| - 1]);
    }
  }

  lemma {:induction false} GoodAlong(run: seq<Node>, k: nat)
    requires IsRun(run) && k < |run|
    ensures Good(run[k])
  {
    if k > 0 {
      GoodAlong(run, k - 1);
      assert Next(run[k - 1], run[k - 1 + 1]);
      NextKeeps(run[k - 1], run[k]);
    }
  }

  /**
    However often a command that has committed is replayed, and whatever leases were issued
    since: the replay returns the set of its first commit, revokes nothing, and no second
    reauth is ever queued.
   */
  lemma ReplayRevokesNothing(run: seq<Node>, k: nat, command: CommandId, token: int, client: string, commits: bool,
                             n': Node, r: Option<seq<LeaseId>>)
    requires IsRun(run) && k < |run| && command in run[k].effects
    requires Disconnected(run[|run| - 1], command, token, client, commits, n', r)
    ensures n' == run[|run| - 1] && r == Some(run[k].effects[command])
    ensures multiset(n'.reauths)[command] == 1
  {
    MarkersStay(run, k, command);
    Once(n'.reauths, command);
  }

  // ---- Where a marker comes from ----------------------------------------------------------

  /** Step `j` of the run is the execution that commits `command` for this registered client, and `ids` are the leases it found active. */
  ghost predicate CommitsAt(run: seq<Node>, j: nat, command: CommandId, token: int, client: string, ids: seq<LeaseId>)
    requires j + 1 < |run|
  {
    && command !in run[j].effects && (token, client) in run[j].clients && Lists(run[j].leases, token, client, ids)
    && run[j + 1] == run[j].(leases := RevokedFor(run[j].leases, token, client), reauths := run[j].reauths + [command],
                             effects := run[j].effects[command := ids])
  }

  /** A marker that was not there at the start was written by one step, which found exactly its leases active. */
  lemma {:induction false} MarkerHasACommit(run: seq<Node>, k: nat, command: CommandId)
    returns (j: nat, token: int, client: string)
    requires IsRun(run) && k < |run| && command !in run[0].effects && command in run[k].effects
    ensures j < k && CommitsAt(run, j, command, token, client, run[k].effects[command])
    decreases k
  {
    assert Next(run[k - 1], run[k - 1 + 1]);
    GoodAlong(run, k - 1);
    if command in run[k - 1].effects {
      NextKeeps(run[k - 1], run[k]);
      j, token, client := MarkerHasACommit(run, k - 1, command);
    } else {
      var other, t, c, commits, r :| Disconnected(run[k - 1], other, t, c, commits, run[k], r);
      j, token, client := k - 1, t, c;
    }
  }

  /**
    Over a whole run, one command revokes exactly the leases that were active for its client at
    its first commit: those leases and no others change at that step, and any other step that is
    an execution of the command, before or after, changes nothing at all.
   */
  lemma CommandRevokesOnce(run: seq<Node>, k: nat, command: CommandId) returns (j: nat, token: int, client: string)
    requires IsRun(run) && k < |run| && command !in run[0].effects && command in run[k].effects
    ensures j < k && CommitsAt(run, j, command, token, client, run[k].effects[command])
    ensures forall id :: id in run[k].effects[command] <==>
      id in run[j].leases && run[j].leases[id].active && run[j].leases[id].token == token && run[j].leases[id].client == client
    ensures forall id :: id in run[j].leases ==>
      id in run[j + 1].leases
      && run[j + 1].leases[id] == if id in run[k].effects[command] then run[j].leases[id].(active := false) else run[j].leases[id]
    ensures forall i :: 0 <= i < |run| - 1 && i != j && ExecutesAt(run, i, command) ==> run[i + 1] == run[i]
  {
    j, token, client := MarkerHasACommit(run, k, command);
    forall i | 0 <= i < |run| - 1 && i != j && ExecutesAt(run, i, command) ensures run[i + 1] == run[i] {
      OtherExecutionsDoNothing(run, j, i, command);
    }
  }

  /** Step `i` of the run can be an execution of the command, for whatever client it names. */
  ghost predicate ExecutesAt(run: seq<Node>, i: nat, command: CommandId)
    requires i + 1 < |run|
  {
    Executes(run[i], run[i + 1], command)
  }

  ghost predicate Executes(n: Node, n': Node, command: CommandId) {
    exists token, client, commits, r :: Disconnected(n, command, token, client, commits, n', r)
  }

  lemma OtherExecutionsDoNothing(run: seq<Node>, j: nat, i: nat, command: CommandId)
    requires IsRun(run) && i + 1 < |run| && j + 1 < |run| && i != j && command !in run[j].effects && command in run[j + 1].effects
    requires ExecutesAt(run, i, command)
    ensures run[i + 1] == run[i]
  {
    if i > j {
      MarkersStay(run[..i + 1], j + 1, command);
    } else if command in run[i + 1].effects {
      MarkersStay(run[..j + 1], i + 1, command);
    }
  }
}
