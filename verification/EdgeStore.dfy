/** The edge store as the program updates it, one statement of a transaction after the other. */
module EdgeStore {
  import opened Base
  import opened Identities
  import opened EdgeTables
  import opened EdgeState

  /** The working copy of an open transaction: committed as a whole or dropped. */
  class Transaction {
    var t: Tables
    var blocked: map<Ip, Block>
    var leases: map<LeaseId, Lease>

    constructor (st: State)
      ensures t == st.tables && blocked == st.blocked && leases == st.leases
    {
      t, blocked, leases := st.tables, st.blocked, st.leases;
    }

    /** One `UPDATE` per token of the batch, before any cached row is touched. */
    method RevokeRotated(rows: seq<(int, Token)>)
      modifies this`leases
      ensures leases == Rotated(old(leases), t.tokens, rows)
    {
      assert leases == Rotated(leases, t.tokens, rows[..0]);
      for i := 0 to |rows|
        invariant leases == Rotated(old(leases), t.tokens, rows[..i])
      {
        var id, hash := rows[i].0, rows[i].1.hash;
        leases := map k | k in leases ::
          if leases[k].token == id && id in t.tokens && t.tokens[id].hash != hash then Deactivated(leases[k]) else leases[k];
        forall token ensures Rotates(t.tokens, rows[..i + 1], token) <==>
                             Rotates(t.tokens, rows[..i], token) || (token == id && id in t.tokens && t.tokens[id].hash != hash)
        {
          RotatesOneMore(t.tokens, rows, i, token);
        }
      }
      assert rows[..|rows|] == rows;
    }

    /** The deletions of one user: grants first, while the tokens that own them are still there. */
    method DeleteUser(id: UserId)
      modifies this`t
      ensures t == Without(old(t), {id})
    {
      var owned := set k | k in t.tokens && t.tokens[k].user == id;
      t := t.(grants := t.grants - (set g | g in t.grants && t.grants[g].token in owned));
      t := t.(tokens := t.tokens - owned);
      t := t.(policies := t.policies - {id});
      t := t.(dpi := t.dpi - {id});
      t := t.(users := t.users - {id});
      assert owned == TokensOf(old(t), {id}).Keys;
      assert (set g | g in old(t).grants && old(t).grants[g].token in owned) == GrantsOf(old(t), {id}).Keys;
    }

    method DeleteUsers(ids: seq<UserId>)
      modifies this`t
      ensures t == Without(old(t), Elements(ids))
    {
      WithoutNobody(t);
      assert Elements(ids[..0]) == {};
      for i := 0 to |ids|
        invariant t == Without(old(t), Elements(ids[..i]))
      {
        WithoutOneMore(old(t), Elements(ids[..i]), ids[i]);
        assert Elements(ids[..i + 1]) == Elements(ids[..i]) + {ids[i]};
        DeleteUser(ids[i]);
      }
      assert ids[..|ids|] == ids;
    }

    method Rewrite(b: Batch) returns (ok: bool)
      requires UniqueHashes(t.tokens)
      modifies this`t
      ensures ok <==> Insertable(Kept(old(t), b), b)
      ensures ok ==> t == Plus(Kept(old(t), b), Rows(b)) && UniqueHashes(t.tokens)
    {
      if b.incremental {
        DeleteUsers(Touched(b));
      } else if !b.baseline {
        t := EMPTY;
      }
      var inserted := InsertBatch(t, b);
      if inserted.None? { return false; }
      t := inserted.value;
      return true;
    }

    method MergeBlocked(replace: bool, rows: seq<(Ip, Block)>, removed: seq<Ip>)
      modifies this`blocked
      ensures blocked == ((if replace then map[] else old(blocked)) + Collected(rows)) - Elements(removed)
    {
      if replace { blocked := map[]; }
      var start := blocked;
      for i := 0 to |rows|
        invariant blocked == start + Collected(rows[..i])
      {
        assert rows[..i + 1][..i] == rows[..i];
        blocked := blocked[rows[i].0 := rows[i].1];
      }
      assert rows[..|rows|] == rows;
      for i := 0 to |removed|
        invariant blocked == (start + Collected(rows)) - Elements(removed[..i])
      {
        assert Elements(removed[..i + 1]) == Elements(removed[..i]) + {removed[i]};
        blocked := blocked - {removed[i]};
      }
      assert removed[..|removed|] == removed;
    }
  }

  lemma RotatesOneMore(cached: map<int, Token>, rows: seq<(int, Token)>, i: nat, token: int)
    requires i < |rows|
    ensures Rotates(cached, rows[..i + 1], token) <==>
            Rotates(cached, rows[..i], token)
            || (token == rows[i].0 && token in cached && cached[token].hash != rows[i].1.hash)
  {
    if Rotates(cached, rows[..i], token) {
      var k :| 0 <= k < i && rows[..i][k].0 == token && token in cached && cached[token].hash != rows[..i][k].1.hash;
      assert rows[..i + 1][k] == rows[..i][k];
    }
    if token == rows[i].0 && token in cached && cached[token].hash != rows[i].1.hash {
      assert rows[..i + 1][i] == rows[i];
    }
    if Rotates(cached, rows[..i + 1], token) {
      var k :| 0 <= k < i + 1 && rows[..i + 1][k].0 == token && token in cached && cached[token].hash != rows[..i + 1][k].1.hash;
      assert k == i || rows[..i][k] == rows[..i + 1][k];
    }
  }

  /** `INSERT INTO cached_tokens`, whose hash is unique beside the primary key. */
  method InsertTokens(table: map<int, Token>, rows: seq<(int, Token)>) returns (r: Option<map<int, Token>>)
    requires UniqueHashes(table)
    ensures r.Some? <==> DistinctKeys(rows) && table.Keys !! Collected(rows).Keys && UniqueHashes(table + Collected(rows))
    ensures r.Some? ==> r.value == table + Collected(rows)
  {
    hide DistinctKeys, UniqueHashes;
    var whole := InsertRows(table, rows);
    if whole.None? { return None; }
    var t := table;
    for i := 0 to |rows|
      invariant t == table + Collected(rows[..i]) && UniqueHashes(t)
    {
      CollectedOneMore(rows, i);
      if k :| k in t && k != rows[i].0 && t[k].hash == rows[i].1.hash {
        ClashStays(table, rows, i, k);
        return None;
      }
      HashStaysUnique(t, rows[i].0, rows[i].1);
      t := t[rows[i].0 := rows[i].1];
    }
    assert rows[..|rows|] == rows;
    return Some(t);
  }

  lemma HashStaysUnique(t: map<int, Token>, id: int, token: Token)
    requires UniqueHashes(t) && forall k :: k in t && k != id ==> t[k].hash != token.hash
    ensures UniqueHashes(t[id := token])
  {
  }

  /** A hash that meets another token's on the way still meets it at the end, because no row is overwritten. */
  lemma ClashStays(table: map<int, Token>, rows: seq<(int, Token)>, i: nat, k: int)
    requires DistinctKeys(rows) && table.Keys !! Collected(rows).Keys && i < |rows|
    requires k in table + Collected(rows[..i]) && k != rows[i].0 && (table + Collected(rows[..i]))[k].hash == rows[i].1.hash
    ensures !UniqueHashes(table + Collected(rows))
  {
    CollectedAt(rows, i);
    var all := table + Collected(rows);
    assert all[rows[i].0] == rows[i].1;
    if k in Collected(rows[..i]) {
      CollectedKeys(rows[..i]);
      var j :| 0 <= j < i && rows[..i][j].0 == k;
      CollectedAt(rows[..i], j);
      CollectedAt(rows, j);
      assert all[k] == rows[j].1;
    } else {
      CollectedKeys(rows);
      assert k in table;
      assert all[k] == table[k];
    }
  }

  class Store {
    var tables: Tables
    var blocked: map<Ip, Block>
    var lastRevision: Option<int>
    var resetPending: bool
    var leases: map<LeaseId, Lease>
    var issuers: map<LeaseId, string>

    function Value(): State
      reads this
    {
      State(tables, blocked, lastRevision, resetPending, leases, issuers)
    }

    method CheckHeader(b: Batch) returns (ok: bool)
      ensures ok == HeaderOk(Value(), b)
    {
      if b.baseline && !resetPending { return false; }
      if b.baseline && b.incremental { return false; }
      if b.revision <= 0 { return false; }
      if b.baseline && lastRevision.Some? && b.revision <= lastRevision.value { return false; }
      if b.incremental && (lastRevision.None? || b.revision <= lastRevision.value) { return false; }
      return true;
    }

    /** `commits` says whether the final commit succeeds; a failed statement rolls back as well. */
    method ApplyIdentitySnapshot(b: Batch, now: int, commits: bool) returns (ok: bool)
      requires UniqueHashes(tables.tokens)
      modifies this
      ensures UniqueHashes(tables.tokens)
      ensures ok <==> commits && Apply(old(Value()), b, now).Some?
      ensures Value() == if ok then Apply(old(Value()), b, now).value else old(Value())
    {
      hide Insertable, Kept, Plus, Rows, Swept, Rotated;
      var header := CheckHeader(b);
      if !header { return false; }
      var tx := new Transaction(Value());
      tx.RevokeRotated(b.tokens);
      var inserted := tx.Rewrite(b);
      if !inserted { return false; }
      tx.MergeBlocked(b.replaceBlocked || (!b.incremental && (!b.baseline || b.baselineEnd)), b.blocked, b.removedBlocked);
      if !b.baseline || b.baselineEnd { tx.leases := Swept(tx.leases, tx.t, issuers, now); }
      if !commits { return false; }
      tables, blocked, leases, lastRevision := tx.t, tx.blocked, tx.leases, Some(b.revision);
      if !b.incremental && (!b.baseline || b.baselineEnd) { resetPending := false; }
      return true;
    }

    method ResetIdentityCache(boot: bool, commits: bool) returns (ok: bool)
      modifies this
      ensures ok == commits && Value() == Reset(old(Value()), boot, commits)
    {
      resetPending := true;
      if !commits { return false; }
      tables := EMPTY;
      if boot { leases, issuers := map[], map[]; }
      lastRevision := None;
      blocked := map[];
      return true;
    }

    method CreateLease(id: LeaseId, user: UserId, token: int, client: string, expires: int, rows: seq<(string, Allocation)>,
                       commits: bool) returns (ok: bool)
      modifies this`leases, this`issuers
      ensures ok <==> commits && Create(old(Value()), id, user, token, client, expires, rows).Some?
      ensures Value() == if ok then Create(old(Value()), id, user, token, client, expires, rows).value else old(Value())
    {
      if resetPending { return false; }
      var revoked := map k | k in leases ::
        if leases[k].token == token && leases[k].client == client && leases[k].active then leases[k].(active := false) else leases[k];
      if id in revoked || id in issuers || token !in tables.tokens { return false; }
      var allocations := InsertRows(map[], rows);
      if allocations.None? || !commits { return false; }
      leases := revoked[id := Lease(user, token, client, true, expires, allocations.value)];
      issuers := issuers[id := tables.tokens[token].hash];
      assert allocations.value == Collected(rows);
      assert revoked == RevokedFor(old(leases), token, client);
      return true;
    }

    method RevokeClient(token: int, client: string)
      modifies this`leases
      ensures leases == RevokedFor(old(leases), token, client)
      ensures leases.Keys == old(leases).Keys
      ensures forall k :: k in leases ==>
                leases[k] == if old(leases)[k].token == token && old(leases)[k].client == client
                             then old(leases)[k].(active := false) else old(leases)[k]
    {
      leases := map k | k in leases ::
        if leases[k].token == token && leases[k].client == client && leases[k].active then leases[k].(active := false) else leases[k];
    }
  }

  /** The five insert loops of a snapshot, in their order. */
  method InsertBatch(t: Tables, b: Batch) returns (r: Option<Tables>)
    requires UniqueHashes(t.tokens)
    ensures r.Some? <==> Insertable(t, b)
    ensures r.Some? ==> r.value == Plus(t, Rows(b)) && UniqueHashes(r.value.tokens)
  {
    var users := InsertRows(t.users, Shown(b.enforced, b.users));
    if users.None? { return None; }
    var tokens := InsertTokens(t.tokens, b.tokens);
    if tokens.None? { return None; }
    var policies := InsertRows(t.policies, b.policies);
    if policies.None? { return None; }
    var grants := InsertRows(t.grants, b.grants);
    if grants.None? { return None; }
    var dpi := InsertRows(t.dpi, b.dpi);
    if dpi.None? { return None; }
    return Some(Tables(users.value, tokens.value, policies.value, grants.value, dpi.value));
  }
}
