/** Building a snapshot from the controller's tables, and what the edge holds after applying it. */
module ControllerSnapshot {
  import opened Base
  import opened Identities
  import opened EdgeTables
  import opened EdgeState

  /** The rows that belong to the users in `ids`. */
  function Sub(t: Tables, ids: set<UserId>): Tables {
    Tables(Restrict(t.users, ids), TokensOf(t, ids), Restrict(t.policies, ids), GrantsOf(t, ids), Restrict(t.dpi, ids))
  }

  lemma SubIsRestriction(t: Tables, ids: set<UserId>)
    requires Closed(t)
    ensures Closed(Sub(t, ids)) && View(Sub(t, ids)) == Restrict(View(t), ids)
  {
    var s := Sub(t, ids);
    forall u | u in s.users ensures Record(s, u) == Record(t, u) {
      assert TokensOf(s, {u}) == TokensOf(t, {u});
      forall g ensures g in GrantsOf(s, {u}) <==> g in GrantsOf(t, {u}) {
        assert g in GrantsOf(t, {u}) ==> t.grants[g].token in TokensOf(t, ids);
      }
    }
  }

  // ---- Row loops -------------------------------------------------------------------------

  function Kept<K, V>(m: map<K, V>, keep: (K, V) -> bool): map<K, V> { map k | k in m && keep(k, m[k]) :: m[k] }

  /** One filtering loop of the snapshot. */
  method KeepRows<K, V>(rows: seq<(K, V)>, keep: (K, V) -> bool) returns (r: seq<(K, V)>)
    requires DistinctKeys(rows)
    ensures DistinctKeys(r) && Collected(r) == Kept(Collected(rows), keep)
  {
    r := [];
    for i := 0 to |rows|
      invariant DistinctKeys(r) && Collected(r) == Kept(Collected(rows[..i]), keep)
    {
      var init, k, v := rows[..i], rows[i].0, rows[i].1;
      assert rows[..i + 1][..i] == init;
      NewKey(rows, i);
      if keep(k, v) {
        CollectedKeys(r);
        assert forall j :: 0 <= j < |r| ==> r[j].0 in Collected(r);
        var longer := r + [(k, v)];
        assert longer[..|r|] == r;
        r := longer;
      }
    }
    assert rows[..|rows|] == rows;
  }

  lemma NewKey<K, V>(rows: seq<(K, V)>, i: nat)
    requires DistinctKeys(rows) && i < |rows|
    ensures rows[i].0 !in Collected(rows[..i])
  {
    CollectedKeys(rows[..i]);
    assert forall j :: 0 <= j < i ==> rows[..i][j] == rows[j];
  }

  /** The user, token, policy, grant and DPI loops, for everybody or for the requested users. */
  method IdentitySnapshotForUsers(users: seq<(UserId, Account)>, tokens: seq<(int, Token)>, policies: seq<(UserId, Policy)>,
                                  grants: seq<(int, Grant)>, dpi: seq<(UserId, string)>, blocked: seq<(Ip, Block)>,
                                  allowed: set<UserId>, requested: Option<seq<UserId>>, revision: int) returns (b: Batch)
    requires DistinctKeys(users) && DistinctKeys(tokens) && DistinctKeys(policies) && DistinctKeys(grants) && DistinctKeys(dpi)
    ensures b.revision == revision && b.incremental == requested.Some? && !b.baseline && b.enforced && !b.replaceBlocked
    ensures var t := Tables(Collected(users), Collected(tokens), Collected(policies), Collected(grants), Collected(dpi));
            var kept := Selected(t, allowed, requested);
            && Rows(b) == Sub(t, kept)
            && Elements(b.removed) == (if requested.Some? then Elements(requested.value) - kept else {})
            && b.blocked == (if requested.Some? then [] else blocked) && b.removedBlocked == []
  {
    hide Collected, DistinctKeys;
    var wanted := if requested.Some? then Elements(requested.value) else {};
    var keptUsers := KeepRows(users, (u: UserId, _: Account) => (requested.Some? ==> u in wanted) && u in allowed);
    ghost var t := Tables(Collected(users), Collected(tokens), Collected(policies), Collected(grants), Collected(dpi));
    ghost var kept := Selected(t, allowed, requested);
    var ids := Collected(keptUsers).Keys;
    assert Collected(keptUsers) == Restrict(t.users, kept) && ids == kept;
    var removed: seq<UserId> := [];
    if requested.Some? {
      removed := Missing(requested.value, ids);
    }
    var keptTokens := KeepRows(tokens, (_: int, token: Token) => token.user in ids);
    assert Collected(keptTokens) == TokensOf(t, kept);
    var tokenIds := Collected(keptTokens).Keys;
    var keptPolicies := KeepRows(policies, (u: UserId, _: Policy) => u in ids);
    assert Collected(keptPolicies) == Restrict(t.policies, kept);
    var keptGrants := KeepRows(grants, (_: int, grant: Grant) => grant.token in tokenIds);
    assert Collected(keptGrants) == GrantsOf(t, kept);
    var keptDpi := KeepRows(dpi, (u: UserId, _: string) => u in ids);
    assert Collected(keptDpi) == Restrict(t.dpi, kept);
    b := Batch(revision, requested.Some?, false, false, true, keptUsers, keptTokens, keptPolicies, keptGrants, keptDpi, removed,
               false, if requested.Some? then [] else blocked, []);
  }

  function Selected(t: Tables, allowed: set<UserId>, requested: Option<seq<UserId>>): set<UserId> {
    set u | u in t.users && u in allowed && (requested.Some? ==> u in Elements(requested.value))
  }

  // ---- End to end ------------------------------------------------------------------------

  /** After a full snapshot commits, the edge's records are the authorised ones, whatever it held before. */
  lemma FullSnapshotDelivers(t: Tables, allowed: set<UserId>, b: Batch, st: State, now: int)
    requires Closed(t) && Closed(st.tables) && !b.incremental && !b.baseline
    requires Rows(b) == Sub(t, Selected(t, allowed, None)) && Apply(st, b, now).Some?
    ensures View(Apply(st, b, now).value.tables) == Restrict(View(t), allowed)
  {
    hide View, Closed, Sub, Rows, Plus;
    SubIsRestriction(t, Selected(t, allowed, None));
    InsertedView(st.tables, b);
    SelectedEverybody(t, allowed);
  }

  lemma SelectedEverybody(t: Tables, allowed: set<UserId>)
    ensures Restrict(View(t), Selected(t, allowed, None)) == Restrict(View(t), allowed)
  {
  }

  /** After an increment commits, the requested users' records are the authorised ones and all others are as before. */
  lemma IncrementDelivers(t: Tables, allowed: set<UserId>, requested: seq<UserId>, b: Batch, st: State, now: int, u: UserId)
    requires Closed(t) && Closed(st.tables) && b.incremental && !b.baseline
    requires Rows(b) == Sub(t, Selected(t, allowed, Some(requested)))
    requires Elements(b.removed) == Elements(requested) - Selected(t, allowed, Some(requested))
    requires Apply(st, b, now).Some?
    ensures Get(View(Apply(st, b, now).value.tables), u)
         == if u in requested then Get(Restrict(View(t), allowed), u) else Get(View(st.tables), u)
  {
    hide View, Closed, Sub, Rows, Plus;
    var kept := Selected(t, allowed, Some(requested));
    SubIsRestriction(t, kept);
    InsertedView(st.tables, b);
    ViewKeys(t);
  }
}
