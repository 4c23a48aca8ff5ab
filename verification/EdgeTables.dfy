/** The five identity tables of the edge database, and the per-user records they add up to. */
module EdgeTables {
  import opened Base
  import opened Identities

  datatype Tables = Tables(users: map<UserId, Account>, tokens: map<int, Token>, policies: map<UserId, Policy>,
                           grants: map<int, Grant>, dpi: map<UserId, string>)

  const EMPTY := Tables(map[], map[], map[], map[], map[])

  // ---- Records ---------------------------------------------------------------------------

  function TokensOf(t: Tables, ids: set<UserId>): map<int, Token> {
    map k | k in t.tokens && t.tokens[k].user in ids :: t.tokens[k]
  }

  function GrantsOf(t: Tables, ids: set<UserId>): map<int, Grant> {
    map g | g in t.grants && t.grants[g].token in TokensOf(t, ids) :: t.grants[g]
  }

  function Record(t: Tables, u: UserId): Identity
    requires u in t.users
  {
    Identity(t.users[u], TokensOf(t, {u}), Get(t.policies, u), GrantsOf(t, {u}), Get(t.dpi, u))
  }

  /** What a reader of the tables knows, user by user. */
  function View(t: Tables): map<UserId, Identity> { map u | u in t.users :: Record(t, u) }

  /** Every row belongs to a user of the tables. */
  ghost predicate Closed(t: Tables) {
    && (forall k :: k in t.tokens ==> t.tokens[k].user in t.users)
    && t.policies.Keys <= t.users.Keys && t.dpi.Keys <= t.users.Keys
    && (forall g :: g in t.grants ==> t.grants[g].token in t.tokens)
  }

  // ---- Deleting users --------------------------------------------------------------------

  function Without(t: Tables, ids: set<UserId>): Tables {
    Tables(t.users - ids, t.tokens - TokensOf(t, ids).Keys, t.policies - ids, t.grants - GrantsOf(t, ids).Keys, t.dpi - ids)
  }

  lemma WithoutNobody(t: Tables)
    ensures Without(t, {}) == t
  {
    assert TokensOf(t, {}).Keys == {};
    assert GrantsOf(t, {}).Keys == {};
    assert t.users - {} == t.users && t.policies - {} == t.policies && t.dpi - {} == t.dpi;
    assert t.tokens - {} == t.tokens && t.grants - {} == t.grants;
  }

  lemma MinusTwice<K, V>(m: map<K, V>, a: set<K>, b: set<K>, c: set<K>)
    requires c == a + b
    ensures (m - a) - b == m - c
  {
  }

  lemma WithoutOneMore(t: Tables, ids: set<UserId>, u: UserId)
    ensures Without(Without(t, ids), {u}) == Without(t, ids + {u})
  {
    hide TokensOf, GrantsOf;
    var w := Without(t, ids);
    TokensOneMore(t, ids, u);
    GrantsOneMore(t, ids, u);
    MinusTwice(t.users, ids, {u}, ids + {u});
    MinusTwice(t.policies, ids, {u}, ids + {u});
    MinusTwice(t.dpi, ids, {u}, ids + {u});
    MinusTwice(t.tokens, TokensOf(t, ids).Keys, TokensOf(w, {u}).Keys, TokensOf(t, ids + {u}).Keys);
    MinusTwice(t.grants, GrantsOf(t, ids).Keys, GrantsOf(w, {u}).Keys, GrantsOf(t, ids + {u}).Keys);
  }

  lemma TokensOneMore(t: Tables, ids: set<UserId>, u: UserId)
    ensures TokensOf(t, ids + {u}).Keys == TokensOf(t, ids).Keys + TokensOf(Without(t, ids), {u}).Keys
  {
  }

  lemma GrantsOneMore(t: Tables, ids: set<UserId>, u: UserId)
    ensures GrantsOf(t, ids + {u}).Keys == GrantsOf(t, ids).Keys + GrantsOf(Without(t, ids), {u}).Keys
  {
    var w := Without(t, ids);
    forall g ensures g in GrantsOf(t, ids + {u}) <==> g in GrantsOf(t, ids) || g in GrantsOf(w, {u}) {}
  }

  lemma WithoutIsRemoval(t: Tables, ids: set<UserId>)
    requires Closed(t)
    ensures Closed(Without(t, ids)) && View(Without(t, ids)) == View(t) - ids
  {
    var w := Without(t, ids);
    forall g | g in w.grants ensures w.grants[g].token in w.tokens { assert g !in GrantsOf(t, ids); }
    forall u | u in w.users ensures Record(w, u) == Record(t, u) {
      assert TokensOf(w, {u}) == TokensOf(t, {u});
      assert GrantsOf(w, {u}) == GrantsOf(t, {u}) by {
        forall g | g in GrantsOf(t, {u}) ensures g in w.grants { assert t.tokens[t.grants[g].token].user == u; }
      }
    }
    assert View(w).Keys == (View(t) - ids).Keys;
  }

  // ---- Inserting rows --------------------------------------------------------------------

  predicate Disjoint(t: Tables, d: Tables) {
    && t.users.Keys !! d.users.Keys && t.tokens.Keys !! d.tokens.Keys && t.policies.Keys !! d.policies.Keys
    && t.grants.Keys !! d.grants.Keys && t.dpi.Keys !! d.dpi.Keys
  }

  function Plus(t: Tables, d: Tables): Tables {
    Tables(t.users + d.users, t.tokens + d.tokens, t.policies + d.policies, t.grants + d.grants, t.dpi + d.dpi)
  }

  lemma PlusIsUnion(t: Tables, d: Tables)
    requires Closed(t) && Closed(d) && Disjoint(t, d)
    ensures Closed(Plus(t, d)) && View(Plus(t, d)) == View(t) + View(d)
  {
    hide Closed, Disjoint, TokensOf, GrantsOf, Record;
    PlusIsClosed(t, d);
    var p := Plus(t, d);
    forall u | u in p.users ensures View(p)[u] == (View(t) + View(d))[u] { RecordInOnePart(t, d, u); }
  }

  lemma PlusIsClosed(t: Tables, d: Tables)
    requires Closed(t) && Closed(d) && Disjoint(t, d)
    ensures Closed(Plus(t, d))
  {
    var p := Plus(t, d);
    forall k | k in p.tokens ensures p.tokens[k].user in p.users { assert k in d.tokens || k in t.tokens; }
    forall g | g in p.grants ensures p.grants[g].token in p.tokens { assert g in d.grants || g in t.grants; }
  }

  function Part(t: Tables, d: Tables, u: UserId): Tables { if u in d.users then d else t }

  lemma RecordInOnePart(t: Tables, d: Tables, u: UserId)
    requires Closed(t) && Closed(d) && Disjoint(t, d) && u in Plus(t, d).users
    ensures u in Part(t, d, u).users && Record(Plus(t, d), u) == Record(Part(t, d, u), u)
  {
    hide TokensOf, GrantsOf;
    TokensInOnePart(t, d, u);
    GrantsInOnePart(t, d, u);
  }

  lemma TokensInOnePart(t: Tables, d: Tables, u: UserId)
    requires Closed(t) && Closed(d) && Disjoint(t, d) && u in Plus(t, d).users
    ensures TokensOf(Plus(t, d), {u}) == TokensOf(Part(t, d, u), {u})
  {
    var p, s := Plus(t, d), Part(t, d, u);
    forall k ensures k in TokensOf(p, {u}) <==> k in TokensOf(s, {u}) {
      if k in d.tokens { assert d.tokens[k].user in d.users; }
      if k in t.tokens { assert t.tokens[k].user in t.users; }
    }
  }

  lemma GrantsInOnePart(t: Tables, d: Tables, u: UserId)
    requires Closed(t) && Closed(d) && Disjoint(t, d) && u in Plus(t, d).users
    ensures GrantsOf(Plus(t, d), {u}) == GrantsOf(Part(t, d, u), {u})
  {
    var p, s := Plus(t, d), Part(t, d, u);
    TokensInOnePart(t, d, u);
    forall g ensures g in GrantsOf(p, {u}) <==> g in GrantsOf(s, {u}) {
      if g in d.grants { assert d.grants[g].token in d.tokens; }
      if g in t.grants { assert t.grants[g].token in t.tokens; }
    }
  }

  // ---- Rows as they arrive ---------------------------------------------------------------

  /** The table that inserting `rows` into an empty table leaves; a later row wins over an earlier one. */
  function Collected<K, V>(rows: seq<(K, V)>): map<K, V> {
    if rows == [] then map[] else Collected(rows[..|rows| - 1])[rows[|rows| - 1].0 := rows[|rows| - 1].1]
  }

  ghost predicate DistinctKeys<K, V>(rows: seq<(K, V)>) {
    forall i, j :: 0 <= i < j < |rows| ==> rows[i].0 != rows[j].0
  }

  lemma {:induction false} CollectedKeys<K, V>(rows: seq<(K, V)>)
    ensures forall k :: k in Collected(rows) <==> exists i :: 0 <= i < |rows| && rows[i].0 == k
  {
    if rows != [] {
      var init := rows[..|rows| - 1];
      CollectedKeys(init);
      forall k ensures k in Collected(rows) <==> exists i :: 0 <= i < |rows| && rows[i].0 == k {
        if k in Collected(init) {
          var i :| 0 <= i < |init| && init[i].0 == k;
          assert rows[i].0 == k;
        }
        assert forall i :: 0 <= i < |init| ==> init[i] == rows[i];
      }
    }
  }

  lemma CollectedOneMore<K, V>(rows: seq<(K, V)>, i: nat)
    requires i < |rows|
    ensures Collected(rows[..i + 1]) == Collected(rows[..i])[rows[i].0 := rows[i].1]
  {
    assert rows[..i + 1][..i] == rows[..i];
  }

  lemma KeyIsCollected<K, V>(rows: seq<(K, V)>, i: nat)
    requires i < |rows|
    ensures rows[i].0 in Collected(rows)
  {
    CollectedKeys(rows);
  }

  /** A key is met a second time exactly when the rows so far, with this one, are no longer distinct. */
  lemma KeyRepeats<K, V>(rows: seq<(K, V)>, i: nat)
    requires i < |rows| && DistinctKeys(rows[..i])
    ensures DistinctKeys(rows[..i + 1]) <==> rows[i].0 !in Collected(rows[..i])
    ensures DistinctKeys(rows) ==> DistinctKeys(rows[..i + 1])
  {
    var init, next := rows[..i], rows[..i + 1];
    assert forall j :: 0 <= j < i ==> init[j] == rows[j] == next[j];
    assert next[i] == rows[i];
    CollectedKeys(init);
    if rows[i].0 in Collected(init) {
      var j :| 0 <= j < i && init[j].0 == rows[i].0;
      assert next[j].0 == next[i].0;
    } else {
      forall j | 0 <= j < i ensures next[j].0 != next[i].0 { assert init[j].0 in Collected(init); }
    }
  }

  /** `INSERT` of every row, failing on the first key that is already there. */
  method InsertRows<K(==), V>(table: map<K, V>, rows: seq<(K, V)>) returns (r: Option<map<K, V>>)
    ensures r.Some? <==> DistinctKeys(rows) && table.Keys !! Collected(rows).Keys
    ensures r.Some? ==> r.value == table + Collected(rows)
  {
    hide DistinctKeys;
    var t := table;
    NoKeys(rows);
    for i := 0 to |rows|
      invariant DistinctKeys(rows[..i]) && table.Keys !! Collected(rows[..i]).Keys
      invariant t == table + Collected(rows[..i])
    {
      CollectedOneMore(rows, i);
      KeyRepeats(rows, i);
      KeyIsCollected(rows, i);
      if rows[i].0 in t { return None; }
      t := t[rows[i].0 := rows[i].1];
    }
    assert rows[..|rows|] == rows;
    return Some(t);
  }

  lemma NoKeys<K, V>(rows: seq<(K, V)>)
    ensures DistinctKeys(rows[..0])
  {
  }
}
