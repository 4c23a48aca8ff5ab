/** The paged baseline on the edge's five tables: no row of any page clashes, and the tables end as the one-shot snapshot leaves them. */
module TablePaging {
  import opened Base
  import opened Identities
  import opened EdgeTables
  import opened EdgeState
  import opened ControllerSnapshot
  import SyncProtocol
  import SyncPaging

  ghost predicate DistinctRows(b: Batch) {
    && DistinctKeys(Shown(b.enforced, b.users)) && DistinctKeys(b.tokens) && DistinctKeys(b.policies)
    && DistinctKeys(b.grants) && DistinctKeys(b.dpi)
  }

  // ---- Parts of the controller's tables --------------------------------------------------

  lemma PartsAreDisjoint(t: Tables, a: set<UserId>, b: set<UserId>)
    requires a !! b
    ensures Disjoint(Sub(t, a), Sub(t, b))
  {
    forall g | g in GrantsOf(t, a) ensures g !in GrantsOf(t, b) {
      assert t.grants[g].token in TokensOf(t, a) && t.tokens[t.grants[g].token].user !in b;
    }
  }

  lemma PartsAddUp(t: Tables, a: set<UserId>, b: set<UserId>)
    requires a !! b
    ensures Plus(Sub(t, a), Sub(t, b)) == Sub(t, a + b)
  {
    hide TokensOf, GrantsOf, Restrict;
    RestrictAddsUp(t.users, a, b);
    RestrictAddsUp(t.policies, a, b);
    RestrictAddsUp(t.dpi, a, b);
    TokensAddUp(t, a, b);
    GrantsAddUp(t, a, b);
  }

  lemma RestrictAddsUp<V>(m: map<UserId, V>, a: set<UserId>, b: set<UserId>)
    ensures Restrict(m, a) + Restrict(m, b) == Restrict(m, a + b)
  {
  }

  lemma TokensAddUp(t: Tables, a: set<UserId>, b: set<UserId>)
    ensures TokensOf(t, a) + TokensOf(t, b) == TokensOf(t, a + b)
  {
  }

  lemma GrantsAddUp(t: Tables, a: set<UserId>, b: set<UserId>)
    ensures GrantsOf(t, a) + GrantsOf(t, b) == GrantsOf(t, a + b)
  {
    forall g | g in t.grants ensures g in GrantsOf(t, a + b) <==> g in GrantsOf(t, a) || g in GrantsOf(t, b) {}
  }

  lemma PartKeepsHashes(t: Tables, a: set<UserId>)
    requires UniqueHashes(t.tokens)
    ensures UniqueHashes(Sub(t, a).tokens)
  {
  }

  lemma NoUsers(t: Tables)
    ensures Sub(t, {}) == EMPTY
  {
    assert TokensOf(t, {}) == map[] && GrantsOf(t, {}) == map[];
    assert Restrict(t.users, {}) == map[] && Restrict(t.policies, {}) == map[] && Restrict(t.dpi, {}) == map[];
  }

  // ---- One page --------------------------------------------------------------------------

  /**
    A page of other users than those already cached always commits: its users, tokens, grants,
    policies and hashes meet none of the rows that are there.
   */
  lemma AcceptedPageCommits(t: Tables, earlier: set<UserId>, ids: set<UserId>, st: State, b: Batch, now: int)
    requires UniqueHashes(t.tokens) && earlier !! ids
    requires st.tables == Sub(t, earlier) && Rows(b) == Sub(t, ids) && DistinctRows(b)
    requires b.baseline && HeaderOk(st, b)
    ensures Apply(st, b, now).Some? && Apply(st, b, now).value.tables == Sub(t, earlier + ids)
  {
    hide Sub, Rows, Rotated, Swept, DistinctKeys, UniqueHashes, Disjoint, Plus, BlockedAfter;
    PartsAreDisjoint(t, earlier, ids);
    PartsAddUp(t, earlier, ids);
    PartKeepsHashes(t, earlier + ids);
    PlusTokens(Sub(t, earlier), Sub(t, ids));
    assert Insertable(st.tables, b);
  }

  lemma PlusTokens(a: Tables, b: Tables)
    ensures Plus(a, b).tokens == a.tokens + b.tokens
  {
  }

  // ---- The whole baseline ----------------------------------------------------------------

  /** `b` is the message for the page `p` of the controller's tables `t`. */
  ghost predicate Carries(t: Tables, b: Batch, p: Snapshot) {
    && b.revision == p.revision && b.incremental == p.incremental && b.baseline == p.baseline && b.baselineEnd == p.baselineEnd
    && DistinctRows(b) && Rows(b) == Sub(t, p.users.Keys) && b.replaceBlocked == p.replaceBlocked
    && Collected(b.blocked) == p.blocked && b.removedBlocked == []
  }

  ghost function ApplyBatches(st: State, bs: seq<Batch>, now: int): Option<State>
    decreases |bs|
  {
    if bs == [] then Some(st)
    else
      var r := Apply(st, bs[0], now);
      if r.None? then None else ApplyBatches(r.value, bs[1..], now)
  }

  function Reached(db: SyncProtocol.Database, cursor: int): set<UserId> {
    set u | u in SyncProtocol.Authorised(db) && u <= cursor
  }

  ghost predicate Filled(t: Tables, db: SyncProtocol.Database, cursor: int, st: State) {
    && st.resetPending && st.tables == Sub(t, Reached(db, cursor))
    && (st.lastRevision.Some? ==> st.lastRevision.value <= db.revision)
  }

  ghost function NextCursor(db: SyncProtocol.Database, s: SyncProtocol.Session): int {
    Greatest(SyncProtocol.PageUsers(db, s.cursor, None), s.cursor)
  }

  lemma PageFills(t: Tables, db: SyncProtocol.Database, s: SyncProtocol.Session, st: State, b: Batch, now: int)
    requires UniqueHashes(t.tokens) && s.baselineActive && Filled(t, db, s.cursor, st)
    requires Carries(t, b, SyncProtocol.PageSnapshot(db, s, None))
    ensures var r := Apply(st, b, now);
            && r.Some?
            && (b.baselineEnd ==>
                  && r.value.tables == Sub(t, SyncProtocol.Authorised(db).Keys)
                  && r.value.blocked == db.blocked && !r.value.resetPending)
            && (!b.baselineEnd ==> Filled(t, db.(revision := db.revision + 1), NextCursor(db, s), r.value))
  {
    hide Sub, Rows, Rotated, Swept, DistinctRows, UniqueHashes, SyncProtocol.PageUsers, SyncProtocol.Candidates;
    var page := SyncProtocol.PageUsers(db, s.cursor, None);
    SyncPaging.PageIsInterval(db, s);
    PageCarriesItsUsers(db, s);
    var earlier := Reached(db, s.cursor);
    AcceptedPageCommits(t, earlier, page, st, b, now);
    if b.baselineEnd {
      assert earlier + page == SyncProtocol.Authorised(db).Keys;
      assert Elements(b.removedBlocked) == {};
    } else {
      assert earlier + page == Reached(db.(revision := db.revision + 1), NextCursor(db, s));
    }
  }

  lemma PageCarriesItsUsers(db: SyncProtocol.Database, s: SyncProtocol.Session)
    requires s.baselineActive
    ensures SyncProtocol.PageSnapshot(db, s, None).users.Keys == SyncProtocol.PageUsers(db, s.cursor, None)
  {
    hide Lowest;
    LowestIsLowerSegment(SyncProtocol.Candidates(db, s.cursor, None), PAGE_LIMIT);
  }

  lemma {:induction false} PagesFillTables(t: Tables, db: SyncProtocol.Database, s: SyncProtocol.Session, st: State, bs: seq<Batch>, now: int)
    requires UniqueHashes(t.tokens) && s.baselineActive && Filled(t, db, s.cursor, st)
    requires |bs| == |SyncPaging.Pages(db, s)| && forall i :: 0 <= i < |bs| ==> Carries(t, bs[i], SyncPaging.Pages(db, s)[i])
    ensures var r := ApplyBatches(st, bs, now);
            r.Some? && r.value.tables == Sub(t, SyncProtocol.Authorised(db).Keys) && r.value.blocked == db.blocked && !r.value.resetPending
    decreases |bs|
  {
    hide Sub, Apply, Filled, UniqueHashes, Carries, SyncProtocol.PageUsers, SyncProtocol.Candidates, SyncProtocol.PageSnapshot;
    var p := SyncProtocol.PageSnapshot(db, s, None);
    assert Carries(t, bs[0], SyncPaging.Pages(db, s)[0]);
    assert SyncPaging.Pages(db, s)[0] == p;
    PageFills(t, db, s, st, bs[0], now);
    FlagsAgree(t, bs[0], p);
    var next := Apply(st, bs[0], now).value;
    if p.baselineEnd {
      assert bs[1..] == [];
    } else {
      var db', s' := db.(revision := db.revision + 1), s.(cursor := NextCursor(db, s));
      assert SyncPaging.Pages(db, s)[1..] == SyncPaging.Pages(db', s');
      forall i | 0 <= i < |bs[1..]| ensures Carries(t, bs[1..][i], SyncPaging.Pages(db', s')[i]) {
        assert Carries(t, bs[i + 1], SyncPaging.Pages(db, s)[i + 1]);
      }
      PagesFillTables(t, db', s', next, bs[1..], now);
    }
  }

  lemma FlagsAgree(t: Tables, b: Batch, p: Snapshot)
    requires Carries(t, b, p)
    ensures b.baselineEnd == p.baselineEnd
  {
  }

  /**
    On an emptied edge, and while nothing changes, the messages of all pages commit one after the
    other, and leave the five tables, the blacklist and the reset flag exactly as the message of
    the one-shot snapshot does.
   */
  lemma PagedTablesAreOneShot(t: Tables, db: SyncProtocol.Database, s: SyncProtocol.Session, st: State, bs: seq<Batch>, whole: Batch, now: int)
    requires UniqueHashes(t.tokens) && db.accounts == View(t) && forall u :: u in db.accounts ==> u > 0
    requires s.baselineActive && s.cursor == 0
    requires st.tables == EMPTY && st.resetPending && st.lastRevision.None?
    requires |bs| == |SyncPaging.Pages(db, s)| && forall i :: 0 <= i < |bs| ==> Carries(t, bs[i], SyncPaging.Pages(db, s)[i])
    requires !whole.incremental && !whole.baseline && whole.revision > 0 && DistinctRows(whole)
    requires Rows(whole) == Sub(t, Selected(t, db.access, None)) && Collected(whole.blocked) == db.blocked && whole.removedBlocked == []
    ensures var paged, once := ApplyBatches(st, bs, now), Apply(st, whole, now);
            && paged.Some? && once.Some? && paged.value.tables == once.value.tables
            && paged.value.blocked == once.value.blocked && paged.value.resetPending == once.value.resetPending
  {
    hide SyncPaging.Pages, Carries, Rows, Rotated, Swept, ApplyBatches, UniqueHashes, DistinctKeys;
    NoUsers(t);
    ViewKeys(t);
    assert Reached(db, 0) == {};
    assert Selected(t, db.access, None) == SyncProtocol.Authorised(db).Keys;
    PagesFillTables(t, db, s, st, bs, now);
    OneShotCommits(t, Selected(t, db.access, None), st, whole, now);
  }

  lemma OneShotCommits(t: Tables, ids: set<UserId>, st: State, whole: Batch, now: int)
    requires UniqueHashes(t.tokens) && st.tables == EMPTY
    requires !whole.incremental && !whole.baseline && whole.revision > 0 && DistinctRows(whole)
    requires Rows(whole) == Sub(t, ids) && whole.removedBlocked == []
    ensures var once := Apply(st, whole, now);
            && once.Some? && once.value.tables == Sub(t, ids) && once.value.blocked == Collected(whole.blocked) && !once.value.resetPending
  {
    hide Rotated, Swept, DistinctKeys, Collected;
    NoUsers(t);
    PartsAddUp(t, {}, ids);
    PartKeepsHashes(t, ids);
    assert {} + ids == ids;
    assert EMPTY.tokens + Rows(whole).tokens == Rows(whole).tokens;
    assert Elements(whole.removedBlocked) == {};
  }
}
