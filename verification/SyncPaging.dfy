/** Reading a baseline page by page, against the one-shot snapshot it replaces. */
module SyncPaging {
  import opened Base
  import opened Identities
  import opened SyncProtocol

  // ---- Reading one page ------------------------------------------------------------------

  datatype IdentityPage = IdentityPage(users: seq<UserId>, removed: seq<UserId>, lastId: int, end: bool)

  predicate Ascending(s: seq<int>) { forall i, j :: 0 <= i < j < |s| ==> s[i] < s[j] }

  /**
    The row loop over `SELECT .. ORDER BY id LIMIT limit+1`, whose result is `rows`: the page
    keeps the lowest `limit` candidates, and the one row more tells whether it is the last page.
   */
  method ReadNodeIdentityPage(ghost candidates: set<UserId>, rows: seq<UserId>, after: int,
                              requested: Option<seq<UserId>>, limit: int) returns (page: Option<IdentityPage>)
    requires Ascending(rows) && (limit >= 0 ==> Elements(rows) == Lowest(candidates, limit + 1))
    requires requested.Some? ==> candidates <= Elements(requested.value)
    ensures page.None? <==> limit < 1 || (requested.Some? && (|requested.value| > limit || after != 0))
    ensures page.Some? ==>
              var p := page.value;
              && Ascending(p.users) && Elements(p.users) == Lowest(candidates, limit)
              && p.lastId == Greatest(Elements(p.users), after)
              && (p.end <==> |candidates| <= limit)
              && Elements(p.removed) == (if requested.Some? then Elements(requested.value) - Elements(p.users) else {})
  {
    hide Lowest;
    if limit < 1 || (requested.Some? && (|requested.value| > limit || after != 0)) { return None; }
    if requested == Some([]) {
      assert candidates == {};
      LowestIsLowerSegment(candidates, limit);
      return Some(IdentityPage([], [], after, true));
    }
    var users, lastId, end := [], after, true;
    var i := 0;
    while i < |rows|
      invariant 0 <= i <= |rows| && i <= limit
      invariant users == rows[..i] && end
      invariant lastId == if i == 0 then after else rows[i - 1]
      decreases |rows| - i
    {
      if |users| == limit {
        end := false;
        break;
      }
      users, lastId := users + [rows[i]], rows[i];
      i := i + 1;
    }
    RowsAreTheLowest(candidates, rows, limit);
    assert end ==> users == rows;
    LastIsGreatest(users, after);
    var removed: seq<UserId> := [];
    if requested.Some? { removed := Missing(requested.value, Elements(users)); }
    return Some(IdentityPage(users, removed, lastId, end));
  }

  lemma AscendingIsDistinct(s: seq<int>)
    requires Ascending(s)
    ensures |Elements(s)| == |s|
    decreases |s|
  {
    if s != [] {
      var init := s[..|s| - 1];
      AscendingIsDistinct(init);
      assert s == init + [s[|s| - 1]];
      assert Elements(s) == Elements(init) + {s[|s| - 1]};
      assert s[|s| - 1] !in init;
    }
  }

  lemma LastIsGreatest(s: seq<int>, after: int)
    requires Ascending(s)
    ensures Greatest(Elements(s), after) == if s == [] then after else s[|s| - 1]
  {
    if s != [] {
      assert s[|s| - 1] in Elements(s);
      var g := Greatest(Elements(s), after);
      var i :| 0 <= i < |s| && s[i] == g;
    }
  }

  lemma RowsAreTheLowest(candidates: set<int>, rows: seq<int>, limit: nat)
    requires Ascending(rows) && Elements(rows) == Lowest(candidates, limit + 1)
    ensures |candidates| <= limit ==> |rows| <= limit && Elements(rows) == Lowest(candidates, limit)
    ensures |candidates| > limit ==> |rows| == limit + 1 && Elements(rows[..limit]) == Lowest(candidates, limit)
  {
    hide Lowest;
    AscendingIsDistinct(rows);
    LowestIsLowerSegment(candidates, limit + 1);
    LowestIsLowerSegment(candidates, limit);
    if |candidates| > limit {
      FirstRows(candidates, rows, limit);
      AscendingIsDistinct(rows[..limit]);
      LowerSegmentIsUnique(candidates, Elements(rows[..limit]), Lowest(candidates, limit));
    }
  }

  lemma FirstRows(candidates: set<int>, rows: seq<int>, limit: nat)
    requires Ascending(rows) && |rows| == limit + 1 && LowerSegment(candidates, Elements(rows))
    ensures LowerSegment(candidates, Elements(rows[..limit]))
  {
    var first := Elements(rows[..limit]);
    assert rows == rows[..limit] + [rows[limit]];
    forall x, y | x in first && y in candidates && y !in first ensures x < y {
      if y in rows { assert y == rows[limit]; } else { assert x in Elements(rows) && y !in Elements(rows); }
    }
  }

  predicate LowerSegment(s: set<int>, part: set<int>) {
    part <= s && forall x, y :: x in part && y in s && y !in part ==> x < y
  }

  lemma LowerSegmentIsUnique(s: set<int>, a: set<int>, b: set<int>)
    requires LowerSegment(s, a) && LowerSegment(s, b) && |a| == |b|
    ensures a == b
  {
    if !(a <= b) {
      var x := PickOutside(a, b);
      assert forall y :: y in b && y !in a ==> x < y && y < x;
      SubsetCardinality(b, a - {x});
    } else if a != b {
      var x := PickOutside(b, a);
      SubsetCardinality(a, b - {x});
    }
  }

  // ---- The whole baseline ----------------------------------------------------------------

  /** The pages of a baseline while nothing changes: each starts above the cursor the last one left. */
  ghost function Pages(db: Database, s: Session): seq<Snapshot>
    requires s.baselineActive
    decreases |Candidates(db, s.cursor, None)|
  {
    var t := PageSnapshot(db, s, None);
    if t.baselineEnd then [t]
    else
      PageAdvances(db, s);
      [t] + Pages(db.(revision := db.revision + 1), s.(cursor := Greatest(PageUsers(db, s.cursor, None), s.cursor)))
  }

  /** Every page but the last leaves fewer users above the cursor: the measure of the paging. */
  lemma PageAdvances(db: Database, s: Session)
    requires s.baselineActive && !PageSnapshot(db, s, None).baselineEnd
    ensures var page := PageUsers(db, s.cursor, None);
            var next := Greatest(page, s.cursor);
            && s.cursor < next && |page| == 64
            && Candidates(db, next, None) == Candidates(db, s.cursor, None) - page
            && |Candidates(db, next, None)| == |Candidates(db, s.cursor, None)| - 64
  {
    hide Lowest;
    var all, page := Candidates(db, s.cursor, None), PageUsers(db, s.cursor, None);
    LowestIsLowerSegment(all, PAGE_LIMIT);
    var next := Greatest(page, s.cursor);
    assert page != {};
    assert Candidates(db, next, None) == all - page;
    assert all == page + (all - page);
  }

  ghost function ApplyAll(e: Edge, pages: seq<Snapshot>): Option<Edge>
    decreases |pages|
  {
    if pages == [] then Some(e)
    else if !Accepts(e, pages[0]) then None
    else ApplyAll(Applied(e, pages[0]), pages[1..])
  }

  /** The snapshot that protocols without paging send. */
  function OneShot(db: Database): Snapshot {
    Snapshot(db.revision + 1, false, false, false, Authorised(db), {}, false, db.blocked, {})
  }

  function UpTo(m: map<UserId, Identity>, cursor: int): map<UserId, Identity> {
    map u | u in m && u <= cursor :: m[u]
  }

  ghost predicate Halfway(db: Database, s: Session, e: Edge) {
    && s.baselineActive && e.resetPending && e.cache == UpTo(Authorised(db), s.cursor)
    && (e.lastRevision.Some? ==> e.lastRevision.value <= db.revision)
  }

  /** One page of a baseline is accepted and extends the cache to the next cursor. */
  lemma PageExtends(db: Database, s: Session, e: Edge)
    requires Halfway(db, s, e)
    ensures var t := PageSnapshot(db, s, None);
            && Accepts(e, t)
            && (t.baselineEnd ==> Applied(e, t).cache == Authorised(db) && Applied(e, t).blocked == db.blocked)
            && (!t.baselineEnd ==>
                  Halfway(db.(revision := db.revision + 1),
                          s.(cursor := Greatest(PageUsers(db, s.cursor, None), s.cursor)), Applied(e, t)))
  {
    hide Lowest, PageUsers, Candidates, UpTo, Restrict;
    var t := PageSnapshot(db, s, None);
    var a, page := Authorised(db), PageUsers(db, s.cursor, None);
    PageIsInterval(db, s);
    DisjointFromPrefix(a, s.cursor, page);
    if t.baselineEnd {
      PrefixPlusRest(a, s.cursor, page);
    } else {
      PrefixPlusInterval(a, s.cursor, Greatest(page, s.cursor), page);
    }
  }

  /** A page is the interval of authorised users from its cursor to the next, or to the end. */
  lemma PageIsInterval(db: Database, s: Session)
    requires s.baselineActive
    ensures var page := PageUsers(db, s.cursor, None);
            forall u :: u in page <==>
              u in Authorised(db) && u > s.cursor && (PageSnapshot(db, s, None).baselineEnd || u <= Greatest(page, s.cursor))
  {
    hide Lowest;
    var all, page := Candidates(db, s.cursor, None), PageUsers(db, s.cursor, None);
    LowestIsLowerSegment(all, PAGE_LIMIT);
    if !PageSnapshot(db, s, None).baselineEnd {
      var next := Greatest(page, s.cursor);
      PageAdvances(db, s);
      forall u | u in Authorised(db) && s.cursor < u <= next ensures u in page {
        assert u in all && u !in Candidates(db, next, None);
      }
    }
  }

  lemma DisjointFromPrefix(a: map<UserId, Identity>, cursor: int, page: set<UserId>)
    requires forall u :: u in page ==> u > cursor
    ensures UpTo(a, cursor).Keys !! Restrict(a, page).Keys
  {
  }

  lemma PrefixPlusRest(a: map<UserId, Identity>, cursor: int, page: set<UserId>)
    requires forall u :: u in page <==> u in a && u > cursor
    ensures UpTo(a, cursor) + Restrict(a, page) == a
  {
  }

  lemma PrefixPlusInterval(a: map<UserId, Identity>, cursor: int, next: int, page: set<UserId>)
    requires cursor <= next && forall u :: u in page <==> u in a && cursor < u <= next
    ensures UpTo(a, cursor) + Restrict(a, page) == UpTo(a, next)
  {
  }

  lemma {:induction false} PagesFill(db: Database, s: Session, e: Edge)
    requires Halfway(db, s, e)
    ensures var r := ApplyAll(e, Pages(db, s));
            && r.Some? && r.value.cache == Authorised(db) && r.value.blocked == db.blocked && !r.value.resetPending
    decreases |Candidates(db, s.cursor, None)|
  {
    hide Halfway, Accepts, Applied, PageUsers;
    var t := PageSnapshot(db, s, None);
    BaselineActive(db, s, e);
    PageExtends(db, s, e);
    if t.baselineEnd {
      assert ApplyAll(Applied(e, t), []) == Some(Applied(e, t));
      EndClears(e, t);
    } else {
      PageAdvances(db, s);
      var db', s' := db.(revision := db.revision + 1), s.(cursor := Greatest(PageUsers(db, s.cursor, None), s.cursor));
      PagesFill(db', s', Applied(e, t));
      assert Pages(db, s)[1..] == Pages(db', s');
    }
  }

  lemma BaselineActive(db: Database, s: Session, e: Edge)
    requires Halfway(db, s, e)
    ensures s.baselineActive
  {
  }

  lemma EndClears(e: Edge, t: Snapshot)
    requires t.baseline && t.baselineEnd && !t.incremental
    ensures !Applied(e, t).resetPending
  {
  }

  /**
    On an emptied edge, and while nothing changes, the pages in their order are all accepted and
    leave the records, the blacklist and the reset flag that the one-shot snapshot would leave.
   */
  lemma PagedBaselineIsOneShot(db: Database, s: Session, e: Edge)
    requires s.baselineActive && s.cursor == 0 && (forall u :: u in db.accounts ==> u > 0)
    requires e == Emptied(e)
    ensures var r := ApplyAll(e, Pages(db, s));
            var whole := Applied(e, OneShot(db));
            && Accepts(e, OneShot(db)) && r.Some?
            && r.value.cache == whole.cache && r.value.blocked == whole.blocked && r.value.resetPending == whole.resetPending
  {
    hide Pages, ApplyAll;
    assert UpTo(Authorised(db), 0) == map[];
    PagesFill(db, s, e);
  }

  lemma {:induction false} PagesAreDisjoint(db: Database, s: Session, i: nat, j: nat)
    requires s.baselineActive && i < j < |Pages(db, s)|
    ensures Pages(db, s)[i].users.Keys !! Pages(db, s)[j].users.Keys
    decreases |Candidates(db, s.cursor, None)|
  {
    hide Lowest;
    var t := PageSnapshot(db, s, None);
    PageAdvances(db, s);
    var db', s' := db.(revision := db.revision + 1), s.(cursor := Greatest(PageUsers(db, s.cursor, None), s.cursor));
    assert Pages(db, s)[1..] == Pages(db', s');
    if i > 0 {
      PagesAreDisjoint(db', s', i - 1, j - 1);
    } else {
      PagesStayAbove(db', s', j - 1);
      assert t.users.Keys <= PageUsers(db, s.cursor, None);
    }
  }

  lemma {:induction false} PagesStayAbove(db: Database, s: Session, i: nat)
    requires s.baselineActive && i < |Pages(db, s)|
    ensures forall u :: u in Pages(db, s)[i].users ==> u > s.cursor
    decreases |Candidates(db, s.cursor, None)|
  {
    hide Lowest;
    LowestIsLowerSegment(Candidates(db, s.cursor, None), PAGE_LIMIT);
    if i > 0 {
      PageAdvances(db, s);
      var db', s' := db.(revision := db.revision + 1), s.(cursor := Greatest(PageUsers(db, s.cursor, None), s.cursor));
      assert Pages(db, s)[1..] == Pages(db', s');
      PagesStayAbove(db', s', i - 1);
    }
  }

  /** One page for every 64 authorised users, and one for nobody. */
  lemma {:induction false} PageCount(db: Database, s: Session)
    requires s.baselineActive
    ensures var n := |Candidates(db, s.cursor, None)|;
            |Pages(db, s)| == if n == 0 then 1 else (n + PAGE_LIMIT - 1) / PAGE_LIMIT
    decreases |Candidates(db, s.cursor, None)|
  {
    hide Lowest;
    if !PageSnapshot(db, s, None).baselineEnd {
      PageAdvances(db, s);
      var db', s' := db.(revision := db.revision + 1), s.(cursor := Greatest(PageUsers(db, s.cursor, None), s.cursor));
      assert Candidates(db', s'.cursor, None) == Candidates(db, s'.cursor, None);
      PageCount(db', s');
    }
  }
}
