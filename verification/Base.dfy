/** Vocabulary shared by every component. */
module Base {

  datatype Option<+T> = None | Some(value: T)

  newtype byte = x: int | 0 <= x < 256

  type UserId = int
  /** A cache generation; the source draws an opaque random token, which never repeats. */
  type Epoch = nat

  const PAGE_LIMIT := 64

  function Max(a: int, b: int): int { if a < b then b else a }

  function Get<K, V>(m: map<K, V>, k: K): Option<V> {
    if k in m then Some(m[k]) else None
  }

  function Elements<T(==)>(s: seq<T>): set<T> { set x | x in s }

  /** The entries of `m` whose key lies in `keys`. */
  function Restrict<K, V>(m: map<K, V>, keys: set<K>): map<K, V> {
    map k | k in m && k in keys :: m[k]
  }

  lemma Pick<T>(s: set<T>) returns (x: T)
    requires s != {}
    ensures x in s
  {
    x :| x in s;
  }

  lemma PickOutside<T>(a: set<T>, b: set<T>) returns (x: T)
    requires !(a <= b)
    ensures x in a && x !in b
  {
    x :| x in a && x !in b;
  }

  lemma SubsetCardinality<T>(a: set<T>, b: set<T>)
    requires a <= b
    ensures |a| <= |b|
    decreases |a|
  {
    if a != {} {
      var x := Pick(a);
      SubsetCardinality(a - {x}, b - {x});
    }
  }

  /** The smallest element of a non-empty set. */
  ghost function Least(s: set<int>): (x: int)
    requires s != {}
    ensures x in s && forall y :: y in s ==> x <= y
  {
    LeastExists(s);
    var x :| x in s && forall y :: y in s ==> x <= y;
    x
  }

  lemma {:induction false} LeastExists(s: set<int>)
    requires s != {}
    ensures exists x :: x in s && forall y :: y in s ==> x <= y
    decreases |s|
  {
    var z := Pick(s);
    var rest := s - {z};
    if rest != {} {
      LeastExists(rest);
      var x :| x in rest && forall y :: y in rest ==> x <= y;
      var m := if x <= z then x else z;
      assert m in s && forall y :: y in s ==> m <= y by {
        forall y | y in s ensures m <= y { assert y == z || y in rest; }
      }
    } else {
      assert z in s && forall y :: y in s ==> z <= y by {
        forall y | y in s ensures z <= y { assert y == z || y in rest; }
      }
    }
  }

  /** A part of `s` that lies below the rest, of size `k` or, when `s` is smaller, all of it. */
  ghost predicate IsLowest(s: set<int>, k: nat, part: set<int>) {
    && part <= s && |part| == (if |s| <= k then |s| else k)
    && forall x, y :: x in part && y in s && y !in part ==> x < y
  }

  /** `ORDER BY id LIMIT k` over a set of keys: its `k` smallest elements. */
  ghost function Lowest(s: set<int>, k: nat): set<int> {
    LowestExists(s, k);
    var part :| IsLowest(s, k, part);
    part
  }

  lemma {:induction false} LowestExists(s: set<int>, k: nat)
    ensures exists part :: IsLowest(s, k, part)
    decreases k
  {
    if k == 0 || s == {} {
      assert IsLowest(s, k, {});
    } else {
      var m := Least(s);
      var rest := s - {m};
      assert |s| == |rest| + 1;
      LowestExists(rest, k - 1);
      var tail :| IsLowest(rest, k - 1, tail);
      var part := {m} + tail;
      assert |part| == 1 + |tail|;
      forall x, y | x in part && y in s && y !in part ensures x < y {
        assert y in rest && y !in tail;
        assert x == m ==> m <= y && y != m;
      }
      assert IsLowest(s, k, part);
    }
  }

  /** `Lowest` is a lower segment of the requested size; it is everything when everything fits. */
  lemma LowestIsLowerSegment(s: set<int>, k: nat)
    ensures Lowest(s, k) <= s
    ensures |Lowest(s, k)| == if |s| <= k then |s| else k
    ensures forall x, y :: x in Lowest(s, k) && y in s && y !in Lowest(s, k) ==> x < y
    ensures |s| <= k ==> Lowest(s, k) == s
  {
    LowestExists(s, k);
    var part := Lowest(s, k);
    if |s| <= k && part != s {
      var x := PickOutside(s, part);
      SubsetCardinality(part, s - {x});
    }
  }

  /** The largest element of a set of ids, or `otherwise` when there is none. */
  ghost function Greatest(s: set<int>, otherwise: int): (x: int)
    ensures s == {} ==> x == otherwise
    ensures s != {} ==> x in s
    ensures forall y :: y in s ==> y <= x
  {
    if s == {} then otherwise
    else
      var negated := set y | y in s :: -y;
      assert negated != {} by { var z := Pick(s); assert -z in negated; }
      assert forall y :: y in s ==> -y in negated;
      -Least(negated)
  }

  lemma {:induction false} Once<T>(s: seq<T>, x: T)
    requires forall i, j :: 0 <= i < j < |s| ==> s[i] != s[j]
    ensures multiset(s)[x] == if x in s then 1 else 0
  {
    if s != [] {
      var init := s[..|s| - 1];
      assert s == init + [s[|s| - 1]];
      Once(init, x);
    }
  }

  /** The ids of a request that were not kept, in order. */
  method Missing(ids: seq<UserId>, kept: set<UserId>) returns (removed: seq<UserId>)
    ensures Elements(removed) == Elements(ids) - kept
  {
    removed := [];
    for i := 0 to |ids|
      invariant Elements(removed) == Elements(ids[..i]) - kept
    {
      assert Elements(ids[..i + 1]) == Elements(ids[..i]) + {ids[i]};
      if ids[i] !in kept {
        assert Elements(removed + [ids[i]]) == Elements(removed) + {ids[i]};
        removed := removed + [ids[i]];
      }
    }
    assert ids[..|ids|] == ids;
  }
}
