/**
 * The shapes of the SELECT statements the controllers issue: `WHERE` as a
 * filter, `COUNT(*)`, the first matching row, and `ORDER BY`. The model sorts
 * by insertion over a total preorder and promises a sorted permutation only:
 * SQL leaves the order of rows with equal keys unspecified.
 */
module Query {
  import opened Common

  /** `leq` orders every pair and is transitive. */
  ghost predicate TotalPreorder<T(!new)>(leq: (T, T) -> bool)
  {
    && (forall a, b :: leq(a, b) || leq(b, a))
    && (forall a, b, c :: leq(a, b) && leq(b, c) ==> leq(a, c))
  }

  predicate SortedBy<T>(s: seq<T>, leq: (T, T) -> bool)
  {
    forall i, j :: 0 <= i < j < |s| ==> leq(s[i], s[j])
  }

  /** Places `x` before the first element it does not follow. */
  function InsertBy<T(!new)>(x: T, s: seq<T>, leq: (T, T) -> bool): (r: seq<T>)
    requires TotalPreorder(leq)
    requires SortedBy(s, leq)
    ensures SortedBy(r, leq)
    ensures multiset(r) == multiset(s) + multiset{x}
  {
    if |s| == 0 then [x]
    else if leq(x, s[0]) then [x] + s
    else
      var rest := InsertBy(x, s[1..], leq);
      SortedTail(s, leq);
      HeadBelowAll(s[0], x, s[1..], rest, leq);
      SortedCons(s[0], rest, leq);
      assert s == [s[0]] + s[1..];
      [s[0]] + rest
  }

  /** The tail of a sorted sequence is sorted and follows its head. */
  lemma SortedTail<T>(s: seq<T>, leq: (T, T) -> bool)
    requires |s| > 0 && SortedBy(s, leq)
    ensures SortedBy(s[1..], leq)
    ensures forall j :: 0 <= j < |s[1..]| ==> leq(s[0], s[1..][j])
  {
    forall j | 0 <= j < |s[1..]| ensures leq(s[0], s[1..][j]) {
      assert s[1..][j] == s[j + 1];
    }
  }

  /** What `h` precedes in `t`, and `x`, it precedes in any rearrangement of `t` plus `x`. */
  lemma HeadBelowAll<T>(h: T, x: T, t: seq<T>, rest: seq<T>, leq: (T, T) -> bool)
    requires forall j :: 0 <= j < |t| ==> leq(h, t[j])
    requires leq(h, x)
    requires multiset(rest) == multiset(t) + multiset{x}
    ensures forall j :: 0 <= j < |rest| ==> leq(h, rest[j])
  {
    forall j | 0 <= j < |rest| ensures leq(h, rest[j]) {
      assert rest[j] in multiset(rest);
      if rest[j] != x {
        assert rest[j] in multiset(t);
        var k :| 0 <= k < |t| && t[k] == rest[j];
      }
    }
  }

  /** A head that precedes every element of a sorted tail keeps it sorted. */
  lemma SortedCons<T>(h: T, t: seq<T>, leq: (T, T) -> bool)
    requires SortedBy(t, leq)
    requires forall j :: 0 <= j < |t| ==> leq(h, t[j])
    ensures SortedBy([h] + t, leq)
  {
    var r := [h] + t;
    forall i, j | 0 <= i < j < |r| ensures leq(r[i], r[j]) {
      assert r[j] == t[j - 1];
      if i > 0 {
        assert r[i] == t[i - 1];
      }
    }
  }

  /** The rows of `s`, rearranged into `leq` order. */
  function SortBy<T(!new)>(s: seq<T>, leq: (T, T) -> bool): (r: seq<T>)
    requires TotalPreorder(leq)
    ensures SortedBy(r, leq)
    ensures multiset(r) == multiset(s)
  {
    if |s| == 0 then []
    else
      assert s == [s[0]] + s[1..];
      InsertBy(s[0], SortBy(s[1..], leq), leq)
  }

  /** Sorting keeps exactly the rows it was given. */
  lemma SortByMembers<T(!new)>(s: seq<T>, leq: (T, T) -> bool, x: T)
    requires TotalPreorder(leq)
    ensures x in SortBy(s, leq) <==> x in s
  {
    var r := SortBy(s, leq);
    assert x in r <==> x in multiset(r);
    assert x in s <==> x in multiset(s);
  }

  /** `WHERE p`: the rows satisfying `p`, in table order. */
  function Filter<T(!new)>(s: seq<T>, p: T -> bool): (r: seq<T>)
    ensures |r| <= |s|
    ensures forall i :: 0 <= i < |r| ==> p(r[i])
    ensures forall x :: x in r <==> x in s && p(x)
  {
    if |s| == 0 then []
    else
      var rest := Filter(s[1..], p);
      assert forall x :: x in s <==> x == s[0] || x in s[1..];
      if p(s[0]) then [s[0]] + rest else rest
  }

  /** `COUNT(*) ... WHERE p`. */
  function Count<T>(s: seq<T>, p: T -> bool): (n: nat)
    ensures n <= |s|
    ensures n == 0 <==> forall i :: 0 <= i < |s| ==> !p(s[i])
  {
    if |s| == 0 then 0
    else
      assert forall i :: 1 <= i < |s| ==> s[i] == s[1..][i - 1];
      (if p(s[0]) then 1 else 0) + Count(s[1..], p)
  }

  /** Counting is the length of the filtered rows. */
  lemma {:induction false} CountIsFilterLength<T(!new)>(s: seq<T>, p: T -> bool)
    ensures Count(s, p) == |Filter(s, p)|
  {
    if |s| > 0 {
      CountIsFilterLength(s[1..], p);
    }
  }

  /** Counting distributes over concatenation. */
  lemma {:induction false} CountAppend<T>(a: seq<T>, b: seq<T>, p: T -> bool)
    ensures Count(a + b, p) == Count(a, p) + Count(b, p)
  {
    if |a| == 0 {
      assert a + b == b;
    } else {
      assert (a + b)[0] == a[0] && (a + b)[1..] == a[1..] + b;
      CountAppend(a[1..], b, p);
    }
  }

  /** Two conditions no row meets together count at most all the rows. */
  lemma {:induction false} CountDisjoint<T>(s: seq<T>, p: T -> bool, q: T -> bool)
    requires forall x :: !(p(x) && q(x))
    ensures Count(s, p) + Count(s, q) <= |s|
  {
    if |s| > 0 {
      CountDisjoint(s[1..], p, q);
    }
  }

  /** The first row satisfying `p`: what `const [[row]] = ...` binds. */
  function FirstWhere<T>(s: seq<T>, p: T -> bool): (r: Option<T>)
    ensures r.None? <==> forall i :: 0 <= i < |s| ==> !p(s[i])
    ensures r.Some? ==> exists i :: (0 <= i < |s| && s[i] == r.value && p(s[i])
                                     && forall j :: 0 <= j < i ==> !p(s[j]))
  {
    if |s| == 0 then None
    else if p(s[0]) then Some(s[0])
    else
      var rest := FirstWhere(s[1..], p);
      assert forall i :: 1 <= i < |s| ==> s[i] == s[1..][i - 1];
      if rest.Some? then
        assert exists i :: 1 <= i < |s| && s[i] == rest.value && p(s[i]) && forall j :: 0 <= j < i ==> !p(s[j]) by {
          var k :| 0 <= k < |s[1..]| && s[1..][k] == rest.value && p(s[1..][k]) && forall j :: 0 <= j < k ==> !p(s[1..][j]);
          assert s[k + 1] == rest.value;
          assert forall j :: 1 <= j < k + 1 ==> !p(s[j]) by {
            forall j | 1 <= j < k + 1 ensures !p(s[j]) { assert s[j] == s[1..][j - 1]; }
          }
        }
        rest
      else rest
  }

  /**
   * Rewriting every row with an `f` that keeps `p` keeps the first match in
   * place: the first match of the rewritten rows is the rewritten first match.
   */
  lemma {:induction false} FirstWhereMap<T>(s: seq<T>, t: seq<T>, p: T -> bool, f: T -> T)
    requires |t| == |s| && forall i :: 0 <= i < |s| ==> t[i] == f(s[i])
    requires forall x :: p(f(x)) == p(x)
    ensures FirstWhere(t, p) == if FirstWhere(s, p).Some? then Some(f(FirstWhere(s, p).value)) else None
  {
    if |s| > 0 {
      FirstWhereMap(s[1..], t[1..], p, f);
    }
  }
}
