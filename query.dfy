/**
 * The part of an ORM `findMany` the request handlers use: a `where` filter
 * on the rows of a table, then `orderBy: { <column>: "desc" }`.
 *
 * The sort key of a row is a `Rank`. A nullable column ranks `Top` when it
 * is NULL: PostgreSQL (the database behind the application) puts NULLs first
 * in descending order. The database leaves the order of equal keys open; the
 * model keeps them in table order, and no property below depends on that.
 */
module Query {

  /** The value of the sort column: NULL, or a number (a timestamp). */
  datatype Rank = Top | At(n: int)

  /** `a` may come before `b` in descending order. */
  predicate RankGe(a: Rank, b: Rank) {
    a.Top? || (b.At? && a.n >= b.n)
  }

  /** Every row comes no later than any row after it, in descending order of its key. */
  predicate SortedDesc<T>(s: seq<T>, key: T -> Rank) {
    forall i, j :: 0 <= i < j < |s| ==> RankGe(key(s[i]), key(s[j]))
  }

  /** `where`: the rows that satisfy `keep`, in table order. */
  function Where<T>(s: seq<T>, keep: T -> bool): (r: seq<T>)
    ensures |r| <= |s|
    ensures forall i :: 0 <= i < |r| ==> keep(r[i])
    ensures forall i :: 0 <= i < |s| && keep(s[i]) ==> s[i] in r
    ensures forall i :: 0 <= i < |r| ==> r[i] in s
  {
    if s == [] then []
    else if keep(s[0]) then [s[0]] + Where(s[1..], keep)
    else Where(s[1..], keep)
  }

  /** `where` keeps every row it accepts as often as the table holds it. */
  lemma {:induction false} WhereCounts<T>(s: seq<T>, keep: T -> bool)
    ensures multiset(Where(s, keep)) <= multiset(s)
    ensures forall x :: keep(x) ==> multiset(Where(s, keep))[x] == multiset(s)[x]
  {
    if s != [] {
      WhereCounts(s[1..], keep);
      assert s == [s[0]] + s[1..];
      assert multiset(s) == multiset{s[0]} + multiset(s[1..]);
      if keep(s[0]) {
        assert multiset(Where(s, keep)) == multiset{s[0]} + multiset(Where(s[1..], keep));
      } else {
        assert multiset(Where(s, keep)) == multiset(Where(s[1..], keep));
      }
    }
  }

  /** When every row is accepted, `where` returns the table unchanged. */
  lemma {:induction false} WhereAll<T>(s: seq<T>, keep: T -> bool)
    requires forall i :: 0 <= i < |s| ==> keep(s[i])
    ensures Where(s, keep) == s
  {
    if s != [] {
      WhereAll(s[1..], keep);
    }
  }

  /** A row that outranks or equals every row of a sorted sequence may go in front of it. */
  lemma ConsSorted<T>(h: T, s: seq<T>, key: T -> Rank)
    requires SortedDesc(s, key)
    requires forall j :: 0 <= j < |s| ==> RankGe(key(h), key(s[j]))
    ensures SortedDesc([h] + s, key)
  {
    var r := [h] + s;
    forall i, j | 0 <= i < j < |r|
      ensures RankGe(key(r[i]), key(r[j]))
    {
      if i > 0 {
        assert r[i] == s[i - 1] && r[j] == s[j - 1];
      } else {
        assert r[j] == s[j - 1];
      }
    }
  }

  /**
   * When `x` does not go first, the head of `s` outranks or equals `x` and
   * every row after it.
   */
  lemma HeadOutranks<T>(x: T, s: seq<T>, key: T -> Rank, y: T)
    requires SortedDesc(s, key) && s != [] && !RankGe(key(x), key(s[0]))
    requires y in multiset(s[1..]) + multiset{x}
    ensures RankGe(key(s[0]), key(y))
  {
    if y != x {
      assert y in s[1..];
      var j :| 0 <= j < |s[1..]| && s[1..][j] == y;
      assert s[j + 1] == y;
    }
  }

  /** Places `x` before the first row it outranks or equals, keeping the rest in order. */
  function Insert<T>(x: T, s: seq<T>, key: T -> Rank): (r: seq<T>)
    requires SortedDesc(s, key)
    ensures |r| == |s| + 1
    ensures multiset(r) == multiset(s) + multiset{x}
    ensures SortedDesc(r, key)
  {
    if s == [] || RankGe(key(x), key(s[0])) then
      forall j | 0 <= j < |s|
        ensures RankGe(key(x), key(s[j]))
      {
        assert RankGe(key(s[0]), key(s[j])) || j == 0;
      }
      ConsSorted(x, s, key);
      [x] + s
    else
      var rest := Insert(x, s[1..], key);
      forall j | 0 <= j < |rest|
        ensures RankGe(key(s[0]), key(rest[j]))
      {
        HeadOutranks(x, s, key, rest[j]);
      }
      ConsSorted(s[0], rest, key);
      assert s == [s[0]] + s[1..];
      [s[0]] + rest
  }

  /** `orderBy desc`: a permutation of the rows, in descending order of their key. */
  function OrderByDesc<T>(s: seq<T>, key: T -> Rank): (r: seq<T>)
    ensures |r| == |s|
    ensures multiset(r) == multiset(s)
    ensures SortedDesc(r, key)
  {
    if s == [] then []
    else
      assert s == [s[0]] + s[1..];
      Insert(s[0], OrderByDesc(s[1..], key), key)
  }
}
