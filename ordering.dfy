/** Query ordering and paging: what `ORDER BY` and `OFFSET ... LIMIT` do
    to a list of rows. The sort is written as insertion into a sorted list
    and proved to return the same rows in order. */
module Ordering {

  /** `le` is a total preorder: any two rows compare, and comparison chains. */
  ghost predicate TotalPreorder<T(!new)>(le: (T, T) -> bool) {
    && (forall a, b :: le(a, b) || le(b, a))
    && (forall a, b, c :: le(a, b) && le(b, c) ==> le(a, c))
  }

  /** Every row comes no later than the rows after it. */
  ghost predicate SortedBy<T>(s: seq<T>, le: (T, T) -> bool) {
    forall i, j :: 0 <= i < j < |s| ==> le(s[i], s[j])
  }

  /** Places `x` in front of the first row it may precede. */
  function Insert<T>(x: T, s: seq<T>, le: (T, T) -> bool): (r: seq<T>)
    ensures multiset(r) == multiset(s) + multiset{x}
    ensures |r| == |s| + 1
  {
    if s == [] then [x]
    else if le(x, s[0]) then [x] + s
    else
      assert s == [s[0]] + s[1..];
      [s[0]] + Insert(x, s[1..], le)
  }

  /** The rows in the order `le` asks for. */
  function SortBy<T>(s: seq<T>, le: (T, T) -> bool): (r: seq<T>)
    ensures multiset(r) == multiset(s)
    ensures |r| == |s|
  {
    if s == [] then []
    else
      assert s == [s[0]] + s[1..];
      Insert(s[0], SortBy(s[1..], le), le)
  }

  /** A lower bound of `x` and of every row stays one after the insertion. */
  lemma {:induction false} InsertLowerBound<T>(b: T, x: T, s: seq<T>, le: (T, T) -> bool)
    requires le(b, x) && forall i :: 0 <= i < |s| ==> le(b, s[i])
    ensures forall i :: 0 <= i < |Insert(x, s, le)| ==> le(b, Insert(x, s, le)[i])
  {
    var r := Insert(x, s, le);
    if s == [] {
    } else if le(x, s[0]) {
      assert r == [x] + s;
      forall i | 0 <= i < |r| ensures le(b, r[i]) {
        if i > 0 {
          assert r[i] == s[i - 1];
        }
      }
    } else {
      var rest := Insert(x, s[1..], le);
      InsertLowerBound(b, x, s[1..], le);
      assert r == [s[0]] + rest;
      forall i | 0 <= i < |r| ensures le(b, r[i]) {
        if i > 0 {
          assert r[i] == rest[i - 1];
        } else {
          assert r[0] == s[0];
        }
      }
    }
  }

  lemma {:induction false} InsertSorted<T(!new)>(x: T, s: seq<T>, le: (T, T) -> bool)
    requires TotalPreorder(le) && SortedBy(s, le)
    ensures SortedBy(Insert(x, s, le), le)
  {
    if s != [] && !le(x, s[0]) {
      var tail := s[1..];
      var rest := Insert(x, tail, le);
      assert SortedBy(tail, le) by {
        forall i, j | 0 <= i < j < |tail| ensures le(tail[i], tail[j]) {
          assert tail[i] == s[i + 1] && tail[j] == s[j + 1];
        }
      }
      InsertSorted(x, tail, le);
      assert le(s[0], x);
      forall i | 0 <= i < |tail| ensures le(s[0], tail[i]) {
        assert tail[i] == s[i + 1];
      }
      InsertLowerBound(s[0], x, tail, le);
      var r := [s[0]] + rest;
      assert Insert(x, s, le) == r;
      forall i, j | 0 <= i < j < |r| ensures le(r[i], r[j]) {
        if i == 0 {
          assert r[0] == s[0] && r[j] == rest[j - 1];
        } else {
          assert r[i] == rest[i - 1] && r[j] == rest[j - 1];
        }
      }
    }
  }

  /** `ORDER BY`: the result holds exactly the input rows, in order. */
  lemma {:induction false} SortBySorted<T(!new)>(s: seq<T>, le: (T, T) -> bool)
    requires TotalPreorder(le)
    ensures SortedBy(SortBy(s, le), le)
    ensures multiset(SortBy(s, le)) == multiset(s)
  {
    if s != [] {
      SortBySorted(s[1..], le);
      InsertSorted(s[0], SortBy(s[1..], le), le);
    }
  }

  /** The rows in reverse: newest first when rows are stored in creation order. */
  function Reversed<T>(s: seq<T>): (r: seq<T>)
    ensures |r| == |s| && forall i :: 0 <= i < |s| ==> r[i] == s[|s| - 1 - i]
  {
    seq(|s|, i requires 0 <= i < |s| => s[|s| - 1 - i])
  }

  /** `.offset(skip).limit(limit)`: at most `limit` rows, starting at row `skip`. */
  function Page<T>(rows: seq<T>, skip: nat, limit: nat): (r: seq<T>)
    ensures |r| == if skip >= |rows| then 0 else if |rows| - skip < limit then |rows| - skip else limit
    ensures forall i :: 0 <= i < |r| ==> r[i] == rows[skip + i]
  {
    if skip >= |rows| then []
    else if |rows| - skip < limit then rows[skip..]
    else rows[skip..skip + limit]
  }

  /** Consecutive pages cover the rows without gaps or overlap. */
  lemma PagesAdjoin<T>(rows: seq<T>, skip: nat, n: nat, m: nat)
    ensures Page(rows, skip, n + m) == Page(rows, skip, n) + Page(rows, skip + n, m)
  {
    var whole := Page(rows, skip, n + m);
    var parts := Page(rows, skip, n) + Page(rows, skip + n, m);
    assert |whole| == |parts|;
    forall i | 0 <= i < |whole| ensures whole[i] == parts[i] {
      if i >= |Page(rows, skip, n)| {
        assert parts[i] == Page(rows, skip + n, m)[i - |Page(rows, skip, n)|];
      }
    }
  }
}
