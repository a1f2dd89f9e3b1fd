/**
 * The pandas DataFrame of songs as the chatbot uses it: an ordered sequence of
 * rows with a fixed set of numeric columns, boolean-mask filtering that keeps
 * the order of the rows, and `sort_values(by='popularity', ascending=False)`
 * followed by `head(n)`.
 */
module Frames {

  /** One song: its name and artists, and a value for each numeric column. */
  datatype Row = Row(name: string, artists: string, features: map<string, real>)

  /** The numeric columns of the frame and its rows, in index order. */
  datatype Frame = Frame(columns: set<string>, rows: seq<Row>)

  /** Every row has a value in each of the columns. */
  predicate HasColumns(rows: seq<Row>, columns: set<string>)
  {
    forall r :: r in rows ==> columns <= r.features.Keys
  }

  /** A frame whose rows all carry every column of the frame. */
  predicate WellFormed(f: Frame)
  {
    HasColumns(f.rows, f.columns)
  }

  /** `a` is `b` with some rows left out and the rest kept in order. */
  predicate IsSubsequence<T(==)>(a: seq<T>, b: seq<T>)
    decreases |b|
  {
    a == [] || (b != [] && ((a[0] == b[0] && IsSubsequence(a[1..], b[1..])) || IsSubsequence(a, b[1..])))
  }

  /** Every sequence is a subsequence of itself. */
  lemma {:induction false} SubsequenceReflexive<T>(a: seq<T>)
    ensures IsSubsequence(a, a)
    decreases |a|
  {
    if a != [] {
      SubsequenceReflexive(a[1..]);
    }
  }

  /** Filtering a filtered sequence again still keeps rows of the original, in order. */
  lemma {:induction false} SubsequenceTransitive<T>(a: seq<T>, b: seq<T>, c: seq<T>)
    requires IsSubsequence(a, b) && IsSubsequence(b, c)
    ensures IsSubsequence(a, c)
    decreases |c|
  {
    if a != [] {
      if IsSubsequence(b, c[1..]) {
        SubsequenceTransitive(a, b, c[1..]);
      } else if a[0] == b[0] && IsSubsequence(a[1..], b[1..]) {
        SubsequenceTransitive(a[1..], b[1..], c[1..]);
      } else {
        SubsequenceTransitive(a, b[1..], c[1..]);
      }
    }
  }

  /** The value of `column` in row `r` lies in the closed interval [lo, hi]. */
  predicate InWindow(r: Row, column: string, lo: real, hi: real)
  {
    column in r.features && lo <= r.features[column] <= hi
  }

  /** `df[(df[column] >= lo) & (df[column] <= hi)]`: the rows whose value lies in [lo, hi], in order. */
  function KeepInWindow(rows: seq<Row>, column: string, lo: real, hi: real): (kept: seq<Row>)
    ensures IsSubsequence(kept, rows)
    ensures forall r :: r in kept <==> r in rows && InWindow(r, column, lo, hi)
    ensures forall r :: multiset(kept)[r] == if InWindow(r, column, lo, hi) then multiset(rows)[r] else 0
  {
    if rows == [] then []
    else
      assert rows == [rows[0]] + rows[1..];
      if InWindow(rows[0], column, lo, hi) then [rows[0]] + KeepInWindow(rows[1..], column, lo, hi)
      else KeepInWindow(rows[1..], column, lo, hi)
  }

  /** Every row has a popularity value. */
  predicate HasPopularity(rows: seq<Row>)
  {
    forall r :: r in rows ==> "popularity" in r.features
  }

  function Popularity(r: Row): real
    requires "popularity" in r.features
  {
    r.features["popularity"]
  }

  /** Popularity never increases along the sequence. */
  predicate ByPopularityDesc(rows: seq<Row>)
    requires HasPopularity(rows)
  {
    forall i, j :: 0 <= i < j < |rows| ==> Popularity(rows[j]) <= Popularity(rows[i])
  }

  /** Insert `x` into a descending sequence, before the first row that is at most as popular as `x`; a row inserted this way goes ahead of the later rows it ties with. */
  function InsertByPopularity(x: Row, s: seq<Row>): (r: seq<Row>)
    requires "popularity" in x.features && HasPopularity(s) && ByPopularityDesc(s)
    ensures |r| == |s| + 1
    ensures multiset(r) == multiset(s) + multiset{x}
    ensures HasPopularity(r) && ByPopularityDesc(r)
  {
    if s == [] || Popularity(s[0]) <= Popularity(x) then
      [x] + s
    else
      var t := InsertByPopularity(x, s[1..]);
      InsertBelowHead(x, s, t);
      [s[0]] + t
  }

  /** Putting the head of `s` back in front of `x` inserted into the rest of `s` keeps the order. */
  lemma InsertBelowHead(x: Row, s: seq<Row>, t: seq<Row>)
    requires "popularity" in x.features && HasPopularity(s) && ByPopularityDesc(s)
    requires s != [] && Popularity(x) < Popularity(s[0])
    requires multiset(t) == multiset(s[1..]) + multiset{x}
    requires HasPopularity(t) && ByPopularityDesc(t)
    ensures multiset([s[0]] + t) == multiset(s) + multiset{x}
    ensures HasPopularity([s[0]] + t) && ByPopularityDesc([s[0]] + t)
  {
    assert s == [s[0]] + s[1..];
    forall k | 0 <= k < |t|
      ensures Popularity(t[k]) <= Popularity(s[0])
    {
      assert t[k] in multiset(t);
      if t[k] != x {
        assert t[k] in s[1..];
      }
    }
    var r := [s[0]] + t;
    forall i, j | 0 <= i < j < |r|
      ensures Popularity(r[j]) <= Popularity(r[i])
    {
      if i > 0 {
        assert r[i] == t[i - 1] && r[j] == t[j - 1];
      } else {
        assert r[j] == t[j - 1];
      }
    }
  }

  /**
   * `sort_values(by='popularity', ascending=False)`: the rows rearranged so that
   * popularity never increases; rows of equal popularity keep their order.
   */
  function SortByPopularity(rows: seq<Row>): (sorted: seq<Row>)
    requires HasPopularity(rows)
    ensures |sorted| == |rows| && multiset(sorted) == multiset(rows)
    ensures HasPopularity(sorted) && ByPopularityDesc(sorted)
  {
    if rows == [] then []
    else
      assert rows == [rows[0]] + rows[1..];
      InsertByPopularity(rows[0], SortByPopularity(rows[1..]))
  }

  function Min(a: int, b: int): int
  {
    if a <= b then a else b
  }

  /** `x` occurs more often in `rows` than in `top`: some copy of it was not chosen. */
  predicate LeftOut(x: Row, rows: seq<Row>, top: seq<Row>)
  {
    multiset(top)[x] < multiset(rows)[x]
  }

  /** Every row of `rows` left out of `top` has a popularity, and it is at most that of each row of `top`. */
  ghost predicate NoneLeftOutMorePopular(rows: seq<Row>, top: seq<Row>)
    requires HasPopularity(top)
  {
    forall x :: LeftOut(x, rows, top) ==>
      "popularity" in x.features && forall k :: 0 <= k < |top| ==> Popularity(x) <= Popularity(top[k])
  }

  /**
   * `sort_values(by='popularity', ascending=False).head(n)`: the `n` most popular
   * rows (all of them when there are fewer), most popular first; no row left
   * out is more popular than a row that was chosen.
   */
  function TopByPopularity(rows: seq<Row>, n: nat): (top: seq<Row>)
    requires HasPopularity(rows)
    ensures |top| == Min(n, |rows|)
    ensures multiset(top) <= multiset(rows)
    ensures HasPopularity(top) && ByPopularityDesc(top)
    ensures NoneLeftOutMorePopular(rows, top)
  {
    var sorted := SortByPopularity(rows);
    var m := Min(n, |rows|);
    TopOfSorted(rows, sorted, m);
    sorted[..m]
  }

  lemma TopOfSorted(rows: seq<Row>, sorted: seq<Row>, m: nat)
    requires HasPopularity(rows) && HasPopularity(sorted) && ByPopularityDesc(sorted)
    requires |sorted| == |rows| && multiset(sorted) == multiset(rows) && m <= |rows|
    ensures multiset(sorted[..m]) <= multiset(rows)
    ensures forall x :: LeftOut(x, rows, sorted[..m]) ==>
      "popularity" in x.features && forall k :: 0 <= k < m ==> Popularity(x) <= Popularity(sorted[..m][k])
  {
    var top, rest := sorted[..m], sorted[m..];
    assert sorted == top + rest;
    assert multiset(rows) == multiset(top) + multiset(rest);
    forall x | LeftOut(x, rows, top)
      ensures "popularity" in x.features && forall k :: 0 <= k < m ==> Popularity(x) <= Popularity(top[k])
    {
      var j := InRest(sorted, m, x);
      forall k | 0 <= k < m
        ensures Popularity(x) <= Popularity(top[k])
      {
        assert top[k] == sorted[k];
      }
    }
  }

  /** A row that occurs among `s[m..]` sits at some index `j >= m` of `s`. */
  lemma InRest(s: seq<Row>, m: nat, x: Row) returns (j: nat)
    requires m <= |s| && x in multiset(s[m..])
    ensures m <= j < |s| && s[j] == x
  {
    assert x in s[m..];
    var d :| 0 <= d < |s[m..]| && s[m..][d] == x;
    j := m + d;
  }
}
