/**
 * Exact k-nearest-neighbour selection as a flat L2 index performs it, over
 * abstract distances: positions are ranked by ascending distance and ties
 * are broken by position (insertion order).
 */
module Nearest {

  /** Position `i` ranks before position `j`. */
  predicate Closer(d: seq<real>, i: nat, j: nat)
    requires i < |d| && j < |d|
  {
    d[i] < d[j] || (d[i] == d[j] && i < j)
  }

  predicate InRange(d: seq<real>, s: seq<nat>)
  {
    forall a :: 0 <= a < |s| ==> s[a] < |d|
  }

  /** Strictly ascending rank; in particular no position occurs twice. */
  predicate Ranked(d: seq<real>, s: seq<nat>)
    requires InRange(d, s)
  {
    forall a, b :: 0 <= a < b < |s| ==> Closer(d, s[a], s[b])
  }

  /** Insert one position into a ranked list. */
  function Insert(d: seq<real>, x: nat, s: seq<nat>): (r: seq<nat>)
    requires x < |d| && InRange(d, s)
    ensures |r| == |s| + 1 && InRange(d, r)
    ensures forall y :: y in r <==> y == x || y in s
  {
    if s == [] then [x]
    else if Closer(d, x, s[0]) then [x] + s
    else [s[0]] + Insert(d, x, s[1..])
  }

  lemma {:induction false} InsertRanked(d: seq<real>, x: nat, s: seq<nat>)
    requires x < |d| && InRange(d, s) && Ranked(d, s) && x !in s
    ensures Ranked(d, Insert(d, x, s))
  {
    if s != [] && !Closer(d, x, s[0]) {
      assert s[1..] == s[1..] && InRange(d, s[1..]);
      assert Ranked(d, s[1..]) by {
        forall a, b | 0 <= a < b < |s[1..]| ensures Closer(d, s[1..][a], s[1..][b]) {
          assert s[1..][a] == s[a + 1] && s[1..][b] == s[b + 1];
        }
      }
      InsertRanked(d, x, s[1..]);
      var r := Insert(d, x, s);
      var t := Insert(d, x, s[1..]);
      assert r == [s[0]] + t;
      forall b | 0 < b < |r| ensures Closer(d, s[0], r[b]) {
        assert r[b] == t[b - 1];
        assert t[b - 1] in t;
        if t[b - 1] == x {
          assert Closer(d, s[0], x);
        } else {
          var c :| 0 <= c < |s[1..]| && s[1..][c] == t[b - 1];
          assert Closer(d, s[0], s[c + 1]);
        }
      }
    }
  }

  /** Positions `0 .. n-1` in rank order (insertion sort). */
  function SortByDistance(d: seq<real>, n: nat): (r: seq<nat>)
    requires n <= |d|
    ensures |r| == n && InRange(d, r)
    ensures forall y :: y in r <==> 0 <= y < n
  {
    if n == 0 then [] else Insert(d, n - 1, SortByDistance(d, n - 1))
  }

  lemma {:induction false} SortByDistanceRanked(d: seq<real>, n: nat)
    requires n <= |d|
    ensures Ranked(d, SortByDistance(d, n))
  {
    if n > 0 {
      SortByDistanceRanked(d, n - 1);
      InsertRanked(d, n - 1, SortByDistance(d, n - 1));
    }
  }

  /** The k closest positions, closest first. */
  function NearestK(d: seq<real>, k: nat): seq<nat>
    requires k <= |d|
  {
    SortByDistance(d, |d|)[..k]
  }

  /**
   * `NearestK` gives k distinct positions of `d`, in ascending rank, and no
   * position left out ranks before any position returned.
   */
  lemma NearestKSpec(d: seq<real>, k: nat)
    requires k <= |d|
    ensures |NearestK(d, k)| == k && InRange(d, NearestK(d, k))
    ensures Ranked(d, NearestK(d, k))
    ensures forall j, a :: 0 <= j < |d| && j !in NearestK(d, k) && 0 <= a < k ==> Closer(d, NearestK(d, k)[a], j)
  {
    var s := SortByDistance(d, |d|);
    SortByDistanceRanked(d, |d|);
    var r := NearestK(d, k);
    forall j, a | 0 <= j < |d| && j !in r && 0 <= a < k ensures Closer(d, r[a], j) {
      assert j in s;
      var b :| 0 <= b < |s| && s[b] == j;
      assert forall c :: 0 <= c < k ==> r[c] == s[c];
      assert r[a] == s[a];
    }
  }
}
