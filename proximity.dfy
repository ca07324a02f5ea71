/**
 * The connection pass of the screensaver: every unordered pair of particles closer than the
 * connection distance gets a line whose opacity fades with the distance.
 */
module Proximity {

  datatype Point = Point(x: real, y: real)

  /**
   * A line between particles `i` and `j` (`i < j`). The square of their distance is recorded;
   * the line's alpha is Alpha(d) for the distance d, the non-negative root of `distSq`.
   */
  datatype Connection = Connection(i: nat, j: nat, distSq: real)

  const ConnectionDistance: real := 150.0

  function DistSq(a: Point, b: Point): (r: real)
    ensures 0.0 <= r
  {
    (a.x - b.x) * (a.x - b.x) + (a.y - b.y) * (a.y - b.y)
  }

  /** `distance < connectionDistance`, compared on squares so that no root is needed. */
  predicate Near(a: Point, b: Point)
  {
    DistSq(a, b) < ConnectionDistance * ConnectionDistance
  }

  /** The global alpha of a line drawn for two particles at distance `d`. */
  function Alpha(d: real): real
  {
    (1.0 - d / ConnectionDistance) * 0.2
  }

  /** Comparing squares decides the same as comparing the distance itself. */
  lemma NearIffWithinDistance(a: Point, b: Point, d: real)
    requires 0.0 <= d && d * d == DistSq(a, b)
    ensures Near(a, b) <==> d < ConnectionDistance
  {
    var r := ConnectionDistance;
    if d < r {
      assert d * d <= d * r;
      assert d * r < r * r;
    } else {
      assert d * d >= d * r;
      assert d * r >= r * r;
    }
  }

  /** Lines nearer than the connection distance are visible, never brighter than 0.2. */
  lemma AlphaRange(d: real)
    requires 0.0 <= d < ConnectionDistance
    ensures 0.0 < Alpha(d) <= 0.2
  {
  }

  /** A line fades to nothing exactly at the connection distance. */
  lemma AlphaAtDistance()
    ensures Alpha(ConnectionDistance) == 0.0
  {
  }

  /** Nearer pairs get strictly more opaque lines. */
  lemma AlphaDecreasing(d1: real, d2: real)
    requires d1 < d2
    ensures Alpha(d1) > Alpha(d2)
  {
  }

  /** The lines for the pairs (i, k) with i < k < j, in increasing k. */
  function Row(pts: seq<Point>, i: nat, j: nat): seq<Connection>
    requires i < |pts| && j <= |pts|
    decreases j
  {
    if j <= i + 1 then []
    else Row(pts, i, j - 1)
         + (if Near(pts[i], pts[j - 1]) then [Connection(i, j - 1, DistSq(pts[i], pts[j - 1]))] else [])
  }

  /** The lines for the pairs whose first particle is below `n`, row by row. */
  function Rows(pts: seq<Point>, n: nat): seq<Connection>
    requires n <= |pts|
  {
    if n == 0 then [] else Rows(pts, n - 1) + Row(pts, n - 1, |pts|)
  }

  /** All the lines of one frame, in the order the nested loop draws them. */
  function Pairs(pts: seq<Point>): seq<Connection>
  {
    Rows(pts, |pts|)
  }

  /** The line for a pair exists exactly when the pair is near. */
  predicate IsLineFor(pts: seq<Point>, c: Connection)
  {
    c.i < c.j < |pts| && Near(pts[c.i], pts[c.j]) && c.distSq == DistSq(pts[c.i], pts[c.j])
  }

  lemma {:induction false} RowMembers(pts: seq<Point>, i: nat, j: nat, c: Connection)
    requires i < |pts| && j <= |pts|
    ensures c in Row(pts, i, j) <==> c.i == i && c.j < j && IsLineFor(pts, c)
    decreases j
  {
    if j > i + 1 {
      RowMembers(pts, i, j - 1, c);
    }
  }

  /** Every line of the first `n` rows is a line for a near pair whose first index is below `n`. */
  lemma {:induction false} RowsSound(pts: seq<Point>, n: nat, c: Connection)
    requires n <= |pts| && c in Rows(pts, n)
    ensures c.i < n && IsLineFor(pts, c)
  {
    var front, row := Rows(pts, n - 1), Row(pts, n - 1, |pts|);
    assert Rows(pts, n) == front + row;
    if c in front {
      RowsSound(pts, n - 1, c);
    } else {
      RowMembers(pts, n - 1, |pts|, c);
    }
  }

  /** Every near pair whose first index is below `n` has its line in the first `n` rows. */
  lemma {:induction false} RowsComplete(pts: seq<Point>, n: nat, c: Connection)
    requires n <= |pts| && c.i < n && IsLineFor(pts, c)
    ensures c in Rows(pts, n)
  {
    var front, row := Rows(pts, n - 1), Row(pts, n - 1, |pts|);
    assert Rows(pts, n) == front + row;
    if c.i < n - 1 {
      RowsComplete(pts, n - 1, c);
    } else {
      RowMembers(pts, n - 1, |pts|, c);
    }
  }

  lemma RowsMembers(pts: seq<Point>, n: nat, c: Connection)
    requires n <= |pts|
    ensures c in Rows(pts, n) <==> c.i < n && IsLineFor(pts, c)
  {
    if c in Rows(pts, n) {
      RowsSound(pts, n, c);
    }
    if c.i < n && IsLineFor(pts, c) {
      RowsComplete(pts, n, c);
    }
  }

  /** A pair gets a line if and only if its first index is below its second and it is near. */
  lemma PairsMembers(pts: seq<Point>, c: Connection)
    ensures c in Pairs(pts) <==> IsLineFor(pts, c)
  {
    RowsMembers(pts, |pts|, c);
  }

  predicate Before(a: Connection, b: Connection)
  {
    a.i < b.i || (a.i == b.i && a.j < b.j)
  }

  predicate Ordered(cs: seq<Connection>)
  {
    forall a, b :: 0 <= a < b < |cs| ==> Before(cs[a], cs[b])
  }

  lemma {:induction false} RowOrdered(pts: seq<Point>, i: nat, j: nat)
    requires i < |pts| && j <= |pts|
    ensures Ordered(Row(pts, i, j))
    ensures forall k :: 0 <= k < |Row(pts, i, j)| ==> Row(pts, i, j)[k].i == i && Row(pts, i, j)[k].j < j
    decreases j
  {
    if j > i + 1 {
      RowOrdered(pts, i, j - 1);
    }
  }

  lemma {:induction false} RowsOrdered(pts: seq<Point>, n: nat)
    requires n <= |pts|
    ensures Ordered(Rows(pts, n))
    ensures forall k :: 0 <= k < |Rows(pts, n)| ==> Rows(pts, n)[k].i < n
  {
    if n > 0 {
      RowsOrdered(pts, n - 1);
      RowOrdered(pts, n - 1, |pts|);
      var front, row := Rows(pts, n - 1), Row(pts, n - 1, |pts|);
      assert Rows(pts, n) == front + row;
      forall a, b | 0 <= a < b < |front + row| ensures Before((front + row)[a], (front + row)[b]) {
        if b < |front| {
        } else if a < |front| {
          assert (front + row)[a] == front[a] && (front + row)[b] == row[b - |front|];
        } else {
          assert (front + row)[a] == row[a - |front|] && (front + row)[b] == row[b - |front|];
        }
      }
    }
  }

  /** The lines come in lexicographic order of (i, j), so no pair is drawn twice. */
  lemma PairsOnce(pts: seq<Point>)
    ensures Ordered(Pairs(pts))
    ensures forall a, b :: 0 <= a < b < |Pairs(pts)| ==>
              (Pairs(pts)[a].i, Pairs(pts)[a].j) != (Pairs(pts)[b].i, Pairs(pts)[b].j)
  {
    RowsOrdered(pts, |pts|);
  }

  /** Every drawn line has an opacity in (0, 0.2]. */
  lemma LineAlpha(pts: seq<Point>, c: Connection, d: real)
    requires c in Pairs(pts) && 0.0 <= d && d * d == c.distSq
    ensures 0.0 < Alpha(d) <= 0.2
  {
    PairsMembers(pts, c);
    NearIffWithinDistance(pts[c.i], pts[c.j], d);
  }

  /** drawConnections: the nested `i < j` loop over the particle positions. */
  method DrawConnections(pts: seq<Point>) returns (lines: seq<Connection>)
    ensures lines == Pairs(pts)
  {
    lines := [];
    var i := 0;
    while i < |pts|
      invariant 0 <= i <= |pts|
      invariant lines == Rows(pts, i)
    {
      var row := DrawRow(pts, i);
      lines := lines + row;
      i := i + 1;
    }
  }

  /** The inner loop of drawConnections: the lines from particle `i` to every later one. */
  method DrawRow(pts: seq<Point>, i: nat) returns (row: seq<Connection>)
    requires i < |pts|
    ensures row == Row(pts, i, |pts|)
  {
    row := [];
    var j := i + 1;
    while j < |pts|
      invariant i + 1 <= j <= |pts|
      invariant row == Row(pts, i, j)
    {
      var distSq := DistSq(pts[i], pts[j]);
      if distSq < ConnectionDistance * ConnectionDistance {
        row := row + [Connection(i, j, distSq)];
      }
      j := j + 1;
    }
  }
}
