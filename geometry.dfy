// Map.kt, the geometric half: locations with their ids, the rounded-up Euclidean
// distance, and the lazily filled distance cache.
module Geometry {

  /** A grid position. `id` is the location id that indexes the distance cache;
      the source issues it from a counter when the location is built. */
  datatype Location = Location(row: int, column: int, id: nat)

  /** Builds a location and issues its id from the shared counter: the id is
      not below the counter, and the counter moves past it. */
  function NewLocation(counter: nat, row: int, column: int): (r: (Location, nat))
    ensures counter <= r.0.id < r.1
    ensures r.0.row == row && r.0.column == column
  {
    (Location(row, column, counter), counter + 1)
  }

  /** Locations built one after another from the counter `counter`, and the
      counter left at the end. */
  function NewLocations(counter: nat, points: seq<(int, int)>): (r: (seq<Location>, nat))
    ensures |r.0| == |points| && counter <= r.1
    ensures forall i :: 0 <= i < |points| ==> r.0[i].row == points[i].0 && r.0[i].column == points[i].1
    ensures forall i :: 0 <= i < |points| ==> counter <= r.0[i].id < r.1
    decreases |points|
  {
    if points == [] then ([], counter)
    else
      var first := NewLocation(counter, points[0].0, points[0].1);
      var rest := NewLocations(first.1, points[1..]);
      ([first.0] + rest.0, rest.1)
  }

  /** Locations built one after another get increasing ids, so no two of them
      share one. */
  lemma {:induction false} NewLocationsDistinct(counter: nat, points: seq<(int, int)>)
    ensures forall i, j :: 0 <= i < j < |points| ==>
      NewLocations(counter, points).0[i].id < NewLocations(counter, points).0[j].id
    decreases |points|
  {
    if points != [] {
      var first := NewLocation(counter, points[0].0, points[0].1);
      NewLocationsDistinct(first.1, points[1..]);
      var r := NewLocations(counter, points);
      var rest := NewLocations(first.1, points[1..]);
      assert r.0 == [first.0] + rest.0;
      forall i, j | 0 <= i < j < |points|
        ensures r.0[i].id < r.0[j].id
      {
        assert r.0[j] == rest.0[j - 1];
        if i > 0 {
          assert r.0[i] == rest.0[i - 1];
          assert 0 <= i - 1 < j - 1 < |points[1..]|;
          assert rest.0[i - 1].id < rest.0[j - 1].id;
        } else {
          assert r.0[i] == first.0 && first.0.id < first.1 <= rest.0[j - 1].id;
        }
      }
    }
  }

  /** The least d >= 0 with d * d >= n, searched upwards from `from`. */
  function CeilSqrtFrom(n: nat, from: nat): (d: nat)
    requires from == 0 || (from - 1) * (from - 1) < n
    ensures d * d >= n && (d == 0 || (d - 1) * (d - 1) < n)
    decreases n - from
  {
    if from * from >= n then from
    else
      assert from < n by {
        if from > 0 { MulMonotone(1, from); }
      }
      CeilSqrtFrom(n, from + 1)
  }

  /** ceil(sqrt(n)) computed exactly on integers. */
  function CeilSqrt(n: nat): (d: nat)
    ensures d * d >= n && (d == 0 || (d - 1) * (d - 1) < n)
  {
    CeilSqrtFrom(n, 0)
  }

  /** Any other root bound is at least CeilSqrt: it is the least one. */
  lemma CeilSqrtLeast(n: nat, e: nat)
    requires e * e >= n
    ensures CeilSqrt(n) <= e
  {
    var d := CeilSqrt(n);
    if d > e {
      MulMonotone(e, d - 1);
    }
  }

  lemma MulMonotone(a: nat, b: nat)
    requires a <= b
    ensures a * a <= b * b
  {
    assert a * a <= a * b <= b * b;
  }

  function Square(x: int): nat { x * x }

  /** Map.distance's inner formula: ceil(sqrt(dr^2 + dc^2)). */
  function Dist(a: Location, b: Location): nat
  {
    CeilSqrt(Square(a.row - b.row) + Square(a.column - b.column))
  }

  lemma DistSymmetric(a: Location, b: Location)
    ensures Dist(a, b) == Dist(b, a)
  {
    assert Square(a.row - b.row) == Square(b.row - a.row);
    assert Square(a.column - b.column) == Square(b.column - a.column);
  }

  /** The distance is zero exactly when the two grid positions coincide. */
  lemma DistZero(a: Location, b: Location)
    ensures Dist(a, b) == 0 <==> a.row == b.row && a.column == b.column
  {
    var n := Square(a.row - b.row) + Square(a.column - b.column);
    if a.row != b.row {
      SquarePositive(a.row - b.row);
    }
    if a.column != b.column {
      SquarePositive(a.column - b.column);
    }
  }

  lemma SquarePositive(x: int)
    requires x != 0
    ensures Square(x) > 0
  {
    var y: nat := if x < 0 then -x else x;
    assert Square(x) == y * y;
    MulMonotone(1, y);
  }

  /** The distance cache of Map.kt: a size x size matrix holding -1 until the
      pair is first asked for. `sites[i]` is the location whose id is `i`. */
  class DistanceMap {
    const cells: array2<int>
    ghost const sites: seq<Location>

    ghost predicate Valid()
      reads this, cells
    {
      && cells.Length0 == |sites| && cells.Length1 == |sites|
      && (forall i :: 0 <= i < |sites| ==> sites[i].id == i)
      && forall i, j :: 0 <= i < |sites| && 0 <= j < |sites| ==>
           cells[i, j] == -1 || cells[i, j] == Dist(sites[i], sites[j])
    }

    /** `loc` is the location this map knows under `loc.id`. */
    ghost predicate Knows(loc: Location)
    {
      loc.id < |sites| && sites[loc.id] == loc
    }

    constructor (size: nat, ghost sites: seq<Location>)
      requires |sites| == size
      requires forall i :: 0 <= i < size ==> sites[i].id == i
      ensures Valid() && fresh(cells) && this.sites == sites
      ensures forall i, j :: 0 <= i < size && 0 <= j < size ==> cells[i, j] == -1
    {
      cells := new int[size, size]((i, j) => -1);
      this.sites := sites;
    }

    /** The distance from `a` to `b`: computed and written to cell [a.id, b.id]
        on the first request, read from that cell afterwards. */
    method Distance(a: Location, b: Location) returns (d: int)
      requires Valid() && Knows(a) && Knows(b)
      modifies cells
      ensures Valid()
      ensures d == Dist(a, b)
      ensures cells[a.id, b.id] == d
      ensures old(cells[a.id, b.id]) != -1 ==> unchanged(cells)
      ensures forall i, j :: 0 <= i < cells.Length0 && 0 <= j < cells.Length1 && (i != a.id || j != b.id) ==>
                cells[i, j] == old(cells[i, j])
    {
      d := cells[a.id, b.id];
      if d == -1 {
        d := Dist(a, b);
        cells[a.id, b.id] := d;
      }
    }
  }
}
