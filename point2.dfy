/**
 * The path-finding grid cell `Point2`: a pair of `int` coordinates with a
 * dense `index` and a cached `clearance` byte, the three offset rings
 * `NEAR` that `updateClearance` scans, and the coordinate-only equality,
 * hash and text of a cell.
 */
module Pfa {
  import opened JavaLang
  import opened Sequences

  /** One entry of the `NEAR` table: an offset relative to the cell. */
  datatype Offset = Offset(dx: int, dy: int)

  /** `Map.flags(x, y)`: the map's flag word at a cell, a total function here. */
  type MapFlags = (int32, int32) -> int

  /** The three rings of `NEAR`, in the source's order. Ring 2 leaves out the four corners. */
  const NEAR: seq<seq<Offset>> := [
    [Offset(0, 0)],
    [Offset(-1, -1), Offset(0, -1), Offset(1, -1),
     Offset(-1, 0),                 Offset(1, 0),
     Offset(-1, 1),  Offset(0, 1),  Offset(1, 1)],
    [                Offset(-1, -2), Offset(0, -2), Offset(1, -2),
     Offset(-2, -1),                                               Offset(2, -1),
     Offset(-2, 0),                                                Offset(2, 0),
     Offset(-2, 1),                                                Offset(2, 1),
                     Offset(-1, 2),  Offset(0, 2),  Offset(1, 2)]
  ]

  function Abs(v: int): (r: nat)
    ensures r == v || r == -v
  {
    if v < 0 then -v else v
  }

  /** Chebyshev distance of an offset from the cell itself. */
  function Chebyshev(o: Offset): (r: nat)
    ensures Abs(o.dx) <= r && Abs(o.dy) <= r
    ensures r == Abs(o.dx) || r == Abs(o.dy)
  {
    if Abs(o.dx) < Abs(o.dy) then Abs(o.dy) else Abs(o.dx)
  }

  predicate IsCorner2(o: Offset) {
    Abs(o.dx) == 2 && Abs(o.dy) == 2
  }

  predicate InSomeRing(o: Offset) {
    o in NEAR[0] || o in NEAR[1] || o in NEAR[2]
  }

  // ---------------------------------------------------------------------
  // The shape of the ring table.

  lemma RingSizes()
    ensures |NEAR| == 3
    ensures |NEAR[0]| == 1 && |NEAR[1]| == 8 && |NEAR[2]| == 12
    ensures Distinct(NEAR[0] + NEAR[1] + NEAR[2])
  {
    assert Distinct(NEAR[1]);
    assert Distinct(NEAR[2]);
    forall i | 0 <= i < |NEAR[0] + NEAR[1]|
      ensures (NEAR[0] + NEAR[1])[i] !in NEAR[2]
    {
      RingsAreDisjoint((NEAR[0] + NEAR[1])[i], if i == 0 then 0 else 1, 2);
    }
    DistinctConcat(NEAR[0], NEAR[1]);
    DistinctConcat(NEAR[0] + NEAR[1], NEAR[2]);
  }

  lemma RingZeroIsTheCell(o: Offset)
    ensures o in NEAR[0] <==> Chebyshev(o) == 0
  {
  }

  lemma RingOneIsDistanceOne(o: Offset)
    ensures o in NEAR[1] <==> Chebyshev(o) == 1
  {
  }

  lemma RingTwoIsDistanceTwoWithoutCorners(o: Offset)
    ensures o in NEAR[2] <==> Chebyshev(o) == 2 && !IsCorner2(o)
  {
  }

  lemma RingsAreDisjoint(o: Offset, k: nat, m: nat)
    requires k < m < |NEAR|
    ensures !(o in NEAR[k] && o in NEAR[m])
  {
    RingZeroIsTheCell(o);
    RingOneIsDistanceOne(o);
    RingTwoIsDistanceTwoWithoutCorners(o);
  }

  /** The rings together cover the 5x5 square around the cell minus its corners: 21 distinct offsets. */
  lemma RingsCoverSquareMinusCorners(o: Offset)
    ensures InSomeRing(o) <==> Abs(o.dx) <= 2 && Abs(o.dy) <= 2 && !IsCorner2(o)
    ensures |NEAR[0] + NEAR[1] + NEAR[2]| == 21
  {
    RingZeroIsTheCell(o);
    RingOneIsDistanceOne(o);
    RingTwoIsDistanceTwoWithoutCorners(o);
    RingSizes();
  }

  // ---------------------------------------------------------------------
  // The clearance a cell gets from `updateClearance`.

  /** The cell that `updateClearance` probes for offset `o`, with Java's wrapping `x + p.x`. */
  predicate Blocked(grid: MapFlags, x: int32, y: int32, o: Offset) {
    grid(Wrap32(x + o.dx), Wrap32(y + o.dy)) != 0
  }

  /** Some offset of ring `k` lands on a cell with nonzero map flags. */
  predicate RingBlocked(grid: MapFlags, x: int32, y: int32, k: nat)
    requires k < |NEAR|
  {
    exists j :: 0 <= j < |NEAR[k]| && Blocked(grid, x, y, NEAR[k][j])
  }

  /** The index of the first blocked ring at or after `k`, or `|NEAR|` when none is. */
  function FirstBlockedFrom(grid: MapFlags, x: int32, y: int32, k: nat): (r: nat)
    requires k <= |NEAR|
    ensures k <= r <= |NEAR|
    ensures r < |NEAR| ==> RingBlocked(grid, x, y, r)
    decreases |NEAR| - k
  {
    if k == |NEAR| then |NEAR|
    else if RingBlocked(grid, x, y, k) then k
    else FirstBlockedFrom(grid, x, y, k + 1)
  }

  /** The clearance of cell (x, y): the first blocked ring, or 3. */
  function Clearance(grid: MapFlags, x: int32, y: int32): (r: nat)
    ensures r <= 3
    ensures r < 3 ==> RingBlocked(grid, x, y, r)
  {
    FirstBlockedFrom(grid, x, y, 0)
  }

  lemma {:induction false} FirstBlockedFromIsLeast(grid: MapFlags, x: int32, y: int32, k: nat)
    requires k <= |NEAR|
    ensures k <= FirstBlockedFrom(grid, x, y, k) <= |NEAR|
    ensures FirstBlockedFrom(grid, x, y, k) < |NEAR| ==> RingBlocked(grid, x, y, FirstBlockedFrom(grid, x, y, k))
    ensures forall m :: k <= m < FirstBlockedFrom(grid, x, y, k) ==> !RingBlocked(grid, x, y, m)
    decreases |NEAR| - k
  {
    if k < |NEAR| && !RingBlocked(grid, x, y, k) {
      FirstBlockedFromIsLeast(grid, x, y, k + 1);
    }
  }

  /** Clearance is the least blocked ring index, or 3 when no ring is blocked. */
  lemma ClearanceIsFirstBlockedRing(grid: MapFlags, x: int32, y: int32)
    ensures Clearance(grid, x, y) <= 3
    ensures Clearance(grid, x, y) < 3 ==> RingBlocked(grid, x, y, Clearance(grid, x, y))
    ensures forall m :: 0 <= m < Clearance(grid, x, y) ==> !RingBlocked(grid, x, y, m)
    ensures Clearance(grid, x, y) == 3 <==> forall m :: 0 <= m < 3 ==> !RingBlocked(grid, x, y, m)
  {
    FirstBlockedFromIsLeast(grid, x, y, 0);
  }

  /** The facts `updateClearance` has when it leaves its loops define the clearance. */
  lemma ClearanceFromScan(grid: MapFlags, x: int32, y: int32, k: nat)
    requires k <= |NEAR|
    requires forall m :: 0 <= m < k ==> !RingBlocked(grid, x, y, m)
    requires k < |NEAR| ==> RingBlocked(grid, x, y, k)
    ensures Clearance(grid, x, y) == k
  {
    ClearanceIsFirstBlockedRing(grid, x, y);
  }

  lemma BlockedCellHasClearanceZero(grid: MapFlags, x: int32, y: int32)
    requires grid(x, y) != 0
    ensures Clearance(grid, x, y) == 0
  {
    assert Blocked(grid, x, y, NEAR[0][0]);
  }

  lemma OpenFieldHasClearanceThree(grid: MapFlags, x: int32, y: int32)
    requires forall o :: InSomeRing(o) ==> !Blocked(grid, x, y, o)
    ensures Clearance(grid, x, y) == 3
  {
    forall m | 0 <= m < 3 ensures !RingBlocked(grid, x, y, m) {
      forall j | 0 <= j < |NEAR[m]| ensures !Blocked(grid, x, y, NEAR[m][j]) {
        assert InSomeRing(NEAR[m][j]);
      }
    }
    ClearanceIsFirstBlockedRing(grid, x, y);
  }

  /** Two probes of the same coordinate with offsets at most 2 apart hit the same cell only for equal offsets. */
  lemma NearProbesAreDistinct(v: int32, d: int, e: int)
    requires -2 <= d <= 2 && -2 <= e <= 2
    requires Wrap32(v + d) == Wrap32(v + e)
    ensures d == e
  {
    var w := Wrap32(v + d);
    assert (v + d - w) % TWO_TO_THE_32 == 0 && (v + e - w) % TWO_TO_THE_32 == 0;
    assert (d - e) % TWO_TO_THE_32 == 0;
  }

  /** With only the cell at offset (2, 2) blocked, no other offset within distance 2 that is not a corner probes a blocked cell. */
  lemma OnlyCornerBlocked(grid: MapFlags, x: int32, y: int32, o: Offset)
    requires forall a: int32, b: int32 :: grid(a, b) != 0 ==> a == Wrap32(x + 2) && b == Wrap32(y + 2)
    requires Abs(o.dx) <= 2 && Abs(o.dy) <= 2 && !IsCorner2(o)
    ensures !Blocked(grid, x, y, o)
  {
    if Blocked(grid, x, y, o) {
      NearProbesAreDistinct(x, o.dx, 2);
      NearProbesAreDistinct(y, o.dy, 2);
    }
  }

  /** The corners (+-2, +-2) are not probed: a blocked corner alone leaves the full clearance 3. */
  lemma BlockedCornerIsNotSeen(grid: MapFlags, x: int32, y: int32)
    requires forall a: int32, b: int32 :: grid(a, b) != 0 ==> a == Wrap32(x + 2) && b == Wrap32(y + 2)
    ensures Clearance(grid, x, y) == 3
  {
    forall o | InSomeRing(o)
      ensures !Blocked(grid, x, y, o)
    {
      RingsCoverSquareMinusCorners(o);
      OnlyCornerBlocked(grid, x, y, o);
    }
    OpenFieldHasClearanceThree(grid, x, y);
  }

  /** Blocking more cells never raises the clearance. */
  lemma ClearanceIsMonotone(fewer: MapFlags, more: MapFlags, x: int32, y: int32)
    requires forall a: int32, b: int32 :: fewer(a, b) != 0 ==> more(a, b) != 0
    ensures Clearance(more, x, y) <= Clearance(fewer, x, y)
  {
    ClearanceIsFirstBlockedRing(fewer, x, y);
    ClearanceIsFirstBlockedRing(more, x, y);
    var k := Clearance(fewer, x, y);
    if k < 3 {
      var j :| 0 <= j < |NEAR[k]| && Blocked(fewer, x, y, NEAR[k][j]);
      assert Blocked(more, x, y, NEAR[k][j]);
      assert RingBlocked(more, x, y, k);
    }
  }

  // ---------------------------------------------------------------------
  // Hash and text.

  const HASH_X: int := 73856093
  const HASH_Y: int := 83492791

  /** `(x * 73856093) ^ (y * 83492791)` with Java's wrapping multiplication. */
  function Hash(x: int32, y: int32): (h: int32)
    ensures Xor32(h, Wrap32(y * HASH_Y)) == Wrap32(x * HASH_X)
    ensures Xor32(h, Wrap32(x * HASH_X)) == Wrap32(y * HASH_Y)
  {
    XorCancels(Wrap32(x * HASH_X), Wrap32(y * HASH_Y));
    XorCommutes(Wrap32(x * HASH_X), Wrap32(y * HASH_Y));
    XorCancels(Wrap32(y * HASH_Y), Wrap32(x * HASH_X));
    Xor32(Wrap32(x * HASH_X), Wrap32(y * HASH_Y))
  }

  /** On an axis the hash is the wrapped product of the other coordinate alone; at the origin it is 0. */
  lemma HashOfAxisCells(x: int32, y: int32)
    ensures Hash(x, 0) == Wrap32(x * HASH_X)
    ensures Hash(0, y) == Wrap32(y * HASH_Y)
    ensures Hash(0, 0) == 0
  {
    XorWithZero(Wrap32(x * HASH_X));
    XorWithZero(Wrap32(y * HASH_Y));
    XorWithZero(0);
  }

  /** `"(" + x + ", " + y + ")"`. */
  function PointText(x: int32, y: int32): (s: string)
    ensures |s| >= 6 && s[0] == '(' && s[|s| - 1] == ')'
  {
    "(" + IntToString(x) + ", " + IntToString(y) + ")"
  }

  predicate NoComma(s: string) {
    forall i :: 0 <= i < |s| ==> s[i] != ','
  }

  lemma SplitAtComma(a: string, b: string, c: string, d: string)
    requires NoComma(a) && NoComma(c)
    requires "(" + a + ", " + b + ")" == "(" + c + ", " + d + ")"
    ensures a == c && b == d
  {
    var s := "(" + a + ", " + b + ")";
    var t := "(" + c + ", " + d + ")";
    assert s[1 + |a|] == ',';
    assert t[1 + |c|] == ',';
    assert |a| == |c|;
    assert a == s[1..1 + |a|];
    assert c == t[1..1 + |c|];
    assert b == s[3 + |a|..|s| - 1];
    assert d == t[3 + |c|..|t| - 1];
  }

  /** Two cells have the same text exactly when their coordinates agree. */
  lemma PointTextInjective(x1: int32, y1: int32, x2: int32, y2: int32)
    ensures PointText(x1, y1) == PointText(x2, y2) <==> x1 == x2 && y1 == y2
  {
    if PointText(x1, y1) == PointText(x2, y2) {
      SplitAtComma(IntToString(x1), IntToString(y1), IntToString(x2), IntToString(y2));
      IntToStringInjective(x1, x2);
      IntToStringInjective(y1, y2);
    }
  }

  // ---------------------------------------------------------------------

  /** The inner loop of `updateClearance`: looks for a blocked cell in ring `k`, stopping at the first. */
  method ScanRing(grid: MapFlags, x: int32, y: int32, k: nat) returns (blocked: bool)
    requires k < |NEAR|
    ensures blocked == RingBlocked(grid, x, y, k)
  {
    var ring := NEAR[k];
    var j := 0;
    while j < |ring|
      invariant 0 <= j <= |ring|
      invariant forall m :: 0 <= m < j ==> !Blocked(grid, x, y, ring[m])
    {
      var p := ring[j];
      if grid(Wrap32(x + p.dx), Wrap32(y + p.dy)) != 0 {
        assert Blocked(grid, x, y, ring[j]);
        return true;
      }
      j := j + 1;
    }
    return false;
  }

  class Point2 {
    var x: int32
    var y: int32
    var index: int32
    var clearance: int8

    /** `new Point2()`. */
    constructor ()
      ensures x == 0 && y == 0 && index == 0 && clearance == 0
    {
      x, y, index, clearance := 0, 0, 0, 0;
    }

    /** `new Point2(x, y)`. */
    constructor At(x: int32, y: int32)
      ensures this.x == x && this.y == y && index == 0 && clearance == 0
    {
      this.x, this.y, index, clearance := x, y, 0, 0;
    }

    /** `new Point2(src)`: copies the coordinates, not the index or the clearance. */
    constructor Copy(src: Point2)
      ensures x == src.x && y == src.y && index == 0 && clearance == 0
    {
      x, y, index, clearance := src.x, src.y, 0, 0;
    }

    /** `set(int, int)`. */
    method Set(x: int32, y: int32) returns (r: Point2)
      modifies this`x, this`y
      ensures this.x == x && this.y == y && r == this
    {
      this.x := x;
      this.y := y;
      r := this;
    }

    /** `set(Point2)`. */
    method SetTo(src: Point2) returns (r: Point2)
      modifies this`x, this`y
      ensures x == old(src.x) && y == old(src.y) && r == this
    {
      x := src.x;
      y := src.y;
      r := this;
    }

    /** `add(Point2)`: componentwise wrapping addition. */
    method Add(p: Point2) returns (r: Point2)
      modifies this`x, this`y
      ensures x == Wrap32(old(x) + old(p.x)) && y == Wrap32(old(y) + old(p.y)) && r == this
    {
      x := Wrap32(x + p.x);
      y := Wrap32(y + p.y);
      r := this;
    }

    /** `updateClearance(map, flags)`: `flags` is accepted and never read. */
    method UpdateClearance(grid: MapFlags, flags: int32)
      modifies this`clearance
      ensures clearance == Clearance(grid, x, y)
      ensures 0 <= clearance <= 3
    {
      var cx, cy := x, y;
      var i := 0;
      while i < |NEAR|
        invariant 0 <= i <= |NEAR|
        invariant forall m :: 0 <= m < i ==> !RingBlocked(grid, cx, cy, m)
      {
        var blocked := ScanRing(grid, cx, cy, i);
        if blocked {
          break;
        }
        i := i + 1;
      }
      ClearanceFromScan(grid, cx, cy, i);
      clearance := i;
    }

    /** `hashCode()`. */
    function HashCode(): (h: int32)
      reads this
      ensures Xor32(h, Wrap32(y * HASH_Y)) == Wrap32(x * HASH_X)
      ensures Xor32(h, Wrap32(x * HASH_X)) == Wrap32(y * HASH_Y)
    {
      Hash(x, y)
    }

    /** `equals(Point2)`: coordinates only. */
    predicate Equals(other: Point2)
      reads this, other
      ensures Equals(other) ==> HashCode() == other.HashCode() && ToString() == other.ToString()
    {
      x == other.x && y == other.y
    }

    /** `equals(Object)`. */
    predicate EqualsObject(obj: object?)
      reads this, obj
      ensures EqualsObject(obj) <==> obj != null && obj is Point2 && Equals(obj as Point2)
    {
      if obj == this then true
      else if obj == null then false
      else if !(obj is Point2) then false
      else Equals(obj as Point2)
    }

    /** `toString()`. */
    function ToString(): (s: string)
      reads this
      ensures |s| >= 6 && s[0] == '(' && s[|s| - 1] == ')'
    {
      PointText(x, y)
    }
  }

  /** Equal cells hash alike, whatever their index and clearance. */
  lemma EqualCellsHashAlike(p: Point2, q: Point2)
    requires p.Equals(q)
    ensures p.HashCode() == q.HashCode()
  {
  }

  /** `equals(Object)` is `equals(Point2)` on cells and false on anything else. */
  lemma EqualsObjectMeansSameCoordinates(p: Point2, obj: object?)
    ensures p.EqualsObject(obj) <==> obj != null && obj is Point2 && p.x == (obj as Point2).x && p.y == (obj as Point2).y
  {
  }

  lemma EqualsIsEquivalence(p: Point2, q: Point2, r: Point2)
    ensures p.Equals(p)
    ensures p.Equals(q) ==> q.Equals(p)
    ensures p.Equals(q) && q.Equals(r) ==> p.Equals(r)
  {
  }

  /** Two cells print alike exactly when they are equal. */
  lemma ToStringAgreesWithEquals(p: Point2, q: Point2)
    ensures p.ToString() == q.ToString() <==> p.Equals(q)
  {
    PointTextInjective(p.x, p.y, q.x, q.y);
  }
}
