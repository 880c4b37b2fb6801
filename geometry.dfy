/** Beam geometry of the plan checker: the MLC leaf-row layout, the projection of a
    room point into the collimator plane of a beam, and the classification of a
    projected point against the jaws and leaves (PlanCheck.cs:69-156). */
module Geometry {

  datatype Vec3 = Vec3(x: real, y: real, z: real)

  function Minus(a: Vec3, b: Vec3): Vec3 {
    Vec3(a.x - b.x, a.y - b.y, a.z - b.z)
  }

  function Norm2(v: Vec3): real {
    v.x * v.x + v.y * v.y + v.z * v.z
  }

  /** Squared Euclidean distance; VVector.Distance compared against d is DistSq against d*d. */
  function DistSq(a: Vec3, b: Vec3): real {
    Norm2(Minus(a, b))
  }

  /** An angle given by its cosine and sine (Math.Cos / Math.Sin of the angle in radians). */
  datatype Rotation = Rotation(cos: real, sin: real)

  predicate IsRotation(r: Rotation) {
    r.cos * r.cos + r.sin * r.sin == 1.0
  }

  /** Jaw positions in mm relative to the isocentre. */
  datatype Jaws = Jaws(x1: real, x2: real, y1: real, y2: real)

  /** One MLC leaf pair: bankA is leaves[0,i] (X1 side), bankB is leaves[1,i] (X2 side). */
  datatype LeafPair = LeafPair(bankA: real, bankB: real)

  /** The first control point of a beam: angles, jaws and the 60 leaf pairs. */
  datatype ControlPoint = ControlPoint(
    gantry: Rotation, collimator: Rotation, couch: Rotation,
    jaws: Jaws, leaves: seq<LeafPair>)

  /** A point in the collimator plane: x across the leaves, z along the leaf rows. */
  datatype Point2 = Point2(x: real, z: real)

  // ---------------------------------------------------------------------------
  // Leaf rows (PlanCheck.cs:69-83)

  datatype Edge = Edge(lo: real, hi: real)

  /** GetLeafEdge: the (min, max) edges in mm of the 1-based MLC row `row`.
      Rows up to 10 are 10 mm wide from -200, rows 11..50 are 5 mm wide from -100,
      and rows from 51 on are 10 mm wide from 100. */
  function LeafEdge(row: int): Edge {
    if row <= 10 then
      var lo := -200.0 + ((row - 1) * 10) as real;
      Edge(lo, lo + 10.0)
    else if row <= 50 then
      var lo := -100.0 + ((row - 11) * 5) as real;
      Edge(lo, lo + 5.0)
    else
      var lo := 100.0 + ((row - 51) * 10) as real;
      Edge(lo, lo + 10.0)
  }

  lemma LeafEdgeSamples()
    ensures LeafEdge(1) == Edge(-200.0, -190.0)
    ensures LeafEdge(11) == Edge(-100.0, -95.0)
    ensures LeafEdge(60) == Edge(190.0, 200.0)
  {
  }

  /** Rows 1-10 and 51-60 are 10 mm wide, rows 11-50 are 5 mm wide. */
  lemma LeafEdgeWidths(row: int)
    requires 1 <= row <= 60
    ensures LeafEdge(row).hi - LeafEdge(row).lo == if row <= 10 || 51 <= row then 10.0 else 5.0
  {
  }

  /** Consecutive rows share an edge. */
  lemma LeafRowsContiguous(row: int)
    requires 1 <= row < 60
    ensures LeafEdge(row).hi == LeafEdge(row + 1).lo
  {
  }

  /** Total width of rows 1..n. */
  function CoveredWidth(n: nat): real {
    if n == 0 then 0.0 else CoveredWidth(n - 1) + (LeafEdge(n).hi - LeafEdge(n).lo)
  }

  /** Rows 1..n, laid side by side from the lower edge of row 1, end at the upper edge of row n. */
  lemma {:induction false} LeafRowsTile(n: nat)
    requires 1 <= n <= 60
    ensures LeafEdge(1).lo + CoveredWidth(n) == LeafEdge(n).hi
  {
    if n > 1 {
      LeafRowsTile(n - 1);
      LeafRowsContiguous(n - 1);
    }
  }

  /** The 60 rows tile [-200, 200] mm: 400 mm in all. */
  lemma LeafRowsSpan()
    ensures LeafEdge(1).lo == -200.0 && LeafEdge(60).hi == 200.0
    ensures CoveredWidth(60) == 400.0
  {
    LeafRowsTile(60);
  }

  predicate InRow(z: real, row: int) {
    LeafEdge(row).lo <= z < LeafEdge(row).hi
  }

  /** The 1-based row whose span holds the longitudinal coordinate z. */
  function RowOf(z: real): (row: int)
    requires -200.0 <= z < 200.0
    ensures 1 <= row <= 60 && InRow(z, row)
    ensures forall r :: 1 <= r <= 60 && InRow(z, r) ==> r == row
  {
    if z < -100.0 then ((z + 200.0) / 10.0).Floor + 1
    else if z < 100.0 then ((z + 100.0) / 5.0).Floor + 11
    else ((z - 100.0) / 10.0).Floor + 51
  }

  // ---------------------------------------------------------------------------
  // Projection into the collimator plane (PlanCheck.cs:87-103)

  /** Couch rotation followed by gantry rotation of an isocentre-relative vector;
      the y component of the result is the depth along the beam axis. */
  function CouchGantry(v: Vec3, gantry: Rotation, couch: Rotation): Vec3 {
    Vec3((v.x * couch.cos - v.z * couch.sin) * gantry.cos + v.y * gantry.sin,
         (-v.x * couch.cos + v.z * couch.sin) * gantry.sin + v.y * gantry.cos,
         v.x * couch.sin + v.z * couch.cos)
  }

  function Depth(p: Vec3, iso: Vec3, cp: ControlPoint): real {
    CouchGantry(Minus(p, iso), cp.gantry, cp.couch).y
  }

  /** The room point p in the beam's collimator plane at 1000 mm from the source:
      rotate by couch and gantry, then by the collimator, and scale by 1000/(1000+depth). */
  function ToCollimatorPlane(p: Vec3, iso: Vec3, cp: ControlPoint): Point2
    requires Depth(p, iso, cp) != -1000.0
  {
    var c1 := CouchGantry(Minus(p, iso), cp.gantry, cp.couch);
    var scaling := 1000.0 / (1000.0 + c1.y);
    Point2((c1.x * cp.collimator.cos + c1.z * cp.collimator.sin) * scaling,
           (-c1.x * cp.collimator.sin + c1.z * cp.collimator.cos) * scaling)
  }

  /** With genuine rotations, the couch and gantry rotation keeps the length of the vector. */
  lemma CouchGantryKeepsLength(v: Vec3, gantry: Rotation, couch: Rotation)
    requires IsRotation(gantry) && IsRotation(couch)
    ensures Norm2(CouchGantry(v, gantry, couch)) == Norm2(v)
  {
    var u := v.x * couch.cos - v.z * couch.sin;
    var w := v.x * couch.sin + v.z * couch.cos;
    var g := CouchGantry(v, gantry, couch);
    assert g.x == u * gantry.cos + v.y * gantry.sin;
    assert g.y == -u * gantry.sin + v.y * gantry.cos;
    assert g.x * g.x + g.y * g.y == (u * u + v.y * v.y) * (gantry.cos * gantry.cos + gantry.sin * gantry.sin);
    assert u * u + w * w == (v.x * v.x + v.z * v.z) * (couch.cos * couch.cos + couch.sin * couch.sin);
  }

  /** The collimator rotation is rigid: the projected point lies at the divergence-scaled
      distance of the rotated point from the beam axis. */
  lemma ProjectionRadius(p: Vec3, iso: Vec3, cp: ControlPoint)
    requires Depth(p, iso, cp) != -1000.0 && IsRotation(cp.collimator)
    ensures var c1 := CouchGantry(Minus(p, iso), cp.gantry, cp.couch);
      var s := 1000.0 / (1000.0 + c1.y);
      var q := ToCollimatorPlane(p, iso, cp);
      q.x * q.x + q.z * q.z == s * s * (c1.x * c1.x + c1.z * c1.z)
  {
    var c1 := CouchGantry(Minus(p, iso), cp.gantry, cp.couch);
    var s := 1000.0 / (1000.0 + c1.y);
    var c := cp.collimator;
    var a := c1.x * c.cos + c1.z * c.sin;
    var b := -c1.x * c.sin + c1.z * c.cos;
    assert a * a + b * b == (c1.x * c1.x + c1.z * c1.z) * (c.cos * c.cos + c.sin * c.sin);
    assert (a * s) * (a * s) + (b * s) * (b * s) == s * s * (a * a + b * b);
  }

  /** With all three angles at zero and the point at the isocentre depth, the
      projection keeps the lateral and longitudinal coordinates. */
  lemma ProjectionAtZeroAngles(p: Vec3, iso: Vec3, cp: ControlPoint)
    requires cp.gantry == Rotation(1.0, 0.0) && cp.collimator == Rotation(1.0, 0.0) && cp.couch == Rotation(1.0, 0.0)
    requires p.y == iso.y
    ensures Depth(p, iso, cp) == 0.0
    ensures ToCollimatorPlane(p, iso, cp) == Point2(p.x - iso.x, p.z - iso.z)
  {
  }

  // ---------------------------------------------------------------------------
  // Classification against jaws and leaves (PlanCheck.cs:105-155)

  /** The point violates one of the four jaw inequalities by more than `margin`. */
  predicate JawMarginViolated(q: Point2, jaws: Jaws, margin: real) {
    q.x - jaws.x1 < margin || jaws.x2 - q.x < margin ||
    q.z - jaws.y1 < margin || jaws.y2 - q.z < margin
  }

  /** The point is closer than `margin` to one of the leaves of pair p (or beyond it). */
  predicate LeafMarginViolated(q: Point2, p: LeafPair, margin: real) {
    q.x - p.bankA < margin || p.bankB - q.x < margin
  }

  /** The MLC part of CheckRefPoint (PlanCheck.cs:112-154): 1 when the point is too close
      to the leaves of its row or crosses the leaves of the neighbour row checked, else 0. */
  function MlcClassify(q: Point2, leaves: seq<LeafPair>): (r: int)
    requires |leaves| >= 60
    ensures r == 0 || r == 1
    ensures (q.z < -195.0 || q.z > 195.0) ==> r == 0
  {
    var z := q.z;
    if z >= -195.0 && z < -190.0 then
      if LeafMarginViolated(q, leaves[0], 5.0) then 1
      else if LeafMarginViolated(q, leaves[1], 0.0) then 1
      else 0
    else if z >= -190.0 && z < -100.0 then
      var leaf := (z / 10.0).Floor + 20;
      if LeafMarginViolated(q, leaves[leaf], 5.0) then 1
      else if z > (leaf * 10 - 195) as real && LeafMarginViolated(q, leaves[leaf + 1], 0.0) then 1
      else if z < (leaf * 10 - 195) as real && LeafMarginViolated(q, leaves[leaf - 1], 0.0) then 1
      else 0
    else if z >= -100.0 && z < 100.0 then
      var leaf := (z / 5.0).Floor + 30;
      if LeafMarginViolated(q, leaves[leaf], 5.0) then 1
      else if LeafMarginViolated(q, leaves[leaf + 1], 0.0) then 1
      else if LeafMarginViolated(q, leaves[leaf - 1], 0.0) then 1
      else 0
    else if z >= 100.0 && z < 190.0 then
      var leaf := (z / 10.0).Floor + 40;
      if LeafMarginViolated(q, leaves[leaf], 5.0) then 1
      else if z > ((leaf - 50) * 10 + 105) as real && LeafMarginViolated(q, leaves[leaf + 1], 0.0) then 1
      else if z < ((leaf - 50) * 10 + 105) as real && LeafMarginViolated(q, leaves[leaf - 1], 0.0) then 1
      else 0
    else if z >= 190.0 && z <= 195.0 then
      if LeafMarginViolated(q, leaves[59], 5.0) then 1
      else if LeafMarginViolated(q, leaves[58], 0.0) then 1
      else 0
    else 0
  }

  /** The leaf index computed in each band is the 0-based index of the row holding z. */
  lemma BandLeafIsRow(z: real, row: int)
    requires 1 <= row <= 60 && InRow(z, row)
    ensures -190.0 <= z < -100.0 ==> (z / 10.0).Floor + 20 == row - 1 && 1 <= row - 1 <= 9
    ensures -100.0 <= z < 100.0 ==> (z / 5.0).Floor + 30 == row - 1 && 10 <= row - 1 <= 49
    ensures 100.0 <= z < 190.0 ==> (z / 10.0).Floor + 40 == row - 1 && 50 <= row - 1 <= 58
    ensures -195.0 <= z < -190.0 ==> row == 1
    ensures 190.0 <= z <= 195.0 ==> row == 60
  {
  }

  /** The neighbour row n (1-based) whose leaves are checked with a 0 mm margin for a
      point at z in row r: the inner row for the two outermost rows, both neighbours in
      the 5 mm band, and in the outer 10 mm bands the row on the side of the row's
      centre line where z lies (none when z is on the centre line). */
  predicate NeighbourChecked(z: real, r: int, n: int) {
    if r == 1 then n == 2
    else if r == 60 then n == 59
    else if 11 <= r <= 50 then n == r - 1 || n == r + 1
    else
      var mid := (LeafEdge(r).lo + LeafEdge(r).hi) / 2.0;
      (z > mid && n == r + 1) || (z < mid && n == r - 1)
  }

  /** What the MLC classification means in terms of rows: for a point within 195 mm of
      the centre, in row r, the result is 1 exactly when the point is within 5 mm of the
      leaves of row r or crosses the leaves of a neighbour row that is checked. */
  lemma MlcClassifyByRow(q: Point2, leaves: seq<LeafPair>, r: int)
    requires |leaves| >= 60 && 1 <= r <= 60 && InRow(q.z, r) && -195.0 <= q.z <= 195.0
    ensures MlcClassify(q, leaves) == 1 <==>
      LeafMarginViolated(q, leaves[r - 1], 5.0) ||
      exists n :: 1 <= n <= 60 && NeighbourChecked(q.z, r, n) && LeafMarginViolated(q, leaves[n - 1], 0.0)
  {
    BandLeafIsRow(q.z, r);
    var z := q.z;
    var tight := LeafMarginViolated(q, leaves[r - 1], 5.0);
    if r == 1 {
      assert NeighbourChecked(z, r, 2);
    } else if r == 60 {
      assert NeighbourChecked(z, r, 59);
    } else if 11 <= r <= 50 {
      assert NeighbourChecked(z, r, r - 1) && NeighbourChecked(z, r, r + 1);
    } else {
      var mid := (LeafEdge(r).lo + LeafEdge(r).hi) / 2.0;
      if r <= 10 {
        assert mid == ((r - 1) * 10 - 195) as real;
      } else {
        assert mid == ((r - 51) * 10 + 105) as real;
      }
      if z > mid {
        assert NeighbourChecked(z, r, r + 1);
      } else if z < mid {
        assert NeighbourChecked(z, r, r - 1);
      }
    }
  }

  /** The leaves are read only for a point more than 5 mm inside the jaws whose
      longitudinal position lies in -195..195 (PlanCheck.cs:110-151); the reads go up to
      leaf pair 59. */
  predicate LeavesRead(q: Point2, jaws: Jaws) {
    !JawMarginViolated(q, jaws, 5.0) && -195.0 <= q.z <= 195.0
  }

  /** CheckRefPoint's classification (PlanCheck.cs:106-155): 2 outside the jaws,
      1 near an edge, 0 inside. Wherever any leaf is read it asks for all 60 pairs, though
      a band may read only lower rows. */
  function Classify(q: Point2, jaws: Jaws, hasMlc: bool, leaves: seq<LeafPair>): (r: int)
    requires hasMlc && LeavesRead(q, jaws) ==> |leaves| >= 60
    ensures 0 <= r <= 2
    ensures r == 2 <==> JawMarginViolated(q, jaws, 0.0)
    ensures r == 1 <==> (!JawMarginViolated(q, jaws, 0.0) &&
      (JawMarginViolated(q, jaws, 5.0) || (hasMlc && -195.0 <= q.z <= 195.0 && MlcClassify(q, leaves) == 1)))
    ensures !hasMlc ==> (r == 0 <==> !JawMarginViolated(q, jaws, 5.0))
  {
    if JawMarginViolated(q, jaws, 0.0) then 2
    else if JawMarginViolated(q, jaws, 5.0) then 1
    else if hasMlc && -195.0 <= q.z <= 195.0 then MlcClassify(q, leaves)
    else 0
  }

  /** Jaws at +-50 mm without MLC: the centre is inside, 48 mm is near the edge, 60 mm is outside. */
  lemma ClassifyExamples()
    ensures Classify(Point2(0.0, 0.0), Jaws(-50.0, 50.0, -50.0, 50.0), false, []) == 0
    ensures Classify(Point2(48.0, 0.0), Jaws(-50.0, 50.0, -50.0, 50.0), false, []) == 1
    ensures Classify(Point2(60.0, 0.0), Jaws(-50.0, 50.0, -50.0, 50.0), false, []) == 2
  {
  }

  /** CheckRefPoint (PlanCheck.cs:85-156) for reference point p against the first control
      point of a beam with isocentre iso. */
  function CheckRefPoint(cp: ControlPoint, iso: Vec3, hasMlc: bool, p: Vec3): (r: int)
    requires Depth(p, iso, cp) != -1000.0
    requires hasMlc && LeavesRead(ToCollimatorPlane(p, iso, cp), cp.jaws) ==> |cp.leaves| >= 60
    ensures 0 <= r <= 2
    ensures r == 2 <==> JawMarginViolated(ToCollimatorPlane(p, iso, cp), cp.jaws, 0.0)
  {
    Classify(ToCollimatorPlane(p, iso, cp), cp.jaws, hasMlc, cp.leaves)
  }
}
