/**
 * The UV-space arithmetic of the baker: the uniform grid layout of
 * `layoutMeshUV`, the texel rectangles of `calcFaceOffset`, the row flip of
 * `calcYOffset` and the final stage of `layoutMeshUVPacked` (the re-sort by
 * face index and the scaling of the packer's placement).
 *
 * Faces enter already flattened into the plane (`flattenFace` uses
 * trigonometry) and the bin packer's placement enters as data.
 */
module UvLayout {
  import opened Common
  import opened Geometry
  import opened Config

  // ---------------------------------------------------------------------
  // The uniform grid (layoutMeshUV)
  // ---------------------------------------------------------------------

  /** Searches upwards from `g` for the least square root bound. */
  function GridSizeFrom(n: nat, g: nat): (r: nat)
    requires g == 0 || (g - 1) * (g - 1) < n
    ensures r * r >= n && (r == 0 || (r - 1) * (r - 1) < n)
    decreases n - g
  {
    if g * g >= n then g
    else
      assert g < n by {
        if g >= n {
          assert false;
        }
      }
      GridSizeFrom(n, g + 1)
  }

  /** `Math.ceil(Math.sqrt(n))`: the least `g` with `g * g >= n`. */
  function GridSize(n: nat): (g: nat)
    ensures g * g >= n
    ensures g == 0 || (g - 1) * (g - 1) < n
    ensures n > 0 ==> g > 0
  {
    GridSizeFrom(n, 0)
  }

  /** Every `g` whose square covers `n` is at least `GridSize(n)`. */
  lemma {:induction false} GridSizeIsLeast(n: nat, h: nat)
    requires h * h >= n
    ensures GridSize(n) <= h
  {
    var g := GridSize(n);
    if g > h {
      assert g - 1 >= h;
      MulMonotoneNat(h, g - 1, h);
      MulMonotoneNat(h, g - 1, g - 1);
      assert false;
    }
  }

  lemma MulMonotoneNat(a: nat, b: nat, c: nat)
    requires a <= b
    ensures a * c <= b * c
  {
  }

  /** Face `i` goes to column `i % g`, row `floor(i / g)`. */
  datatype Cell = Cell(col: nat, row: nat)

  function CellOf(i: nat, g: nat): Cell
    requires g > 0
  {
    Cell(i % g, i / g)
  }

  /** `n * offset`: where cell `n` of a row of cells of side `offset` begins. */
  function CellStart(n: nat, offset: real): real
  {
    (n as real) * offset
  }

  /** The row of a face index below `g * g` is below `g`. */
  lemma {:induction false} RowInGrid(i: nat, g: nat)
    requires g > 0 && i < g * g
    ensures i / g < g
  {
    var q := i / g;
    assert i == q * g + i % g;
    if q >= g {
      MulMonotoneNat(g, q, g);
      assert false;
    }
  }

  /** Cells lie in the g-by-g grid, and distinct faces get distinct cells. */
  lemma {:induction false} CellsAreDistinct(i: nat, j: nat, g: nat)
    requires g > 0 && i < g * g && j < g * g
    ensures CellOf(i, g).col < g && CellOf(i, g).row < g
    ensures i != j ==> CellOf(i, g) != CellOf(j, g)
  {
    RowInGrid(i, g);
    assert i == (i / g) * g + i % g;
    assert j == (j / g) * g + j % g;
  }

  /** The scale shared by all faces of a mesh. */
  datatype GridParams = GridParams(gridSize: nat, boundingBox: real, scaleFactor: real, offset: real)

  /**
   * The largest mesh extent, widened by the seam tolerance `o`; the mesh's
   * extents come from `findMeshMaxima`.
   */
  function BoundingBox(flats: seq<seq<Vec3>>, o: real): real
    requires |flats| > 0 && NonEmptyFaces(flats)
  {
    Widened(LargestExtent(MeshBoxOf(flats)), o)
  }

  /** The largest of a box's three extents. */
  function LargestExtent(m: Maxima): real
  {
    Max(Max(m.Extent(X), m.Extent(Y)), m.Extent(Z))
  }

  /** `b + b * o`: an extent widened by the seam tolerance `o`. */
  function Widened(b: real, o: real): real
  {
    b + b * o
  }

  /** `scaleFactor = 1 / (gridSize * boundingBox)` and `offset = boundingBox * scaleFactor`. */
  function MakeParams(g: nat, bb: real): GridParams
    requires g > 0 && bb != 0.0
  {
    var sf := 1.0 / ((g as real) * bb);
    GridParams(g, bb, sf, bb * sf)
  }

  /** The common scale of a mesh's faces. */
  function Params(flats: seq<seq<Vec3>>, o: real): (p: GridParams)
    requires |flats| > 0 && NonEmptyFaces(flats) && BoundingBox(flats, o) != 0.0
    ensures p.gridSize > 0
  {
    MakeParams(GridSize(|flats|), BoundingBox(flats, o))
  }

  /** The g cells of side `offset` in a row exactly span the unit interval. */
  lemma {:induction false} CellsTileUnitSquare(g: nat, bb: real)
    requires g > 0 && bb != 0.0
    ensures MakeParams(g, bb).offset * (g as real) == 1.0
  {
    UnitTile(g as real, bb);
  }

  lemma UnitTile(g: real, bb: real)
    requires g > 0.0 && bb != 0.0
    ensures bb * (1.0 / (g * bb)) * g == 1.0
  {
  }

  function Shift(vs: seq<Vec3>, dx: real, dy: real): (r: seq<Vec3>)
    ensures |r| == |vs|
    ensures forall k :: 0 <= k < |vs| ==> r[k] == Vec3(vs[k].x + dx, vs[k].y + dy, vs[k].z)
  {
    seq(|vs|, k requires 0 <= k < |vs| => Vec3(vs[k].x + dx, vs[k].y + dy, vs[k].z))
  }

  function ClipUv(v: Vec3): Vec2
  {
    Vec2(Clip(v.x, 0.0, 1.0), Clip(v.y, 0.0, 1.0))
  }

  /**
   * The face scaled by `sf` and moved so that the box `max` of the
   * unscaled face starts at the origin (`mapuv1`).
   */
  function MovedFace(flat: seq<Vec3>, max: Maxima, sf: real): (r: seq<Vec3>)
    ensures |r| == |flat|
  {
    Shift(ScaleFace(flat, ScaleMatrix(sf)), -(max.xMin * sf), -(max.yMin * sf))
  }

  /** The moved face shifted by `(dx, dy)` and clipped to the unit square. */
  function ShiftAndClip(moved: seq<Vec3>, dx: real, dy: real): (r: seq<Vec2>)
    ensures |r| == |moved|
    ensures forall k :: 0 <= k < |moved| ==> 0.0 <= r[k].x <= 1.0 && 0.0 <= r[k].y <= 1.0
  {
    var placed := Shift(moved, dx, dy);
    seq(|placed|, k requires 0 <= k < |placed| => ClipUv(placed[k]))
  }

  /** Clipping changes nothing for points already in the unit square. */
  lemma {:induction false} ShiftAndClipInside(moved: seq<Vec3>, dx: real, dy: real, k: nat)
    requires k < |moved|
    requires 0.0 <= moved[k].x + dx <= 1.0 && 0.0 <= moved[k].y + dy <= 1.0
    ensures ShiftAndClip(moved, dx, dy)[k] == Vec2(moved[k].x + dx, moved[k].y + dy)
  {
    var placed := Shift(moved, dx, dy);
    assert ShiftAndClip(moved, dx, dy)[k] == ClipUv(placed[k]);
  }

  /**
   * The second half of the `layoutMeshUV` loop body: centre the moved face,
   * whose box is `bbs`, in the square of side `offset` whose lower corner is
   * `(colLo, rowLo)`, and clip. (The source writes the row shift as
   * `-(-row * offset - yoffset)`, which is `row * offset + yoffset`.)
   */
  function CentreAt(moved: seq<Vec3>, bbs: Maxima, colLo: real, rowLo: real, offset: real): (r: seq<Vec2>)
    ensures |r| == |moved|
    ensures forall k :: 0 <= k < |moved| ==> 0.0 <= r[k].x <= 1.0 && 0.0 <= r[k].y <= 1.0
  {
    var xoffset := (offset - bbs.xMax) / 2.0;
    var yoffset := (offset - bbs.yMax) / 2.0;
    ShiftAndClip(moved, colLo + xoffset, rowLo + yoffset)
  }

  /** The lower corner of grid cell `c` when cells have side `offset`. */
  function Corner(c: Cell, offset: real): Vec2
  {
    Vec2(CellStart(c.col, offset), CellStart(c.row, offset))
  }

  /**
   * The body of the `layoutMeshUV` loop for a face whose cell has its lower
   * corner at `corner`: scale, move the face's box to the origin, centre it
   * in the cell, clip.
   */
  function PlaceFace(flat: seq<Vec3>, corner: Vec2, p: GridParams): (r: seq<Vec2>)
    requires |flat| > 0
    ensures |r| == |flat|
    ensures forall k :: 0 <= k < |flat| ==> 0.0 <= r[k].x <= 1.0 && 0.0 <= r[k].y <= 1.0
  {
    var moved := MovedFace(flat, BoxOf(flat), p.scaleFactor);
    CentreAt(moved, BoxOf(moved), corner.x, corner.y, p.offset)
  }

  /** A point inside the square of side `offset` whose lower corner is `corner`. */
  predicate InSquare(v: Vec2, corner: Vec2, offset: real)
  {
    corner.x <= v.x <= corner.x + offset && corner.y <= v.y <= corner.y + offset
  }

  /** A point inside the square of side `offset` at grid cell `c`. */
  predicate InCell(v: Vec2, c: Cell, offset: real)
  {
    CellStart(c.col, offset) <= v.x <= CellStart(c.col + 1, offset) &&
    CellStart(c.row, offset) <= v.y <= CellStart(c.row + 1, offset)
  }

  lemma MulMonotoneReal(a: real, b: real, c: real)
    requires a <= b && c >= 0.0
    ensures a * c <= b * c
  {
  }

  /** One coordinate of a scaled, moved point lies in [0, extent * sf]. */
  lemma {:induction false} ScaledCoordinateBounds(v: real, lo: real, hi: real, sf: real)
    requires lo <= v <= hi && sf > 0.0
    ensures 0.0 <= sf * v + -(lo * sf) <= (hi - lo) * sf
  {
    assert sf * v - lo * sf == (v - lo) * sf;
    MulMonotoneReal(v - lo, hi - lo, sf);
  }

  /** A point inside `max`, scaled and moved, lies in [0, XD * sf] by [0, YD * sf]. */
  lemma {:induction false} MovedPointBounds(flat: seq<Vec3>, max: Maxima, sf: real, k: nat)
    requires sf > 0.0 && k < |flat| && Encloses(max, flat[k])
    ensures 0.0 <= MovedFace(flat, max, sf)[k].x <= max.Extent(X) * sf
    ensures 0.0 <= MovedFace(flat, max, sf)[k].y <= max.Extent(Y) * sf
  {
    ScaledPoint(flat, sf, k);
    ScaledCoordinateBounds(flat[k].x, max.xMin, max.xMax, sf);
    ScaledCoordinateBounds(flat[k].y, max.yMin, max.yMax, sf);
  }

  /** Points in [0, w] by [0, h] have a box whose upper corner is there too. */
  lemma {:induction false} UpperCornerBounds(vs: seq<Vec3>, w: real, h: real)
    requires |vs| > 0
    requires forall k :: 0 <= k < |vs| ==> 0.0 <= vs[k].x <= w && 0.0 <= vs[k].y <= h
    ensures 0.0 <= BoxOf(vs).xMax <= w && 0.0 <= BoxOf(vs).yMax <= h
  {
    var bbs := BoxOf(vs);
    BoxOfIsTight(vs, X);
    BoxOfIsTight(vs, Y);
    var kx :| 0 <= kx < |vs| && Coord(vs[kx], X) == bbs.Hi(X);
    var ky :| 0 <= ky < |vs| && Coord(vs[ky], Y) == bbs.Hi(Y);
    assert Encloses(bbs, vs[0]);
  }

  /** Cell `c` of a row of `g` cells of side `offset` lies within the span `g * offset`. */
  lemma {:induction false} CellInSpan(c: nat, g: nat, offset: real, span: real)
    requires c < g && offset >= 0.0 && offset * (g as real) == span
    ensures 0.0 <= CellStart(c, offset) && CellStart(c, offset) + offset <= span
  {
    MulMonotoneReal(0.0, c as real, offset);
    MulMonotoneReal((c + 1) as real, g as real, offset);
    NextMultiple(c, offset);
  }

  lemma NextMultiple(n: nat, offset: real)
    ensures CellStart(n + 1, offset) == CellStart(n, offset) + offset
  {
  }

  /** A point in the square at the corner of cell `c` is in that cell. */
  lemma InCellFromCorner(v: Vec2, c: Cell, offset: real)
    requires InSquare(v, Corner(c, offset), offset)
    ensures InCell(v, c, offset)
  {
    NextMultiple(c.col, offset);
    NextMultiple(c.row, offset);
  }

  /** Cell `i` of the g-by-g grid with `offset * g == 1` lies in the unit square. */
  lemma {:induction false} CornerInUnitSquare(i: nat, g: nat, offset: real)
    requires g > 0 && i < g * g && offset * (g as real) == 1.0
    ensures offset >= 0.0
    ensures var corner := Corner(CellOf(i, g), offset);
            0.0 <= corner.x && corner.x + offset <= 1.0 && 0.0 <= corner.y && corner.y + offset <= 1.0
  {
    var c := CellOf(i, g);
    CellsAreDistinct(i, i, g);
    assert offset >= 0.0 by {
      if offset < 0.0 {
        MulMonotoneReal(offset, 0.0, g as real);
      }
    }
    CellInSpan(c.col, g, offset, 1.0);
    CellInSpan(c.row, g, offset, 1.0);
  }

  /**
   * Centring a point in [0, bbs.xMax] by [0, bbs.yMax], with that corner
   * within `offset`, in a square of side `offset` inside the unit square
   * keeps it in that square, and the clip changes nothing.
   */
  lemma {:induction false} CentredInSquare(moved: seq<Vec3>, bbs: Maxima, corner: Vec2, offset: real, k: nat)
    requires k < |moved|
    requires 0.0 <= corner.x && corner.x + offset <= 1.0 && 0.0 <= corner.y && corner.y + offset <= 1.0
    requires 0.0 <= moved[k].x <= bbs.xMax <= offset && 0.0 <= moved[k].y <= bbs.yMax <= offset
    ensures InSquare(CentreAt(moved, bbs, corner.x, corner.y, offset)[k], corner, offset)
  {
    ShiftAndClipInside(moved, corner.x + (offset - bbs.xMax) / 2.0, corner.y + (offset - bbs.yMax) / 2.0, k);
  }

  /** Every point lies in [0, bbs.xMax] by [0, bbs.yMax]. */
  predicate WithinCorner(vs: seq<Vec3>, bbs: Maxima)
  {
    forall k :: 0 <= k < |vs| ==> 0.0 <= vs[k].x <= bbs.xMax && 0.0 <= vs[k].y <= bbs.yMax
  }

  /**
   * A face whose extents, scaled by `sf`, are at most `offset` is moved
   * into [0, offset] by [0, offset], and its new box has its lower corner
   * at or below the origin.
   */
  lemma {:induction false} MovedFaceInside(flat: seq<Vec3>, sf: real, offset: real)
    requires |flat| > 0 && sf > 0.0
    requires BoxOf(flat).Extent(X) * sf <= offset && BoxOf(flat).Extent(Y) * sf <= offset
    ensures WithinCorner(MovedFace(flat, BoxOf(flat), sf), BoxOf(MovedFace(flat, BoxOf(flat), sf)))
    ensures BoxOf(MovedFace(flat, BoxOf(flat), sf)).xMax <= offset
    ensures BoxOf(MovedFace(flat, BoxOf(flat), sf)).yMax <= offset
  {
    var max := BoxOf(flat);
    var w, h := max.Extent(X) * sf, max.Extent(Y) * sf;
    assert w <= offset && h <= offset;
    var moved := MovedFace(flat, max, sf);
    BoxOfIsTight(flat, X);
    forall k | 0 <= k < |moved| ensures 0.0 <= moved[k].x <= w && 0.0 <= moved[k].y <= h {
      MovedPointBounds(flat, max, sf, k);
    }
    var bbs := BoxOf(moved);
    UpperCornerBounds(moved, w, h);
    BoxOfIsTight(moved, X);
    forall k | 0 <= k < |moved| ensures 0.0 <= moved[k].x <= bbs.xMax && 0.0 <= moved[k].y <= bbs.yMax {
      assert Encloses(bbs, moved[k]);
    }
  }

  /** The arithmetic of the common scale: an extent within the bounding box fits a cell. */
  lemma {:induction false} ExtentFitsCell(e: real, p: GridParams)
    requires 0.0 <= e <= p.boundingBox && p.gridSize > 0 && p.boundingBox != 0.0
    requires p == MakeParams(p.gridSize, p.boundingBox)
    ensures p.scaleFactor > 0.0 && e * p.scaleFactor <= p.offset
  {
    var bb := p.boundingBox;
    MulMonotoneReal(1.0, p.gridSize as real, bb);
    assert p.scaleFactor > 0.0;
    MulMonotoneReal(e, bb, p.scaleFactor);
  }

  /**
   * A face whose extents are within the bounding box lands inside a square
   * of side `offset` placed inside the unit square, and the clip to [0,1]
   * changes nothing.
   */
  lemma {:induction false} PlaceFaceInSquare(flat: seq<Vec3>, corner: Vec2, p: GridParams)
    requires |flat| > 0 && p.gridSize > 0 && p.boundingBox != 0.0
    requires p == MakeParams(p.gridSize, p.boundingBox)
    requires 0.0 <= corner.x && corner.x + p.offset <= 1.0 && 0.0 <= corner.y && corner.y + p.offset <= 1.0
    requires 0.0 <= BoxOf(flat).Extent(X) <= p.boundingBox && 0.0 <= BoxOf(flat).Extent(Y) <= p.boundingBox
    ensures forall k :: 0 <= k < |flat| ==> InSquare(PlaceFace(flat, corner, p)[k], corner, p.offset)
  {
    ExtentFitsCell(BoxOf(flat).Extent(X), p);
    ExtentFitsCell(BoxOf(flat).Extent(Y), p);
    MovedFaceInside(flat, p.scaleFactor, p.offset);
    var moved := MovedFace(flat, BoxOf(flat), p.scaleFactor);
    var bbs := BoxOf(moved);
    assert PlaceFace(flat, corner, p) == CentreAt(moved, bbs, corner.x, corner.y, p.offset);
    forall k | 0 <= k < |flat| ensures InSquare(CentreAt(moved, bbs, corner.x, corner.y, p.offset)[k], corner, p.offset) {
      CentredInSquare(moved, bbs, corner, p.offset, k);
    }
  }

  /** A box over at least one point has no negative extent. */
  lemma {:induction false} ExtentNonNegative(vs: seq<Vec3>, ax: Axis)
    requires |vs| > 0
    ensures BoxOf(vs).Extent(ax) >= 0.0
  {
    BoxOfIsTight(vs, ax);
    assert Encloses(BoxOf(vs), vs[0]);
  }

  /** A face's extent along `ax` is non-negative and, for `o >= 0`, within the bounding box. */
  lemma {:induction false} FaceExtentWithinBox(flats: seq<seq<Vec3>>, o: real, i: nat, ax: Axis)
    requires |flats| > 0 && NonEmptyFaces(flats) && i < |flats| && o >= 0.0 && ax != Z
    ensures 0.0 <= BoxOf(flats[i]).Extent(ax) <= BoundingBox(flats, o)
  {
    MeshBoxOfIsFirstWidest(flats, ax);
    ExtentNonNegative(flats[i], ax);
    var glob := MeshBoxOf(flats);
    assert BoxOf(flats[i]).Extent(ax) <= glob.Extent(ax) <= LargestExtent(glob);
    WidenedCovers(BoxOf(flats[i]).Extent(ax), LargestExtent(glob), o);
  }

  lemma WidenedCovers(e: real, b: real, o: real)
    requires 0.0 <= e <= b && o >= 0.0
    ensures e <= Widened(b, o)
  {
    MulMonotoneReal(0.0, o, b);
  }

  /** The scale of a mesh is well formed: a positive grid over a non-zero box. */
  lemma ParamsShape(flats: seq<seq<Vec3>>, o: real, p: GridParams)
    requires |flats| > 0 && NonEmptyFaces(flats) && BoundingBox(flats, o) != 0.0
    requires p == Params(flats, o)
    ensures p.gridSize == GridSize(|flats|) > 0 && p.boundingBox == BoundingBox(flats, o) != 0.0
    ensures p == MakeParams(p.gridSize, p.boundingBox)
  {
  }

  /** The cell of face `i` of `n` lies in the unit square. */
  lemma {:induction false} FaceCornerInUnitSquare(i: nat, n: nat, p: GridParams)
    requires i < n && p.gridSize == GridSize(n) && p.boundingBox != 0.0
    requires p == MakeParams(p.gridSize, p.boundingBox)
    ensures p.offset >= 0.0
    ensures var corner := Corner(CellOf(i, p.gridSize), p.offset);
            0.0 <= corner.x && corner.x + p.offset <= 1.0 && 0.0 <= corner.y && corner.y + p.offset <= 1.0
  {
    GridCovers(n, i);
    CellsTileUnitSquare(p.gridSize, p.boundingBox);
    CornerInUnitSquare(i, p.gridSize, p.offset);
  }

  lemma GridCovers(n: nat, i: nat)
    requires i < n
    ensures i < GridSize(n) * GridSize(n)
  {
  }

  /** `layoutMeshUV` on flattened triangles: one clipped UV triple per face, in face order. */
  method LayoutMeshUV(flats: seq<seq<Vec3>>, o: real) returns (faceVertexUvs: seq<seq<Vec2>>)
    requires |flats| > 0 && forall i :: 0 <= i < |flats| ==> |flats[i]| == 3
    requires BoundingBox(flats, o) != 0.0
    ensures |faceVertexUvs| == |flats|
    ensures forall i :: 0 <= i < |flats| ==>
              faceVertexUvs[i] == PlaceFace(flats[i], Corner(CellOf(i, Params(flats, o).gridSize), Params(flats, o).offset), Params(flats, o))
    ensures forall i :: 0 <= i < |flats| ==> |faceVertexUvs[i]| == 3
    ensures forall i, k :: 0 <= i < |flats| && 0 <= k < 3 ==>
              0.0 <= faceVertexUvs[i][k].x <= 1.0 && 0.0 <= faceVertexUvs[i][k].y <= 1.0
    ensures o >= 0.0 ==> forall i, k :: 0 <= i < |flats| && 0 <= k < 3 ==>
              InCell(faceVertexUvs[i][k], CellOf(i, Params(flats, o).gridSize), Params(flats, o).offset)
  {
    var facesLength := |flats|;
    var p := Params(flats, o);
    faceVertexUvs := [];
    var i := 0;
    while i < facesLength
      invariant 0 <= i <= facesLength && |faceVertexUvs| == i
      invariant forall j :: 0 <= j < i ==> faceVertexUvs[j] == PlaceFace(flats[j], Corner(CellOf(j, p.gridSize), p.offset), p)
    {
      faceVertexUvs := faceVertexUvs + [PlaceFace(flats[i], Corner(CellOf(i, p.gridSize), p.offset), p)];
      i := i + 1;
    }
    if o >= 0.0 {
      forall i | 0 <= i < |flats|
        ensures forall k :: 0 <= k < 3 ==> InCell(faceVertexUvs[i][k], CellOf(i, p.gridSize), p.offset)
      {
        ParamsShape(flats, o, p);
        FaceExtentWithinBox(flats, o, i, X);
        FaceExtentWithinBox(flats, o, i, Y);
        var c := CellOf(i, p.gridSize);
        FaceCornerInUnitSquare(i, |flats|, p);
        PlaceFaceInSquare(flats[i], Corner(c, p.offset), p);
        forall k | 0 <= k < 3 ensures InCell(faceVertexUvs[i][k], c, p.offset) {
          InCellFromCorner(faceVertexUvs[i][k], c, p.offset);
        }
      }
    }
  }

  // ---------------------------------------------------------------------
  // Texel rectangles and the row flip (uvFunCtor)
  // ---------------------------------------------------------------------

  /** `calcYOffset`: the uncentered layout keeps the row, the others flip it. */
  function CalcYOffset(mode: UvMethod, th: real, y: real): (r: real)
    ensures mode == UniformUncentered ==> r == y
    ensures mode != UniformUncentered ==> r + y == th
  {
    match mode
    case UniformUncentered => y
    case UniformCentered => th - y
    case Packed => th - y
  }

  /** The row flip is an involution and keeps rows in [0, th]. */
  lemma CalcYOffsetInvolution(mode: UvMethod, th: real, y: real)
    ensures CalcYOffset(mode, th, CalcYOffset(mode, th, y)) == y
    ensures 0.0 <= y <= th ==> 0.0 <= CalcYOffset(mode, th, y) <= th
  {
  }

  /** A UV triple's per-face layout information from the packed layout. */
  datatype UvInfo = UvInfo(h: real, w: real, origin: Vec2)

  /** The texel rectangle a face's scanline loop visits. */
  datatype FaceRect = FaceRect(xBegin: real, xEnd: real, yBegin: real, yEnd: real)

  /** `get2dVecs`: UVs to texel coordinates, with v measured from the top. */
  function Get2dVecs(lm: seq<Vec2>, w: real, h: real): (r: seq<Vec2>)
    ensures |r| == |lm|
    ensures forall k :: 0 <= k < |lm| ==> r[k].x == lm[k].x * w && r[k].y + lm[k].y * h == h
  {
    seq(|lm|, k requires 0 <= k < |lm| => Vec2(lm[k].x * w, h - lm[k].y * h))
  }

  function Lift2(vs: seq<Vec2>): (r: seq<Vec3>)
    ensures |r| == |vs|
    ensures forall k :: 0 <= k < |vs| ==> r[k] == Vec3(vs[k].x, vs[k].y, 0.0)
  {
    seq(|vs|, k requires 0 <= k < |vs| => Vec3(vs[k].x, vs[k].y, 0.0))
  }

  /** The square of side `offset` at a grid cell. */
  function CellRect(col: nat, row: nat, offset: real): FaceRect
  {
    FaceRect(CellStart(col, offset), CellStart(col, offset) + offset,
             CellStart(row, offset), CellStart(row, offset) + offset)
  }

  /** What `calcFaceOffset` needs from its caller in each mode (otherwise the source throws). */
  predicate FaceOffsetDefined(mode: UvMethod, faceIndex: nat, ny: nat, uvInfo: seq<UvInfo>, vec2d: seq<Vec2>)
  {
    match mode
    case UniformUncentered => |vec2d| > 0
    case UniformCentered => ny > 0
    case Packed => faceIndex < |uvInfo|
  }

  /**
   * `calcFaceOffset`: the texel box of the face's own corners, its grid
   * cell of side `offset`, or the packed box; the packed box scales its
   * vertical extent by the texture WIDTH as well.
   */
  function CalcFaceOffset(mode: UvMethod, faceIndex: nat, ny: nat, offset: real, uvInfo: seq<UvInfo>,
                          tw: real, th: real, vec2d: seq<Vec2>): FaceRect
    requires FaceOffsetDefined(mode, faceIndex, ny, uvInfo, vec2d)
  {
    match mode
    case UniformUncentered =>
      var maxima := BoxOf(Lift2(vec2d));
      FaceRect(maxima.xMin, maxima.xMax, maxima.yMin, maxima.yMax)
    case UniformCentered =>
      CellRect(faceIndex % ny, faceIndex / ny, offset)
    case Packed =>
      var info := uvInfo[faceIndex];
      FaceRect(info.origin.x * tw, (info.origin.x + info.w) * tw,
               info.origin.y * tw, (info.origin.y + info.h) * tw)
  }

  /** The uncentered rectangle is the tight bounding box of the face's texel corners. */
  lemma {:induction false} UncenteredRectIsTight(faceIndex: nat, ny: nat, offset: real, uvInfo: seq<UvInfo>,
                                                  tw: real, th: real, vec2d: seq<Vec2>)
    requires |vec2d| > 0
    ensures var r := CalcFaceOffset(UniformUncentered, faceIndex, ny, offset, uvInfo, tw, th, vec2d);
            (forall k :: 0 <= k < |vec2d| ==> r.xBegin <= vec2d[k].x <= r.xEnd && r.yBegin <= vec2d[k].y <= r.yEnd) &&
            (exists k :: 0 <= k < |vec2d| && vec2d[k].x == r.xBegin) &&
            (exists k :: 0 <= k < |vec2d| && vec2d[k].y == r.yEnd)
  {
    var vs := Lift2(vec2d);
    BoxOfIsTight(vs, X);
    BoxOfIsTight(vs, Y);
    var r := CalcFaceOffset(UniformUncentered, faceIndex, ny, offset, uvInfo, tw, th, vec2d);
    forall k | 0 <= k < |vec2d| ensures r.xBegin <= vec2d[k].x <= r.xEnd && r.yBegin <= vec2d[k].y <= r.yEnd {
      assert Encloses(BoxOf(vs), vs[k]);
    }
    var a :| 0 <= a < |vs| && Coord(vs[a], X) == BoxOf(vs).Lo(X);
    var b :| 0 <= b < |vs| && Coord(vs[b], Y) == BoxOf(vs).Hi(Y);
    assert vec2d[a].x == r.xBegin && vec2d[b].y == r.yEnd;
  }

  predicate RectsDisjoint(a: FaceRect, b: FaceRect)
  {
    a.xEnd <= b.xBegin || b.xEnd <= a.xBegin || a.yEnd <= b.yBegin || b.yEnd <= a.yBegin
  }

  /**
   * In the centered layout every face's rectangle is a cell of side
   * `offset`; with `offset = th / ny` it lies inside the texture.
   */
  lemma {:induction false} CenteredRectInTexture(i: nat, ny: nat, th: real, uvInfo: seq<UvInfo>, tw: real, vi: seq<Vec2>)
    requires ny > 0 && i < ny * ny && th > 0.0
    ensures var r := CalcFaceOffset(UniformCentered, i, ny, th / (ny as real), uvInfo, tw, th, vi);
            r.xEnd - r.xBegin == th / (ny as real) && r.yEnd - r.yBegin == th / (ny as real) &&
            0.0 <= r.xBegin && r.xEnd <= th && 0.0 <= r.yBegin && r.yEnd <= th
  {
    var offset := th / (ny as real);
    assert offset > 0.0 && offset * (ny as real) == th;
    CellsAreDistinct(i, i, ny);
    CellInSpan(i % ny, ny, offset, th);
    CellInSpan(i / ny, ny, offset, th);
  }

  /** The cell after cell `a` starts no earlier than `a`'s end. */
  lemma {:induction false} CellsSeparated(a: nat, b: nat, offset: real)
    requires a < b && offset > 0.0
    ensures CellStart(a, offset) + offset <= CellStart(b, offset)
  {
    MulMonotoneReal((a + 1) as real, b as real, offset);
    NextMultiple(a, offset);
  }

  /** Squares at distinct grid cells do not overlap. */
  lemma {:induction false} CellRectsDisjoint(ci: nat, ri: nat, cj: nat, rj: nat, offset: real)
    requires (ci != cj || ri != rj) && offset > 0.0
    ensures RectsDisjoint(CellRect(ci, ri, offset), CellRect(cj, rj, offset))
  {
    if ci < cj {
      CellsSeparated(ci, cj, offset);
    } else if cj < ci {
      CellsSeparated(cj, ci, offset);
    } else if ri < rj {
      CellsSeparated(ri, rj, offset);
    } else {
      CellsSeparated(rj, ri, offset);
    }
  }

  /** Two distinct faces of the centered layout get rectangles that do not overlap. */
  lemma {:induction false} CenteredRectsDisjoint(i: nat, j: nat, ny: nat, offset: real, uvInfo: seq<UvInfo>,
                                                 tw: real, th: real, vi: seq<Vec2>, vj: seq<Vec2>)
    requires ny > 0 && i < ny * ny && j < ny * ny && i != j && offset > 0.0
    ensures RectsDisjoint(CalcFaceOffset(UniformCentered, i, ny, offset, uvInfo, tw, th, vi),
                          CalcFaceOffset(UniformCentered, j, ny, offset, uvInfo, tw, th, vj))
  {
    CellsAreDistinct(i, j, ny);
    assert i % ny != j % ny || i / ny != j / ny;
    CellRectsDisjoint(i % ny, i / ny, j % ny, j / ny, offset);
  }

  /**
   * The packed rectangle spans `w * tw` by `h * tw` texels from
   * `origin * tw`; it stays inside the tw-by-tw square when the layout
   * information lies in the unit square.
   */
  lemma {:induction false} PackedRectWithinTexture(faceIndex: nat, ny: nat, offset: real, uvInfo: seq<UvInfo>,
                                                   tw: real, th: real, vec2d: seq<Vec2>)
    requires faceIndex < |uvInfo| && tw >= 0.0
    requires var info := uvInfo[faceIndex];
             0.0 <= info.origin.x && 0.0 <= info.w && info.origin.x + info.w <= 1.0 &&
             0.0 <= info.origin.y && 0.0 <= info.h && info.origin.y + info.h <= 1.0
    ensures var r := CalcFaceOffset(Packed, faceIndex, ny, offset, uvInfo, tw, th, vec2d);
            0.0 <= r.xBegin <= r.xEnd <= tw && 0.0 <= r.yBegin <= r.yEnd <= tw &&
            r.xEnd - r.xBegin == uvInfo[faceIndex].w * tw && r.yEnd - r.yBegin == uvInfo[faceIndex].h * tw
  {
    var info := uvInfo[faceIndex];
    IntervalScaled(info.origin.x, info.w, tw);
    IntervalScaled(info.origin.y, info.h, tw);
  }

  /** Scaling [o, o + w] inside [0, 1] by `t >= 0` gives an interval of length `w * t` inside [0, t]. */
  lemma {:induction false} IntervalScaled(o: real, w: real, t: real)
    requires 0.0 <= o && 0.0 <= w && o + w <= 1.0 && t >= 0.0
    ensures 0.0 <= o * t <= (o + w) * t <= t && (o + w) * t - o * t == w * t
  {
    MulMonotoneReal(0.0, o, t);
    MulMonotoneReal(o, o + w, t);
    MulMonotoneReal(o + w, 1.0, t);
  }

  // ---------------------------------------------------------------------
  // The packed layout after packing (layoutMeshUVPacked)
  // ---------------------------------------------------------------------

  /**
   * An entry of the `flattened` array: the face's box size, its index,
   * its points moved to the origin, and the packer's placement `fit`.
   */
  datatype PackedFace = PackedFace(w: real, h: real, faceIndex: nat, points: seq<Vec3>, fit: Vec2)

  predicate SortedByFaceIndex(s: seq<PackedFace>)
  {
    forall i, j :: 0 <= i < j < |s| ==> s[i].faceIndex <= s[j].faceIndex
  }

  /** Inserts `e` into a list sorted by face index, before the first larger index. */
  function Insert(e: PackedFace, s: seq<PackedFace>): (r: seq<PackedFace>)
    requires SortedByFaceIndex(s)
    ensures SortedByFaceIndex(r)
    ensures multiset(r) == multiset(s) + multiset{e}
    ensures |r| == |s| + 1
  {
    if |s| == 0 then [e]
    else if e.faceIndex <= s[0].faceIndex then [e] + s
    else
      var rest := Insert(e, s[1..]);
      assert s == [s[0]] + s[1..];
      assert forall k :: 0 <= k < |rest| ==> s[0].faceIndex <= rest[k].faceIndex by {
        forall k | 0 <= k < |rest| ensures s[0].faceIndex <= rest[k].faceIndex {
          assert rest[k] in multiset(rest);
          assert rest[k] == e || rest[k] in multiset(s[1..]);
        }
      }
      [s[0]] + rest
  }

  /** `flattened.sort((a, b) => a.faceIndex - b.faceIndex)`, as an insertion sort. */
  function SortByFaceIndex(s: seq<PackedFace>): (r: seq<PackedFace>)
    ensures SortedByFaceIndex(r)
    ensures multiset(r) == multiset(s)
    ensures |r| == |s|
  {
    if |s| == 0 then []
    else
      assert s == s[..|s| - 1] + [s[|s| - 1]];
      Insert(s[|s| - 1], SortByFaceIndex(s[..|s| - 1]))
  }

  /** The entries as `forEach` pushed them: entry `i` belongs to face `i`. */
  predicate InFaceOrder(s: seq<PackedFace>)
  {
    forall i :: 0 <= i < |s| ==> s[i].faceIndex == i
  }

  /** The least entry of a sorted list is the first entry of a strictly increasing one with the same entries. */
  lemma {:induction false} SortedHeadsAgree(r: seq<PackedFace>, orig: seq<PackedFace>)
    requires |r| > 0 && |orig| > 0 && multiset(r) == multiset(orig)
    requires SortedByFaceIndex(r)
    requires forall i, j :: 0 <= i < j < |orig| ==> orig[i].faceIndex < orig[j].faceIndex
    ensures r[0] == orig[0]
  {
    var x, y := r[0], orig[0];
    assert x in multiset(orig);
    var a :| 0 <= a < |orig| && orig[a] == x;
    assert y in multiset(r);
    var b :| 0 <= b < |r| && r[b] == y;
    assert x.faceIndex <= y.faceIndex;
    assert a == 0;
  }

  /** Removing equal first entries keeps the multisets equal. */
  lemma {:induction false} TailsSameEntries(r: seq<PackedFace>, orig: seq<PackedFace>)
    requires |r| > 0 && |orig| > 0 && multiset(r) == multiset(orig) && r[0] == orig[0]
    ensures multiset(r[1..]) == multiset(orig[1..])
  {
    assert r == [r[0]] + r[1..];
    assert orig == [orig[0]] + orig[1..];
    assert multiset(r[1..]) == multiset(r) - multiset{r[0]};
    assert multiset(orig[1..]) == multiset(orig) - multiset{orig[0]};
  }

  /**
   * Two lists sorted by face index with the same entries are equal when the
   * face indices of one are all distinct.
   */
  lemma {:induction false} SortedPermutationUnique(r: seq<PackedFace>, orig: seq<PackedFace>)
    requires multiset(r) == multiset(orig)
    requires SortedByFaceIndex(r)
    requires forall i, j :: 0 <= i < j < |orig| ==> orig[i].faceIndex < orig[j].faceIndex
    ensures r == orig
  {
    assert |r| == |multiset(r)| == |multiset(orig)| == |orig|;
    if |r| > 0 {
      SortedHeadsAgree(r, orig);
      TailsSameEntries(r, orig);
      SortedPermutationUnique(r[1..], orig[1..]);
      assert r == [r[0]] + r[1..];
      assert orig == [orig[0]] + orig[1..];
    }
  }

  /**
   * The re-sort undoes any reordering (the sort by height, the packer):
   * whatever permutation of the face-ordered entries it receives, it
   * returns them in face order again.
   */
  lemma ReSortRestoresFaceOrder(flattened: seq<PackedFace>, orig: seq<PackedFace>)
    requires InFaceOrder(orig) && multiset(flattened) == multiset(orig)
    ensures SortByFaceIndex(flattened) == orig
    ensures InFaceOrder(SortByFaceIndex(flattened))
  {
    SortedPermutationUnique(SortByFaceIndex(flattened), orig);
  }

  /** The scale of the packed result: `1 / max(root.w, root.h)`. */
  function PackedScale(rootW: real, rootH: real): real
    requires Max(rootW, rootH) != 0.0
  {
    1.0 / Max(rootW, rootH)
  }

  /** The texel-sized box of an entry after scaling (`targetScale`). */
  function TargetScale(e: PackedFace, sf: real, mapSize: real): Vec2
  {
    Vec2(e.w * sf * mapSize, e.h * sf * mapSize)
  }

  /**
   * One coordinate of a point of an entry of scaled length `len * sf`:
   * scaled by `sf * (t - o) / t` where `t = len * sf * mapSize` is the
   * length in texels, moved to the scaled `fit`, and moved by half the
   * seam offset `o` in UV units.
   */
  function PackedCoordinate(v: real, len: real, fit: real, sf: real, o: real, mapSize: real): real
    requires mapSize != 0.0 && len * sf * mapSize != 0.0
  {
    var t := len * sf * mapSize;
    v * (sf * ((t - o) / t)) + fit * sf + (o / mapSize) / 2.0
  }

  /**
   * The final UVs of one entry: scaled so that the seam offset `o` (in
   * texels) is left free, placed at the scaled `fit`, and moved by half
   * the offset. A face with a zero-sized target box divides by zero in
   * the source; it yields None here.
   */
  function PackedPoints(e: PackedFace, sf: real, o: real, mapSize: real): (r: Option<seq<Vec2>>)
    requires mapSize != 0.0
    ensures r.Some? <==> TargetScale(e, sf, mapSize).x != 0.0 && TargetScale(e, sf, mapSize).y != 0.0
    ensures r.Some? ==> |r.value| == |e.points|
  {
    if e.w * sf * mapSize == 0.0 || e.h * sf * mapSize == 0.0 then None
    else
      Some(seq(|e.points|, k requires 0 <= k < |e.points| =>
        Vec2(PackedCoordinate(e.points[k].x, e.w, e.fit.x, sf, o, mapSize),
             PackedCoordinate(e.points[k].y, e.h, e.fit.y, sf, o, mapSize))))
  }

  /** Point `k` of `PackedPoints`, coordinate by coordinate. */
  lemma PackedPointAt(e: PackedFace, sf: real, o: real, mapSize: real, k: nat)
    requires mapSize != 0.0 && k < |e.points| && PackedPoints(e, sf, o, mapSize).Some?
    ensures PackedPoints(e, sf, o, mapSize).value[k] ==
              Vec2(PackedCoordinate(e.points[k].x, e.w, e.fit.x, sf, o, mapSize),
                   PackedCoordinate(e.points[k].y, e.h, e.fit.y, sf, o, mapSize))
  {
  }

  /** The `uvInfos` entry of one scaled entry. */
  function PackedInfo(e: PackedFace, sf: real): UvInfo
  {
    UvInfo(e.h * sf, e.w * sf, Vec2(e.fit.x * sf, e.fit.y * sf))
  }

  /** One coordinate of `PackedPoints`: a value in [0, len] lands in [fit + c, fit + len*sf - c]. */
  lemma {:induction false} PackedCoordinateInset(v: real, len: real, fit: real, sf: real, o: real, mapSize: real)
    requires 0.0 <= v <= len && sf > 0.0 && mapSize > 0.0 && o >= 0.0 && len * sf * mapSize > o
    ensures var c := (o / mapSize) / 2.0;
            fit * sf + c <= PackedCoordinate(v, len, fit, sf, o, mapSize) <= fit * sf + len * sf - c
  {
    var t := len * sf * mapSize;
    var c := (o / mapSize) / 2.0;
    var q := (t - o) / t;
    assert t > 0.0;
    assert 0.0 <= q by { assert t - o > 0.0; }
    MulMonotoneReal(0.0, v, sf * q);
    MulMonotoneReal(v, len, sf * q);
    assert len * (sf * q) == len * sf - o / mapSize by {
      assert len * sf * q == len * sf * (t - o) / t;
      assert len * sf * (t - o) / t == len * sf - len * sf * o / t;
      assert len * sf * o / t == o / mapSize;
    }
  }

  /** A placement inside a root of size at most `m`, scaled by `1/m`, lies in [0,1]. */
  lemma {:induction false} ScaledPlacementInUnit(fit: real, len: real, bound: real, m: real)
    requires 0.0 <= fit && fit + len <= bound <= m && m > 0.0
    ensures 0.0 <= fit * (1.0 / m) && fit * (1.0 / m) + len * (1.0 / m) <= 1.0
  {
    var sf := 1.0 / m;
    MulMonotoneReal(0.0, fit, sf);
    MulMonotoneReal(fit + len, m, sf);
  }

  /** A positive product of a length with positive factors has a positive length. */
  lemma PositiveLength(len: real, sf: real, mapSize: real, o: real)
    requires sf > 0.0 && mapSize > 0.0 && o >= 0.0 && len * sf * mapSize > o
    ensures len >= 0.0
  {
    if len < 0.0 {
      MulMonotoneReal(len, 0.0, sf);
      MulMonotoneReal(len * sf, 0.0, mapSize);
    }
  }

  /**
   * An entry larger than the seam offset in texels, with its points inside
   * its box, gets UVs inside its `uvInfo` box, inset by half the offset on
   * every side.
   */
  lemma {:induction false} PackedPointsInset(e: PackedFace, sf: real, o: real, mapSize: real)
    requires sf > 0.0 && mapSize > 0.0 && o >= 0.0
    requires forall k :: 0 <= k < |e.points| ==> 0.0 <= e.points[k].x <= e.w && 0.0 <= e.points[k].y <= e.h
    requires TargetScale(e, sf, mapSize).x > o && TargetScale(e, sf, mapSize).y > o
    ensures var info := PackedInfo(e, sf);
            var c := (o / mapSize) / 2.0;
            var r := PackedPoints(e, sf, o, mapSize);
            r.Some? &&
            forall k :: 0 <= k < |e.points| ==>
              info.origin.x + c <= r.value[k].x <= info.origin.x + info.w - c &&
              info.origin.y + c <= r.value[k].y <= info.origin.y + info.h - c
  {
    PositiveLength(e.w, sf, mapSize, o);
    PositiveLength(e.h, sf, mapSize, o);
    var r := PackedPoints(e, sf, o, mapSize);
    var info := PackedInfo(e, sf);
    var c := (o / mapSize) / 2.0;
    assert r.Some?;
    forall k | 0 <= k < |e.points|
      ensures info.origin.x + c <= r.value[k].x <= info.origin.x + info.w - c &&
              info.origin.y + c <= r.value[k].y <= info.origin.y + info.h - c
    {
      PackedPointAt(e, sf, o, mapSize, k);
      PackedCoordinateInset(e.points[k].x, e.w, e.fit.x, sf, o, mapSize);
      PackedCoordinateInset(e.points[k].y, e.h, e.fit.y, sf, o, mapSize);
    }
  }

  /** An entry the packer kept inside its root has its `uvInfo` box in the unit square. */
  lemma {:induction false} PackedInfoInUnit(e: PackedFace, rootW: real, rootH: real)
    requires Max(rootW, rootH) > 0.0
    requires 0.0 <= e.fit.x && e.fit.x + e.w <= rootW && 0.0 <= e.fit.y && e.fit.y + e.h <= rootH
    ensures PackedScale(rootW, rootH) > 0.0
    ensures var info := PackedInfo(e, PackedScale(rootW, rootH));
            0.0 <= info.origin.x && info.origin.x + info.w <= 1.0 &&
            0.0 <= info.origin.y && info.origin.y + info.h <= 1.0
  {
    var m := Max(rootW, rootH);
    ScaledPlacementInUnit(e.fit.x, e.w, rootW, m);
    ScaledPlacementInUnit(e.fit.y, e.h, rootH, m);
  }

  /**
   * When the packer kept the entry inside its root and the entry is larger
   * than the seam offset in texels, its UVs lie inside its `uvInfo` box,
   * inset by half the offset on every side, and the box lies in the unit
   * square.
   */
  lemma {:induction false} PackedPointsInsideInfo(e: PackedFace, rootW: real, rootH: real, o: real, mapSize: real)
    requires Max(rootW, rootH) > 0.0 && mapSize > 0.0 && o >= 0.0
    requires 0.0 <= e.fit.x && e.fit.x + e.w <= rootW && 0.0 <= e.fit.y && e.fit.y + e.h <= rootH
    requires forall k :: 0 <= k < |e.points| ==> 0.0 <= e.points[k].x <= e.w && 0.0 <= e.points[k].y <= e.h
    requires TargetScale(e, PackedScale(rootW, rootH), mapSize).x > o
    requires TargetScale(e, PackedScale(rootW, rootH), mapSize).y > o
    ensures var sf := PackedScale(rootW, rootH);
            var info := PackedInfo(e, sf);
            var c := (o / mapSize) / 2.0;
            var r := PackedPoints(e, sf, o, mapSize);
            r.Some? &&
            0.0 <= info.origin.x && info.origin.x + info.w <= 1.0 &&
            0.0 <= info.origin.y && info.origin.y + info.h <= 1.0 &&
            forall k :: 0 <= k < |e.points| ==>
              info.origin.x + c <= r.value[k].x <= info.origin.x + info.w - c &&
              info.origin.y + c <= r.value[k].y <= info.origin.y + info.h - c
  {
    PackedInfoInUnit(e, rootW, rootH);
    PackedPointsInset(e, PackedScale(rootW, rootH), o, mapSize);
  }

  /**
   * The end of `layoutMeshUVPacked`: re-sort by face index, then scale
   * every entry and collect its UVs and its layout information, in order.
   */
  method PackedLayout(flattened: seq<PackedFace>, rootW: real, rootH: real, o: real, mapSize: real)
    returns (uvs: seq<Option<seq<Vec2>>>, uvInfos: seq<UvInfo>)
    requires Max(rootW, rootH) != 0.0 && mapSize != 0.0
    ensures |uvs| == |uvInfos| == |flattened|
    ensures forall i :: 0 <= i < |uvs| ==>
              uvs[i] == PackedPoints(SortByFaceIndex(flattened)[i], PackedScale(rootW, rootH), o, mapSize) &&
              uvInfos[i] == PackedInfo(SortByFaceIndex(flattened)[i], PackedScale(rootW, rootH))
  {
    var scaleFactor := 1.0 / Max(rootW, rootH);
    var sorted := SortByFaceIndex(flattened);
    assert |sorted| == |multiset(sorted)| == |multiset(flattened)| == |flattened|;
    uvs, uvInfos := [], [];
    var i := 0;
    while i < |sorted|
      invariant 0 <= i <= |sorted| && |uvs| == i && |uvInfos| == i
      invariant forall j :: 0 <= j < i ==>
                  uvs[j] == PackedPoints(sorted[j], scaleFactor, o, mapSize) && uvInfos[j] == PackedInfo(sorted[j], scaleFactor)
    {
      uvs := uvs + [PackedPoints(sorted[i], scaleFactor, o, mapSize)];
      uvInfos := uvInfos + [PackedInfo(sorted[i], scaleFactor)];
      i := i + 1;
    }
  }
}
