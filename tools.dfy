/** Conversion of FINAM grid specifications into ESMPy geometries with an
    attached field, and the decision whether coordinates need a CRS
    transform first (src/finam_regrid/tools.py). */
module Tools {
  import opened Common
  import opened Shapes
  import opened Engine

  /** `fm.Location`: values at the cells or at the points of a grid. */
  datatype Location = Cells | Points

  /** A parsed coordinate reference system; two compare equal exactly when
      they are the same system. */
  datatype Crs = Crs(definition: string)

  /** The coordinates of one point. */
  type Point = seq<real>

  /** A map projection: point by point, and one coordinate out per
      coordinate in. */
  type Projection = f: Point -> Point | forall p: Point :: |f(p)| == |p| witness (p: Point) => p

  /** `Transformer.from_crs(source, target)` of pyproj, which this model
      takes as given. */
  type TransformerFactory = (Option<Crs>, Option<Crs>) -> Projection

  /** A pyproj transformer from `source` to `target`. */
  datatype Transformer = Transformer(source: Option<Crs>, target: Option<Crs>, project: Projection)

  /** A FINAM grid specification. `UnstructuredPoints` is a subclass of
      `UnstructuredGrid` in FINAM; `OtherGrid` is any other grid class. */
  datatype Grid =
    | StructuredGrid(name: string, axes: seq<seq<real>>, cellAxes: seq<seq<real>>,
                     dataLocation: Location, crs: Option<Crs>)
    | UnstructuredGrid(name: string, points: seq<Point>, cells: seq<seq<nat>>, cellTypes: seq<int>,
                       cellCenters: seq<Point>, meshDim: nat, dim: nat, dataLocation: Location, crs: Option<Crs>)
    | UnstructuredPoints(name: string, points: seq<Point>, dim: nat, crs: Option<Crs>)
    | OtherGrid(className: string, crs: Option<Crs>)

  /** The shape a FINAM grid specification always has: the cell axes of a
      structured grid are one shorter than its axes, and the point, centre
      and cell tables of unstructured grids are rectangular arrays. */
  predicate WellFormed(g: Grid)
  {
    match g
    case StructuredGrid(_, axes, cellAxes, _, _) =>
      |cellAxes| == |axes| &&
      forall i :: 0 <= i < |axes| ==> |axes[i]| >= 1 && |cellAxes[i]| == |axes[i]| - 1
    case UnstructuredGrid(_, points, cells, cellTypes, cellCenters, _, dim, _, _) =>
      (forall k :: 0 <= k < |points| ==> |points[k]| == dim) &&
      |cellTypes| == |cells| && |cellCenters| == |cells| &&
      (forall k :: 0 <= k < |cellCenters| ==> |cellCenters[k]| == dim)
    case UnstructuredPoints(_, points, dim, _) =>
      forall k :: 0 <= k < |points| ==> |points[k]| == dim
    case OtherGrid(_, _) => true
  }

  // ---- lookup tables (tools.py:11-31) ----

  const EsmfDimNames: seq<string> := ["ESMF:X", "ESMF:Y", "ESMF:Z"]

  const EsmfStaggerLoc2D: map<Location, StaggerLoc> := map[Cells := Center, Points := Corner]

  const EsmfStaggerLoc3D: map<Location, StaggerLoc> := map[Cells := CenterVCenter, Points := CornerVFace]

  const EsmfStaggerLocs: map<int, map<Location, StaggerLoc>> := map[2 := EsmfStaggerLoc2D, 3 := EsmfStaggerLoc3D]

  const EsmfMeshLoc: map<Location, MeshLoc> := map[Cells := Element, Points := Node]

  /** `ESMF_STAGGER_LOC[mesh_dim][location]`: a KeyError for other than two
      or three dimensions; point data sits at a corner location and cell data
      at a centre location, of the vertical kind in three dimensions. */
  function StaggerLocFor(meshDim: int, loc: Location): (r: Result<StaggerLoc>)
    ensures r.Ok? <==> meshDim == 2 || meshDim == 3
    ensures r.Err? ==> r.error == KeyError(meshDim)
    ensures r.Ok? ==> (IsCornerStagger(r.value) <==> loc == Points)
    ensures r.Ok? ==> (IsVerticalStagger(r.value) <==> meshDim == 3)
  {
    assert loc == Cells || loc == Points;
    if meshDim in EsmfStaggerLocs then Ok(EsmfStaggerLocs[meshDim][loc]) else Err(KeyError(meshDim))
  }

  /** `ESMF_MESH_LOC[location]`: point data on the nodes, cell data on the elements. */
  function MeshLocFor(loc: Location): (r: MeshLoc)
    ensures r == Node <==> loc == Points
  {
    assert loc == Cells || loc == Points;
    EsmfMeshLoc[loc]
  }

  // ---- shapes, transformer, points (tools.py:34-61) ----

  /** `_shp(i, dim)`: the reshape argument that lays a vector along axis `i`
      of a `dim`-dimensional array: -1 at position `i` and 1 elsewhere. */
  method Shp(i: nat, dim: nat) returns (res: seq<int>)
    requires i < dim
    ensures |res| == dim && AxisShape(res, i)
  {
    var a := new int[dim](_ => 1);
    a[i] := -1;
    res := a[..];
  }

  /** `create_transformer`: no transformer when the two CRS are equal (both
      absent included), otherwise the pyproj transformer between them. */
  function CreateTransformer(inCrs: Option<Crs>, outCrs: Option<Crs>, fromCrs: TransformerFactory): (r: Option<Transformer>)
    ensures r.None? <==> inCrs == outCrs
    ensures r.Some? ==> r.value == Transformer(inCrs, outCrs, fromCrs(inCrs, outCrs))
  {
    if (inCrs.None? && outCrs.None?) || inCrs == outCrs then None
    else Some(Transformer(inCrs, outCrs, fromCrs(inCrs, outCrs)))
  }

  /** `_transform_points`: the points themselves without a transformer;
      otherwise one projected point per point, in the same order. */
  function TransformPoints(t: Option<Transformer>, points: seq<Point>): (r: seq<Point>)
    ensures t.None? ==> r == points
    ensures |r| == |points|
    ensures forall k :: 0 <= k < |r| ==> |r[k]| == |points[k]|
    ensures t.Some? ==> forall k :: 0 <= k < |r| ==> r[k] == t.value.project(points[k])
  {
    if t.None? then points
    else
      var f: Projection := t.value.project;
      assert forall k :: 0 <= k < |points| ==> |f(points[k])| == |points[k]|;
      seq(|points|, k requires 0 <= k < |points| => f(points[k]))
  }

  /** `points[:, i]`. */
  function Column(points: seq<Point>, i: nat): (r: seq<real>)
    requires forall k :: 0 <= k < |points| ==> i < |points[k]|
    ensures |r| == |points| && forall k :: 0 <= k < |r| ==> r[k] == points[k][i]
  {
    seq(|points|, k requires 0 <= k < |points| => points[k][i])
  }

  // ---- dispatch (tools.py:64-73) ----

  /** The three conversions `to_esmf` chooses between. */
  datatype Builder = GridBuilder | PointsBuilder | MeshBuilder

  /** `isinstance(grid, fm.UnstructuredGrid)`, which point clouds satisfy too. */
  predicate IsUnstructuredGrid(g: Grid)
  {
    g.UnstructuredGrid? || g.UnstructuredPoints?
  }

  /** The conversion `to_esmf` applies: point clouds are tested before
      general unstructured grids, so each grid kind reaches its own builder,
      and any other class is a ValueError that names it. */
  function SelectBuilder(g: Grid): (r: Result<Builder>)
    ensures r == Ok(GridBuilder) <==> g.StructuredGrid?
    ensures r == Ok(PointsBuilder) <==> g.UnstructuredPoints?
    ensures r == Ok(MeshBuilder) <==> g.UnstructuredGrid?
    ensures r.Err? <==> g.OtherGrid?
    ensures r.Err? ==> r.error == ValueError("Grid type '" + g.className + "' not supported")
  {
    if g.StructuredGrid? then Ok(GridBuilder)
    else if g.UnstructuredPoints? then Ok(PointsBuilder)
    else if IsUnstructuredGrid(g) then Ok(MeshBuilder)
    else Err(ValueError("Grid type '" + g.className + "' not supported"))
  }

  // ---- structured grids (tools.py:76-106) ----

  /** numpy's IndexError for `a[:, i]` on a one-dimensional array, which is
      what `np.asarray(list(...))` makes of zero transformed points. */
  const TooManyIndicesMessage := "too many indices for array: array is 1-dimensional, but 2 were indexed"

  /** Python's IndexError for `ESMF_DIM_NAMES[i]` with `i` past the end. */
  const ListIndexMessage := "list index out of range"

  /** `grid.dims`: the number of coordinates along each axis. */
  function Dims(axes: seq<seq<real>>): (r: seq<nat>)
    ensures |r| == |axes| && forall i :: 0 <= i < |r| ==> r[i] == |axes[i]|
  {
    seq(|axes|, i requires 0 <= i < |axes| => |axes[i]|)
  }

  /** `[d - 1 for d in grid.dims]`: the number of cells along each axis. */
  function CellCounts(axes: seq<seq<real>>): (r: seq<nat>)
    requires forall i :: 0 <= i < |axes| ==> |axes[i]| >= 1
    ensures |r| == |axes| && forall i :: 0 <= i < |r| ==> r[i] + 1 == |axes[i]|
  {
    seq(|axes|, i requires 0 <= i < |axes| => |axes[i]| - 1)
  }

  /** The grid point at multi-index `idx`. */
  function PointAt(axes: seq<seq<real>>, idx: seq<nat>): (r: Point)
    requires InRange(idx, Dims(axes))
    ensures |r| == |axes| && forall k :: 0 <= k < |r| ==> r[k] == axes[k][idx[k]]
  {
    seq(|axes|, k requires 0 <= k < |axes| => axes[k][idx[k]])
  }

  /** `gen_points(axes, order="F")`: every grid point, first axis fastest. */
  function GenPoints(axes: seq<seq<real>>): (r: seq<Point>)
    ensures |r| == Product(Dims(axes))
    ensures forall p :: 0 <= p < |r| ==> r[p] == PointAt(axes, IndexList(Dims(axes))[p])
  {
    var idxs := IndexList(Dims(axes));
    seq(|idxs|, p requires 0 <= p < |idxs| => PointAt(axes, idxs[p]))
  }

  /** The coordinate array for axis `i` of a grid with these axes, in the
      Fortran order the engine stores it in: at every grid index, coordinate
      `i` of the grid point there, projected when there is a transformer. */
  function AxisCoords(axes: seq<seq<real>>, i: nat, t: Option<Transformer>): (r: seq<real>)
    requires i < |axes|
    ensures |r| == Product(Dims(axes))
  {
    var idxs := IndexList(Dims(axes));
    seq(|idxs|, p requires 0 <= p < |idxs| =>
      var x := PointAt(axes, idxs[p]);
      if t.None? then x[i] else t.value.project(x)[i])
  }

  /** Read back at a grid index, the coordinate array of axis `i` holds
      `axes[i]` broadcast along axis `i` (without a transformer) or the
      projected grid point's coordinate `i` (with one). */
  lemma AxisCoordsAt(axes: seq<seq<real>>, i: nat, t: Option<Transformer>, idx: seq<nat>)
    requires i < |axes| && InRange(idx, Dims(axes))
    ensures t.None? ==> ReadAt(AxisCoords(axes, i, t), Dims(axes), idx) == axes[i][idx[i]]
    ensures t.Some? ==> ReadAt(AxisCoords(axes, i, t), Dims(axes), idx) == t.value.project(PointAt(axes, idx))[i]
  {
    IndexListInverse(Dims(axes), idx);
    var p := FortranOffset(idx, Dims(axes));
    assert IndexList(Dims(axes))[p] == idx;
    assert AxisCoords(axes, i, t)[p] == if t.None? then PointAt(axes, idx)[i] else t.value.project(PointAt(axes, idx))[i];
  }

  /** With a transformer that leaves every point where it is, the grid gets
      the same coordinates as without one. */
  lemma IdentityProjectionKeepsCoords(axes: seq<seq<real>>, i: nat, t: Transformer)
    requires i < |axes|
    requires forall p: Point :: t.project(p) == p
    ensures AxisCoords(axes, i, Some(t)) == AxisCoords(axes, i, None)
  {
    var idxs := IndexList(Dims(axes));
    forall p | 0 <= p < |idxs|
      ensures AxisCoords(axes, i, Some(t))[p] == AxisCoords(axes, i, None)[p]
    {
      assert t.project(PointAt(axes, idxs[p])) == PointAt(axes, idxs[p]);
    }
  }

  /** Without a transformer the tools assign `axes[i].reshape(*_shp(i, dim))`
      to the whole coordinate array, which broadcasts `axes[i]` along axis
      `i`; that is the coordinate array above. */
  lemma BroadcastIsAxisCoords(axes: seq<seq<real>>, i: nat)
    requires i < |axes|
    ensures AlongAxis(Dims(axes), axes[i], i) == AxisCoords(axes, i, None)
  {
    var idxs := IndexList(Dims(axes));
    forall p | 0 <= p < |idxs| ensures AlongAxis(Dims(axes), axes[i], i)[p] == AxisCoords(axes, i, None)[p] {
      assert AxisCoords(axes, i, None)[p] == PointAt(axes, idxs[p])[i];
    }
  }

  /** With a transformer the tools assign column `i` of the transformed
      grid points, reshaped in Fortran order (which leaves the Fortran-ordered
      storage as it is); that is the coordinate array above too. */
  lemma ProjectedColumnIsAxisCoords(axes: seq<seq<real>>, i: nat, t: Option<Transformer>)
    requires i < |axes|
    ensures var pts := TransformPoints(t, GenPoints(axes));
      (forall k :: 0 <= k < |pts| ==> i < |pts[k]|) &&
      Column(pts, i) == AxisCoords(axes, i, t)
  {
  }

  /** The corner stagger location has one coordinate per grid point and the
      centre location one per cell, so the coordinate arrays have the shapes
      of `axes` and `cell_axes`. */
  lemma StaggerShapes(g: Grid, pLoc: StaggerLoc, cLoc: StaggerLoc)
    requires g.StructuredGrid? && WellFormed(g)
    requires IsCornerStagger(pLoc) && !IsCornerStagger(cLoc)
    ensures StaggerShape(pLoc, CellCounts(g.axes)) == Dims(g.axes)
    ensures StaggerShape(cLoc, CellCounts(g.axes)) == Dims(g.cellAxes)
  {
  }

  /** What `_to_esmf_grid` builds from `g`: a grid with one cell fewer per
      axis than `g` has coordinates, the point and cell stagger locations
      registered, the coordinate arrays of both filled from `axes` and
      `cell_axes`, and a field named after `g` at the location of its data. */
  ghost predicate GridBuilt(g: Grid, t: Option<Transformer>, eg: EsmfGrid, f: Field)
    requires g.StructuredGrid? && WellFormed(g)
    reads eg, f
  {
    && GridCoordsSet(g, t, eg)
    && var loc := StaggerLocFor(|g.axes|, g.dataLocation).value;
    && f.name == g.name
    && f.location == OnStagger(loc)
    && f.data.Length == Product(StaggerShape(loc, eg.maxIndex))
    && !f.destroyed
  }

  /** The grid part of `GridBuilt`. */
  ghost predicate GridCoordsSet(g: Grid, t: Option<Transformer>, eg: EsmfGrid)
    requires g.StructuredGrid? && WellFormed(g)
    reads eg
  {
    var d := |g.axes|;
    && StaggerLocFor(d, g.dataLocation).Ok?
    && var pLoc := StaggerLocFor(d, Points).value;
       var cLoc := StaggerLocFor(d, Cells).value;
    && eg.maxIndex == CellCounts(g.axes)
    && eg.staggerLocs == [pLoc, cLoc]
    && eg.coordSys == Cart
    && eg.Allocated()
    && !eg.destroyed
    && (forall i :: 0 <= i < d ==>
          && (pLoc, i) in eg.coords && eg.coords[(pLoc, i)] == AxisCoords(g.axes, i, t)
          && (cLoc, i) in eg.coords && eg.coords[(cLoc, i)] == AxisCoords(g.cellAxes, i, t))
  }

  /** One field value per grid point for point data and one per cell for
      cell data. */
  lemma StructuredFieldSize(g: Grid, t: Option<Transformer>, eg: EsmfGrid, f: Field)
    requires g.StructuredGrid? && WellFormed(g) && GridBuilt(g, t, eg, f)
    ensures f.data.Length == if g.dataLocation == Points then Product(Dims(g.axes)) else Product(Dims(g.cellAxes))
  {
    var d := |g.axes|;
    StaggerShapes(g, StaggerLocFor(d, Points).value, StaggerLocFor(d, Cells).value);
  }

  /** A structured grid has no cells exactly when one of its axes has a
      single coordinate. */
  lemma NoCells(g: Grid)
    requires g.StructuredGrid? && WellFormed(g)
    ensures Product(Dims(g.cellAxes)) == 0 <==> exists k :: 0 <= k < |g.axes| && |g.axes[k]| == 1
  {
    ProductZero(Dims(g.cellAxes));
  }

  /** The engine objects one conversion returns. */
  datatype Conversion = Conversion(geometry: Geometry, field: Field)

  /** The first branch of `_to_esmf_grid`'s coordinate loop: without a
      transformer, axis `i` of the point coordinates is `axes[i]` and axis
      `i` of the cell coordinates is `cellAxes[i]`, each reshaped with
      `_shp(i, dim)` and so broadcast along axis `i`. */
  method SetBroadcastCoords(eg: EsmfGrid, pLoc: StaggerLoc, cLoc: StaggerLoc, axes: seq<seq<real>>, cellAxes: seq<seq<real>>)
    requires pLoc != cLoc && eg.staggerLocs == [pLoc, cLoc]
    requires |axes| == |eg.maxIndex| && |cellAxes| == |eg.maxIndex|
    requires forall k :: 0 <= k < |axes| ==> |axes[k]| == StaggerShape(pLoc, eg.maxIndex)[k]
    requires forall k :: 0 <= k < |cellAxes| ==> |cellAxes[k]| == StaggerShape(cLoc, eg.maxIndex)[k]
    requires eg.Allocated() && !eg.destroyed
    modifies eg
    ensures eg.Allocated() && !eg.destroyed
    ensures forall k :: 0 <= k < |axes| ==>
      eg.coords[(pLoc, k)] == AlongAxis(StaggerShape(pLoc, eg.maxIndex), axes[k], k) &&
      eg.coords[(cLoc, k)] == AlongAxis(StaggerShape(cLoc, eg.maxIndex), cellAxes[k], k)
  {
    var gridDim := |axes|;
    var cornerShape, centerShape := StaggerShape(pLoc, eg.maxIndex), StaggerShape(cLoc, eg.maxIndex);
    ghost var corners := seq(gridDim, k requires 0 <= k < gridDim => AlongAxis(cornerShape, axes[k], k));
    ghost var centers := seq(gridDim, k requires 0 <= k < gridDim => AlongAxis(centerShape, cellAxes[k], k));
    for i := 0 to gridDim
      invariant eg.Allocated() && !eg.destroyed
      invariant forall k :: 0 <= k < i ==> eg.coords[(pLoc, k)] == corners[k] && eg.coords[(cLoc, k)] == centers[k]
    {
      var corner := BroadcastAxis(cornerShape, axes[i], i);
      var center := BroadcastAxis(centerShape, cellAxes[i], i);
      assert corner == corners[i] && center == centers[i];
      SetAxisPair(eg, pLoc, cLoc, i, corner, center);
    }
  }

  /** The two coordinate assignments of one axis `i`: the arrays of axis
      `i` at `pLoc` and `cLoc` become `corner` and `center`, and every other
      array stays as it was. */
  method SetAxisPair(eg: EsmfGrid, pLoc: StaggerLoc, cLoc: StaggerLoc, i: nat, corner: seq<real>, center: seq<real>)
    requires pLoc != cLoc && eg.staggerLocs == [pLoc, cLoc] && i < |eg.maxIndex|
    requires |corner| == eg.CoordSize(pLoc) && |center| == eg.CoordSize(cLoc)
    requires eg.Allocated() && !eg.destroyed
    modifies eg
    ensures eg.Allocated() && !eg.destroyed
    ensures eg.coords[(pLoc, i)] == corner && eg.coords[(cLoc, i)] == center
    ensures forall k :: 0 <= k < |eg.maxIndex| && k != i ==>
      eg.coords[(pLoc, k)] == old(eg.coords[(pLoc, k)]) && eg.coords[(cLoc, k)] == old(eg.coords[(cLoc, k)])
  {
    eg.SetCoords(pLoc, i, corner);
    eg.SetCoords(cLoc, i, center);
  }

  /** `coords[...] = v.reshape(_shp(i, dim))` for a coordinate array of
      shape `shape`: the assignment broadcasts `v` along axis `i`. */
  method BroadcastAxis(shape: seq<nat>, v: seq<real>, i: nat) returns (r: seq<real>)
    requires i < |shape| && |v| == shape[i]
    ensures r == AlongAxis(shape, v, i)
  {
    var shp := Shp(i, |shape|);
    AssignAlongAxis(shape, v, shp, i);
    var reshaped := AssignReshaped(shape, v, shp);
    r := reshaped.value;
  }

  /** The second branch of `_to_esmf_grid`'s coordinate loop: with a
      transformer, axis `i` of the point and cell coordinates is column `i`
      of the transformed grid points and cell centres. */
  method SetProjectedCoords(eg: EsmfGrid, pLoc: StaggerLoc, cLoc: StaggerLoc, points: seq<Point>, cellCenters: seq<Point>)
    requires pLoc != cLoc && eg.staggerLocs == [pLoc, cLoc]
    requires |points| == Product(StaggerShape(pLoc, eg.maxIndex))
    requires |cellCenters| == Product(StaggerShape(cLoc, eg.maxIndex))
    requires forall k :: 0 <= k < |points| ==> |points[k]| == |eg.maxIndex|
    requires forall k :: 0 <= k < |cellCenters| ==> |cellCenters[k]| == |eg.maxIndex|
    requires eg.Allocated() && !eg.destroyed
    modifies eg
    ensures eg.Allocated() && !eg.destroyed
    ensures forall k :: 0 <= k < |eg.maxIndex| ==>
      eg.coords[(pLoc, k)] == Column(points, k) && eg.coords[(cLoc, k)] == Column(cellCenters, k)
  {
    for i := 0 to |eg.maxIndex|
      invariant eg.Allocated() && !eg.destroyed
      invariant forall k :: 0 <= k < i ==>
        eg.coords[(pLoc, k)] == Column(points, k) && eg.coords[(cLoc, k)] == Column(cellCenters, k)
    {
      eg.SetCoords(pLoc, i, Column(points, i));
      eg.SetCoords(cLoc, i, Column(cellCenters, i));
    }
  }

  /** `_to_esmf_grid`. With a transformer and an axis of a single
      coordinate there are no cells, the transformed cell centres form a
      one-dimensional empty array, and taking its column raises. */
  method ToEsmfGrid(g: Grid, t: Option<Transformer>) returns (r: Result<Conversion>)
    requires g.StructuredGrid? && WellFormed(g)
    ensures r.Ok? <==> (|g.axes| == 2 || |g.axes| == 3) && (t.None? || Product(Dims(g.cellAxes)) > 0)
    ensures r.Err? ==> r.error == if |g.axes| == 2 || |g.axes| == 3 then IndexError(TooManyIndicesMessage) else KeyError(|g.axes|)
    ensures r.Ok? ==> r.value.geometry.GridGeometry? && fresh(r.value.geometry.grid)
    ensures r.Ok? ==> fresh(r.value.field) && fresh(r.value.field.data)
    ensures r.Ok? ==> GridBuilt(g, t, r.value.geometry.grid, r.value.field) && r.value.field.Unset()
  {
    var dims := CellCounts(g.axes);
    var gridDim := |g.axes|;
    var loc :- StaggerLocFor(gridDim, g.dataLocation);
    var pLoc := StaggerLocFor(gridDim, Points).value;
    var cLoc := StaggerLocFor(gridDim, Cells).value;
    var eg := new EsmfGrid(dims, [pLoc, cLoc], Cart);
    var filled := SetGridCoords(g, t, eg);
    if filled.Err? {
      r := Err(filled.error);
      return;
    }
    var field := new Field(g.name, OnStagger(loc), Product(StaggerShape(loc, dims)));
    field.Fill(None);
    r := Ok(Conversion(GridGeometry(eg), field));
  }

  /** The coordinate loop of `_to_esmf_grid` on the new grid `eg`, in
      either branch. */
  /** Broadcast axis arrays are the grid's coordinates without a transformer. */
  lemma BroadcastCoordsSet(g: Grid, eg: EsmfGrid, pLoc: StaggerLoc, cLoc: StaggerLoc)
    requires g.StructuredGrid? && WellFormed(g) && (|g.axes| == 2 || |g.axes| == 3)
    requires pLoc == StaggerLocFor(|g.axes|, Points).value && cLoc == StaggerLocFor(|g.axes|, Cells).value
    requires eg.maxIndex == CellCounts(g.axes) && eg.coordSys == Cart && eg.staggerLocs == [pLoc, cLoc]
    requires eg.Allocated() && !eg.destroyed
    requires StaggerShape(pLoc, eg.maxIndex) == Dims(g.axes) && StaggerShape(cLoc, eg.maxIndex) == Dims(g.cellAxes)
    requires forall k :: 0 <= k < |g.axes| ==>
      eg.coords[(pLoc, k)] == AlongAxis(StaggerShape(pLoc, eg.maxIndex), g.axes[k], k) &&
      eg.coords[(cLoc, k)] == AlongAxis(StaggerShape(cLoc, eg.maxIndex), g.cellAxes[k], k)
    ensures GridCoordsSet(g, None, eg)
  {
    forall k | 0 <= k < |g.axes|
      ensures eg.coords[(pLoc, k)] == AxisCoords(g.axes, k, None) && eg.coords[(cLoc, k)] == AxisCoords(g.cellAxes, k, None)
    {
      BroadcastIsAxisCoords(g.axes, k);
      BroadcastIsAxisCoords(g.cellAxes, k);
    }
  }

  /** Columns of the transformed points are the grid's coordinates with a
      transformer. */
  lemma ProjectedCoordsSet(g: Grid, t: Option<Transformer>, eg: EsmfGrid, pLoc: StaggerLoc, cLoc: StaggerLoc,
                           points: seq<Point>, cellCenters: seq<Point>)
    requires g.StructuredGrid? && WellFormed(g) && (|g.axes| == 2 || |g.axes| == 3)
    requires pLoc == StaggerLocFor(|g.axes|, Points).value && cLoc == StaggerLocFor(|g.axes|, Cells).value
    requires eg.maxIndex == CellCounts(g.axes) && eg.coordSys == Cart && eg.staggerLocs == [pLoc, cLoc]
    requires eg.Allocated() && !eg.destroyed
    requires points == TransformPoints(t, GenPoints(g.axes)) && cellCenters == TransformPoints(t, GenPoints(g.cellAxes))
    requires forall q :: 0 <= q < |points| ==> |points[q]| == |eg.maxIndex|
    requires forall q :: 0 <= q < |cellCenters| ==> |cellCenters[q]| == |eg.maxIndex|
    requires forall k :: 0 <= k < |eg.maxIndex| ==>
      eg.coords[(pLoc, k)] == Column(points, k) && eg.coords[(cLoc, k)] == Column(cellCenters, k)
    ensures GridCoordsSet(g, t, eg)
  {
    forall k | 0 <= k < |g.axes|
      ensures eg.coords[(pLoc, k)] == AxisCoords(g.axes, k, t) && eg.coords[(cLoc, k)] == AxisCoords(g.cellAxes, k, t)
    {
      ProjectedColumnIsAxisCoords(g.axes, k, t);
      ProjectedColumnIsAxisCoords(g.cellAxes, k, t);
    }
  }

  method SetGridCoords(g: Grid, t: Option<Transformer>, eg: EsmfGrid) returns (r: Result<()>)
    requires g.StructuredGrid? && WellFormed(g) && (|g.axes| == 2 || |g.axes| == 3)
    requires eg.maxIndex == CellCounts(g.axes) && eg.coordSys == Cart
    requires eg.staggerLocs == [StaggerLocFor(|g.axes|, Points).value, StaggerLocFor(|g.axes|, Cells).value]
    requires eg.Allocated() && !eg.destroyed
    modifies eg
    ensures r.Ok? <==> t.None? || Product(Dims(g.cellAxes)) > 0
    ensures r.Err? ==> r.error == IndexError(TooManyIndicesMessage)
    ensures r.Ok? ==> GridCoordsSet(g, t, eg)
  {
    var gridDim := |g.axes|;
    var pLoc := StaggerLocFor(gridDim, Points).value;
    var cLoc := StaggerLocFor(gridDim, Cells).value;
    StaggerShapes(g, pLoc, cLoc);
    if t.None? {
      SetBroadcastCoords(eg, pLoc, cLoc, g.axes, g.cellAxes);
      BroadcastCoordsSet(g, eg, pLoc, cLoc);
    } else {
      var points := TransformPoints(t, GenPoints(g.axes));
      var cellCenters := TransformPoints(t, GenPoints(g.cellAxes));
      if |cellCenters| == 0 {
        r := Err(IndexError(TooManyIndicesMessage));
        return;
      }
      SetProjectedCoords(eg, pLoc, cLoc, points, cellCenters);
      ProjectedCoordsSet(g, t, eg, pLoc, cLoc, points, cellCenters);
    }
    r := Ok(());
  }

  // ---- unstructured grids (tools.py:109-142) ----

  const OneDimensionalMessage := "ESMF can't be used to regrid 1D data."

  /** `np.arange(n) + 1`: the engine's identifiers 1..n. */
  function IdRange(n: nat): (r: seq<int>)
    ensures |r| == n && forall k :: 0 <= k < n ==> r[k] == k + 1
  {
    seq(n, k requires 0 <= k < n => k + 1)
  }

  /** `ESMF_TYPE_MAP[grid.cell_types]`, with FINAM's type map as `typeMap`. */
  function ElementTypes(typeMap: int -> int, cellTypes: seq<int>): (r: seq<int>)
    ensures |r| == |cellTypes| && forall k :: 0 <= k < |r| ==> r[k] == typeMap(cellTypes[k])
  {
    seq(|cellTypes|, k requires 0 <= k < |cellTypes| => typeMap(cellTypes[k]))
  }

  /** The nodes `_to_esmf_mesh` adds: one per grid point, numbered from 1,
      all owned by process 0, with the (transformed) point coordinates. */
  ghost predicate NodesAdded(g: Grid, t: Option<Transformer>, m: EsmfMesh)
    requires g.UnstructuredGrid?
    reads m
  {
    && m.nodeCount == |g.points|
    && m.nodeIds == IdRange(|g.points|)
    && m.nodeOwners == seq(|g.points|, _ => 0)
    && m.nodeCoords == Ravel(TransformPoints(t, g.points))
  }

  /** What `_to_esmf_mesh` builds from `g`: the nodes above, one element per
      cell numbered from 1 with the engine's element type, the flattened
      connectivity, the cell centres as given, and a field named after `g`
      on the nodes or elements as its data location says. */
  ghost predicate MeshBuilt(g: Grid, t: Option<Transformer>, typeMap: int -> int, m: EsmfMesh, f: Field)
    requires g.UnstructuredGrid?
    reads m, f
  {
    && m.parametricDim == g.meshDim && m.spatialDim == g.dim && m.coordSys == Cart
    && !m.destroyed
    && NodesAdded(g, t, m)
    && m.elementCount == |g.cells|
    && m.elementIds == IdRange(|g.cells|)
    && m.elementTypes == ElementTypes(typeMap, g.cellTypes)
    && m.elementConn == Ravel(g.cells)
    && m.elementCoords == Ravel(g.cellCenters)
    && f.name == g.name
    && f.location == OnMesh(MeshLocFor(g.dataLocation))
    && f.data.Length == (if g.dataLocation == Points then |g.points| else |g.cells|)
    && !f.destroyed
  }

  /** In the node coordinates, coordinate `j` of point `q` sits at
      `q * dim + j` and is that coordinate of the transformed point. */
  lemma NodeCoordinate(g: Grid, t: Option<Transformer>, m: EsmfMesh, q: nat, j: nat)
    requires g.UnstructuredGrid? && WellFormed(g) && NodesAdded(g, t, m)
    requires q < |g.points| && j < g.dim
    ensures q * g.dim + j < |m.nodeCoords|
    ensures t.None? ==> m.nodeCoords[q * g.dim + j] == g.points[q][j]
    ensures t.Some? ==> |t.value.project(g.points[q])| == g.dim
    ensures t.Some? ==> m.nodeCoords[q * g.dim + j] == t.value.project(g.points[q])[j]
  {
    RavelAt(TransformPoints(t, g.points), g.dim, q, j);
  }

  /** `_to_esmf_mesh`. When a cell type has no engine equivalent the nodes
      have been added but no element has. */
  method ToEsmfMesh(g: Grid, t: Option<Transformer>, typeMap: int -> int) returns (r: Result<Conversion>, ghost mesh: EsmfMesh)
    requires g.UnstructuredGrid? && WellFormed(g)
    ensures fresh(mesh) && NodesAdded(g, t, mesh)
    ensures mesh.parametricDim == g.meshDim && mesh.spatialDim == g.dim
    ensures r.Ok? <==> -1 !in ElementTypes(typeMap, g.cellTypes)
    ensures r.Err? ==> r.error == ValueError(OneDimensionalMessage) && mesh.NoElements()
    ensures r.Ok? ==> r.value.geometry == MeshGeometry(mesh)
    ensures r.Ok? ==> fresh(r.value.field) && fresh(r.value.field.data)
    ensures r.Ok? ==> MeshBuilt(g, t, typeMap, mesh, r.value.field) && r.value.field.Unset()
  {
    var loc := MeshLocFor(g.dataLocation);
    var m := new EsmfMesh(g.meshDim, g.dim, Cart);
    mesh := m;
    var numNode := |g.points|;
    var points := TransformPoints(t, g.points);
    m.AddNodes(numNode, IdRange(numNode), Ravel(points), seq(numNode, _ => 0));
    var elemTypes := ElementTypes(typeMap, g.cellTypes);
    if -1 in elemTypes {
      r := Err(ValueError(OneDimensionalMessage));
      return;
    }
    var numElem := |g.cells|;
    m.AddElements(numElem, IdRange(numElem), elemTypes, Ravel(g.cells), Ravel(g.cellCenters));
    var field := new Field(g.name, OnMesh(loc), if loc == Node then m.nodeCount else m.elementCount);
    field.Fill(None);
    r := Ok(Conversion(MeshGeometry(m), field));
  }

  // ---- point clouds (tools.py:145-156) ----

  /** What `_to_esmf_points` builds from `g`: a location stream with one
      location per point and one column per coordinate, named ESMF:X, ESMF:Y,
      ESMF:Z, holding that coordinate of the (transformed) points, and a
      field named after `g` with one value per point. */
  ghost predicate StreamBuilt(g: Grid, t: Option<Transformer>, s: LocStream, f: Field)
    requires g.UnstructuredPoints? && WellFormed(g) && g.dim <= |EsmfDimNames|
    reads s, f
  {
    var pts := TransformPoints(t, g.points);
    && s.locationCount == |g.points| && s.coordSys == Cart && !s.destroyed
    && (forall key :: key in s.columns ==> key in EsmfDimNames[..g.dim])
    && (forall k :: 0 <= k < g.dim ==>
          EsmfDimNames[k] in s.columns && s.columns[EsmfDimNames[k]] == Column(pts, k))
    && f.name == g.name && f.location == OnLocations
    && f.data.Length == |g.points| && !f.destroyed
  }

  /** `_to_esmf_points`; an IndexError for more coordinates than there are
      column names, and one for the first column of zero transformed points. */
  method ToEsmfPoints(g: Grid, t: Option<Transformer>) returns (r: Result<Conversion>)
    requires g.UnstructuredPoints? && WellFormed(g)
    ensures r.Ok? <==> g.dim <= |EsmfDimNames| && (t.None? || |g.points| > 0 || g.dim == 0)
    ensures r.Err? ==> r.error == IndexError(if t.Some? && |g.points| == 0 then TooManyIndicesMessage else ListIndexMessage)
    ensures r.Ok? ==> r.value.geometry.StreamGeometry? && fresh(r.value.geometry.stream)
    ensures r.Ok? ==> fresh(r.value.field) && fresh(r.value.field.data)
    ensures r.Ok? ==> StreamBuilt(g, t, r.value.geometry.stream, r.value.field) && r.value.field.Unset()
  {
    var ls := new LocStream(|g.points|, Cart);
    var points := TransformPoints(t, g.points);
    var columnsSet :- SetColumns(ls, points, g.dim, t.Some? && |points| == 0);
    var field := new Field(g.name, OnLocations, ls.locationCount);
    field.Fill(None);
    r := Ok(Conversion(StreamGeometry(ls), field));
  }

  /** The column loop of `_to_esmf_points`: column `i` of `points` under
      the name `ESMF_DIM_NAMES[i]`. `flat` says the points form a
      one-dimensional array, as zero transformed points do; its first column
      raises before any name is looked up. */
  method SetColumns(ls: LocStream, points: seq<Point>, dim: nat, flat: bool) returns (r: Result<()>)
    requires forall k :: 0 <= k < |points| ==> |points[k]| == dim
    requires ls.columns == map[] && !ls.destroyed
    modifies ls
    ensures !ls.destroyed
    ensures r.Ok? <==> dim <= |EsmfDimNames| && (!flat || dim == 0)
    ensures r.Err? ==> r.error == IndexError(if flat then TooManyIndicesMessage else ListIndexMessage)
    ensures r.Ok? ==> forall key :: key in ls.columns ==> key in EsmfDimNames[..dim]
    ensures r.Ok? ==> forall k :: 0 <= k < dim ==> EsmfDimNames[k] in ls.columns && ls.columns[EsmfDimNames[k]] == Column(points, k)
  {
    for i := 0 to dim
      invariant i <= |EsmfDimNames| && !ls.destroyed
      invariant i > 0 ==> !flat
      invariant forall key :: key in ls.columns ==> key in EsmfDimNames[..i]
      invariant forall k :: 0 <= k < i ==> EsmfDimNames[k] in ls.columns && ls.columns[EsmfDimNames[k]] == Column(points, k)
    {
      if flat {
        r := Err(IndexError(TooManyIndicesMessage));
        return;
      }
      if i >= |EsmfDimNames| {
        r := Err(IndexError(ListIndexMessage));
        return;
      }
      ls.SetColumn(EsmfDimNames[i], Column(points, i));
    }
    r := Ok(());
  }

  // ---- to_esmf (tools.py:64-73) ----

  /** The grids `to_esmf` converts with `t` without raising: structured
      grids of two or three dimensions that, with a transformer, have at
      least one cell; meshes whose cell types all have an engine equivalent;
      and point clouds of at most three coordinates that, with a transformer
      and any coordinate at all, have at least one point. */
  predicate Convertible(g: Grid, t: Option<Transformer>, typeMap: int -> int)
  {
    match g
    case StructuredGrid(_, axes, cellAxes, _, _) =>
      (|axes| == 2 || |axes| == 3) && (t.None? || Product(Dims(cellAxes)) > 0)
    case UnstructuredGrid(_, _, _, cellTypes, _, _, _, _, _) => -1 !in ElementTypes(typeMap, cellTypes)
    case UnstructuredPoints(_, points, dim, _) => dim <= |EsmfDimNames| && (t.None? || |points| > 0 || dim == 0)
    case OtherGrid(_, _) => false
  }

  /** The exception `to_esmf` raises for a grid it cannot convert with `t`:
      the stagger-table KeyError, the IndexError of an empty transformed
      point array, the mesh's 1D ValueError, the IndexError of a fourth
      column name, or the dispatch ValueError. */
  function ConversionError(g: Grid, t: Option<Transformer>, typeMap: int -> int): Error
    requires !Convertible(g, t, typeMap)
  {
    match g
    case StructuredGrid(_, axes, _, _, _) =>
      if |axes| == 2 || |axes| == 3 then IndexError(TooManyIndicesMessage) else KeyError(|axes|)
    case UnstructuredGrid(_, _, _, _, _, _, _, _, _) => ValueError(OneDimensionalMessage)
    case UnstructuredPoints(_, points, _, _) =>
      IndexError(if t.Some? && |points| == 0 then TooManyIndicesMessage else ListIndexMessage)
    case OtherGrid(_, _) => SelectBuilder(g).error
  }

  /** `c` is what the builder for `g`'s kind makes from `g` with `t`. */
  ghost predicate Converted(g: Grid, t: Option<Transformer>, typeMap: int -> int, c: Conversion)
    requires WellFormed(g) && Convertible(g, t, typeMap)
    reads Handle(c.geometry), c.field
  {
    match g
    case StructuredGrid(_, _, _, _, _) => c.geometry.GridGeometry? && GridBuilt(g, t, c.geometry.grid, c.field)
    case UnstructuredGrid(_, _, _, _, _, _, _, _, _) =>
      c.geometry.MeshGeometry? && MeshBuilt(g, t, typeMap, c.geometry.mesh, c.field)
    case UnstructuredPoints(_, _, _, _) => c.geometry.StreamGeometry? && StreamBuilt(g, t, c.geometry.stream, c.field)
  }

  /** `to_esmf`: the conversion `SelectBuilder` picks; every field it returns
      starts out unset. */
  method ToEsmf(g: Grid, t: Option<Transformer>, typeMap: int -> int) returns (r: Result<Conversion>)
    requires WellFormed(g)
    ensures r.Ok? <==> Convertible(g, t, typeMap)
    ensures r.Err? ==> r.error == ConversionError(g, t, typeMap)
    ensures g.OtherGrid? ==> r == Err(SelectBuilder(g).error)
    ensures r.Ok? ==> fresh(Handle(r.value.geometry)) && fresh(r.value.field) && fresh(r.value.field.data)
    ensures r.Ok? ==> Converted(g, t, typeMap, r.value) && r.value.field.Unset()
  {
    var b :- SelectBuilder(g);
    match b
    case GridBuilder =>
      r := ToEsmfGrid(g, t);
    case PointsBuilder =>
      r := ToEsmfPoints(g, t);
    case MeshBuilder =>
      ghost var m;
      r, m := ToEsmfMesh(g, t, typeMap);
  }
}
