/** The parts of the ESMPy interpolation engine that the grid tools and the
    adapter drive: its constants, the grid, mesh and location-stream objects
    with the coordinate storage the tools fill in, the field whose buffer
    holds the data, and the regrid operator.

    Only what the tools write and read is kept. The weight computation and
    its application are not modelled: `RegridOperator.Apply` is known only to
    write the destination buffer. NaN, the engine's "unset" value, is `None`
    in a field buffer. */
module Engine {
  import opened Common
  import opened Shapes

  /** `esmpy.StaggerLoc`: where on a structured grid values and coordinates sit. */
  datatype StaggerLoc = Center | Corner | CenterVCenter | CornerVFace

  /** `esmpy.MeshLoc`: nodes or elements of a mesh. */
  datatype MeshLoc = Node | Element

  /** `esmpy.CoordSys`. */
  datatype CoordSys = Cart | Sph

  /** `esmpy.Region`: the part of a destination field that is zeroed first. */
  datatype Region = Total | Select | Empty

  /** `esmpy.RegridMethod`. */
  datatype RegridMethod = Bilinear | Patch | NearestStod | NearestDtos | Conserve | Conserve2nd

  /** `esmpy.ExtrapMethod`. */
  datatype ExtrapMethod = NoExtrapolation | NearestStodExtrapolation | NearestIdavg | Creep | CreepNearestD

  /** `esmpy.UnmappedAction`. */
  datatype UnmappedAction = Raise | Ignore

  /** A keyword argument passed on to `esmpy.Regrid`. */
  datatype ArgValue =
    | MethodArg(regridMethod: RegridMethod)
    | ExtrapArg(extrapMethod: ExtrapMethod)
    | UnmappedArg(action: UnmappedAction)
    | OtherArg(text: string)

  /** Where a field lives: a stagger location of a grid, a location of a
      mesh, or the points of a location stream. */
  datatype FieldLocation = OnStagger(stagger: StaggerLoc) | OnMesh(meshLoc: MeshLoc) | OnLocations

  /** Corner stagger locations carry one coordinate more per axis than the
      grid has cells. */
  predicate IsCornerStagger(s: StaggerLoc)
  {
    s == Corner || s == CornerVFace
  }

  /** The stagger locations of three-dimensional grids. */
  predicate IsVerticalStagger(s: StaggerLoc)
  {
    s == CenterVCenter || s == CornerVFace
  }

  /** The array shape of a grid with `maxIndex` cells per axis at stagger `s`. */
  function StaggerShape(s: StaggerLoc, maxIndex: seq<nat>): (r: seq<nat>)
    ensures |r| == |maxIndex|
    ensures forall k :: 0 <= k < |r| ==> r[k] == if IsCornerStagger(s) then maxIndex[k] + 1 else maxIndex[k]
  {
    seq(|maxIndex|, k requires 0 <= k < |maxIndex| => if IsCornerStagger(s) then maxIndex[k] + 1 else maxIndex[k])
  }

  /** The buffer contents after writing `values` into it. */
  function Defined(values: seq<real>): (r: seq<Option<real>>)
    ensures |r| == |values|
    ensures forall k :: 0 <= k < |r| ==> r[k] == Some(values[k])
  {
    if values == [] then [] else [Some(values[0])] + Defined(values[1..])
  }

  /** `esmpy.Field`: a named data buffer attached to a location of a geometry. */
  class Field {
    const name: string
    const location: FieldLocation
    const data: array<Option<real>>
    var destroyed: bool

    constructor (name: string, location: FieldLocation, size: nat)
      ensures this.name == name && this.location == location
      ensures data.Length == size && fresh(data) && !destroyed
    {
      this.name := name;
      this.location := location;
      data := new Option<real>[size](_ => Some(0.0));
      destroyed := false;
    }

    /** Every entry holds the unset value. */
    ghost predicate Unset()
      reads data
    {
      forall k :: 0 <= k < data.Length ==> data[k].None?
    }

    /** `field.data[...] = v` for a single value `v` (`None` for NaN). */
    method Fill(v: Option<real>)
      modifies data
      ensures forall k :: 0 <= k < data.Length ==> data[k] == v
    {
      forall k | 0 <= k < data.Length {
        data[k] := v;
      }
    }

    /** `field.data[...] = values`: numpy raises a ValueError unless the
        array has as many elements as the buffer. */
    method Write(values: seq<real>) returns (r: Result<()>)
      modifies data
      ensures r.Ok? <==> |values| == data.Length
      ensures r.Ok? ==> data[..] == Defined(values)
      ensures r.Err? ==> r.error.ValueError? && unchanged(data)
    {
      if |values| != data.Length {
        return Err(ValueError("could not broadcast input array"));
      }
      forall k | 0 <= k < data.Length {
        data[k] := Some(values[k]);
      }
      r := Ok(());
    }

    /** `field.destroy()`: releases the native buffer. */
    method Destroy()
      modifies this
      ensures destroyed
    {
      destroyed := true;
    }
  }

  /** `esmpy.Grid`: a structured grid with `maxIndex` cells per axis and one
      coordinate array per registered stagger location and axis, each kept
      flat in Fortran order. */
  class EsmfGrid {
    const maxIndex: seq<nat>
    const staggerLocs: seq<StaggerLoc>
    const coordSys: CoordSys
    var coords: map<(StaggerLoc, nat), seq<real>>
    var destroyed: bool

    /** The number of coordinates along one axis at stagger location `s`:
        one per point of the grid at that location. */
    function CoordSize(s: StaggerLoc): nat
    {
      Product(StaggerShape(s, maxIndex))
    }

    /** A coordinate array exists for every registered stagger location and
        axis, and for nothing else. */
    ghost predicate Allocated()
      reads this
    {
      forall s: StaggerLoc, i: nat {:trigger (s, i) in coords} :: (s, i) in coords <==> s in staggerLocs && i < |maxIndex|
    }

    constructor (maxIndex: seq<nat>, staggerLocs: seq<StaggerLoc>, coordSys: CoordSys)
      ensures this.maxIndex == maxIndex && this.staggerLocs == staggerLocs && this.coordSys == coordSys
      ensures Allocated() && !destroyed
    {
      this.maxIndex := maxIndex;
      this.staggerLocs := staggerLocs;
      this.coordSys := coordSys;
      var m := map s: StaggerLoc, i: nat | s in staggerLocs && i < |maxIndex| :: (s, i) := seq(Product(StaggerShape(s, maxIndex)), _ => 0.0);
      forall s: StaggerLoc, i: nat | (s, i) in m ensures s in staggerLocs && i < |maxIndex| {
        var s', i' :| s' in staggerLocs && i' < |maxIndex| && (s, i) == (s', i');
      }
      forall s: StaggerLoc, i: nat | s in staggerLocs && i < |maxIndex| ensures (s, i) in m {
      }
      coords := m;
      destroyed := false;
    }

    /** `grid.get_coords(i, staggerloc=s)[...] = values`. */
    method SetCoords(s: StaggerLoc, i: nat, values: seq<real>)
      requires (s, i) in coords && |values| == CoordSize(s)
      modifies this
      ensures coords == old(coords)[(s, i) := values]
      ensures destroyed == old(destroyed)
      ensures old(Allocated()) ==> Allocated()
    {
      coords := coords[(s, i) := values];
    }

    /** `grid.destroy()`: the coordinates stay as they were. */
    method Destroy()
      modifies this`destroyed
      ensures destroyed && coords == old(coords)
    {
      destroyed := true;
    }
  }

  /** `esmpy.Mesh`: nodes and elements added in two steps. */
  class EsmfMesh {
    const parametricDim: nat
    const spatialDim: nat
    const coordSys: CoordSys
    var nodeCount: nat
    var nodeIds: seq<int>
    var nodeCoords: seq<real>
    var nodeOwners: seq<int>
    var elementCount: nat
    var elementIds: seq<int>
    var elementTypes: seq<int>
    var elementConn: seq<nat>
    var elementCoords: seq<real>
    var destroyed: bool

    /** Nothing has been added to the mesh. */
    ghost predicate Empty()
      reads this
    {
      nodeCount == 0 && nodeIds == [] && nodeCoords == [] && nodeOwners == [] && NoElements()
    }

    /** No elements have been added to the mesh. */
    ghost predicate NoElements()
      reads this
    {
      elementCount == 0 && elementIds == [] && elementTypes == [] && elementConn == [] && elementCoords == []
    }

    constructor (parametricDim: nat, spatialDim: nat, coordSys: CoordSys)
      ensures this.parametricDim == parametricDim && this.spatialDim == spatialDim && this.coordSys == coordSys
      ensures Empty() && !destroyed
    {
      this.parametricDim := parametricDim;
      this.spatialDim := spatialDim;
      this.coordSys := coordSys;
      nodeCount, nodeIds, nodeCoords, nodeOwners := 0, [], [], [];
      elementCount, elementIds, elementTypes, elementConn, elementCoords := 0, [], [], [], [];
      destroyed := false;
    }

    /** `mesh.add_nodes(...)`. */
    method AddNodes(count: nat, ids: seq<int>, coords: seq<real>, owners: seq<int>)
      modifies this
      ensures nodeCount == count && nodeIds == ids && nodeCoords == coords && nodeOwners == owners
      ensures elementCount == old(elementCount) && elementIds == old(elementIds) && elementTypes == old(elementTypes)
      ensures elementConn == old(elementConn) && elementCoords == old(elementCoords)
      ensures destroyed == old(destroyed)
    {
      nodeCount, nodeIds, nodeCoords, nodeOwners := count, ids, coords, owners;
    }

    /** `mesh.add_elements(...)`. */
    method AddElements(count: nat, ids: seq<int>, types: seq<int>, conn: seq<nat>, coords: seq<real>)
      modifies this
      ensures elementCount == count && elementIds == ids && elementTypes == types
      ensures elementConn == conn && elementCoords == coords
      ensures nodeCount == old(nodeCount) && nodeIds == old(nodeIds) && nodeCoords == old(nodeCoords)
      ensures nodeOwners == old(nodeOwners) && destroyed == old(destroyed)
    {
      elementCount, elementIds, elementTypes, elementConn, elementCoords := count, ids, types, conn, coords;
    }

    /** `mesh.destroy()`: the node and element tables stay as they were. */
    method Destroy()
      modifies this`destroyed
      ensures destroyed
    {
      destroyed := true;
    }
  }

  /** `esmpy.LocStream`: `locationCount` points with one column per coordinate. */
  class LocStream {
    const locationCount: nat
    const coordSys: CoordSys
    var columns: map<string, seq<real>>
    var destroyed: bool

    constructor (locationCount: nat, coordSys: CoordSys)
      ensures this.locationCount == locationCount && this.coordSys == coordSys
      ensures columns == map[] && !destroyed
    {
      this.locationCount := locationCount;
      this.coordSys := coordSys;
      columns := map[];
      destroyed := false;
    }

    /** `locstream[key] = values`. */
    method SetColumn(key: string, values: seq<real>)
      modifies this
      ensures columns == old(columns)[key := values]
      ensures destroyed == old(destroyed)
    {
      columns := columns[key := values];
    }

    /** `locstream.destroy()`: the columns stay as they were. */
    method Destroy()
      modifies this`destroyed
      ensures destroyed
    {
      destroyed := true;
    }
  }

  /** One of the three engine geometries, as `to_esmf` returns it. */
  datatype Geometry = GridGeometry(grid: EsmfGrid) | MeshGeometry(mesh: EsmfMesh) | StreamGeometry(stream: LocStream)

  /** The engine object behind a geometry. */
  function Handle(g: Geometry): object
  {
    match g
    case GridGeometry(x) => x
    case MeshGeometry(x) => x
    case StreamGeometry(x) => x
  }

  /** The geometry's native resources have been released. */
  ghost predicate Destroyed(g: Geometry)
    reads Handle(g)
  {
    match g
    case GridGeometry(x) => x.destroyed
    case MeshGeometry(x) => x.destroyed
    case StreamGeometry(x) => x.destroyed
  }

  /** `geometry.destroy()` on whichever kind of geometry it is; only its
      `destroyed` flag changes. */
  method DestroyGeometry(g: Geometry)
    modifies Handle(g)
    ensures Destroyed(g)
    ensures g.GridGeometry? ==> g.grid.coords == old(g.grid.coords)
    ensures g.MeshGeometry? ==> var m := g.mesh;
      m.nodeCount == old(m.nodeCount) && m.nodeIds == old(m.nodeIds) &&
      m.nodeCoords == old(m.nodeCoords) && m.nodeOwners == old(m.nodeOwners) &&
      m.elementCount == old(m.elementCount) && m.elementIds == old(m.elementIds) &&
      m.elementTypes == old(m.elementTypes) && m.elementConn == old(m.elementConn) &&
      m.elementCoords == old(m.elementCoords)
    ensures g.StreamGeometry? ==> g.stream.columns == old(g.stream.columns)
  {
    match g
    case GridGeometry(x) => x.Destroy();
    case MeshGeometry(x) => x.Destroy();
    case StreamGeometry(x) => x.Destroy();
  }

  /** `esmpy.Regrid`: the interpolation operator between two fields, built
      with the keyword arguments `args`. */
  class RegridOperator {
    const srcField: Field
    const dstField: Field
    const args: map<string, ArgValue>
    var destroyed: bool

    constructor (srcField: Field, dstField: Field, args: map<string, ArgValue>)
      ensures this.srcField == srcField && this.dstField == dstField && this.args == args
      ensures !destroyed
    {
      this.srcField := srcField;
      this.dstField := dstField;
      this.args := args;
      destroyed := false;
    }

    /** `regrid(src, dst, zero_region=...)`: applies the weights. The engine
        is outside the model; all that is known is that it may change the
        destination buffer and nothing else. */
    method Apply(src: Field, dst: Field, zeroRegion: Option<Region>)
      modifies dst.data
    {
    }

    /** `regrid.destroy()`. */
    method Destroy()
      modifies this
      ensures destroyed
    {
      destroyed := true;
    }
  }
}
