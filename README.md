# finam-regrid in Dafny

finam-regrid is a FINAM adapter that interpolates data between two grids
with the ESMPy engine. This project models its two core files:

- `src/finam_regrid/tools.py` converts a FINAM grid specification into an
  engine geometry with a field attached. That geometry is a structured
  `esmpy.Grid`, an unstructured `esmpy.Mesh` or a point cloud
  `esmpy.LocStream`. The file also decides whether coordinates must first
  be projected from the input CRS to the output CRS.
- `src/finam_regrid/adapter.py` is the `Regrid` adapter. It holds five
  engine handles (operator, two geometries, two fields), builds them from
  the two grid specifications, stages every data step through the field
  buffers, and releases the handles at the end.

Files:

- `common.dfy`: `Option` (Python's `None`), the raised exceptions, and
  `Result`.
- `shapes.dfy`: the numpy array rules the coordinate arrays depend on.
  - Arrays are stored flat in Fortran order, first axis fastest. This is
    the engine's storage order and the order of `gen_points(..., order="F")`.
  - `IndexList(shape)` lists the multi-indices in that order, and
    `FortranOffset(idx, shape)` is the position of `idx` in that list.
  - `AssignReshaped` models `a[...] = v.reshape(shp)`: an inferred `-1`
    axis followed by broadcasting. `AlongAxis` is its meaning for the
    shapes `_shp` produces.
  - `Ravel` models `ravel()` of a rectangular table.
- `engine.dfy`: the engine objects as classes whose fields the tools
  update in place. NaN, the engine's unset value, is `None` in a field
  buffer.
- `tools.dfy`: `tools.py`.
- `adapter.dfy`: `adapter.py`, as class `Adapter.Regrid`.

The specification functions `AxisCoords`, `GridBuilt`, `MeshBuilt`,
`StreamBuilt` and `Converted` say what each conversion builds, in terms
of the grid specification alone. The imperative builders are proved to
produce exactly that. The coordinate array of axis `i`:

- at grid index `idx`, holds `axes[i][idx[i]]` without a transformer, and
  coordinate `i` of the projected grid point with one (`AxisCoordsAt`);
- is the same whether it is filled by broadcasting `axes[i]` with `_shp`
  (`BroadcastIsAxisCoords`) or taken as column `i` of the generated
  points (`ProjectedColumnIsAxisCoords`).

## Model

| member | source | states |
|---|---|---|
| Tools.StaggerLocFor | src/finam_regrid/tools.py:13-26 | The nested table lookup succeeds exactly for 2 or 3 dimensions and raises KeyError(dim) otherwise; point data gets a corner location and cell data a centre location, and the vertical kinds are used exactly in 3D |
| Tools.MeshLocFor | src/finam_regrid/tools.py:28-31 | Point data lives on the nodes and cell data (exactly the other case) on the elements |
| Tools.Shp | src/finam_regrid/tools.py:34-37 | The result has length `dim`, with -1 at position `i` and 1 at every other position |
| Tools.CreateTransformer | src/finam_regrid/tools.py:40-55 | There is no transformer exactly when the two CRS are equal, both absent included; otherwise the transformer goes from the input CRS to the output CRS |
| Tools.TransformPoints | src/finam_regrid/tools.py:58-61 | Without a transformer the points come back unchanged; with one there is one projected point per input point, in the same order and with the same number of coordinates |
| Tools.Column | src/finam_regrid/tools.py:101-102 | Reference definition of `points[:, i]`: one entry per point, its coordinate `i` |
| Tools.SelectBuilder | src/finam_regrid/tools.py:64-73 | Structured grids, point clouds and meshes each reach their own builder, with point clouds tested before the general unstructured class; every other class, and only those, is a ValueError naming the class |
| Tools.Dims | src/finam_regrid/tools.py:77 | Reference definition of `grid.dims`: per axis, its number of coordinates |
| Tools.CellCounts | src/finam_regrid/tools.py:77 | Reference definition of `[d - 1 for d in grid.dims]`: per axis, one less than its number of coordinates |
| Tools.PointAt | src/finam_regrid/tools.py:94 | Reference definition of the grid point at a multi-index: coordinate `k` is `axes[k]` at that index |
| Tools.GenPoints | src/finam_regrid/tools.py:94-97 | Reference definition of `gen_points(axes, order="F")`: the grid point of each multi-index, in `IndexList` order |
| Tools.AxisCoords | src/finam_regrid/tools.py:87-102 | The coordinate array of an axis has one entry per grid point |
| Tools.AxisCoordsAt | src/finam_regrid/tools.py:87-102 | Read at grid index `idx`, the array of axis `i` is `axes[i][idx[i]]` without a transformer and coordinate `i` of the projected grid point with one |
| Tools.IdentityProjectionKeepsCoords | src/finam_regrid/tools.py:87-102 | A transformer that maps every point to itself gives the same coordinate arrays as no transformer |
| Tools.BroadcastIsAxisCoords | src/finam_regrid/tools.py:87-92 | Broadcasting `axes[i]` along axis `i` gives exactly the coordinate array of axis `i` |
| Tools.ProjectedColumnIsAxisCoords | src/finam_regrid/tools.py:93-102 | Column `i` of the transformed generated points, reshaped in Fortran order, is the coordinate array of axis `i` too |
| Tools.StaggerShapes | src/finam_regrid/tools.py:82-86 | On an engine grid sized one less per axis, the corner location has the shape of `axes` and the centre location the shape of `cell_axes` |
| Tools.StructuredFieldSize | src/finam_regrid/tools.py:104 | The field has one value per grid point for point data and one per cell for cell data |
| Tools.NoCells | src/finam_regrid/tools.py:96-102 | A structured grid has no cells exactly when some axis has a single coordinate |
| Tools.BroadcastAxis | src/finam_regrid/tools.py:91-92 | Assigning `v.reshape(*_shp(i, dim))` to a whole coordinate array broadcasts `v` along axis `i`, and the reshape never fails |
| Tools.SetBroadcastCoords | src/finam_regrid/tools.py:87-92 | After the loop, the corner and centre arrays of every axis hold `axes[i]` and `cell_axes[i]` broadcast along that axis; the set of coordinate arrays is unchanged |
| Tools.SetProjectedCoords | src/finam_regrid/tools.py:93-102 | After the loop, the corner and centre arrays of every axis hold column `i` of the transformed points and of the transformed cell centres |
| Tools.SetAxisPair | src/finam_regrid/tools.py:89-92 | One loop step: the corner and centre arrays of axis `i` receive the given values and every other coordinate array stays as it was |
| Tools.BroadcastCoordsSet | src/finam_regrid/tools.py:87-92 | The broadcast axis arrays are exactly the per-point axis coordinates of the grid, so the untransformed grid's coordinates are fully set |
| Tools.ProjectedCoordsSet | src/finam_regrid/tools.py:93-102 | Column `i` of the transformed points and cell centres is the projected coordinate `i` of every grid point and cell centre, so the transformed grid's coordinates are fully set |
| Tools.ToEsmfGrid | src/finam_regrid/tools.py:76-106 | KeyError(dim) outside 2 and 3 dimensions; with a transformer and no cells (see `Tools.NoCells`), the IndexError of `cell_centers[:, i]`; no other exception. Otherwise new objects: a Cartesian grid sized `dims[i]-1` per axis, with point and cell locations registered, every coordinate array equal to `AxisCoords` (transformed when a transformer is given), and an unset field named after the grid at the location the table gives for its data |
| Tools.SetGridCoords | src/finam_regrid/tools.py:87-102 | The coordinate loop in either branch: every corner and centre array equals `AxisCoords`; with a transformer and no cells it raises the IndexError instead |
| Tools.IdRange | src/finam_regrid/tools.py:121 | Reference definition of `np.arange(n) + 1`: the identifiers 1 to n in order |
| Tools.ElementTypes | src/finam_regrid/tools.py:126 | Reference definition of `ESMF_TYPE_MAP[cell_types]`: the type map applied to each cell type |
| Tools.NodeCoordinate | src/finam_regrid/tools.py:116-124 | In the flattened node coordinates, coordinate `j` of point `q` is at `q * dim + j` and passes through the transformer |
| Tools.ToEsmfMesh | src/finam_regrid/tools.py:109-142 | Nodes are numbered 1..point_count, all owned by 0, with transformed coordinates. ValueError exactly when some cell type maps to -1, and then no element is added. Otherwise elements 1..cell_count carry the mapped types, the flattened connectivity and the untransformed cell centres, and the field is unset and sized by nodes or elements |
| Tools.ToEsmfPoints | src/finam_regrid/tools.py:145-156 | IndexError "list index out of range" exactly when there are more coordinates than the names ESMF:X/Y/Z. With a transformer, zero points and at least one coordinate, numpy's IndexError for `points[:, 0]` comes first. Otherwise: one location per point; exactly the first `dim` named columns, each holding that coordinate of the transformed points; and an unset field with one value per point |
| Tools.SetColumns | src/finam_regrid/tools.py:150-151 | The column loop: each of the first `dim` names holds that column and no other name is set; an array that is one-dimensional fails at its first column, and a fourth name fails the list lookup |
| Tools.ToEsmf | src/finam_regrid/tools.py:64-73 | Succeeds exactly for convertible grids, and otherwise raises exactly the exception of the chosen builder (`ConversionError`): the KeyError or IndexError of the structured builder, the mesh's 1D ValueError, or the point builder's IndexError. Other classes raise the dispatch error. The result is what the chosen builder makes, with new objects and an unset field |
| Shapes.IndexList | src/finam_regrid/tools.py:94 | Lists every in-range multi-index, one per element, first axis fastest |
| Shapes.IndexListInverse | src/finam_regrid/tools.py:101-102 | The Fortran offset of a multi-index is in range, and the index list holds that index there |
| Shapes.ProductZero | src/finam_regrid/tools.py:96-97 | An array is empty exactly when one of its axes has length 0 |
| Shapes.RavelAt | src/finam_regrid/tools.py:122 | `ravel()` of a rectangular table of width `w` puts entry `j` of row `q` at `q * w + j` |
| Shapes.RavelLength | src/finam_regrid/tools.py:122 | Ravelling `n` rows of width `w` gives `n * w` entries |
| Shapes.AssignReshaped | src/finam_regrid/tools.py:91-92 | A successful reshape-and-broadcast assignment fills the whole target array |
| Shapes.AlongAxis | src/finam_regrid/tools.py:91-92 | A vector broadcast along one axis has one entry per array element |
| Shapes.AssignAlongAxis | src/finam_regrid/tools.py:91-92 | For a `_shp`-shaped reshape, the assignment succeeds, and at every index the array holds `v` at that index's position on the axis |
| Engine.StaggerShape | src/finam_regrid/tools.py:82-86 | Reference definition of the coordinate-array shape: a corner location has one more per axis than the grid has cells, a centre location as many as the cells |
| Engine.Defined | src/finam_regrid/adapter.py:109-111 | The buffer after a write holds each written value, in order |
| Engine.Field.constructor | src/finam_regrid/tools.py:104 | A new field with the given name and location and a new buffer of the given size |
| Engine.Field.Fill | src/finam_regrid/tools.py:105 | `field.data[:] = v` sets every buffer entry to `v` |
| Engine.Field.Write | src/finam_regrid/adapter.py:109-111 | Writing an array of the buffer's size copies it in; any other size raises ValueError and leaves the buffer as it was |
| Engine.Field.Destroy | src/finam_regrid/adapter.py:122-123 | The field is destroyed |
| Engine.EsmfGrid.constructor | src/finam_regrid/tools.py:82-86 | A grid with the given sizes, stagger locations and coordinate system, with one coordinate array for each registered location and axis and no other |
| Engine.EsmfGrid.SetCoords | src/finam_regrid/tools.py:89-92 | Exactly one coordinate array is replaced; the set of arrays stays the same |
| Engine.EsmfGrid.Destroy | src/finam_regrid/adapter.py:124-125 | The grid is destroyed and its coordinates stay as they were |
| Engine.EsmfMesh.constructor | src/finam_regrid/tools.py:111-115 | An empty mesh with the given dimensions and coordinate system |
| Engine.EsmfMesh.AddNodes | src/finam_regrid/tools.py:119-124 | Sets the node tables and leaves the element tables as they were |
| Engine.EsmfMesh.AddElements | src/finam_regrid/tools.py:133-139 | Sets the element tables and leaves the node tables as they were |
| Engine.EsmfMesh.Destroy | src/finam_regrid/adapter.py:124-125 | The mesh is destroyed; only its `destroyed` flag may change, so the node and element tables stay |
| Engine.LocStream.constructor | src/finam_regrid/tools.py:146 | A location stream with the given number of locations and no columns |
| Engine.LocStream.SetColumn | src/finam_regrid/tools.py:151 | Exactly the one named column is set |
| Engine.LocStream.Destroy | src/finam_regrid/adapter.py:124-125 | The location stream is destroyed; only its `destroyed` flag may change, so the columns stay |
| Engine.DestroyGeometry | src/finam_regrid/adapter.py:124-125 | Whatever kind the geometry is, its engine object is destroyed, and its coordinates, node and element tables or columns stay as they were |
| Engine.RegridOperator.constructor | src/finam_regrid/adapter.py:95-99 | The operator runs from the given source field to the given destination field with the given keyword arguments |
| Engine.RegridOperator.Destroy | src/finam_regrid/adapter.py:121 | The operator is destroyed |
| Adapter.WithDefaults | src/finam_regrid/adapter.py:86-87 | `unmapped_action` becomes IGNORE only when the caller gave none; a supplied action and every other argument are kept, and no key is added except that one |
| Adapter.WithDefaultsIdempotent | src/finam_regrid/adapter.py:86-87 | Filling in the default twice is the same as once, and arguments that name an action pass through unchanged |
| Adapter.Regrid.constructor | src/finam_regrid/adapter.py:76-87 | Both grid specifications and `zero_region` are stored as given, the arguments get their default, and all five handles are unset |
| Adapter.Regrid.Transform | src/finam_regrid/adapter.py:90 | The transformer is absent exactly when the input and output CRS are equal |
| Adapter.Regrid.UpdateGridSpecs | src/finam_regrid/adapter.py:89-99 | Succeeds exactly when the input grid converts with the CRS transformer and the output grid without one. A failure raises the failing conversion's own exception: a failing input conversion sets no handle, and a failing output conversion sets none but the input's. On success all five handles are set to new, separate objects, the operator runs from the input field to the output field with the adapter's arguments, and both fields start unset |
| Adapter.Regrid.ConvertInput | src/finam_regrid/adapter.py:90-92 | The input grid is converted with the transformer between the two CRS; on failure it raises that conversion's exception and sets nothing |
| Adapter.Regrid.ConvertOutput | src/finam_regrid/adapter.py:93-99 | The output grid is converted with no transformer, and the operator is built between the two fields; on failure it raises that conversion's exception and sets nothing |
| Adapter.Regrid.StageBuffers | src/finam_regrid/adapter.py:109-112 | The source buffer receives the values and the destination buffer is entirely unset; a size mismatch raises ValueError before either buffer changes |
| Adapter.Regrid.GetData | src/finam_regrid/adapter.py:101-118 | Masked input raises NotImplementedError and no buffer is written. Otherwise a size mismatch raises ValueError with both buffers unchanged, or the source buffer holds the canonical input and the result is the destination buffer after the engine call, in the output layout with the input's units. That the destination is reset to NaN before the engine call is stated by `StageBuffers`, which `GetData` calls before `Apply` |
| Adapter.Regrid.Finalize | src/finam_regrid/adapter.py:120-131 | The operator, both fields and both geometries are destroyed, all five handles are unset, and the grid specifications, arguments and `zero_region` are unchanged |

## Left out

- The interpolation itself (weight computation and `self.regrid(...)`) is engine code. `RegridOperator.Apply` promises only that it may change the destination buffer, so the values `GetData` returns are whatever the engine leaves there.
- Tools.CreateTransformer: with exactly one CRS absent, the code passes `None` to `Transformer.from_crs`; the factory is assumed to accept a missing CRS and to return a transformer, as the model does.
- Tools.TransformPoints: `itransform` over zero points is taken to return an empty list, which `np.asarray` makes a one-dimensional array. The builders' IndexError on it is modelled; a failure inside pyproj instead is not.
- Tools.ToEsmfGrid: without a transformer, an axis of a single coordinate gives an engine grid with zero cells on that axis. How the engine reacts to that is not modelled: the model builds the grid.
- Tools.ToEsmfPoints: without a transformer, the grid's own point array is taken to have `dim` columns even when it has no points, so that `points[:, i]` does not raise on it.
- pyproj is left out: CRS parsing (`crs.CRS`), projection maths and `Transformer.from_crs`. A CRS is a value compared by equality. The factory is a parameter that returns a length-preserving point map, applied point by point as `itransform` does.
- The library code that is not part of this model is taken as parameters or left unapplied:
  - FINAM's `gen_points` is stated through `IndexList`;
  - `to_canonical` and `from_canonical` are parameters of `GetData`;
  - `ESMF_TYPE_MAP` is a parameter of the mesh conversion;
  - `strip_time`, `pull_data` and `get_units` are folded into the `PulledData` value.
- The `ARegridding` base class is left out: its specification negotiation, its `pull_data` with its `time` and `target` arguments, and the calls that run `_update_grid_specs`, `_get_data` and `_finalize`. Its invariants are preconditions instead:
  - `UpdateGridSpecs` requires both grid specifications present;
  - `GetData` and `Finalize` require every handle set.
- A second finalize, or any use after finalize, is left out. The code does not guard against it, since it would dereference unset handles.
- Logging and `ErrorLogger` are left out: an error is returned, not logged.
- numpy conversions are left out:
  - integer widths, such as `int32` for the grid dimensions, are unbounded;
  - `astype(float)` returns values unchanged;
  - node identifiers and owners are integers.
- Engine.Field.Write: does not model numpy broadcasting of a size-1 array into a larger buffer, because the adapter's input always comes in the grid's own size; any size other than the buffer's raises ValueError.
- ToEsmf: grid specifications must be well formed. This covers cell axes one shorter than the axes, and rectangular point and centre tables, as FINAM's grid classes guarantee. Malformed grids, which the code never receives, are not modelled.
- Tools.ToEsmfGrid: the stagger-table key is `mesh_dim` and the loop runs over `dim`, which are the same number for FINAM's structured grids; the model uses the number of axes for both.
- Tools.Shp: `_shp`'s default `dim=3` is not modelled; the only caller always passes `grid.dim`.
- Tools.ToEsmfPoints: the columns written before the IndexError of a fourth coordinate are not observable afterwards, since the model returns no stream on error.
- Tools.ToEsmfMesh: it returns the mesh as a ghost result so that the error case can state that no elements were added. The code raises instead and drops the mesh.
- Adapter.Regrid.UpdateGridSpecs: its two halves, `ConvertInput` and `ConvertOutput`, are separate methods whose steps run in the same order as in `_update_grid_specs`.
- The `__init__.py` re-exports, the plotting example and the benchmark are not part of this model.
- The numeric results of the engine's regridding methods are left out; they belong to the engine and to floating-point arithmetic.
