/** The FINAM adapter that regrids data between two grid specifications
    through the engine (src/finam_regrid/adapter.py). */
module Adapter {
  import opened Common
  import opened Engine
  import opened Tools

  /** A physical unit, as FINAM's unit registry names it. */
  datatype Unit = Unit(name: string)

  /** The data pulled from upstream for one step: its magnitude with the
      time axis stripped, its units, and whether it is a masked array. */
  datatype PulledData = PulledData(magnitude: seq<real>, units: Unit, masked: bool)

  /** A unit-carrying array; `None` entries are NaN. */
  datatype Quantity = Quantity(magnitude: seq<Option<real>>, units: Unit)

  const UnmappedActionKey := "unmapped_action"

  const MaskedMessage := "Regridding is currently not implemented for masked data"

  /** The keyword arguments the adapter passes on to the engine: the
      caller's, with `unmapped_action` set to IGNORE when the caller gave
      none. A supplied action and every other argument are kept. */
  function WithDefaults(args: map<string, ArgValue>): (r: map<string, ArgValue>)
    ensures r.Keys == args.Keys + {UnmappedActionKey}
    ensures r[UnmappedActionKey] == if UnmappedActionKey in args then args[UnmappedActionKey] else UnmappedArg(Ignore)
    ensures forall k :: k in args && k != UnmappedActionKey ==> r[k] == args[k]
  {
    if UnmappedActionKey !in args then args[UnmappedActionKey := UnmappedArg(Ignore)] else args
  }

  /** Filling in the default twice is filling it in once, and arguments
      that already name an action are passed on as they are. */
  lemma WithDefaultsIdempotent(args: map<string, ArgValue>)
    ensures WithDefaults(WithDefaults(args)) == WithDefaults(args)
    ensures UnmappedActionKey in args ==> WithDefaults(args) == args
  {
  }

  /** `finam_regrid.Regrid`. The grid specifications `inputGrid` and
      `outputGrid` belong to FINAM's regridding base class; the five engine
      handles are this adapter's own. */
  class Regrid {
    var inputGrid: Option<Grid>
    var outputGrid: Option<Grid>
    var regridArgs: map<string, ArgValue>
    var regrid: RegridOperator?
    var inGrid: Option<Geometry>
    var outGrid: Option<Geometry>
    var inField: Field?
    var outField: Field?
    var zeroRegion: Option<Region>

    /** No engine handle is held. */
    predicate Cleared()
      reads this
    {
      regrid == null && inGrid.None? && outGrid.None? && inField == null && outField == null
    }

    /** Every engine handle is held, and the two fields and the two
        geometries are separate engine objects. */
    predicate Ready()
      reads this
    {
      && regrid != null && inGrid.Some? && outGrid.Some? && inField != null && outField != null
      && inField != outField && inField.data != outField.data
      && Handle(inGrid.value) != Handle(outGrid.value)
    }

    /** `Regrid(in_grid, out_grid, zero_region, **regrid_args)`. */
    constructor (inGridSpec: Option<Grid>, outGridSpec: Option<Grid>, zeroRegion: Option<Region>, args: map<string, ArgValue>)
      ensures inputGrid == inGridSpec && outputGrid == outGridSpec && this.zeroRegion == zeroRegion
      ensures regridArgs == WithDefaults(args)
      ensures Cleared()
    {
      inputGrid := inGridSpec;
      outputGrid := outGridSpec;
      regridArgs := args;
      regrid := null;
      inGrid := None;
      outGrid := None;
      inField := null;
      outField := null;
      this.zeroRegion := zeroRegion;
      new;
      if UnmappedActionKey !in regridArgs {
        regridArgs := regridArgs[UnmappedActionKey := UnmappedArg(Ignore)];
      }
    }

    /** The transformer from the input grid's CRS to the output grid's. */
    function Transform(fromCrs: TransformerFactory): (t: Option<Transformer>)
      requires inputGrid.Some? && outputGrid.Some?
      reads this`inputGrid, this`outputGrid
      ensures t.None? <==> inputGrid.value.crs == outputGrid.value.crs
    {
      CreateTransformer(inputGrid.value.crs, outputGrid.value.crs, fromCrs)
    }

    /** `_update_grid_specs`: converts the input grid with the CRS
        transformer and the output grid without one, then builds the regrid
        operator between their fields with the adapter's arguments. A
        conversion that raises leaves the handles it would have set as they
        were. */
    method UpdateGridSpecs(fromCrs: TransformerFactory, typeMap: int -> int) returns (r: Result<()>)
      requires inputGrid.Some? && outputGrid.Some?
      requires WellFormed(inputGrid.value) && WellFormed(outputGrid.value)
      modifies this
      ensures inputGrid == old(inputGrid) && outputGrid == old(outputGrid)
      ensures regridArgs == old(regridArgs) && zeroRegion == old(zeroRegion)
      ensures r.Ok? <==> Convertible(inputGrid.value, Transform(fromCrs), typeMap) && Convertible(outputGrid.value, None, typeMap)
      ensures !Convertible(inputGrid.value, Transform(fromCrs), typeMap) ==>
        r == Err(ConversionError(inputGrid.value, Transform(fromCrs), typeMap))
      ensures Convertible(inputGrid.value, Transform(fromCrs), typeMap) && !Convertible(outputGrid.value, None, typeMap) ==>
        r == Err(ConversionError(outputGrid.value, None, typeMap))
      ensures !Convertible(inputGrid.value, Transform(fromCrs), typeMap) ==>
        regrid == old(regrid) && inGrid == old(inGrid) && inField == old(inField) &&
        outGrid == old(outGrid) && outField == old(outField)
      ensures Convertible(inputGrid.value, Transform(fromCrs), typeMap) ==>
        inGrid.Some? && inField != null && fresh(Handle(inGrid.value)) && fresh(inField) &&
        Converted(inputGrid.value, Transform(fromCrs), typeMap, Conversion(inGrid.value, inField))
      ensures Convertible(inputGrid.value, Transform(fromCrs), typeMap) && !Convertible(outputGrid.value, None, typeMap) ==>
        regrid == old(regrid) && outGrid == old(outGrid) && outField == old(outField)
      ensures r.Ok? ==> Ready() && fresh(regrid) && fresh(Handle(outGrid.value)) && fresh(outField)
      ensures r.Ok? ==> Converted(outputGrid.value, None, typeMap, Conversion(outGrid.value, outField))
      ensures r.Ok? ==> regrid.srcField == inField && regrid.dstField == outField && regrid.args == regridArgs
      ensures r.Ok? ==> inField.Unset() && outField.Unset()
    {
      r := ConvertInput(fromCrs, typeMap);
      if r.Err? {
        return;
      }
      assert Handle(inGrid.value) != this;
      r := ConvertOutput(typeMap);
    }

    /** The first half of `_update_grid_specs`: the transformer between
        the two CRS, and the input grid converted with it. */
    method ConvertInput(fromCrs: TransformerFactory, typeMap: int -> int) returns (r: Result<()>)
      requires inputGrid.Some? && outputGrid.Some? && WellFormed(inputGrid.value)
      modifies this
      ensures inputGrid == old(inputGrid) && outputGrid == old(outputGrid)
      ensures regridArgs == old(regridArgs) && zeroRegion == old(zeroRegion)
      ensures regrid == old(regrid) && outGrid == old(outGrid) && outField == old(outField)
      ensures r.Ok? <==> Convertible(inputGrid.value, Transform(fromCrs), typeMap)
      ensures r.Err? ==> inGrid == old(inGrid) && inField == old(inField)
      ensures r.Err? ==> r.error == ConversionError(inputGrid.value, Transform(fromCrs), typeMap)
      ensures r.Ok? ==>
        inGrid.Some? && inField != null && fresh(Handle(inGrid.value)) && fresh(inField) && fresh(inField.data) &&
        Converted(inputGrid.value, Transform(fromCrs), typeMap, Conversion(inGrid.value, inField)) && inField.Unset()
    {
      var inSpec := inputGrid.value;
      var transformer := CreateTransformer(inSpec.crs, outputGrid.value.crs, fromCrs);
      var inConversion :- ToEsmf(inSpec, transformer, typeMap);
      assert Handle(inConversion.geometry) != this;
      inGrid, inField := Some(inConversion.geometry), inConversion.field;
      assert inputGrid.value == inSpec && Transform(fromCrs) == transformer;
      assert Conversion(inGrid.value, inField) == inConversion;
      r := Ok(());
    }

    /** The second half of `_update_grid_specs`: the output grid converted
        without a transformer, and the regrid operator from the input field
        to the output field. */
    method ConvertOutput(typeMap: int -> int) returns (r: Result<()>)
      requires outputGrid.Some? && WellFormed(outputGrid.value)
      requires inGrid.Some? && inField != null
      modifies this
      ensures inputGrid == old(inputGrid) && outputGrid == old(outputGrid)
      ensures regridArgs == old(regridArgs) && zeroRegion == old(zeroRegion)
      ensures inGrid == old(inGrid) && inField == old(inField)
      ensures r.Ok? <==> Convertible(outputGrid.value, None, typeMap)
      ensures r.Err? ==> regrid == old(regrid) && outGrid == old(outGrid) && outField == old(outField)
      ensures r.Err? ==> r.error == ConversionError(outputGrid.value, None, typeMap)
      ensures r.Ok? ==> Ready() && fresh(regrid) && fresh(Handle(outGrid.value)) && fresh(outField)
      ensures r.Ok? ==> Converted(outputGrid.value, None, typeMap, Conversion(outGrid.value, outField))
      ensures r.Ok? ==> regrid.srcField == inField && regrid.dstField == outField && regrid.args == regridArgs
      ensures r.Ok? ==> outField.Unset()
    {
      var outSpec := outputGrid.value;
      var outConversion :- ToEsmf(outSpec, None, typeMap);
      assert Handle(outConversion.geometry) != this;
      outGrid, outField := Some(outConversion.geometry), outConversion.field;
      regrid := new RegridOperator(inField, outField, regridArgs);
      assert outputGrid.value == outSpec && Conversion(outGrid.value, outField) == outConversion;
      r := Ok(());
    }

    /** The two buffer writes of `_get_data`: the input values into the
        source field, then NaN into the whole destination field. */
    method StageBuffers(values: seq<real>) returns (r: Result<()>)
      requires Ready()
      modifies inField.data, outField.data
      ensures r.Ok? <==> |values| == inField.data.Length
      ensures r.Ok? ==> inField.data[..] == Defined(values) && outField.Unset()
      ensures r.Err? ==> r.error.ValueError? && unchanged(inField.data, outField.data)
    {
      r := inField.Write(values);
      if r.Err? {
        return;
      }
      outField.Fill(None);
    }

    /** `_get_data` for the pulled data `inData`, with FINAM's
        `to_canonical` of the input grid and `from_canonical` of the output
        grid as parameters. Masked data is refused before either buffer is
        touched; otherwise the source field holds the canonical input, the
        engine runs on a destination reset to NaN, and the result is the
        destination in the output grid's layout with the input's units. */
    method GetData(inData: PulledData, toCanonical: seq<real> -> seq<real>, fromCanonical: seq<Option<real>> -> seq<Option<real>>)
      returns (r: Result<Quantity>)
      requires Ready()
      modifies inField.data, outField.data
      ensures inData.masked ==> r == Err(NotImplementedError(MaskedMessage)) && unchanged(inField.data, outField.data)
      ensures !inData.masked ==> (r.Ok? <==> |toCanonical(inData.magnitude)| == inField.data.Length)
      ensures !inData.masked && r.Err? ==> r.error.ValueError? && unchanged(inField.data, outField.data)
      ensures r.Ok? ==> inField.data[..] == Defined(toCanonical(inData.magnitude))
      ensures r.Ok? ==> r.value == Quantity(fromCanonical(outField.data[..]), inData.units)
    {
      if inData.masked {
        r := Err(NotImplementedError(MaskedMessage));
        return;
      }
      var staged := StageBuffers(toCanonical(inData.magnitude));
      if staged.Err? {
        r := Err(staged.error);
        return;
      }
      regrid.Apply(inField, outField, zeroRegion);
      r := Ok(Quantity(fromCanonical(outField.data[..]), inData.units));
    }

    /** `_finalize`: destroys the operator, both fields and both geometries,
        and drops every handle; nothing else changes. */
    method Finalize()
      requires Ready()
      modifies this, regrid, inField, outField, Handle(inGrid.value), Handle(outGrid.value)
      ensures Cleared()
      ensures old(regrid).destroyed && old(inField).destroyed && old(outField).destroyed
      ensures Destroyed(old(inGrid).value) && Destroyed(old(outGrid).value)
      ensures inputGrid == old(inputGrid) && outputGrid == old(outputGrid)
      ensures regridArgs == old(regridArgs) && zeroRegion == old(zeroRegion)
    {
      var inGeometry, outGeometry := inGrid.value, outGrid.value;
      assert Handle(inGeometry) != this && Handle(outGeometry) != this;
      regrid.Destroy();
      inField.Destroy();
      outField.Destroy();
      DestroyGeometry(inGeometry);
      DestroyGeometry(outGeometry);
      regrid := null;
      inField := null;
      outField := null;
      inGrid := None;
      outGrid := None;
    }
  }
}
