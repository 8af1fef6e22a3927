/** The decisions `create_output_product` and `_create_corrections_group`
    take while assembling one displacement product
    (src/disp_s1/product.py:80-508): which inputs are required, which
    failures fall back to defaults, which layers are written with fill
    values, and what the corrections group holds.  The rasters computed by
    external code (the long-wavelength filter, the baseline model, the
    interpolation, the solid-earth tide model) are inputs or oracles. */
module ProductAssembly {
  import opened Wrappers
  import opened Pixels
  import opened ParamDicts
  import Displacement
  import QualityMask
  import StartEnd
  import Identification

  /** `np.zeros((100, 100))`, the baseline grid used when the baseline model fails. */
  const FallbackBaselineShape := Shape(100, 100)

  // ---------------------------------------------------------------------
  // Diagnostic layers (product.py:340-365)
  // ---------------------------------------------------------------------

  /** The name and fill value of one product layer. */
  datatype LayerInfo = LayerInfo(name: string, fillValue: Float)

  /** One of the files listed in `data_files`: its name, if any, whether it
      exists on disk, and the raster it holds when it does. */
  datatype DiagnosticSource = DiagnosticSource(filename: Option<string>, onDisk: bool, data: seq<Float>)

  /** The raster written for one diagnostic layer. */
  function DiagnosticData(info: LayerInfo, src: DiagnosticSource, shape: Shape): seq<Float>
  {
    if src.filename.Some? && src.onDisk then src.data else Full(shape, info.fillValue)
  }

  /** `zip(infos, sources, strict=True)`: the pairs up to the shorter of the
      two, then a `ValueError` when one is longer. */
  function DiagnosticLayers(infos: seq<LayerInfo>, sources: seq<DiagnosticSource>, shape: Shape)
    : (seq<(string, seq<Float>)>, Option<Error>)
  {
    var n := if |infos| <= |sources| then |infos| else |sources|;
    var layers := seq(n, i requires 0 <= i < n => (infos[i].name, DiagnosticData(infos[i], sources[i], shape)));
    if |sources| < |infos| then (layers, Some(ValueError("zip() argument 2 is shorter than argument 1")))
    else if |sources| > |infos| then (layers, Some(ValueError("zip() argument 2 is longer than argument 1")))
    else (layers, None)
  }

  /** A layer whose file is not given, or not on disk, is a constant
      fill-value raster of the product's shape; any other layer is the
      file's raster; the names follow the layer list. */
  lemma DiagnosticFallback(infos: seq<LayerInfo>, sources: seq<DiagnosticSource>, shape: Shape, i: nat)
    requires i < |infos| && i < |sources|
    ensures var layers := DiagnosticLayers(infos, sources, shape).0;
      i < |layers| && layers[i].0 == infos[i].name
    ensures var data := DiagnosticLayers(infos, sources, shape).0[i].1;
      sources[i].filename.None? || !sources[i].onDisk ==>
        |data| == Size(shape) && forall j | 0 <= j < |data| :: data[j] == infos[i].fillValue
    ensures sources[i].filename.Some? && sources[i].onDisk ==>
      DiagnosticLayers(infos, sources, shape).0[i].1 == sources[i].data
  {
  }

  /** Every layer is written before a length mismatch is reported, and the
      mismatch is reported exactly when the lists differ in length. */
  lemma DiagnosticZipStrict(infos: seq<LayerInfo>, sources: seq<DiagnosticSource>, shape: Shape)
    ensures DiagnosticLayers(infos, sources, shape).1.Some? <==> |infos| != |sources|
    ensures DiagnosticLayers(infos, sources, shape).1.Some? ==>
      DiagnosticLayers(infos, sources, shape).1.value.ValueError?
    ensures |DiagnosticLayers(infos, sources, shape).0| == if |infos| <= |sources| then |infos| else |sources|
  {
  }

  /** The loop of product.py:350-365, writing one layer per pair. */
  method WriteDiagnosticLayers(infos: seq<LayerInfo>, sources: seq<DiagnosticSource>, shape: Shape)
    returns (layers: seq<(string, seq<Float>)>, err: Option<Error>)
    ensures (layers, err) == DiagnosticLayers(infos, sources, shape)
  {
    layers := [];
    var i := 0;
    while i < |infos| && i < |sources|
      invariant i <= |infos| && i <= |sources|
      invariant |layers| == i
      invariant forall j | 0 <= j < i :: layers[j] == (infos[j].name, DiagnosticData(infos[j], sources[j], shape))
    {
      var src := sources[i];
      var data;
      if src.filename.Some? && src.onDisk {
        data := src.data;
      } else {
        data := Full(shape, infos[i].fillValue);
      }
      layers := layers + [(infos[i].name, data)];
      i := i + 1;
    }
    assert layers == DiagnosticLayers(infos, sources, shape).0;
    if i < |infos| {
      err := Some(ValueError("zip() argument 2 is shorter than argument 1"));
    } else if i < |sources| {
      err := Some(ValueError("zip() argument 2 is longer than argument 1"));
    } else {
      err := None;
    }
  }

  // ---------------------------------------------------------------------
  // Corrections (product.py:147-148, 191-215, 369-386, 426-508)
  // ---------------------------------------------------------------------

  /** `compute_baselines` either returns a grid or raises; a raised error
      is logged and replaced by a 100 x 100 grid of zeros. */
  function BaselineGrid(computed: Result<seq<Float>>): seq<Float>
  {
    if computed.Ok? then computed.value else Zeros(FallbackBaselineShape)
  }

  /** `extract_footprint` either returns WKT or raises; a raised error is
      logged and replaced by the empty string. */
  function FootprintWkt(computed: Result<string>): string
  {
    if computed.Ok? then computed.value else ""
  }

  /** The `corrections` dict handed to `_create_corrections_group`: the
      caller's dict (or a new one), with "baseline" set to the interpolated
      baseline grid and, when both line-of-sight files are given,
      "solid_earth" set to the tide model's result.  The tide model is not
      guarded, so its error propagates. */
  function Corrections(given: Option<map<string, seq<Float>>>, interpolatedBaseline: seq<Float>,
                       losEast: Option<string>, losNorth: Option<string>, tide: Result<seq<Float>>)
    : (r: Result<map<string, seq<Float>>>)
    ensures r.Err? <==> losEast.Some? && losNorth.Some? && tide.Err?
    ensures r.Ok? ==> "baseline" in r.value && r.value["baseline"] == interpolatedBaseline
    ensures r.Ok? && losEast.Some? && losNorth.Some? ==> "solid_earth" in r.value && r.value["solid_earth"] == tide.value
    ensures r.Ok? && (losEast.None? || losNorth.None?) ==>
      ("solid_earth" in r.value <==> given.Some? && "solid_earth" in given.value)
    ensures r.Ok? ==> forall k | k in r.value && k != "baseline" && k != "solid_earth" ::
      given.Some? && k in given.value && r.value[k] == given.value[k]
  {
    var withBaseline := WithBaseline(given, interpolatedBaseline);
    if losEast.Some? && losNorth.Some? then
      if tide.Err? then Err(tide.error) else Ok(withBaseline["solid_earth" := tide.value])
    else Ok(withBaseline)
  }

  /** `corrections` (an empty dict when none was given) with the baseline set. */
  function WithBaseline(given: Option<map<string, seq<Float>>>, interpolatedBaseline: seq<Float>)
    : map<string, seq<Float>>
  {
    var base := if given.Some? then given.value else map[];
    base["baseline" := interpolatedBaseline]
  }

  /** The three correction layers of the corrections group. */
  datatype CorrectionLayers = CorrectionLayers(ionosphere: seq<Float>, solidEarth: seq<Float>, baseline: seq<Float>)

  /** `corrections.get(key, empty_arr)`. */
  function LayerOrZeros(corrections: map<string, seq<Float>>, key: string, shape: Shape): (r: seq<Float>)
    ensures key in corrections ==> r == corrections[key]
    ensures key !in corrections ==> |r| == Size(shape) && forall i | 0 <= i < |r| :: r[i] == Num(0.0)
  {
    if key in corrections then corrections[key] else Zeros(shape)
  }

  function CorrectionGroupLayers(corrections: map<string, seq<Float>>, shape: Shape): CorrectionLayers
  {
    CorrectionLayers(
      LayerOrZeros(corrections, "ionosphere", shape),
      LayerOrZeros(corrections, "solid_earth", shape),
      LayerOrZeros(corrections, "baseline", shape))
  }

  /** `ReferencePoint(row, col, lat, lon)`. */
  datatype ReferencePoint = ReferencePoint(row: int, col: int, lat: real, lon: real)

  /** The attributes of the "reference_point" dataset (product.py:492-508). */
  function ReferencePointAttrs(rp: Option<ReferencePoint>): (r: Dict)
    ensures r.Keys == {"rows", "cols", "latitudes", "longitudes", "units"}
    ensures r["units"] == VStr("unitless")
  {
    match rp
    case Some(p) =>
      map["rows" := VList([VInt(p.row)]), "cols" := VList([VInt(p.col)]),
          "latitudes" := VList([VReal(p.lat)]), "longitudes" := VList([VReal(p.lon)]),
          "units" := VStr("unitless")]
    case None =>
      map["rows" := VList([]), "cols" := VList([]), "latitudes" := VList([]), "longitudes" := VList([]),
          "units" := VStr("unitless")]
  }

  /** The four coordinate lists always have the same length: one entry for
      a chosen reference point, none without one. */
  lemma ReferencePointListsAgree(rp: Option<ReferencePoint>)
    ensures forall k | k in {"rows", "cols", "latitudes", "longitudes"} ::
      ReferencePointAttrs(rp)[k].VList? &&
      |ReferencePointAttrs(rp)[k].items| == (if rp.Some? then 1 else 0)
    ensures rp.Some? ==>
      && ReferencePointAttrs(rp)["rows"].items[0] == VInt(rp.value.row)
      && ReferencePointAttrs(rp)["cols"].items[0] == VInt(rp.value.col)
      && ReferencePointAttrs(rp)["latitudes"].items[0] == VReal(rp.value.lat)
      && ReferencePointAttrs(rp)["longitudes"].items[0] == VReal(rp.value.lon)
  {
  }

  // ---------------------------------------------------------------------
  // The whole product
  // ---------------------------------------------------------------------

  /** What `create_output_product` is given, with the GDAL reads and the
      external models' outcomes already taken. */
  datatype ProductInputs = ProductInputs(
    referenceFiles: seq<string>,
    secondaryFiles: seq<string>,
    shape: Shape,
    unwrapped: seq<Option<Float>>,
    units: Option<string>,
    phase2disp: real,
    coherence: seq<real>,
    conncomp: seq<Option<int>>,
    similarity: seq<Option<real>>,
    waterMask: Option<seq<Option<int>>>,
    filtered: seq<Float>,
    baseline: Result<seq<Float>>,
    interpolate: seq<Float> -> seq<Float>,
    footprint: Result<string>,
    diagnosticInfos: seq<LayerInfo>,
    diagnosticSources: seq<DiagnosticSource>,
    losEast: Option<string>,
    losNorth: Option<string>,
    solidEarthTide: Result<seq<Float>>,
    corrections: Option<map<string, seq<Float>>>,
    referencePoint: Option<ReferencePoint>,
    /** the run configuration's `cslc_file_list`, with the parsed names */
    inputFiles: seq<Identification.InputFile>)

  /** Every per-pixel raster has the product's shape. */
  predicate SameShape(x: ProductInputs)
  {
    var n := Size(x.shape);
    && |x.unwrapped| == n && |x.coherence| == n && |x.conncomp| == n && |x.similarity| == n
    && (x.waterMask.Some? ==> |x.waterMask.value| == n)
    && |x.filtered| == n
  }

  /** What the product holds. */
  datatype Product = Product(
    referenceStartEnd: (string, string),
    secondaryStartEnd: (string, string),
    displacement: seq<Float>,
    shortWavelength: seq<Float>,
    recommendedMask: seq<bool>,
    diagnostics: seq<(string, seq<Float>)>,
    corrections: CorrectionLayers,
    referencePointAttrs: Dict,
    footprint: string,
    identification: Identification.Summary)

  function BadPixels(x: ProductInputs): seq<bool>
    requires SameShape(x)
  {
    QualityMask.BadPixelMask(x.coherence, x.conncomp, x.similarity, x.waterMask)
  }

  /** The product `create_output_product` writes, or the error it raises:
      the input-list checks come first, then the diagnostic layers' length
      check, then the tide model's error, then the identification group's
      indexing of the run configuration's CSLC list. */
  function Assemble(x: ProductInputs): Result<Product>
    requires SameShape(x)
  {
    var files :- StartEnd.AcquisitionFiles(x.referenceFiles, x.secondaryFiles);
    var diagnostics := DiagnosticLayers(x.diagnosticInfos, x.diagnosticSources, x.shape);
    if diagnostics.1.Some? then Err(diagnostics.1.value)
    else
      var corrections :- Corrections(x.corrections, x.interpolate(BaselineGrid(x.baseline)),
                                     x.losEast, x.losNorth, x.solidEarthTide);
      var identification :- Identification.Summarize(x.inputFiles);
      Ok(Product(
        files.0, files.1,
        Displacement.DisplacementLayer(x.unwrapped, x.units, x.phase2disp),
        Displacement.ShortWavelengthLayer(x.filtered, BadPixels(x)),
        QualityMask.RecommendedMask(x.coherence, x.conncomp, x.similarity, x.waterMask),
        diagnostics.0,
        CorrectionGroupLayers(corrections, x.shape),
        ReferencePointAttrs(x.referencePoint),
        FootprintWkt(x.footprint),
        identification))
  }

  /** Empty CSLC lists are rejected before anything else. */
  lemma MissingCslcFilesRaise(x: ProductInputs)
    requires SameShape(x)
    ensures x.referenceFiles == [] ==> Assemble(x) == Err(ValueError("Missing input reference cslc files"))
    ensures x.referenceFiles != [] && x.secondaryFiles == [] ==>
      Assemble(x) == Err(ValueError("Missing input secondary cslc files"))
  {
  }

  /** Once the corrections are written, the identification group decides:
      the product is made exactly when the run configuration's CSLC list
      can be summarised, and it records that summary; an empty list, or
      one holding only compressed files, raises IndexError. */
  lemma IdentificationDecides(x: ProductInputs)
    requires SameShape(x)
    requires StartEnd.AcquisitionFiles(x.referenceFiles, x.secondaryFiles).Ok?
    requires DiagnosticLayers(x.diagnosticInfos, x.diagnosticSources, x.shape).1.None?
    requires Corrections(x.corrections, x.interpolate(BaselineGrid(x.baseline)),
                         x.losEast, x.losNorth, x.solidEarthTide).Ok?
    ensures Assemble(x).Ok? <==> Identification.Summarize(x.inputFiles).Ok?
    ensures Assemble(x).Ok? ==> Assemble(x).value.identification == Identification.Summarize(x.inputFiles).value
    ensures x.inputFiles == [] ==> Assemble(x) == Err(IndexError)
    ensures (forall f | f in x.inputFiles :: Identification.IsCompressedPath(f)) ==> Assemble(x) == Err(IndexError)
  {
    var s := Identification.Summarize(x.inputFiles);
    if forall f | f in x.inputFiles :: Identification.IsCompressedPath(f) {
      assert s.Err?;
    }
  }

  /** Neither a failed baseline model nor a failed footprint extraction
      changes whether the product is made. */
  lemma FallbacksDoNotPropagate(x: ProductInputs, baseline: Result<seq<Float>>, footprint: Result<string>)
    requires SameShape(x)
    ensures Assemble(x.(baseline := baseline, footprint := footprint)).Ok? <==> Assemble(x).Ok?
  {
    var y := x.(baseline := baseline, footprint := footprint);
    assert SameShape(y);
    AssembleSucceeds(x);
    AssembleSucceeds(y);
  }

  /** The product is made exactly when each step that can raise succeeds. */
  lemma AssembleSucceeds(x: ProductInputs)
    requires SameShape(x)
    ensures Assemble(x).Ok? <==>
      && StartEnd.AcquisitionFiles(x.referenceFiles, x.secondaryFiles).Ok?
      && DiagnosticLayers(x.diagnosticInfos, x.diagnosticSources, x.shape).1.None?
      && Corrections(x.corrections, x.interpolate(BaselineGrid(x.baseline)),
                     x.losEast, x.losNorth, x.solidEarthTide).Ok?
      && Identification.Summarize(x.inputFiles).Ok?
  {
  }

  /** A made product's corrections group and footprint, read off `Assemble`. */
  lemma AssembledParts(x: ProductInputs) returns (c: map<string, seq<Float>>)
    requires SameShape(x) && Assemble(x).Ok?
    ensures Corrections(x.corrections, x.interpolate(BaselineGrid(x.baseline)),
                        x.losEast, x.losNorth, x.solidEarthTide) == Ok(c)
    ensures Assemble(x).value.corrections == CorrectionGroupLayers(c, x.shape)
    ensures Assemble(x).value.footprint == FootprintWkt(x.footprint)
  {
    c := Corrections(x.corrections, x.interpolate(BaselineGrid(x.baseline)),
                     x.losEast, x.losNorth, x.solidEarthTide).value;
  }

  /** The fallbacks' values: a zero 100 x 100 baseline grid, interpolated to
      the product's shape, and an empty footprint. */
  lemma FallbackValues(x: ProductInputs)
    requires SameShape(x) && Assemble(x).Ok?
    ensures x.baseline.Err? ==> Assemble(x).value.corrections.baseline == x.interpolate(Zeros(FallbackBaselineShape))
    ensures x.baseline.Ok? ==> Assemble(x).value.corrections.baseline == x.interpolate(x.baseline.value)
    ensures x.footprint.Err? ==> Assemble(x).value.footprint == ""
  {
    var c := AssembledParts(x);
  }

  /** The solid-earth layer is the tide model's result exactly when both
      line-of-sight files are given; otherwise it is what the caller's
      corrections held, or zeros. */
  lemma SolidEarthNeedsBothLos(x: ProductInputs)
    requires SameShape(x) && Assemble(x).Ok?
    ensures x.losEast.Some? && x.losNorth.Some? ==>
      x.solidEarthTide.Ok? && Assemble(x).value.corrections.solidEarth == x.solidEarthTide.value
    ensures x.losEast.None? || x.losNorth.None? ==>
      Assemble(x).value.corrections.solidEarth ==
        if x.corrections.Some? && "solid_earth" in x.corrections.value then x.corrections.value["solid_earth"]
        else Zeros(x.shape)
  {
  }

  /** Without caller corrections the ionosphere layer is zeros of the
      product's shape. */
  lemma IonosphereDefaultsToZeros(x: ProductInputs)
    requires SameShape(x) && Assemble(x).Ok?
    requires x.corrections.None? || "ionosphere" !in x.corrections.value
    ensures Assemble(x).value.corrections.ionosphere == Zeros(x.shape)
  {
    var c := AssembledParts(x);
    assert "ionosphere" !in c;
  }

  /** The two displacement layers (product.py:219-231, 262-282): the
      filled phase converted to meters, and the filtered displacement,
      each NaN-masked in place. */
  method MaskedDisplacement(x: ProductInputs) returns (disp: seq<Float>, shortWavelength: seq<Float>)
    requires SameShape(x)
    ensures disp == Displacement.DisplacementLayer(x.unwrapped, x.units, x.phase2disp)
    ensures shortWavelength == Displacement.ShortWavelengthLayer(x.filtered, BadPixels(x))
  {
    var unw := Displacement.Filled(x.unwrapped);
    var mask := Displacement.ZeroMask(unw);
    var converted := Displacement.ToMeters(unw, x.units, x.phase2disp);
    var bad := BadPixels(x);
    var a := new Float[|converted|](i requires 0 <= i < |converted| => converted[i]);
    var b := new Float[|x.filtered|](i requires 0 <= i < |x.filtered| => x.filtered[i]);
    assert a[..] == converted && b[..] == x.filtered;
    Displacement.MaskWithNaN(a, mask);
    Displacement.MaskWithNaN(b, bad);
    disp, shortWavelength := a[..], b[..];
  }

  /** The first update to the `corrections` dict (product.py:147-148, 191-208):
      the interpolated baseline, or the interpolated zero grid when the
      baseline computation failed; every other entry is the caller's. */
  method UpdateBaseline(x: ProductInputs) returns (corrections: map<string, seq<Float>>)
    ensures corrections == WithBaseline(x.corrections, x.interpolate(BaselineGrid(x.baseline)))
    ensures "baseline" in corrections
    ensures forall k | k != "baseline" ::
      (k in corrections <==> x.corrections.Some? && k in x.corrections.value)
  {
    corrections := if x.corrections.Some? then x.corrections.value else map[];
    var baselineGrid := if x.baseline.Ok? then x.baseline.value else Zeros(FallbackBaselineShape);
    corrections := corrections["baseline" := x.interpolate(baselineGrid)];
  }

  /** The second update (product.py:369-386): the solid-earth tide, computed
      only when both line-of-sight files are given. Together with
      `UpdateBaseline` it yields `Corrections`. */
  method UpdateSolidEarth(x: ProductInputs, withBaseline: map<string, seq<Float>>)
    returns (r: Result<map<string, seq<Float>>>)
    requires withBaseline == WithBaseline(x.corrections, x.interpolate(BaselineGrid(x.baseline)))
    ensures r == Corrections(x.corrections, x.interpolate(BaselineGrid(x.baseline)),
                             x.losEast, x.losNorth, x.solidEarthTide)
  {
    var corrections := withBaseline;
    if x.losEast.Some? && x.losNorth.Some? {
      if x.solidEarthTide.Err? {
        return Err(x.solidEarthTide.error);
      }
      corrections := corrections["solid_earth" := x.solidEarthTide.value];
    }
    r := Ok(corrections);
  }

  /** `create_output_product`, in the order its steps can fail. */
  method CreateOutputProduct(x: ProductInputs) returns (r: Result<Product>)
    requires SameShape(x)
    ensures r == Assemble(x)
  {
    if |x.referenceFiles| == 0 {
      return Err(ValueError("Missing input reference cslc files"));
    }
    if |x.secondaryFiles| == 0 {
      return Err(ValueError("Missing input secondary cslc files"));
    }
    var referenceEnds := StartEnd.StartEndCslcs(x.referenceFiles).value;
    var secondaryEnds := StartEnd.StartEndCslcs(x.secondaryFiles).value;
    var withBaseline := UpdateBaseline(x);
    var footprint := if x.footprint.Ok? then x.footprint.value else "";
    var disp, shortWavelength := MaskedDisplacement(x);
    var recommended := QualityMask.RecommendedMask(x.coherence, x.conncomp, x.similarity, x.waterMask);
    var layers, err := WriteDiagnosticLayers(x.diagnosticInfos, x.diagnosticSources, x.shape);
    if err.Some? {
      return Err(err.value);
    }
    var corrections := UpdateSolidEarth(x, withBaseline);
    if corrections.Err? {
      return Err(corrections.error);
    }
    var identification := Identification.Summarize(x.inputFiles);
    if identification.Err? {
      return Err(identification.error);
    }
    r := Ok(Product(
      referenceEnds, secondaryEnds, disp, shortWavelength, recommended, layers,
      CorrectionGroupLayers(corrections.value, x.shape), ReferencePointAttrs(x.referencePoint), footprint,
      identification.value));
  }
}
