/** The translation of a PGE run configuration into the displacement
    workflow's parameters: `_parse_algorithm_overrides`,
    `_override_parameters`, `_parse_reference_date_json` and
    `RunConfig.to_workflow` of src/disp_s1/pge_runconfig.py. */
module RunConfig {
  import opened Wrappers
  import opened ParamDicts
  import opened ReferenceDates
  import Text

  /** The key under which the algorithm parameters name their override file. */
  const OverridesKey := "algorithm_parameters_overrides_json"

  /** The fields of `AlgorithmParameters` that hold an options record. */
  const SectionKeys: set<string> :=
    {"ps_options", "phase_linking", "interferogram_network", "unwrap_options",
     "timeseries_options", "output_options"}

  /** Every field of `AlgorithmParameters`; the record forbids any other. */
  const ParameterKeys: set<string> :=
    SectionKeys + {OverridesKey, "subdataset", "spatial_wavelength_cutoff", "browse_image_vmin_vmax"}

  const MismatchMessage := "The CSLC data and frame id do not match"

  /** `str(frame_id)`, the key of a frame in the JSON databases. */
  function FrameKey(frameId: int): string
  {
    Text.IntToString(frameId)
  }

  /** The checks `AlgorithmParameters(**d)` makes that the model relies on:
      no unknown field, every options field a record, the subdataset a string. */
  predicate Validates(d: Dict)
  {
    && d.Keys <= ParameterKeys
    && SectionKeys <= d.Keys
    && (forall k | k in SectionKeys :: d[k].VDict?)
    && "subdataset" in d && d["subdataset"].VStr?
    && (OverridesKey in d ==> d[OverridesKey].VNone? || d[OverridesKey].VStr?)
  }

  /** `AlgorithmParameters.model_dump()`: every field present and valid. */
  predicate IsDump(d: Dict)
  {
    Validates(d) && d.Keys == ParameterKeys
  }

  /** The entries `to_workflow` edits are present, with the options records as maps. */
  predicate HasEditedEntries(d: Dict)
  {
    && "subdataset" in d
    && "output_options" in d && d["output_options"].VDict?
    && "timeseries_options" in d && d["timeseries_options"].VDict?
    && "phase_linking" in d && d["phase_linking"].VDict?
  }

  /** `AlgorithmParameters(**d).model_dump()`: a missing overrides path
      takes its default `None`. */
  function Revalidate(d: Dict): (r: Result<Dict>)
    ensures r.Ok? <==> Validates(d)
    ensures r.Ok? ==> Validates(r.value) && OverridesKey in r.value
    ensures r.Ok? ==> r.value.Keys == d.Keys + {OverridesKey} && forall k | k in d :: r.value[k] == d[k]
    ensures r.Ok? && OverridesKey !in d ==> r.value == d[OverridesKey := VNone]
  {
    if !Validates(d) then Err(ValidationError)
    else if OverridesKey in d then Ok(d)
    else Ok(d[OverridesKey := VNone])
  }

  /** `_parse_algorithm_overrides` (pge_runconfig.py:492-503) once the file
      is read: `document` is the parsed JSON, None when there is no file. */
  function ParseAlgorithmOverrides(document: Option<Value>, frameId: int): (r: Result<Value>)
    ensures document.None? ==> r == Ok(VDict(map[]))
    ensures document.Some? && document.value.VDict? && "data" in document.value.fields ==>
      var data := document.value.fields["data"];
      && (data.VDict? <==> r.Ok?)
      && (data.VDict? && FrameKey(frameId) in data.fields ==> r == Ok(data.fields[FrameKey(frameId)]))
      && (data.VDict? && FrameKey(frameId) !in data.fields ==> r == Ok(VDict(map[])))
    ensures document.Some? && document.value.VDict? && "data" !in document.value.fields ==>
      var top := document.value.fields;
      && (FrameKey(frameId) in top ==> r == Ok(top[FrameKey(frameId)]))
      && (FrameKey(frameId) !in top ==> r == Ok(VDict(map[])))
    ensures document.Some? && !document.value.VDict? ==> r.Err?
    ensures document.Some? && document.value.VList? ==>
      r == (if VStr("data") in document.value.items then Err(TypeError) else Err(AttributeError))
    ensures document.Some? && document.value.VStr? ==>
      r == (if Text.Contains(document.value.s, "data") then Err(TypeError) else Err(AttributeError))
  {
    match document
    case None => Ok(VDict(map[]))
    case Some(VDict(top)) =>
      if "data" in top then
        (match top["data"]
         case VDict(data) => Ok(Get(data, FrameKey(frameId)))
         case _ => Err(AttributeError))
      else Ok(Get(top, FrameKey(frameId)))
    // On a list or a string `"data" in doc` is a membership or substring
    // test: when it holds, `doc["data"]` indexes with a string (TypeError);
    // otherwise `doc.get` does not exist (AttributeError).
    case Some(VList(items)) => if VStr("data") in items then Err(TypeError) else Err(AttributeError)
    case Some(VStr(text)) => if Text.Contains(text, "data") then Err(TypeError) else Err(AttributeError)
    // `"data" in doc` on a number, a boolean or None is a TypeError
    case Some(_) => Err(TypeError)
  }

  /** Opening the override file named by the parameters: None when no file
      is named, the parsed document when it exists in `jsonFiles`. */
  function OverrideDocument(path: Value, jsonFiles: map<string, Value>): Result<Option<Value>>
    requires path.VNone? || path.VStr?
  {
    if path.VNone? then Ok(None)
    else if path.s in jsonFiles then Ok(Some(jsonFiles[path.s]))
    else Err(FileNotFoundError(path.s))
  }

  /** `_override_parameters` (pge_runconfig.py:409-421) followed by the
      re-validation in `to_workflow` (pge_runconfig.py:283-285): the
      overrides path is popped, the frame's overrides are merged in, and the
      record is rebuilt.  Merging a non-empty map over a scalar makes
      `_nested_update` fail; the model reports that failure as a TypeError.
      No failure here is the burst-mismatch `ValueError` of `to_workflow`. */
  function OverrideParameters(params: Dict, frameId: int, jsonFiles: map<string, Value>): (r: Result<Dict>)
    requires IsDump(params)
    ensures r.Ok? ==> IsDump(r.value) && HasEditedEntries(r.value)
    ensures r.Err? ==> !r.error.ValueError?
  {
    var paramDict := params - {OverridesKey};
    var document :- OverrideDocument(params[OverridesKey], jsonFiles);
    var overrides :- ParseAlgorithmOverrides(document, frameId);
    if !overrides.VDict? then Err(AttributeError)
    else if !Compatible(paramDict, overrides.fields) then Err(TypeError)
    else Revalidate(Merge(paramDict, overrides.fields))
  }

  /** Without overrides for the frame the parameters come back as they
      were, except that the overrides path is reset to `None`. */
  lemma NoOverridesKeepParameters(params: Dict, frameId: int, jsonFiles: map<string, Value>)
    requires IsDump(params)
    requires OverrideDocument(params[OverridesKey], jsonFiles).Ok?
    requires ParseAlgorithmOverrides(OverrideDocument(params[OverridesKey], jsonFiles).value, frameId)
      == Ok(VDict(map[]))
    ensures OverrideParameters(params, frameId, jsonFiles) == Ok(params[OverridesKey := VNone])
  {
    var paramDict := params - {OverridesKey};
    MergeWithNothing(paramDict);
    assert Merge(paramDict, map[]) == paramDict;
    assert paramDict[OverridesKey := VNone] == params[OverridesKey := VNone];
  }

  /** A scalar override of the frame reaches the rebuilt parameters at its
      own key path (the overrides path itself excepted, which is popped). */
  lemma OverrideLeafWins(params: Dict, frameId: int, jsonFiles: map<string, Value>, path: seq<string>)
    requires IsDump(params)
    requires OverrideDocument(params[OverridesKey], jsonFiles).Ok?
    requires ParseAlgorithmOverrides(OverrideDocument(params[OverridesKey], jsonFiles).value, frameId).Ok?
    requires var o := ParseAlgorithmOverrides(OverrideDocument(params[OverridesKey], jsonFiles).value, frameId).value;
      o.VDict? && Lookup(o.fields, path).Some? && !Lookup(o.fields, path).value.VDict?
    requires OverrideParameters(params, frameId, jsonFiles).Ok?
    ensures var o := ParseAlgorithmOverrides(OverrideDocument(params[OverridesKey], jsonFiles).value, frameId).value;
      Lookup(OverrideParameters(params, frameId, jsonFiles).value, path) == Lookup(o.fields, path)
  {
    var o := ParseAlgorithmOverrides(OverrideDocument(params[OverridesKey], jsonFiles).value, frameId).value;
    var paramDict := params - {OverridesKey};
    MergeOverridesLeaves(paramDict, o.fields, path);
    var merged := Merge(paramDict, o.fields);
    assert path[0] in merged;
  }

  /** `_parse_reference_date_json` (pge_runconfig.py:477-489) once the file
      is read: `database` maps frame keys to the parsed datetimes, None when
      no file is given. */
  function ParseReferenceDateJson(database: Option<map<string, seq<DateTime>>>, frameId: int)
    : (r: Result<seq<DateTime>>)
    ensures database.None? ==> r == Ok([])
    ensures database.Some? ==>
      (r.Ok? <==> FrameKey(frameId) in database.value) &&
      (r.Ok? ==> r.value == database.value[FrameKey(frameId)]) &&
      (r.Err? ==> r.error == KeyError(FrameKey(frameId)))
  {
    match database
    case None => Ok([])
    case Some(db) =>
      if FrameKey(frameId) in db then Ok(db[FrameKey(frameId)])
      else Err(KeyError(FrameKey(frameId)))
  }

  /** What the frame database says about the frame: its bounding box, the
      EPSG code of the box, and the bursts that make it up. */
  datatype FrameInfo = FrameInfo(boundsEpsg: int, bounds: Value, burstIds: set<string>)

  /** One entry of `group_by_burst(cslc_file_list)`: a burst id and its
      files, sorted by date. */
  datatype BurstGroup = BurstGroup(burstId: string, files: seq<StackFile>)

  /** The parts of the `DisplacementWorkflow` that the translation decides. */
  datatype Workflow = Workflow(inputOptions: Dict, parameters: Dict)

  function DataBurstIds(groups: seq<BurstGroup>): (r: set<string>)
    ensures forall b :: b in r <==> exists i | 0 <= i < |groups| :: groups[i].burstId == b
  {
    set i | 0 <= i < |groups| :: groups[i].burstId
  }

  /** How the extra reference date is stored in the output options. */
  function DateValue(d: Option<Date>): Value
  {
    if d.Some? then VDate(d.value) else VNone
  }

  /** The workflow built from the rebuilt parameters `p`: the subdataset
      moves into the input options, the frame's bounds go into the output
      options, overviews, velocity and any inversion other than L1 are
      switched off, the resolved reference index and extra date are set,
      and every other entry is kept. */
  predicate PolicyApplied(p: Dict, frame: FrameInfo, res: Resolved, w: Workflow)
  {
    var q := w.parameters;
    && "subdataset" in p && w.inputOptions == map["subdataset" := p["subdataset"]]
    && q.Keys == p.Keys - {"subdataset"}
    && (forall k | k in q && k !in {"output_options", "timeseries_options", "phase_linking"} :: q[k] == p[k])
    && "output_options" in p && p["output_options"].VDict?
    && q["output_options"] == VDict(p["output_options"].fields
         ["bounds" := frame.bounds]["bounds_epsg" := VInt(frame.boundsEpsg)]
         ["add_overviews" := VBool(false)]["extra_reference_date" := DateValue(res.extraReferenceDate)])
    && "timeseries_options" in p && p["timeseries_options"].VDict?
    && q["timeseries_options"] == VDict(p["timeseries_options"].fields
         ["run_velocity" := VBool(false)]["method" := VStr("L1")])
    && "phase_linking" in p && p["phase_linking"].VDict?
    && q["phase_linking"] == VDict(p["phase_linking"].fields
         ["output_reference_idx" := VInt(res.outputReferenceIdx)])
  }

  /** `RunConfig.to_workflow` (pge_runconfig.py:260-342), from the loaded
      algorithm parameters, the frame's database entry, the CSLC files
      grouped by burst and the reference-date database. */
  method ToWorkflow(params: Dict, frameId: int, jsonFiles: map<string, Value>, frame: FrameInfo,
                    groups: seq<BurstGroup>, referenceDatabase: Option<map<string, seq<DateTime>>>)
    returns (r: Result<Workflow>)
    requires IsDump(params)
    ensures var over := OverrideParameters(params, frameId, jsonFiles);
      over.Err? ==> r == Err(over.error)
    ensures var over := OverrideParameters(params, frameId, jsonFiles);
      r == Err(ValueError(MismatchMessage)) <==> over.Ok? && !(DataBurstIds(groups) <= frame.burstIds)
    ensures r.Ok? <==>
      && OverrideParameters(params, frameId, jsonFiles).Ok?
      && DataBurstIds(groups) <= frame.burstIds
      && ParseReferenceDateJson(referenceDatabase, frameId).Ok?
      && |groups| > 0
    ensures r.Ok? ==>
      PolicyApplied(OverrideParameters(params, frameId, jsonFiles).value, frame,
        Resolve(groups[0].files, RequestedDates(ParseReferenceDateJson(referenceDatabase, frameId).value)),
        r.value)
  {
    var paramDict :- OverrideParameters(params, frameId, jsonFiles);

    var frameBurstIds := frame.burstIds;
    var dataBurstIds := DataBurstIds(groups);
    var mismatched := dataBurstIds - frameBurstIds;
    if mismatched != {} {
      return Err(ValueError(MismatchMessage));
    }
    assert dataBurstIds <= frameBurstIds by {
      forall b | b in dataBurstIds ensures b in frameBurstIds {
        assert b !in mismatched;
      }
    }
    r := EditParameters(paramDict, frameId, frame, groups, referenceDatabase);
  }

  /** The part of `to_workflow` after the consistency check
      (pge_runconfig.py:303-342): the policy edits, then the reference-date
      resolution over the first burst's files. */
  method EditParameters(p: Dict, frameId: int, frame: FrameInfo, groups: seq<BurstGroup>,
                        referenceDatabase: Option<map<string, seq<DateTime>>>)
    returns (r: Result<Workflow>)
    requires HasEditedEntries(p)
    ensures r.Ok? <==> ParseReferenceDateJson(referenceDatabase, frameId).Ok? && |groups| > 0
    ensures r.Err? ==> r.error == IndexError || r.error == KeyError(FrameKey(frameId))
    ensures r.Ok? ==>
      PolicyApplied(p, frame,
        Resolve(groups[0].files, RequestedDates(ParseReferenceDateJson(referenceDatabase, frameId).value)),
        r.value)
  {
    var paramDict := p;
    var inputOptions := map["subdataset" := paramDict["subdataset"]];
    paramDict := paramDict - {"subdataset"};
    // the three option records are edited in place in the source
    var outputOptions := paramDict["output_options"].fields;
    var timeseriesOptions := paramDict["timeseries_options"].fields;
    var phaseLinking := paramDict["phase_linking"].fields;
    outputOptions := outputOptions["bounds" := frame.bounds];
    outputOptions := outputOptions["bounds_epsg" := VInt(frame.boundsEpsg)];
    outputOptions := outputOptions["add_overviews" := VBool(false)];
    timeseriesOptions := timeseriesOptions["run_velocity" := VBool(false)];
    timeseriesOptions := timeseriesOptions["method" := VStr("L1")];

    var referenceDatetimes :- ParseReferenceDateJson(referenceDatabase, frameId);
    if |groups| == 0 {
      // `list(group_by_burst(...).keys())[0]` on an empty grouping
      return Err(IndexError);
    }
    var outputReferenceIdx, extraReferenceDate := ComputeReferenceDates(referenceDatetimes, groups[0].files);
    phaseLinking := phaseLinking["output_reference_idx" := VInt(outputReferenceIdx)];
    outputOptions := outputOptions["extra_reference_date" := DateValue(extraReferenceDate)];
    paramDict := paramDict["output_options" := VDict(outputOptions)]
                          ["timeseries_options" := VDict(timeseriesOptions)]
                          ["phase_linking" := VDict(phaseLinking)];
    r := Ok(Workflow(inputOptions, paramDict));
  }
}
