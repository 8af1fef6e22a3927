# disp-s1 run configuration and product assembly, in Dafny

This project models the decision logic of two files of the OPERA DISP-S1
product generator and proves properties of it.

- `src/disp_s1/pge_runconfig.py` translates a PGE run configuration into a
  displacement workflow:
  - a frame's algorithm-parameter overrides are merged into the defaults
    (`_nested_update`, `_parse_algorithm_overrides`, `_override_parameters`);
  - the data's burst ids are checked against the frame's;
  - the fixed OPERA policy edits are applied;
  - the reference-date changeover is resolved against the frame's stack
    (`_get_first_after_selected`, `_compute_reference_dates`,
    `_parse_reference_date_json`).
- `src/disp_s1/product.py` assembles the displacement product. The modelled parts are:
  - the recommended-mask rule;
  - the NaN masking of the two displacement layers and the unit branch;
  - the choice of start and end CSLC files;
  - the fallbacks for a failed baseline or footprint computation;
  - the solid-earth-tide condition;
  - the fill-value diagnostic layers;
  - the corrections-group defaults and reference-point attributes;
  - the attribute and storage choices of `_create_dataset`;
  - the ASCII filter for configuration text;
  - the identification summaries;
  - `_copy_hdf5_dsets`;
  - the planning, naming and execution of the compressed-SLC products.

How things are represented:
- Dates are integers `yyyymmdd`; datetimes are a date plus a second of the day.
- Python dictionaries and JSON documents are the datatype `ParamDicts.Value`.
- Rasters are row-major sequences of pixels. A pixel is `Pixels.Float`, a number or NaN.
- An HDF5 file is a map from object path to group or dataset. `Hdf5Copy.Hdf5File` is the destination store, which the copy loop changes in place.

Where the code works step by step, the model does too: loops with invariants, arrays masked in place, the HDF5 store updated in place, and the corrections dict rebuilt step by step as a value. Each such method is proved equal to a specification function, and the properties are proved about those functions.

Modules, one per file:
- `Wrappers`: `Option`, `Result` and the exception kinds.
- `Text`: the string operations relied on.
- `ParamDicts`: values and the deep merge.
- `ReferenceDates`: the changeover resolver.
- `RunConfig`: `to_workflow` and the override and database lookups.
- `Pixels`, `Displacement` and `QualityMask`: the raster layers.
- `StartEnd`: the start and end files.
- `Metadata`: the ASCII filter and `_create_dataset`.
- `Identification`: the identification summaries.
- `Hdf5Copy`: the metadata copy.
- `CompressedProducts`: the compressed-SLC products.
- `ProductAssembly`: the `create_output_product` decisions.

External computations are inputs, or oracles given as function-typed parameters:
- GDAL reads;
- the long-wavelength filter;
- the baseline model and its interpolation;
- footprint extraction;
- the solid-earth tide model;
- the HDF5 writes of a compressed product.

Library parsers are record fields filled in by the caller: `get_dates`, `group_by_burst`, `sort_files_by_date`, burst-id parsing, and the frame database.

Behaviour the model keeps as the code has it:
- A dict override of a scalar makes the Python recursion of `_nested_update` crash with an ordinary exception. For the merge on its own it is a precondition; inside `to_workflow` it is an ordinary error.
- A burst-id mismatch is a plain `ValueError`.
- `create_output_product` does not check raster shapes; equal lengths are a precondition.
- The solid-earth-tide computation is not guarded. Its error propagates, and only the baseline and footprint computations fall back.
- A failing compressed-SLC task raises out of `create_compressed_products`: the first failing task, in task order, decides the error. An existing output is logged and written again.

## Model

| member | source | states |
|---|---|---|
| ParamDicts.NestedUpdate | src/disp_s1/pge_runconfig.py:506-512 | the loop over the update's keys, recursing into dict values, yields exactly the deep merge `Merge(base, updates)` |
| ParamDicts.MergeOverridesLeaves | src/disp_s1/pge_runconfig.py:506-512 | every non-dict leaf of the update is found at the same key path in the merged map |
| ParamDicts.MergeKeepsUntouched | src/disp_s1/pge_runconfig.py:506-512 | a key path the update never reaches keeps its base value, or stays absent |
| ParamDicts.MergeIdempotent | src/disp_s1/pge_runconfig.py:506-512 | merging the same update twice gives the same map as merging it once |
| ParamDicts.MergeWithNothing | src/disp_s1/pge_runconfig.py:506-512 | an empty update leaves the base unchanged |
| RunConfig.ParseAlgorithmOverrides | src/disp_s1/pge_runconfig.py:492-503 | no file gives `{}`; with a "data" key the frame is looked up under it, otherwise at the top level; an unknown frame gives `{}`; a document that is not a dict fails, with TypeError when `"data" in doc` holds for a list or string (indexing it by a string) and AttributeError when it does not (no `.get`) |
| RunConfig.OverrideParameters | src/disp_s1/pge_runconfig.py:409-421 | the override path is popped and the frame's overrides merged; a successful result is a complete, validated parameter dump holding the entries `to_workflow` edits; no failure carries the burst-mismatch message |
| RunConfig.Revalidate | src/disp_s1/pge_runconfig.py:284-286 | re-validation succeeds exactly on valid parameters; it keeps every entry and adds the override path as None when it was popped |
| RunConfig.NoOverridesKeepParameters | src/disp_s1/pge_runconfig.py:409-421 | with no overrides for the frame, the parameters come back unchanged apart from the emptied override path |
| RunConfig.OverrideLeafWins | src/disp_s1/pge_runconfig.py:409-421 | a scalar override of the frame appears at its key path in the rebuilt parameters |
| RunConfig.ParseReferenceDateJson | src/disp_s1/pge_runconfig.py:477-489 | no database gives `[]`; otherwise the frame's datetimes, or a `KeyError` for an unknown frame |
| RunConfig.DataBurstIds | src/disp_s1/pge_runconfig.py:298 | the data's burst-id set holds exactly the burst ids of the groups |
| RunConfig.ToWorkflow | src/disp_s1/pge_runconfig.py:260-342 | an override error passes through; `ValueError("The CSLC data and frame id do not match")` exactly when some data burst id is outside the frame's set; success exactly when every step succeeds; on success the policy edits are applied |
| RunConfig.EditParameters | src/disp_s1/pge_runconfig.py:303-323 | subdataset moves to the input options; bounds and bounds_epsg are injected; add_overviews, run_velocity and method are set to False, False and "L1"; the resolved reference index and extra date are written; a missing frame or an empty stack fails |
| ReferenceDates.FirstAtOrAfter | src/disp_s1/pge_runconfig.py:424-433 | -1 exactly when every date precedes the selected one; otherwise the least index whose date is on or after it |
| ReferenceDates.GetFirstAfterSelected | src/disp_s1/pge_runconfig.py:424-433 | the scan with early return computes the least index on or after the selected date, or -1 |
| ReferenceDates.RequestedDates | src/disp_s1/pge_runconfig.py:450 | strictly increasing, and holding exactly the dates of the requested datetimes |
| ReferenceDates.ComputeReferenceDates | src/disp_s1/pge_runconfig.py:436-474 | the loop over the sorted, de-duplicated requests computes `Resolve`, the fold of one request at a time from `(0, None)` |
| ReferenceDates.StepOnHit | src/disp_s1/pge_runconfig.py:452-472 | a request with no hit, or a hit at index 0, changes nothing; a compressed hit sets the index; a regular hit sets the extra date |
| ReferenceDates.ResolveAppliesChanges | src/disp_s1/pge_runconfig.py:452-472 | resolving a request list is applying each request's change in order |
| ReferenceDates.LastApplicableWins | src/disp_s1/pge_runconfig.py:452-474 | the index is 0 if no request hits a compressed entry past index 0, else the hit of the last such request; likewise the extra date with the last regular hit |
| ReferenceDates.NoChangeoverKeepsDefault | src/disp_s1/pge_runconfig.py:448-462 | no requests, or only requests on or before the first date or after the last, give `(0, None)` |
| ReferenceDates.ResolvedShape | src/disp_s1/pge_runconfig.py:448-474 | the index is 0 or that of a compressed entry past index 0; the extra date is None or the date of a regular entry past index 0 |
| ReferenceDates.ChangeoverExample | src/disp_s1/pge_runconfig.py:448-474 | on a monthly four-date stack, requests 2020-02-15 and 2020-03-01 both land on index 2, giving `(2, None)` or `(0, 2020-03-01)` depending on whether entry 2 is compressed |
| QualityMask.RecommendedMask | src/disp_s1/product.py:247-267 | a pixel is recommended exactly when it is not water, its connected component is non-zero, and its coherence is at least 0.6 or its similarity at least 0.5; masked readings count as 0 |
| QualityMask.IsWater | src/disp_s1/product.py:247-253 | without a water mask no pixel is water; with one, water is where the filled mask is 0 |
| QualityMask.RecommendedIsNotBad | src/disp_s1/product.py:264-267 | the recommended mask is the pixel-wise complement of the bad-pixel mask |
| Displacement.ToMeters | src/disp_s1/product.py:224-231 | "meters" passes the phase through; "radians", a missing unit or an unknown unit scales every pixel by phase2disp |
| Displacement.MaskWithNaN | src/disp_s1/product.py:280-282 | writing NaN in place sets exactly the masked pixels to NaN and leaves the others as they were |
| Displacement.DisplacementLayer | src/disp_s1/product.py:219-231 | a displacement pixel is NaN exactly where the phase was masked, zero or NaN; elsewhere it is the phase in meters |
| Displacement.ShortWavelengthLayer | src/disp_s1/product.py:270-282 | the short-wavelength layer is NaN at every bad pixel and the filtered value elsewhere |
| StartEnd.StartEndCslcs | src/disp_s1/product.py:163-172 | one file is both start and end; otherwise start and end are members of the list, the start's name is least and the end's greatest; an empty list fails to unpack |
| StartEnd.StartNotAfterEnd | src/disp_s1/product.py:163-172 | the start file's name never sorts after the end file's |
| StartEnd.SortBy | src/disp_s1/product.py:170 | `sorted` by a total preorder gives a sorted permutation of its input |
| StartEnd.SortByNameEnds | src/disp_s1/product.py:170-172 | the first of the name-sorted files has the least name and the last the greatest, both members of the input, and nothing is lost or added |
| StartEnd.AcquisitionFiles | src/disp_s1/product.py:158-172 | an empty reference list raises "Missing input reference cslc files"; an empty secondary list raises "Missing input secondary cslc files"; otherwise both start/end pairs |
| Metadata.AsciiOnly | src/disp_s1/product.py:1002-1020 | the filtered text is all ASCII, no longer than the input, and made of the input's characters |
| Metadata.AsciiOnlyAppend | src/disp_s1/product.py:1002-1020 | filtering a concatenation is concatenating the filtered parts |
| Metadata.AsciiOnlyKeepsAscii | src/disp_s1/product.py:1002-1020 | ASCII text passes through unchanged |
| Metadata.AsciiOnlyIdempotent | src/disp_s1/product.py:1002-1020 | filtering twice is filtering once |
| Metadata.CreateDataset | src/disp_s1/product.py:1131-1166 | the attributes keep the caller's, always set description, and set long_name when it is non-empty; chunked compressed storage is chosen exactly for arrays of more than one element |
| Identification.Earliest | src/disp_s1/product.py:703-712 | `sorted(...)[0]` is a member of the dates and precedes every one |
| Identification.Latest | src/disp_s1/product.py:703-712 | `sorted(...)[-1]` is a member of the dates and follows every one |
| Identification.Uncompressed | src/disp_s1/product.py:706-715 | exactly the files whose lower-cased path does not contain "compressed" |
| Identification.Summarize | src/disp_s1/product.py:703-772 | it fails with IndexError exactly when there is no CSLC, no uncompressed file, a name that carries no date, or an uncompressed name without a second date; otherwise the acquisition window is the earliest and latest acquisition, the processing window the earliest and latest uncompressed processing date, and the granule count the number of inputs |
| Hdf5Copy.RequireGroup | src/disp_s1/product.py:1415-1417 | an existing group is kept; a dataset in the way is an error; otherwise the group and its missing ancestors are created and nothing else changes |
| Hdf5Copy.Delete | src/disp_s1/product.py:1419-1421 | deleting a path removes it and everything inside it, and nothing else |
| Hdf5Copy.Subtree | src/disp_s1/product.py:1423-1426 | the copied object and everything inside it appear under the new name with the same contents |
| Hdf5Copy.MissingPath | src/disp_s1/product.py:1407-1413 | a path missing from the source raises exactly when error_on_missing is set, and the destination is unchanged either way |
| Hdf5Copy.CopyPlacesObject | src/disp_s1/product.py:1415-1426 | after a successful copy the source object and its contents sit at `parent/prepend+name` |
| Hdf5Copy.CopyMakesParent | src/disp_s1/product.py:1415-1417 | after a successful copy the parent group and its ancestors exist |
| Hdf5Copy.CopyRemovesOld | src/disp_s1/product.py:1419-1421 | after a successful copy under a different name, nothing remains at the source path |
| Hdf5Copy.Hdf5File.CopyPath | src/disp_s1/product.py:1407-1426 | one loop pass changes the store exactly as `CopyOne` says, keeping the effects made before an error |
| Hdf5Copy.Hdf5File.CopyDsets | src/disp_s1/product.py:1399-1426 | the loop over the paths leaves the store, and returns the error, exactly as the fold `CopyAll` says |
| Hdf5Copy.ErrorEndsLoop | src/disp_s1/product.py:1406-1413 | once an error is raised, later paths change nothing |
| CompressedProducts.Matching | src/disp_s1/product.py:1542-1544 | the date and burst filters keep exactly the CSLCs that carry the reference date and the burst id |
| CompressedProducts.LastMatch | src/disp_s1/product.py:1552 | `matching_files[-1]` is the last CSLC of the input list that matches |
| CompressedProducts.PlanTask | src/disp_s1/product.py:1540-1555 | a task fails with IndexError exactly when the compressed file has no date or no CSLC matches; otherwise it carries the burst, the file, the output directory and a matching CSLC |
| CompressedProducts.PlanAllInOrder | src/disp_s1/product.py:1539-1555 | the plan has one task per (burst, compressed file) pair, in iteration order, and fails exactly when some pair's task fails |
| CompressedProducts.PairsCover | src/disp_s1/product.py:1539-1540 | the pairs are exactly the (burst, file) pairs of the groups |
| CompressedProducts.PlanTasks | src/disp_s1/product.py:1539-1555 | the nested loop appending to `compressed_slc_infos` computes `PlanAll` over the flattened pairs |
| CompressedProducts.PlanBurst | src/disp_s1/product.py:1540-1555 | the inner loop for one burst extends the plan by that burst's pairs |
| CompressedProducts.DateStringRoundTrip | src/disp_s1/product.py:1318 | a date's string has eight digits and reads back as the date |
| CompressedProducts.ProductIsCompressed | src/disp_s1/product.py:77 | every product named from the template is recognised as compressed by the stem test of the reference-date resolver |
| CompressedProducts.CollectSpec | src/disp_s1/product.py:1562 | collecting the results gives every value in task order, or the error of the first failing task |
| CompressedProducts.OrderedRunIsCollect | src/disp_s1/product.py:1557-1562 | running the tasks one after another gives the same result as collecting independently computed results, so the returned list or error does not depend on the executor |
| CompressedProducts.RunTasks | src/disp_s1/product.py:1557-1562 | the sequential executor's loop computes the in-order run, stopping at the first error |
| CompressedProducts.CreateCompressedProducts | src/disp_s1/product.py:1510-1564 | a planning failure raises IndexError; otherwise, for either executor, the result is the in-order run of the planned tasks |
| ProductAssembly.DiagnosticFallback | src/disp_s1/product.py:350-354 | a layer whose file is not given or not on disk is a constant fill-value raster of the product's shape; otherwise it is the file's raster |
| ProductAssembly.DiagnosticZipStrict | src/disp_s1/product.py:350 | layers are written up to the shorter list, and a `ValueError` follows exactly when the lists differ in length |
| ProductAssembly.WriteDiagnosticLayers | src/disp_s1/product.py:350-365 | the loop writes the layers and raises as the strict zip says |
| ProductAssembly.Corrections | src/disp_s1/product.py:147-386 | "baseline" is set to the interpolated grid; "solid_earth" is set to the tide result exactly when both line-of-sight files are given; the tide error propagates; other entries are the caller's |
| ProductAssembly.UpdateBaseline | src/disp_s1/product.py:147-208 | the dict gets the interpolated baseline (the interpolated zero grid when the baseline failed); every other key is the caller's |
| ProductAssembly.UpdateSolidEarth | src/disp_s1/product.py:369-386 | after the baseline update, adding the tide only when both line-of-sight files are given yields `Corrections` |
| ProductAssembly.LayerOrZeros | src/disp_s1/product.py:448-479 | a correction absent from the dict is a zero raster of the product's shape; a present one is taken as given |
| ProductAssembly.ReferencePointAttrs | src/disp_s1/product.py:492-508 | the attributes are rows, cols, latitudes, longitudes and units, with units "unitless" |
| ProductAssembly.ReferencePointListsAgree | src/disp_s1/product.py:492-508 | the four coordinate lists have one entry each (the point's row, col, lat and lon) with a reference point, and none without |
| ProductAssembly.MissingCslcFilesRaise | src/disp_s1/product.py:158-161 | an empty reference list, then an empty secondary list, raise their `ValueError` before anything else |
| ProductAssembly.FallbacksDoNotPropagate | src/disp_s1/product.py:191-215 | whether the product is made does not depend on the baseline or footprint computation failing |
| ProductAssembly.FallbackValues | src/disp_s1/product.py:191-215 | a failed baseline gives the interpolated 100 x 100 zero grid; a failed footprint gives ""; a successful baseline is interpolated as computed |
| ProductAssembly.SolidEarthNeedsBothLos | src/disp_s1/product.py:369-386 | with both line-of-sight files the solid-earth layer is the tide result; otherwise it is the caller's solid-earth correction, or zeros |
| ProductAssembly.IonosphereDefaultsToZeros | src/disp_s1/product.py:459-467 | without a caller ionosphere correction, the ionosphere layer is zeros of the product's shape |
| ProductAssembly.MaskedDisplacement | src/disp_s1/product.py:219-282 | masking the two array layers in place gives the displacement and short-wavelength layers |
| ProductAssembly.AssembleSucceeds | src/disp_s1/product.py:158-412 | the product is made exactly when the input lists are non-empty, the diagnostic lists have equal lengths, the tide succeeds where it is computed, and the CSLC list can be summarised |
| ProductAssembly.IdentificationDecides | src/disp_s1/product.py:398-412 | once the corrections are written, the product is made exactly when the run configuration's CSLC list can be summarised, and it records that summary; an empty list, or one holding only compressed files, raises IndexError |
| ProductAssembly.CreateOutputProduct | src/disp_s1/product.py:80-412 | the assembly runs in source order: input-list checks, the baseline update with its fallback, the footprint fallback, in-place NaN masking, the diagnostic loop, the solid-earth update, then the identification summary; it computes `Assemble` |

## Left out

- HDF5/NetCDF writing is not modelled beyond `_copy_hdf5_dsets`: group and variable creation, CF attributes, chunk and page options, grid mapping, and the x/y and time coordinates.
- `Hdf5Copy.Item` has no attributes: `src.copy` also copies the attributes of each copied group and dataset, which the model does not carry.
- GDAL reads, CRS and geotransform queries, and `extract_footprint` are not modelled. Their results are inputs; a failing footprint is a `Result`.
- The long-wavelength filter, `compute_baselines`, `_interpolate_data`, the solid-earth tide model and the browse image are not modelled. They are oracles or inputs.
- Floating point is not modelled. `round_mantissa`, the `phase2disp` wavelength arithmetic and the float32/uint8 casts are absent, and the unit conversion is an abstract real factor.
- Pydantic validation is reduced to the checks `to_workflow` relies on. `Revalidate` does not fill nested defaults, and YAML reading and `from_workflow` are left out.
- The library filename parsers are not modelled: `get_dates`, `group_by_burst`, `sort_files_by_date`, `filter_by_date`, `filter_by_burst_id` and burst-id parsing. Their results are record fields. `filter_by_date(files, [d])` is taken to keep the files among whose dates `d` appears.
- JSON reading and ISO datetime parsing are not modelled. Documents arrive already parsed.
- `RunConfig.OverrideParameters`: a non-empty override dict meeting a scalar is reported as TypeError. In the source, `_nested_update` raises AttributeError instead when the first entry it reaches there is itself a dict (`base.get` on the scalar). Which entry comes first depends on the JSON key order, which a map does not keep.
- `RunConfig.OverrideParameters`: the error kinds are distinct constructors. Pydantic's `ValidationError` subclasses `ValueError` in Python, so an `except ValueError` would also catch a failed re-validation; the model does not encode that subclassing.
- `ParamDicts.NestedUpdate`: the model returns the merged map as a new value. The in-place mutation of `base` and any aliasing of it are not modelled.
- `Metadata.CreateDataset`: the caller's `attrs` dict is updated in place in the source. The model returns the new attributes.
- `ProductAssembly.CreateOutputProduct`: the caller's `corrections` dict is mutated in place in the source. The model returns the corrections as a value. Effects written before an error (layers already in the file, or the dict entries) are not part of the error result.
- `ProductAssembly.CreateOutputProduct`: the steps after the identification group, `_create_metadata_group` and the CSLC metadata copy into the product, are not part of `Assemble`; errors they raise are not modelled.
- `ProductAssembly.SameShape`: numpy broadcasting of rasters with different shapes is not modelled. All rasters are required to have the product's size.
- `QualityMask.BadPixelMask`: the temporal coherence is read masked but never filled in the source. The model uses plain values for it.
- `CompressedProducts.CreateCompressedProducts`: the process pool and spawn context are not modelled. Only the ordered `map` result is, and the two executors are shown to agree on it. With the pool, tasks already dispatched after a failing one still run and write their files, while the sequential `map` stops at the failure; those files are not modelled.
- `CompressedProducts.OutputName`: `Path` normalisation of the output directory is not modelled. The name is the directory, "/", and the template.
- `Hdf5Copy.Parent`: paths are taken as written, without `Path` normalisation of repeated or trailing separators.
- `Text.ToLower`: lower-cases ASCII letters only. Unicode case mapping is not modelled.
- The product-layer table `DISPLACEMENT_PRODUCTS` (names, fill values, dtypes) is defined in `product_info.py`, which is not part of this model. Its entries are parameters.
- `_create_identification_group` fields other than the date windows, satellites and granule count are not modelled; they are attribute plumbing.
