/** Planning and naming of the compressed-SLC output products
    (`create_compressed_products` and `process_compressed_slc`,
    src/disp_s1/product.py:1310-1564). */
module CompressedProducts {
  import opened Wrappers
  import ReferenceDates
  import Text

  /** A CSLC input, with the burst id and dates parsed from its name. */
  datatype CslcFile = CslcFile(path: string, burstId: string, dates: seq<nat>)

  /** A compressed SLC, with the dates parsed from its name (reference first). */
  datatype CompressedFile = CompressedFile(path: string, dates: seq<nat>)

  /** `CompressedSLCInfo`: the data for one compressed product. */
  datatype CompressedSlcInfo = CompressedSlcInfo(
    burstId: string, compSlcFile: CompressedFile, outputDir: string, operaCslcFile: CslcFile)

  /** The compressed files per burst id, in the mapping's iteration order. */
  type BurstGroups = seq<(string, seq<CompressedFile>)>

  // ---------------------------------------------------------------------
  // Choosing the CSLC whose metadata goes with a compressed SLC
  // ---------------------------------------------------------------------

  /** Kept by `filter_by_date(..., [refDate])` and then `filter_by_burst_id(..., burstId)`. */
  predicate Matches(c: CslcFile, refDate: nat, burstId: string)
  {
    refDate in c.dates && c.burstId == burstId
  }

  /** The two filters in a row, keeping the input order. */
  function Matching(files: seq<CslcFile>, refDate: nat, burstId: string): (r: seq<CslcFile>)
    ensures forall c :: c in r <==> c in files && Matches(c, refDate, burstId)
  {
    if files == [] then []
    else
      var n := |files|;
      var before := Matching(files[..n - 1], refDate, burstId);
      assert files == files[..n - 1] + [files[n - 1]];
      if Matches(files[n - 1], refDate, burstId) then before + [files[n - 1]] else before
  }

  /** `matching_files[-1]` is the last input file that matches. */
  lemma {:induction false} LastMatch(files: seq<CslcFile>, refDate: nat, burstId: string) returns (j: nat)
    requires Matching(files, refDate, burstId) != []
    ensures j < |files|
    ensures var m := Matching(files, refDate, burstId); files[j] == m[|m| - 1]
    ensures Matches(files[j], refDate, burstId)
    ensures forall k | j < k < |files| :: !Matches(files[k], refDate, burstId)
  {
    var n := |files|;
    if Matches(files[n - 1], refDate, burstId) {
      j := n - 1;
    } else {
      j := LastMatch(files[..n - 1], refDate, burstId);
    }
  }

  /** The body of the inner loop (product.py:1540-1555): the reference date
      is the compressed file's first date, and the last matching CSLC is
      taken; no date or no match is an `IndexError`. */
  function PlanTask(burstId: string, comp: CompressedFile, outputDir: string, cslcs: seq<CslcFile>)
    : (r: Result<CompressedSlcInfo>)
    ensures r.Err? <==> comp.dates == [] || Matching(cslcs, comp.dates[0], burstId) == []
    ensures r.Err? ==> r.error == IndexError
    ensures r.Ok? ==> r.value.burstId == burstId && r.value.compSlcFile == comp && r.value.outputDir == outputDir
    ensures r.Ok? ==> r.value.operaCslcFile in cslcs && Matches(r.value.operaCslcFile, comp.dates[0], burstId)
  {
    if comp.dates == [] then Err(IndexError)
    else
      var m := Matching(cslcs, comp.dates[0], burstId);
      if m == [] then Err(IndexError)
      else Ok(CompressedSlcInfo(burstId, comp, outputDir, m[|m| - 1]))
  }

  // ---------------------------------------------------------------------
  // Planning all tasks
  // ---------------------------------------------------------------------

  /** The (burst id, compressed file) pairs of one burst. */
  function Row(burstId: string, files: seq<CompressedFile>): (r: seq<(string, CompressedFile)>)
    ensures |r| == |files| && forall i | 0 <= i < |files| :: r[i] == (burstId, files[i])
  {
    seq(|files|, i requires 0 <= i < |files| => (burstId, files[i]))
  }

  /** The pairs of the nested loop, in iteration order. */
  function Pairs(groups: BurstGroups): seq<(string, CompressedFile)>
  {
    if groups == [] then []
    else
      var n := |groups|;
      Pairs(groups[..n - 1]) + Row(groups[n - 1].0, groups[n - 1].1)
  }

  /** Every pair comes from a group, and every file of a group yields a pair. */
  lemma {:induction false} PairsCover(groups: BurstGroups)
    ensures forall b, f :: (b, f) in Pairs(groups) <==> exists g | g in groups :: g.0 == b && f in g.1
  {
    if groups != [] {
      var n := |groups|;
      PairsCover(groups[..n - 1]);
      assert groups == groups[..n - 1] + [groups[n - 1]];
      var row := Row(groups[n - 1].0, groups[n - 1].1);
      forall b, f ensures (b, f) in row <==> groups[n - 1].0 == b && f in groups[n - 1].1 {
        if f in groups[n - 1].1 && groups[n - 1].0 == b {
          var i :| 0 <= i < |groups[n - 1].1| && groups[n - 1].1[i] == f;
          assert row[i] == (b, f);
        }
      }
    }
  }

  /** Planning the pairs in order; the first failing task ends it. */
  function PlanAll(pairs: seq<(string, CompressedFile)>, outputDir: string, cslcs: seq<CslcFile>)
    : Result<seq<CompressedSlcInfo>>
  {
    if pairs == [] then Ok([])
    else
      var n := |pairs|;
      var before := PlanAll(pairs[..n - 1], outputDir, cslcs);
      if before.Err? then before
      else
        var t := PlanTask(pairs[n - 1].0, pairs[n - 1].1, outputDir, cslcs);
        if t.Err? then Err(t.error) else Ok(before.value + [t.value])
  }

  /** The plan has one task per pair, in pair order, and fails exactly when
      some pair has no date or no matching CSLC. */
  lemma {:induction false} PlanAllInOrder(pairs: seq<(string, CompressedFile)>, outputDir: string, cslcs: seq<CslcFile>)
    ensures var r := PlanAll(pairs, outputDir, cslcs);
      r.Ok? <==> forall i | 0 <= i < |pairs| :: PlanTask(pairs[i].0, pairs[i].1, outputDir, cslcs).Ok?
    ensures var r := PlanAll(pairs, outputDir, cslcs);
      r.Ok? ==> |r.value| == |pairs|
    ensures var r := PlanAll(pairs, outputDir, cslcs);
      r.Ok? ==> forall i | 0 <= i < |pairs| :: Ok(r.value[i]) == PlanTask(pairs[i].0, pairs[i].1, outputDir, cslcs)
    ensures PlanAll(pairs, outputDir, cslcs).Err? ==> PlanAll(pairs, outputDir, cslcs).error == IndexError
  {
    if pairs != [] {
      var n := |pairs|;
      var front := pairs[..n - 1];
      PlanAllInOrder(front, outputDir, cslcs);
      assert forall i | 0 <= i < n - 1 :: front[i] == pairs[i];
      var before := PlanAll(front, outputDir, cslcs);
      var t := PlanTask(pairs[n - 1].0, pairs[n - 1].1, outputDir, cslcs);
      var r := PlanAll(pairs, outputDir, cslcs);
      if before.Err? {
        assert r == before;
        var i :| 0 <= i < n - 1 && PlanTask(front[i].0, front[i].1, outputDir, cslcs).Err?;
        assert PlanTask(pairs[i].0, pairs[i].1, outputDir, cslcs).Err?;
      } else if t.Err? {
        assert r == Err(t.error);
      } else {
        assert r == Ok(before.value + [t.value]);
        forall i | 0 <= i < n ensures Ok(r.value[i]) == PlanTask(pairs[i].0, pairs[i].1, outputDir, cslcs) {
          if i < n - 1 {
            assert r.value[i] == before.value[i];
          }
        }
      }
    }
  }

  /** Planning one more pair. */
  lemma PlanAllSnoc(p: seq<(string, CompressedFile)>, x: (string, CompressedFile), outputDir: string, cslcs: seq<CslcFile>)
    ensures PlanAll(p + [x], outputDir, cslcs) ==
      var before := PlanAll(p, outputDir, cslcs);
      if before.Err? then before
      else
        var t := PlanTask(x.0, x.1, outputDir, cslcs);
        if t.Err? then Err(t.error) else Ok(before.value + [t.value])
  {
    assert (p + [x])[..|p|] == p;
  }

  lemma RowSnoc(burstId: string, files: seq<CompressedFile>, j: nat)
    requires j < |files|
    ensures Row(burstId, files[..j + 1]) == Row(burstId, files[..j]) + [(burstId, files[j])]
  {
  }

  /** A failed prefix decides the whole plan. */
  lemma {:induction false} PlanErrorSticks(p: seq<(string, CompressedFile)>, q: seq<(string, CompressedFile)>, outputDir: string, cslcs: seq<CslcFile>)
    requires PlanAll(p, outputDir, cslcs).Err?
    ensures PlanAll(p + q, outputDir, cslcs) == PlanAll(p, outputDir, cslcs)
  {
    if q != [] {
      var n := |q|;
      assert (p + q)[..|p + q| - 1] == p + q[..n - 1];
      PlanErrorSticks(p, q[..n - 1], outputDir, cslcs);
    } else {
      assert p + q == p;
    }
  }

  /** Appending the pairs of the groups after `i` to the pairs before. */
  lemma {:induction false} PairsSplit(groups: BurstGroups, i: nat)
    requires i <= |groups|
    ensures Pairs(groups) == Pairs(groups[..i]) + Pairs(groups[i..])
    decreases |groups| - i
  {
    if i == |groups| {
      assert groups[..i] == groups;
      assert groups[i..] == [];
    } else {
      var n := |groups|;
      PairsSplit(groups[..n - 1], if i < n then i else n - 1);
      assert groups[..n - 1][..i] == groups[..i];
      assert groups[i..][..|groups[i..]| - 1] == groups[..n - 1][i..];
      assert groups[i..][|groups[i..]| - 1] == groups[n - 1];
    }
  }

  lemma RowSplit(done: seq<(string, CompressedFile)>, burstId: string, files: seq<CompressedFile>, j: nat)
    requires j <= |files|
    ensures done + Row(burstId, files) == (done + Row(burstId, files[..j])) + Row(burstId, files[j..])
  {
    assert Row(burstId, files) == Row(burstId, files[..j]) + Row(burstId, files[j..]);
  }

  /** The inner loop of product.py:1540-1555 for one burst, appending to
      the tasks `infos` planned so far for the pairs `done`. */
  method PlanBurst(ghost done: seq<(string, CompressedFile)>, infos: seq<CompressedSlcInfo>,
                   burstId: string, files: seq<CompressedFile>, outputDir: string, cslcs: seq<CslcFile>)
    returns (r: Result<seq<CompressedSlcInfo>>)
    requires Ok(infos) == PlanAll(done, outputDir, cslcs)
    ensures r == PlanAll(done + Row(burstId, files), outputDir, cslcs)
  {
    var acc := infos;
    assert done + Row(burstId, files[..0]) == done;
    for j := 0 to |files|
      invariant Ok(acc) == PlanAll(done + Row(burstId, files[..j]), outputDir, cslcs)
    {
      ghost var before := done + Row(burstId, files[..j]);
      RowSnoc(burstId, files, j);
      assert done + Row(burstId, files[..j + 1]) == before + [(burstId, files[j])];
      PlanAllSnoc(before, (burstId, files[j]), outputDir, cslcs);
      var t := PlanTask(burstId, files[j], outputDir, cslcs);
      if t.Err? {
        r := Err(t.error);
        PlanErrorSticks(before + [(burstId, files[j])], Row(burstId, files[j + 1..]), outputDir, cslcs);
        RowSplit(done, burstId, files, j + 1);
        return;
      }
      acc := acc + [t.value];
    }
    assert files[..|files|] == files;
    r := Ok(acc);
  }

  /** `compressed_slc_infos`, built by the nested loop of product.py:1539-1555. */
  method PlanTasks(groups: BurstGroups, outputDir: string, cslcs: seq<CslcFile>)
    returns (r: Result<seq<CompressedSlcInfo>>)
    ensures r == PlanAll(Pairs(groups), outputDir, cslcs)
  {
    var infos: seq<CompressedSlcInfo> := [];
    for i := 0 to |groups|
      invariant Ok(infos) == PlanAll(Pairs(groups[..i]), outputDir, cslcs)
    {
      assert groups[..i + 1][..i] == groups[..i];
      assert Pairs(groups[..i + 1]) == Pairs(groups[..i]) + Row(groups[i].0, groups[i].1);
      r := PlanBurst(Pairs(groups[..i]), infos, groups[i].0, groups[i].1, outputDir, cslcs);
      if r.Err? {
        PlanErrorSticks(Pairs(groups[..i + 1]), Pairs(groups[i + 1..]), outputDir, cslcs);
        PairsSplit(groups, i + 1);
        return;
      }
      infos := r.value;
    }
    assert groups[..|groups|] == groups;
    r := Ok(infos);
  }

  // ---------------------------------------------------------------------
  // Output names
  // ---------------------------------------------------------------------

  /** `d.strftime("%Y%m%d")` for a date written as the number yyyymmdd. */
  function DateString(d: nat): string
  {
    Text.ZeroPad(Text.NatToString(d), 8)
  }

  /** `format_dates(*dates)`: the date strings joined by underscores. */
  function DateStrings(dates: seq<nat>): string
  {
    Text.Join("_", seq(|dates|, i requires 0 <= i < |dates| => DateString(dates[i])))
  }

  /** The file name part of `COMPRESSED_SLC_TEMPLATE` (product.py:77) without ".h5". */
  function ProductStem(burstId: string, dates: seq<nat>): string
  {
    "compressed_" + burstId + "_" + DateStrings(dates)
  }

  /** `Path(output_dir) / name` of product.py:1318-1320. */
  function OutputName(info: CompressedSlcInfo): string
  {
    info.outputDir + "/" + ProductStem(info.burstId, info.compSlcFile.dates) + ".h5"
  }

  /** The value of a string of decimal digits. */
  function DigitsValue(s: string): nat
    requires forall i | 0 <= i < |s| :: '0' <= s[i] <= '9'
  {
    if s == [] then 0
    else DigitsValue(s[..|s| - 1]) * 10 + (s[|s| - 1] as int - '0' as int)
  }

  lemma {:induction false} NatToStringValue(n: nat)
    ensures DigitsValue(Text.NatToString(n)) == n
  {
    if n >= 10 {
      NatToStringValue(n / 10);
      var s := Text.NatToString(n);
      assert s[..|s| - 1] == Text.NatToString(n / 10);
    }
  }

  lemma {:induction false} LeadingZeroValue(s: string)
    requires forall i | 0 <= i < |s| :: '0' <= s[i] <= '9'
    ensures DigitsValue("0" + s) == DigitsValue(s)
  {
    if s != [] {
      var t := "0" + s;
      assert t[..|t| - 1] == "0" + s[..|s| - 1];
      LeadingZeroValue(s[..|s| - 1]);
    }
  }

  lemma {:induction false} ZeroPadValue(s: string, width: nat)
    requires forall i | 0 <= i < |s| :: '0' <= s[i] <= '9'
    ensures forall i | 0 <= i < |Text.ZeroPad(s, width)| :: '0' <= Text.ZeroPad(s, width)[i] <= '9'
    ensures DigitsValue(Text.ZeroPad(s, width)) == DigitsValue(s)
    decreases width - |s|
  {
    if |s| < width {
      LeadingZeroValue(s);
      ZeroPadValue("0" + s, width);
    }
  }

  /** A date string reads back as the date it was made from, in eight
      digits for every yyyymmdd below 10^8, which covers the years of real
      acquisitions. */
  lemma DateStringRoundTrip(d: nat)
    requires d < 100000000
    ensures |DateString(d)| == 8
    ensures forall i | 0 <= i < 8 :: '0' <= DateString(d)[i] <= '9'
    ensures DigitsValue(DateString(d)) == d
  {
    NatToStringValue(d);
    ZeroPadValue(Text.NatToString(d), 8);
    NatToStringShort(d, 8);
  }

  lemma {:induction false} NatToStringShort(n: nat, k: nat)
    requires n < Power10(k)
    ensures |Text.NatToString(n)| <= if k == 0 then 1 else k
  {
    if n >= 10 {
      assert Power10(0) == 1 && Power10(1) == 10;
      assert k >= 2;
      NatToStringShort(n / 10, k - 1);
    }
  }

  function Power10(k: nat): (r: nat)
    ensures r >= 1
  {
    if k == 0 then 1 else 10 * Power10(k - 1)
  }

  /** Every compressed product's stem contains "compressed", so the stack
      resolver and the identification summary both treat it as compressed. */
  lemma ProductIsCompressed(burstId: string, dates: seq<nat>, date: ReferenceDates.Date)
    ensures ReferenceDates.IsCompressed(ReferenceDates.StackFile(ProductStem(burstId, dates), date))
  {
    var stem := ProductStem(burstId, dates);
    var low := Text.ToLower(stem);
    assert stem[..10] == "compressed";
    assert low[..10] == stem[..10] by {
      forall i | 0 <= i < 10 ensures low[i] == stem[i] {
        assert low[i] == Text.LowerChar(stem[i]);
      }
    }
    Text.ContainsAt(low, "compressed", 0);
  }

  // ---------------------------------------------------------------------
  // Running the tasks
  // ---------------------------------------------------------------------

  /** `process_compressed_slc` (product.py:1310-1330 and onwards): the raster
      reading and HDF5 writing are the oracle `write`, whose error is
      raised; the returned path is the output name.  An existing output is
      only logged and written again. */
  function ProcessCompressedSlc(info: CompressedSlcInfo, write: CompressedSlcInfo -> Option<Error>)
    : (r: Result<string>)
  {
    match write(info)
    case Some(e) => Err(e)
    case None => Ok(OutputName(info))
  }

  /** The results of running the tasks one after another
      (`DummyProcessPoolExecutor`): the first error ends the run. */
  function RunInOrder(infos: seq<CompressedSlcInfo>, write: CompressedSlcInfo -> Option<Error>)
    : Result<seq<string>>
  {
    if infos == [] then Ok([])
    else
      var n := |infos|;
      var before := RunInOrder(infos[..n - 1], write);
      if before.Err? then before
      else
        var t := ProcessCompressedSlc(infos[n - 1], write);
        if t.Err? then Err(t.error) else Ok(before.value + [t.value])
  }

  /** `list(executor.map(...))` over results computed independently (the
      process pool): values in task order, or the error of the first
      failed task in task order. */
  function Collect(results: seq<Result<string>>): (r: Result<seq<string>>)
  {
    if results == [] then Ok([])
    else if results[0].Err? then Err(results[0].error)
    else
      match Collect(results[1..])
      case Err(e) => Err(e)
      case Ok(rest) => Ok([results[0].value] + rest)
  }

  /** `Collect` takes the first failed task's error, or every value in order. */
  lemma {:induction false} CollectSpec(results: seq<Result<string>>)
    ensures Collect(results).Ok? <==> forall i | 0 <= i < |results| :: results[i].Ok?
    ensures Collect(results).Ok? ==> |Collect(results).value| == |results|
    ensures Collect(results).Ok? ==>
      forall i | 0 <= i < |results| :: Collect(results).value[i] == results[i].value
    ensures Collect(results).Err? ==> exists i | 0 <= i < |results| ::
      results[i].Err? && Collect(results).error == results[i].error
      && forall k | 0 <= k < i :: results[k].Ok?
  {
    if results != [] {
      CollectSpec(results[1..]);
      var r := Collect(results);
      if results[0].Ok? && r.Err? {
        var i :| 0 <= i < |results[1..]| && results[1..][i].Err? && Collect(results[1..]).error == results[1..][i].error
          && forall k | 0 <= k < i :: results[1..][k].Ok?;
        assert results[i + 1].Err? && forall k | 0 <= k < i + 1 :: results[k].Ok? by {
          forall k | 0 <= k < i + 1 ensures results[k].Ok? {
            if k > 0 { assert results[k] == results[1..][k - 1]; }
          }
        }
      }
    }
  }

  /** Running in order and collecting independently computed results give
      the same answer, so the choice of executor (`max_workers`) does not
      change what `create_compressed_products` returns or raises. */
  lemma {:induction false} OrderedRunIsCollect(infos: seq<CompressedSlcInfo>, write: CompressedSlcInfo -> Option<Error>)
    ensures RunInOrder(infos, write)
         == Collect(seq(|infos|, i requires 0 <= i < |infos| => ProcessCompressedSlc(infos[i], write)))
  {
    var results := seq(|infos|, i requires 0 <= i < |infos| => ProcessCompressedSlc(infos[i], write));
    if infos != [] {
      var n := |infos|;
      OrderedRunIsCollect(infos[..n - 1], write);
      var front := seq(n - 1, i requires 0 <= i < n - 1 => ProcessCompressedSlc(infos[..n - 1][i], write));
      assert results == front + [results[n - 1]];
      CollectAppend(front, results[n - 1]);
    }
  }

  lemma {:induction false} CollectAppend(front: seq<Result<string>>, last: Result<string>)
    ensures Collect(front + [last]) ==
      if Collect(front).Err? then Collect(front)
      else if last.Err? then Err(last.error)
      else Ok(Collect(front).value + [last.value])
  {
    if front != [] {
      var all := front + [last];
      assert all[0] == front[0];
      assert all[1..] == front[1..] + [last];
      if front[0].Err? {
        assert Collect(all) == Err(front[0].error) == Collect(front);
      } else {
        CollectAppend(front[1..], last);
        var rest := Collect(front[1..]);
        var restAll := Collect(front[1..] + [last]);
        assert Collect(all) == match restAll case Err(e) => Err(e) case Ok(v) => Ok([front[0].value] + v);
        if rest.Err? {
          assert Collect(front) == Err(rest.error);
          assert restAll == rest;
        } else {
          assert Collect(front) == Ok([front[0].value] + rest.value);
          if last.Ok? {
            assert restAll == Ok(rest.value + [last.value]);
            assert [front[0].value] + (rest.value + [last.value]) == [front[0].value] + rest.value + [last.value];
          } else {
            assert restAll == Err(last.error);
          }
        }
      }
    } else {
      assert front + [last] == [last] && [last][1..] == [];
      if last.Ok? {
        assert [last.value] + [] == [] + [last.value];
      }
    }
  }

  /** The sequential executor's loop. */
  method RunTasks(infos: seq<CompressedSlcInfo>, write: CompressedSlcInfo -> Option<Error>)
    returns (r: Result<seq<string>>)
    ensures r == RunInOrder(infos, write)
  {
    var results: seq<string> := [];
    for i := 0 to |infos|
      invariant Ok(results) == RunInOrder(infos[..i], write)
    {
      assert infos[..i + 1][..i] == infos[..i];
      var t := ProcessCompressedSlc(infos[i], write);
      if t.Err? {
        r := Err(t.error);
        RunErrorSticks(infos, i + 1, write);
        return;
      }
      results := results + [t.value];
    }
    assert infos[..|infos|] == infos;
    r := Ok(results);
  }

  lemma {:induction false} RunErrorSticks(infos: seq<CompressedSlcInfo>, i: nat, write: CompressedSlcInfo -> Option<Error>)
    requires i <= |infos| && RunInOrder(infos[..i], write).Err?
    ensures RunInOrder(infos, write) == RunInOrder(infos[..i], write)
  {
    if i < |infos| {
      var n := |infos|;
      assert infos[..n - 1][..i] == infos[..i];
      RunErrorSticks(infos[..n - 1], i, write);
    } else {
      assert infos[..i] == infos;
    }
  }

  /** `create_compressed_products`: plan every task, then run them with the
      executor `max_workers` selects.  Either way the result is the output
      names in task order, or the first error in task order. */
  method CreateCompressedProducts(groups: BurstGroups, outputDir: string, cslcs: seq<CslcFile>,
                                  maxWorkers: int, write: CompressedSlcInfo -> Option<Error>)
    returns (r: Result<seq<string>>)
    ensures PlanAll(Pairs(groups), outputDir, cslcs).Err? ==> r == Err(IndexError)
    ensures PlanAll(Pairs(groups), outputDir, cslcs).Ok? ==>
      r == RunInOrder(PlanAll(Pairs(groups), outputDir, cslcs).value, write)
  {
    var planned := PlanTasks(groups, outputDir, cslcs);
    if planned.Err? {
      PlanAllInOrder(Pairs(groups), outputDir, cslcs);
      return Err(planned.error);
    }
    var infos := planned.value;
    OrderedRunIsCollect(infos, write);
    if maxWorkers > 1 {
      r := Collect(seq(|infos|, i requires 0 <= i < |infos| => ProcessCompressedSlc(infos[i], write)));
    } else {
      r := RunTasks(infos, write);
    }
  }
}
