/** The date, satellite and count summaries written to the identification
    group by `_create_identification_group`
    (src/disp_s1/product.py:703-772). */
module Identification {
  import opened Wrappers
  import opened ReferenceDates
  import Text

  /** An input CSLC file: its path, the datetimes parsed from its name
      (acquisition first, processing second), and the sensor parsed from
      its name when the name carries one. */
  datatype InputFile = InputFile(path: string, dates: seq<DateTime>, sensor: Option<string>)

  /** Chronological order on datetimes. */
  predicate DtLe(a: DateTime, b: DateTime)
  {
    a.date < b.date || (a.date == b.date && a.secondOfDay <= b.secondOfDay)
  }

  /** `"compressed" in str(f).lower()`: the whole path is searched. */
  predicate IsCompressedPath(f: InputFile)
  {
    Text.Contains(Text.ToLower(f.path), "compressed")
  }

  /** `sorted(s)[0]`. */
  function Earliest(s: seq<DateTime>): (r: DateTime)
    requires |s| > 0
    ensures r in s
    ensures forall x | x in s :: DtLe(r, x)
  {
    if |s| == 1 then s[0]
    else
      var rest := Earliest(s[1..]);
      assert forall x | x in s :: x == s[0] || x in s[1..];
      if DtLe(s[0], rest) then s[0] else rest
  }

  /** `sorted(s)[-1]`. */
  function Latest(s: seq<DateTime>): (r: DateTime)
    requires |s| > 0
    ensures r in s
    ensures forall x | x in s :: DtLe(x, r)
  {
    if |s| == 1 then s[0]
    else
      var rest := Latest(s[1..]);
      assert forall x | x in s :: x == s[0] || x in s[1..];
      if DtLe(rest, s[0]) then s[0] else rest
  }

  /** `[get_dates(f)[0] for f in files]`. */
  function AcquisitionDates(files: seq<InputFile>): (r: seq<DateTime>)
    requires forall i | 0 <= i < |files| :: |files[i].dates| > 0
    ensures |r| == |files|
    ensures forall i | 0 <= i < |files| :: r[i] == files[i].dates[0]
  {
    seq(|files|, i requires 0 <= i < |files| => files[i].dates[0])
  }

  /** The files whose path does not mention "compressed". */
  function Uncompressed(files: seq<InputFile>): (r: seq<InputFile>)
    ensures forall f :: f in r <==> f in files && !IsCompressedPath(f)
  {
    if files == [] then []
    else (if IsCompressedPath(files[0]) then [] else [files[0]]) + Uncompressed(files[1..])
  }

  /** `get_dates(f)[1]` of every uncompressed file. */
  function ProcessingDates(files: seq<InputFile>): (r: seq<DateTime>)
    requires forall f | f in files :: |f.dates| > 1
    ensures |r| == |files|
    ensures forall i | 0 <= i < |files| :: r[i] == files[i].dates[1]
  {
    seq(|files|, i requires 0 <= i < |files| => files[i].dates[1])
  }

  /** The extremes of the `k`-th dates of `files` come from some file and bound all of them. */
  lemma SummaryBounds(files: seq<InputFile>, dates: seq<DateTime>, lo: DateTime, hi: DateTime, k: nat)
    requires forall f | f in files :: |f.dates| > k
    requires |dates| == |files| && forall i | 0 <= i < |files| :: dates[i] == files[i].dates[k]
    requires lo in dates && hi in dates && forall x | x in dates :: DtLe(lo, x) && DtLe(x, hi)
    ensures exists f | f in files :: f.dates[k] == lo
    ensures exists f | f in files :: f.dates[k] == hi
    ensures forall f | f in files :: DtLe(lo, f.dates[k]) && DtLe(f.dates[k], hi)
  {
    var i :| 0 <= i < |dates| && dates[i] == lo;
    assert files[i] in files;
    var j :| 0 <= j < |dates| && dates[j] == hi;
    assert files[j] in files;
    forall f | f in files ensures DtLe(lo, f.dates[k]) && DtLe(f.dates[k], hi) {
      var m :| 0 <= m < |files| && files[m] == f;
      assert dates[m] in dates;
    }
  }

  /** What the identification group records about the inputs. */
  datatype Summary = Summary(
    earliestAcquisition: DateTime,
    latestAcquisition: DateTime,
    earliestProcessing: DateTime,
    latestProcessing: DateTime,
    satellites: set<string>,
    granules: nat)

  /** The summaries of product.py:731-772.  Indexing raises IndexError
      when a name carries no date, an uncompressed name no second date,
      or when there are no files, or no uncompressed ones. */
  function Summarize(files: seq<InputFile>): (r: Result<Summary>)
    ensures r.Err? ==> r.error == IndexError
    ensures r.Ok? <==>
      && files != []
      && (forall f | f in files :: |f.dates| > 0)
      && (forall f | f in files && !IsCompressedPath(f) :: |f.dates| > 1)
      && exists f | f in files :: !IsCompressedPath(f)
    ensures r.Ok? ==>
      var s := r.value;
      && s.granules == |files|
      && (exists f | f in files :: f.dates[0] == s.earliestAcquisition)
      && (exists f | f in files :: f.dates[0] == s.latestAcquisition)
      && (forall f | f in files :: DtLe(s.earliestAcquisition, f.dates[0]) && DtLe(f.dates[0], s.latestAcquisition))
      && (exists f | f in files && !IsCompressedPath(f) :: f.dates[1] == s.earliestProcessing)
      && (exists f | f in files && !IsCompressedPath(f) :: f.dates[1] == s.latestProcessing)
      && (forall f | f in files && !IsCompressedPath(f) ::
            DtLe(s.earliestProcessing, f.dates[1]) && DtLe(f.dates[1], s.latestProcessing))
      && (forall name :: name in s.satellites <==>
            exists f | f in files && !IsCompressedPath(f) :: f.sensor == Some(name) && name != "")
  {
    if exists f | f in files :: |f.dates| == 0 then Err(IndexError)
    else
      var kept := Uncompressed(files);
      if exists f | f in kept :: |f.dates| < 2 then Err(IndexError)
      else if files == [] || kept == [] then Err(IndexError)
      else
        var acquisitions := AcquisitionDates(files);
        var processing := ProcessingDates(kept);
        var earliest := Earliest(acquisitions);
        var latest := Latest(acquisitions);
        var earliestProcessing := Earliest(processing);
        var latestProcessing := Latest(processing);
        var satellites := set f | f in kept && f.sensor.Some? && f.sensor.value != "" :: f.sensor.value;
        SummaryBounds(files, acquisitions, earliest, latest, 0);
        SummaryBounds(kept, processing, earliestProcessing, latestProcessing, 1);
        Ok(Summary(earliest, latest, earliestProcessing, latestProcessing, satellites, |files|))
  }
}
