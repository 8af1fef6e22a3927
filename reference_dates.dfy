/** Reference-date resolution: `_get_first_after_selected` and
    `_compute_reference_dates` of src/disp_s1/pge_runconfig.py. */
module ReferenceDates {
  import opened Wrappers
  import Text

  /** A calendar date as the integer yyyymmdd: integer order is date order. */
  type Date = int

  /** A `datetime.datetime`; `.date()` is its `date` field. */
  datatype DateTime = DateTime(date: Date, secondOfDay: nat)

  /** One file of the representative burst, in the date-sorted stack:
      its file-name stem and the first date parsed from its name. */
  datatype StackFile = StackFile(stem: string, date: Date)

  /** The resolver's output: `(output_reference_idx, extra_reference_date)`. */
  datatype Resolved = Resolved(outputReferenceIdx: int, extraReferenceDate: Option<Date>)

  /** A file counts as compressed when "compressed" occurs in its lower-cased stem. */
  predicate IsCompressed(f: StackFile)
  {
    Text.Contains(Text.ToLower(f.stem), "compressed")
  }

  function Dates(stack: seq<StackFile>): (r: seq<Date>)
    ensures |r| == |stack|
    ensures forall i | 0 <= i < |stack| :: r[i] == stack[i].date
  {
    seq(|stack|, i requires 0 <= i < |stack| => stack[i].date)
  }

  /** The least index whose date is on or after `selected`, or -1. */
  function FirstAtOrAfter(dates: seq<Date>, selected: Date): (r: int)
    ensures -1 <= r < |dates|
    ensures r == -1 <==> forall i | 0 <= i < |dates| :: dates[i] < selected
    ensures r >= 0 ==> dates[r] >= selected && forall i | 0 <= i < r :: dates[i] < selected
  {
    if dates == [] then -1
    else if dates[0] >= selected then 0
    else
      var rest := FirstAtOrAfter(dates[1..], selected);
      if rest == -1 then -1 else rest + 1
  }

  /** `_get_first_after_selected` (pge_runconfig.py:424-433): a scan with early return. */
  method GetFirstAfterSelected(inputDates: seq<Date>, selectedDate: Date) returns (idx: int)
    ensures idx == FirstAtOrAfter(inputDates, selectedDate)
    ensures idx == -1 <==> forall i | 0 <= i < |inputDates| :: inputDates[i] < selectedDate
    ensures idx != -1 ==>
      0 <= idx < |inputDates| && inputDates[idx] >= selectedDate &&
      forall i | 0 <= i < idx :: inputDates[i] < selectedDate
  {
    idx := 0;
    while idx < |inputDates|
      invariant 0 <= idx <= |inputDates|
      invariant forall i | 0 <= i < idx :: inputDates[i] < selectedDate
    {
      if inputDates[idx] >= selectedDate {
        return;
      }
      idx := idx + 1;
    }
    idx := -1;
  }

  predicate StrictlyIncreasing(s: seq<Date>)
  {
    forall i, j | 0 <= i < j < |s| :: s[i] < s[j]
  }

  function InsertSorted(x: Date, s: seq<Date>): (r: seq<Date>)
    requires StrictlyIncreasing(s)
    ensures StrictlyIncreasing(r)
    ensures forall y :: y in r <==> y == x || y in s
  {
    if s == [] then [x]
    else if x < s[0] then [x] + s
    else if x == s[0] then s
    else
      var rest := InsertSorted(x, s[1..]);
      assert forall y | y in rest :: s[0] < y;
      PrependIncreasing(s[0], rest);
      [s[0]] + rest
  }

  lemma PrependIncreasing(h: Date, rest: seq<Date>)
    requires StrictlyIncreasing(rest) && forall y | y in rest :: h < y
    ensures StrictlyIncreasing([h] + rest)
  {
    var r := [h] + rest;
    forall i, j | 0 <= i < j < |r| ensures r[i] < r[j] {
      assert r[j] == rest[j - 1];
      if i > 0 {
        assert r[i] == rest[i - 1];
      } else {
        assert rest[j - 1] in rest;
      }
    }
  }

  /** `sorted({d.date() for d in reference_datetimes})`. */
  function RequestedDates(referenceDatetimes: seq<DateTime>): (r: seq<Date>)
    ensures StrictlyIncreasing(r)
    ensures forall d :: d in r <==> exists j | 0 <= j < |referenceDatetimes| :: referenceDatetimes[j].date == d
  {
    if referenceDatetimes == [] then []
    else
      var n := |referenceDatetimes|;
      var r := InsertSorted(referenceDatetimes[n - 1].date, RequestedDates(referenceDatetimes[..n - 1]));
      assert forall j | 0 <= j < n - 1 :: referenceDatetimes[..n - 1][j] == referenceDatetimes[j];
      r
  }

  /** Some input date is on or after the request (`candidate_dates` is non-empty). */
  predicate HasCandidate(dates: seq<Date>, refDate: Date)
  {
    exists i | 0 <= i < |dates| :: dates[i] >= refDate
  }

  /** One iteration of the loop in `_compute_reference_dates` (pge_runconfig.py:452-472). */
  function Step(st: Resolved, stack: seq<StackFile>, refDate: Date): Resolved
  {
    var inputDates := Dates(stack);
    if !HasCandidate(inputDates, refDate) then st
    else
      var nearestIdx := FirstAtOrAfter(inputDates, refDate);
      if nearestIdx == 0 then st
      else if IsCompressed(stack[nearestIdx]) then st.(outputReferenceIdx := nearestIdx)
      else if inputDates[nearestIdx] >= refDate then st.(extraReferenceDate := Some(inputDates[nearestIdx]))
      else st
  }

  /** The resolver's state after processing `refDates` in the given order, from `(0, None)`. */
  function Resolve(stack: seq<StackFile>, refDates: seq<Date>): Resolved
  {
    if refDates == [] then Resolved(0, None)
    else Step(Resolve(stack, refDates[..|refDates| - 1]), stack, refDates[|refDates| - 1])
  }

  /** `_compute_reference_dates` (pge_runconfig.py:436-474), given the
      representative burst's date-sorted files. */
  method ComputeReferenceDates(referenceDatetimes: seq<DateTime>, stack: seq<StackFile>)
    returns (outputReferenceIdx: int, extraReferenceDate: Option<Date>)
    ensures Resolved(outputReferenceIdx, extraReferenceDate) == Resolve(stack, RequestedDates(referenceDatetimes))
  {
    var isCompressed := seq(|stack|, i requires 0 <= i < |stack| => IsCompressed(stack[i]));
    var inputDates := Dates(stack);
    outputReferenceIdx, extraReferenceDate := 0, None;
    var referenceDates := RequestedDates(referenceDatetimes);
    for j := 0 to |referenceDates|
      invariant Resolved(outputReferenceIdx, extraReferenceDate) == Resolve(stack, referenceDates[..j])
    {
      assert referenceDates[..j + 1][..j] == referenceDates[..j];
      var refDate := referenceDates[j];
      var hasCandidate := exists i | 0 <= i < |inputDates| :: inputDates[i] >= refDate;
      if !hasCandidate {
        continue;
      }
      var nearestIdx := GetFirstAfterSelected(inputDates, refDate);
      if nearestIdx == 0 {
        continue;
      } else if isCompressed[nearestIdx] {
        outputReferenceIdx := nearestIdx;
      } else {
        var inpDate := inputDates[nearestIdx];
        if inpDate >= refDate {
          extraReferenceDate := Some(inpDate);
        }
      }
    }
    assert referenceDates[..|referenceDates|] == referenceDates;
  }

  /** What one request does to the resolver's state. */
  datatype Change = Keep | MoveIndex(idx: int) | SetExtraDate(date: Date)

  /** A request landing at index i > 0 moves the output index there when the
      entry is compressed, and otherwise sets the extra date to the entry's
      date; a request landing nowhere or at index 0 changes nothing. */
  function ChangeFor(stack: seq<StackFile>, refDate: Date): Change
  {
    var i := FirstAtOrAfter(Dates(stack), refDate);
    if i <= 0 then Keep
    else if IsCompressed(stack[i]) then MoveIndex(i)
    else SetExtraDate(stack[i].date)
  }

  function Apply(st: Resolved, c: Change): Resolved
  {
    match c
    case Keep => st
    case MoveIndex(i) => st.(outputReferenceIdx := i)
    case SetExtraDate(d) => st.(extraReferenceDate := Some(d))
  }

  /** Each loop iteration applies the request's change: a compressed hit
      leaves the extra date alone, a regular hit leaves the index alone. */
  lemma StepOnHit(st: Resolved, stack: seq<StackFile>, refDate: Date)
    ensures Step(st, stack, refDate) == Apply(st, ChangeFor(stack, refDate))
  {
    var dates := Dates(stack);
    var i := FirstAtOrAfter(dates, refDate);
    if i >= 0 {
      assert HasCandidate(dates, refDate) by {
        assert dates[i] >= refDate;
      }
    }
  }

  function ApplyAll(changes: seq<Change>): Resolved
  {
    if changes == [] then Resolved(0, None)
    else Apply(ApplyAll(changes[..|changes| - 1]), changes[|changes| - 1])
  }

  function Changes(stack: seq<StackFile>, refDates: seq<Date>): (r: seq<Change>)
    ensures |r| == |refDates|
    ensures forall j | 0 <= j < |refDates| :: r[j] == ChangeFor(stack, refDates[j])
  {
    seq(|refDates|, j requires 0 <= j < |refDates| => ChangeFor(stack, refDates[j]))
  }

  lemma {:induction false} ResolveAppliesChanges(stack: seq<StackFile>, refDates: seq<Date>)
    ensures Resolve(stack, refDates) == ApplyAll(Changes(stack, refDates))
  {
    if refDates != [] {
      var n := |refDates|;
      ResolveAppliesChanges(stack, refDates[..n - 1]);
      StepOnHit(Resolve(stack, refDates[..n - 1]), stack, refDates[n - 1]);
      assert Changes(stack, refDates)[..n - 1] == Changes(stack, refDates[..n - 1]);
    }
  }

  lemma {:induction false} LastMoveWins(changes: seq<Change>)
    ensures var res := ApplyAll(changes);
      || (res.outputReferenceIdx == 0 && forall j | 0 <= j < |changes| :: !changes[j].MoveIndex?)
      || (exists j | 0 <= j < |changes| ::
            changes[j] == MoveIndex(res.outputReferenceIdx) &&
            forall j' | j < j' < |changes| :: !changes[j'].MoveIndex?)
  {
    if changes != [] {
      var n := |changes|;
      var prefix := changes[..n - 1];
      LastMoveWins(prefix);
      assert forall j | 0 <= j < n - 1 :: prefix[j] == changes[j];
    }
  }

  lemma {:induction false} LastExtraDateWins(changes: seq<Change>)
    ensures var res := ApplyAll(changes);
      || (res.extraReferenceDate == None && forall j | 0 <= j < |changes| :: !changes[j].SetExtraDate?)
      || (exists j | 0 <= j < |changes| ::
            changes[j].SetExtraDate? && res.extraReferenceDate == Some(changes[j].date) &&
            forall j' | j < j' < |changes| :: !changes[j'].SetExtraDate?)
  {
    if changes != [] {
      var n := |changes|;
      var prefix := changes[..n - 1];
      LastExtraDateWins(prefix);
      assert forall j | 0 <= j < n - 1 :: prefix[j] == changes[j];
    }
  }

  /** The last applicable request wins, for each field on its own: the
      output index is 0 when no request moves it and otherwise the index set
      by the last request that does; the extra date is None when no request
      sets it and otherwise the date set by the last request that does. */
  lemma LastApplicableWins(stack: seq<StackFile>, refDates: seq<Date>)
    ensures var res := Resolve(stack, refDates);
      || (res.outputReferenceIdx == 0 &&
          forall j | 0 <= j < |refDates| :: !ChangeFor(stack, refDates[j]).MoveIndex?)
      || (exists j | 0 <= j < |refDates| ::
            ChangeFor(stack, refDates[j]) == MoveIndex(res.outputReferenceIdx) &&
            forall j' | j < j' < |refDates| :: !ChangeFor(stack, refDates[j']).MoveIndex?)
    ensures var res := Resolve(stack, refDates);
      || (res.extraReferenceDate == None &&
          forall j | 0 <= j < |refDates| :: !ChangeFor(stack, refDates[j]).SetExtraDate?)
      || (exists j | 0 <= j < |refDates| ::
            ChangeFor(stack, refDates[j]).SetExtraDate? &&
            res.extraReferenceDate == Some(ChangeFor(stack, refDates[j]).date) &&
            forall j' | j < j' < |refDates| :: !ChangeFor(stack, refDates[j']).SetExtraDate?)
  {
    ResolveAppliesChanges(stack, refDates);
    LastMoveWins(Changes(stack, refDates));
    LastExtraDateWins(Changes(stack, refDates));
  }

  /** With no requests, or only requests on or before the first date or
      after the last one, the result is the default `(0, None)`. */
  lemma {:induction false} NoChangeoverKeepsDefault(stack: seq<StackFile>, refDates: seq<Date>)
    requires forall j | 0 <= j < |refDates| ::
      (|stack| > 0 && refDates[j] <= stack[0].date) ||
      (forall i | 0 <= i < |stack| :: stack[i].date < refDates[j])
    ensures Resolve(stack, refDates) == Resolved(0, None)
  {
    if refDates != [] {
      var n := |refDates|;
      NoChangeoverKeepsDefault(stack, refDates[..n - 1]);
      StepOnHit(Resolve(stack, refDates[..n - 1]), stack, refDates[n - 1]);
    }
  }

  /** Hence the output index is 0 or the index of a compressed entry past the
      first, and the extra date is None or the date of a regular entry past the first. */
  lemma ResolvedShape(stack: seq<StackFile>, refDates: seq<Date>)
    ensures var res := Resolve(stack, refDates);
      res.outputReferenceIdx == 0 ||
      (0 < res.outputReferenceIdx < |stack| && IsCompressed(stack[res.outputReferenceIdx]))
    ensures var res := Resolve(stack, refDates);
      res.extraReferenceDate == None ||
      exists i | 0 < i < |stack| :: !IsCompressed(stack[i]) && res.extraReferenceDate == Some(stack[i].date)
  {
    LastApplicableWins(stack, refDates);
    var res := Resolve(stack, refDates);
    if res.outputReferenceIdx != 0 {
      var j :| 0 <= j < |refDates| && ChangeFor(stack, refDates[j]) == MoveIndex(res.outputReferenceIdx);
      ChangeShape(stack, refDates[j]);
    }
    if res.extraReferenceDate != None {
      var j :| 0 <= j < |refDates| && ChangeFor(stack, refDates[j]).SetExtraDate? &&
        res.extraReferenceDate == Some(ChangeFor(stack, refDates[j]).date);
      ChangeShape(stack, refDates[j]);
    }
  }

  /** A single request moves the index only to a compressed entry past the
      first, and sets the extra date only to a regular entry's date past the first. */
  lemma ChangeShape(stack: seq<StackFile>, refDate: Date)
    ensures ChangeFor(stack, refDate).MoveIndex? ==>
      var i := ChangeFor(stack, refDate).idx;
      0 < i < |stack| && IsCompressed(stack[i])
    ensures ChangeFor(stack, refDate).SetExtraDate? ==>
      var i := FirstAtOrAfter(Dates(stack), refDate);
      0 < i < |stack| && !IsCompressed(stack[i]) && ChangeFor(stack, refDate).date == stack[i].date
  {
  }

  /** A four-acquisition stack, 2020-01-01 to 2020-04-01 monthly, with
      requests for 2020-02-15 and 2020-03-01: both land on the third entry.
      When that entry is compressed the index becomes 2 and no extra date is
      set; when it is a regular acquisition the index stays 0 and its date
      becomes the extra reference date. */
  lemma ChangeoverExample(stack: seq<StackFile>)
    requires Dates(stack) == [20200101, 20200201, 20200301, 20200401]
    ensures IsCompressed(stack[2]) ==>
      Resolve(stack, [20200215, 20200301]) == Resolved(2, None)
    ensures !IsCompressed(stack[2]) ==>
      Resolve(stack, [20200215, 20200301]) == Resolved(0, Some(20200301))
  {
    assert FirstAtOrAfter(Dates(stack), 20200215) == 2;
    assert FirstAtOrAfter(Dates(stack), 20200301) == 2;
    assert stack[2].date == Dates(stack)[2];
    var reqs := [20200215, 20200301];
    assert reqs[..1] == [20200215];
    var one: seq<Date> := [20200215];
    assert one[..0] == [];
    assert Resolve(stack, []) == Resolved(0, None);
    var change := if IsCompressed(stack[2]) then MoveIndex(2) else SetExtraDate(20200301);
    assert ChangeFor(stack, 20200215) == change;
    assert ChangeFor(stack, 20200301) == change;
    StepOnHit(Resolved(0, None), stack, 20200215);
    var first := Resolve(stack, one);
    assert first == Step(Resolved(0, None), stack, 20200215);
    assert first == Apply(Resolved(0, None), change);
    StepOnHit(first, stack, 20200301);
    assert Resolve(stack, reqs) == Step(first, stack, 20200301);
    assert Resolve(stack, reqs) == Apply(first, change);
  }
}
