/** The choice of the first and last burst files of an acquisition in
    `create_output_product` (src/disp_s1/product.py:158-172): the files
    sorted by file name, burst ids being numbered in acquisition order. */
module StartEnd {
  import opened Wrappers
  import Text

  /** `Path(f).name`, the sort key. */
  function Name(f: string): string
  {
    Text.BaseName(f)
  }

  predicate NameLe(a: string, b: string)
  {
    Text.LexLe(Name(a), Name(b))
  }

  /** `le` orders its arguments totally (ties allowed) and transitively. */
  ghost predicate TotalPreorder<T(!new)>(le: (T, T) -> bool)
  {
    && (forall a, b :: le(a, b) || le(b, a))
    && (forall a, b, c :: le(a, b) && le(b, c) ==> le(a, c))
  }

  predicate SortedBy<T>(s: seq<T>, le: (T, T) -> bool)
  {
    forall i, j | 0 <= i < j < |s| :: le(s[i], s[j])
  }

  /** Inserting `x` after every element not greater than it (Python's sort
      is stable). */
  function Insert<T(!new)>(x: T, s: seq<T>, le: (T, T) -> bool): (r: seq<T>)
    requires TotalPreorder(le) && SortedBy(s, le)
    ensures SortedBy(r, le)
    ensures multiset(r) == multiset(s) + multiset{x}
  {
    if s == [] then [x]
    else if le(s[0], x) then
      var rest := Insert(x, s[1..], le);
      assert s == [s[0]] + s[1..];
      InsertKeepsBelow(s[0], x, s[1..], rest, le);
      [s[0]] + rest
    else
      [x] + s
  }

  lemma InsertKeepsBelow<T>(head: T, x: T, tail: seq<T>, rest: seq<T>, le: (T, T) -> bool)
    requires SortedBy([head] + tail, le) && le(head, x)
    requires SortedBy(rest, le) && multiset(rest) == multiset(tail) + multiset{x}
    ensures SortedBy([head] + rest, le)
  {
    var r := [head] + rest;
    forall i, j | 0 <= i < j < |r| ensures le(r[i], r[j]) {
      if i > 0 {
        assert r[i] == rest[i - 1] && r[j] == rest[j - 1];
      } else {
        assert r[i] == head;
        var y := rest[j - 1];
        assert r[j] == y;
        assert y in multiset(rest);
        if y != x {
          assert y in tail;
          var k :| 0 <= k < |tail| && tail[k] == y;
          assert ([head] + tail)[0] == head && ([head] + tail)[k + 1] == y;
        }
      }
    }
  }

  /** `sorted(s, key=...)` for the order `le`. */
  function SortBy<T(!new)>(s: seq<T>, le: (T, T) -> bool): (r: seq<T>)
    requires TotalPreorder(le)
    ensures SortedBy(r, le)
    ensures multiset(r) == multiset(s)
  {
    if s == [] then []
    else
      var n := |s|;
      assert s == s[..n - 1] + [s[n - 1]];
      Insert(s[n - 1], SortBy(s[..n - 1], le), le)
  }

  /** The first and last elements of a sorted permutation bound every element. */
  lemma SortedEnds<T>(s: seq<T>, sorted: seq<T>, le: (T, T) -> bool)
    requires SortedBy(sorted, le) && multiset(sorted) == multiset(s) && |s| > 0
    requires forall a :: le(a, a)
    ensures sorted[0] in s && sorted[|sorted| - 1] in s
    ensures forall x | x in s :: le(sorted[0], x) && le(x, sorted[|sorted| - 1])
  {
    assert |sorted| == |multiset(sorted)| == |multiset(s)| == |s|;
    assert sorted[0] in multiset(s) && sorted[|sorted| - 1] in multiset(s);
    forall x | x in s ensures le(sorted[0], x) && le(x, sorted[|sorted| - 1]) {
      assert x in multiset(sorted);
      var j :| 0 <= j < |sorted| && sorted[j] == x;
    }
  }

  lemma NameOrder()
    ensures TotalPreorder(NameLe)
  {
    forall a, b ensures NameLe(a, b) || NameLe(b, a) {
      Text.LexLeTotal(Name(a), Name(b));
    }
    forall a, b, c | NameLe(a, b) && NameLe(b, c) ensures NameLe(a, c) {
      Text.LexLeTransitive(Name(a), Name(b), Name(c));
    }
  }

  /** `sorted(files, key=lambda f: Path(f).name)`. */
  function SortByName(files: seq<string>): (r: seq<string>)
    ensures SortedBy(r, NameLe)
    ensures multiset(r) == multiset(files)
  {
    NameOrder();
    SortBy(files, NameLe)
  }

  lemma NameReflexive()
    ensures forall a :: NameLe(a, a)
  {
    forall a ensures NameLe(a, a) {
      Text.LexLeReflexive(Name(a));
    }
  }

  /** The first of the name-sorted files has the least name and the last
      the greatest, both taken from the input. */
  lemma SortByNameEnds(files: seq<string>)
    requires files != []
    ensures var r := SortByName(files);
      && |r| == |files| && r[0] in files && r[|r| - 1] in files
      && forall f | f in files :: NameLe(r[0], f) && NameLe(f, r[|r| - 1])
  {
    var r := SortByName(files);
    assert |r| == |multiset(r)| == |multiset(files)| == |files|;
    NameReflexive();
    SortedEnds(files, r, NameLe);
  }

  /** `_get_start_end_cslcs` (product.py:163-172): a single file is both
      start and end; otherwise the first and last of the name-sorted
      files; an empty list cannot be unpacked. */
  function StartEndCslcs(files: seq<string>): (r: Result<(string, string)>)
    ensures r.Err? <==> files == []
    ensures |files| == 1 ==> r == Ok((files[0], files[0]))
    ensures r.Ok? ==> r.value.0 in files && r.value.1 in files
    ensures r.Ok? ==> forall f | f in files :: NameLe(r.value.0, f) && NameLe(f, r.value.1)
  {
    if |files| == 0 then Err(ValueError("not enough values to unpack"))
    else if |files| == 1 then
      Text.LexLeReflexive(Name(files[0]));
      Ok((files[0], files[0]))
    else
      SortByNameEnds(files);
      var sorted := SortByName(files);
      Ok((sorted[0], sorted[|sorted| - 1]))
  }

  /** Hence the start file's name never sorts after the end file's. */
  lemma StartNotAfterEnd(files: seq<string>)
    requires files != []
    ensures StartEndCslcs(files).Ok?
    ensures NameLe(StartEndCslcs(files).value.0, StartEndCslcs(files).value.1)
  {
    var r := StartEndCslcs(files);
    assert r.value.1 in files;
  }

  /** The start and end files of both acquisitions, after the emptiness
      checks of product.py:158-161. */
  function AcquisitionFiles(referenceFiles: seq<string>, secondaryFiles: seq<string>)
    : (r: Result<((string, string), (string, string))>)
    ensures referenceFiles == [] ==> r == Err(ValueError("Missing input reference cslc files"))
    ensures referenceFiles != [] && secondaryFiles == [] ==>
      r == Err(ValueError("Missing input secondary cslc files"))
    ensures r.Ok? <==> referenceFiles != [] && secondaryFiles != []
    ensures r.Ok? ==> Ok(r.value.0) == StartEndCslcs(referenceFiles) && Ok(r.value.1) == StartEndCslcs(secondaryFiles)
  {
    if |referenceFiles| == 0 then Err(ValueError("Missing input reference cslc files"))
    else if |secondaryFiles| == 0 then Err(ValueError("Missing input secondary cslc files"))
    else
      Ok((StartEndCslcs(referenceFiles).value, StartEndCslcs(secondaryFiles).value))
  }
}
