/** Metadata helpers of src/disp_s1/product.py: the ASCII filter applied to
    the configuration text stored in the product, and the attribute and
    storage-option choices of `_create_dataset`. */
module Metadata {
  import opened Wrappers
  import opened ParamDicts

  predicate IsAscii(c: char)
  {
    c as int < 128
  }

  /** `"".join(c for c in s if ord(c) < 128)` (product.py:1005, 1020). */
  function AsciiOnly(s: string): (r: string)
    ensures |r| <= |s|
    ensures forall i | 0 <= i < |r| :: IsAscii(r[i])
    ensures forall c | c in r :: c in s
  {
    if s == [] then []
    else (if IsAscii(s[0]) then [s[0]] else []) + AsciiOnly(s[1..])
  }

  /** Filtering works piece by piece: the filter of a concatenation is the
      concatenation of the filters. */
  lemma {:induction false} AsciiOnlyAppend(a: string, b: string)
    ensures AsciiOnly(a + b) == AsciiOnly(a) + AsciiOnly(b)
  {
    if a != [] {
      assert (a + b)[0] == a[0];
      assert (a + b)[1..] == a[1..] + b;
      AsciiOnlyAppend(a[1..], b);
      var head := if IsAscii(a[0]) then [a[0]] else [];
      assert AsciiOnly(a + b) == head + AsciiOnly(a[1..] + b);
      assert AsciiOnly(a) == head + AsciiOnly(a[1..]);
      assert head + (AsciiOnly(a[1..]) + AsciiOnly(b)) == (head + AsciiOnly(a[1..])) + AsciiOnly(b);
    } else {
      assert a + b == b;
    }
  }

  /** Text that is already ASCII passes through unchanged. */
  lemma {:induction false} AsciiOnlyKeepsAscii(s: string)
    requires forall i | 0 <= i < |s| :: IsAscii(s[i])
    ensures AsciiOnly(s) == s
  {
    if s != [] {
      AsciiOnlyKeepsAscii(s[1..]);
    }
  }

  /** Hence filtering twice is filtering once. */
  lemma AsciiOnlyIdempotent(s: string)
    ensures AsciiOnly(AsciiOnly(s)) == AsciiOnly(s)
  {
    AsciiOnlyKeepsAscii(AsciiOnly(s));
  }

  /** The data handed to `_create_dataset`: a string, or an array of `size` elements. */
  datatype Data = StrData(s: string) | ArrayData(size: nat)

  /** The storage options a dataset is created with: the chunked,
      compressed HDF5 options, or none. */
  datatype StorageOptions = ChunkedCompressed | NoOptions

  /** The attribute and option choices of `_create_dataset`
      (product.py:1131-1166): `description` is always set, `long_name` only
      when given and non-empty, the caller's other attributes are kept;
      strings and arrays of at most one element are stored without chunks
      or compression. */
  method CreateDataset(attrs: Option<Dict>, description: string, longName: Option<string>, data: Data)
    returns (finalAttrs: Dict, options: StorageOptions)
    ensures var base := if attrs.None? then map[] else attrs.value;
      && finalAttrs.Keys == base.Keys + {"description"} +
           (if longName.Some? && longName.value != "" then {"long_name"} else {})
      && finalAttrs["description"] == VStr(description)
      && (longName.Some? && longName.value != "" ==> finalAttrs["long_name"] == VStr(longName.value))
      && (forall k | k in base && k != "description" && (k != "long_name" || longName.None? || longName.value == "")
            :: finalAttrs[k] == base[k])
    ensures options == NoOptions <==> data.StrData? || data.size <= 1
  {
    var a := if attrs.None? then map[] else attrs.value;
    a := a["description" := VStr(description)];
    if longName.Some? && longName.value != "" {
      a := a["long_name" := VStr(longName.value)];
    }
    options := ChunkedCompressed;
    if data.StrData? {
      options := NoOptions;
    } else if data.size <= 1 {
      options := NoOptions;
    }
    finalAttrs := a;
  }
}
