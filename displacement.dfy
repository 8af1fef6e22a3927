/** The two displacement layers of `create_output_product`
    (src/disp_s1/product.py:218-282): the unwrapped phase is filled,
    converted to meters, and NaN-masked where the phase was zero; the
    short-wavelength layer is NaN-masked wherever the pixel is bad. */
module Displacement {
  import opened Wrappers
  import opened Pixels

  /** `np.ma.filled(a, 0)`: masked pixels read as 0. */
  function Filled(a: seq<Option<Float>>): (r: seq<Float>)
    ensures |r| == |a|
    ensures forall i | 0 <= i < |a| :: r[i] == (if a[i].None? then Num(0.0) else a[i].value)
  {
    seq(|a|, i requires 0 <= i < |a| => if a[i].None? then Num(0.0) else a[i].value)
  }

  /** `unw_arr == 0`, pixel by pixel (NaN compares unequal to 0). */
  function ZeroMask(a: seq<Float>): (r: seq<bool>)
    ensures |r| == |a|
    ensures forall i | 0 <= i < |a| :: r[i] <==> a[i] == Num(0.0)
  {
    seq(|a|, i requires 0 <= i < |a| => a[i] == Num(0.0))
  }

  /** The raster is already in meters: only the exact unit string "meters"
      passes; a missing, empty, "radians" or unknown unit is treated as
      radians. */
  predicate InMeters(units: Option<string>)
  {
    units == Some("meters")
  }

  /** The unit branch (product.py:224-231): `phase2disp` converts radians to meters. */
  function ToMeters(unw: seq<Float>, units: Option<string>, phase2disp: real): (r: seq<Float>)
    ensures |r| == |unw|
    ensures InMeters(units) ==> r == unw
    ensures !InMeters(units) ==> forall i | 0 <= i < |unw| :: r[i] == Times(unw[i], phase2disp)
  {
    if units.None? || units.value == "" || (units.value != "meters" && units.value != "radians") then
      seq(|unw|, i requires 0 <= i < |unw| => Times(unw[i], phase2disp))
    else if units.value == "radians" then
      seq(|unw|, i requires 0 <= i < |unw| => Times(unw[i], phase2disp))
    else
      unw
  }

  /** `a[mask] = np.nan` as a value: NaN where the mask holds, `a` elsewhere. */
  function WithNaN(a: seq<Float>, mask: seq<bool>): (r: seq<Float>)
    requires |mask| == |a|
    ensures |r| == |a|
    ensures forall i | 0 <= i < |a| :: r[i] == (if mask[i] then NaN else a[i])
  {
    seq(|a|, i requires 0 <= i < |a| => if mask[i] then NaN else a[i])
  }

  /** `a[mask] = np.nan` (product.py:280, 282), writing into the array in place. */
  method MaskWithNaN(a: array<Float>, mask: seq<bool>)
    requires |mask| == a.Length
    modifies a
    ensures a[..] == WithNaN(old(a[..]), mask)
  {
    for i := 0 to a.Length
      invariant forall j | 0 <= j < i :: a[j] == (if mask[j] then NaN else old(a[j]))
      invariant forall j | i <= j < a.Length :: a[j] == old(a[j])
    {
      if mask[i] {
        a[i] := NaN;
      }
    }
  }

  /** The displacement layer as written (product.py:218-231, 280): NaN
      exactly where the filled phase is 0 or already NaN, so at every
      masked pixel; elsewhere the phase converted to meters. */
  function DisplacementLayer(unwrapped: seq<Option<Float>>, units: Option<string>, phase2disp: real)
    : (r: seq<Float>)
    ensures |r| == |unwrapped|
    ensures forall i | 0 <= i < |r| ::
      r[i].NaN? <==> unwrapped[i].None? || unwrapped[i] == Some(Num(0.0)) || unwrapped[i] == Some(NaN)
    ensures forall i | 0 <= i < |r| && unwrapped[i].Some? && unwrapped[i].value != Num(0.0) ::
      r[i] == (if InMeters(units) then unwrapped[i].value else Times(unwrapped[i].value, phase2disp))
  {
    var unw := Filled(unwrapped);
    WithNaN(ToMeters(unw, units, phase2disp), ZeroMask(unw))
  }

  /** The short-wavelength layer as written (product.py:270-282): the
      filtered displacement, NaN at every bad pixel. */
  function ShortWavelengthLayer(filtered: seq<Float>, badPixelMask: seq<bool>): (r: seq<Float>)
    requires |badPixelMask| == |filtered|
    ensures |r| == |filtered|
    ensures forall i | 0 <= i < |r| && badPixelMask[i] :: r[i] == NaN
    ensures forall i | 0 <= i < |r| && !badPixelMask[i] :: r[i] == filtered[i]
  {
    WithNaN(filtered, badPixelMask)
  }
}
