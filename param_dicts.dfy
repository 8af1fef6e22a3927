/** Parameter dictionaries and the recursive override merge
    `_nested_update` of src/disp_s1/pge_runconfig.py. */
module ParamDicts {
  import opened Wrappers

  /** A value held in a Python parameter dictionary or a parsed JSON document. */
  datatype Value =
    | VNone
    | VBool(b: bool)
    | VInt(i: int)
    | VReal(r: real)
    | VStr(s: string)
    /** a `datetime.date`, as a yyyymmdd integer */
    | VDate(date: int)
    | VList(items: seq<Value>)
    | VDict(fields: Dict)

  type Dict = map<string, Value>

  /** `base.get(k, {})`: what the recursive call receives as its base. */
  function Get(base: Dict, k: string): Value
  {
    if k in base then base[k] else VDict(map[])
  }

  /** The merge only runs when, for every dictionary nested in the update,
      the base holds a dictionary (or nothing) at that key.  A non-empty
      update dictionary over a scalar makes Python fail on the scalar;
      an empty one never enters the loop and keeps the scalar. */
  predicate Compatible(base: Dict, updates: Dict)
    decreases VDict(updates), 0
  {
    forall k | k in updates && updates[k].VDict? ::
      CompatibleValue(Get(base, k), updates[k].fields)
  }

  predicate CompatibleValue(b: Value, updates: Dict)
    decreases VDict(updates), 1
  {
    if b.VDict? then Compatible(b.fields, updates) else updates == map[]
  }

  /** `_nested_update(b, updates)` where `b` need not be a dictionary. */
  function MergeValue(b: Value, updates: Dict): Value
    requires CompatibleValue(b, updates)
    decreases VDict(updates), 1
  {
    if b.VDict? then VDict(Merge(b.fields, updates)) else b
  }

  /** The result of `_nested_update(base, updates)` as a value: update
      leaves replace, nested dictionaries merge, other keys stay. */
  function Merge(base: Dict, updates: Dict): Dict
    requires Compatible(base, updates)
    decreases VDict(updates), 0
  {
    map k | k in base.Keys + updates.Keys ::
      if k !in updates then base[k]
      else if updates[k].VDict? then MergeValue(Get(base, k), updates[k].fields)
      else updates[k]
  }

  /** `_nested_update` (pge_runconfig.py:506-512): one pass over the
      update's keys, assigning into the base.  Python iterates the keys
      in insertion order; they are distinct, so the order is immaterial. */
  method NestedUpdate(base: Dict, updates: Dict) returns (r: Dict)
    requires Compatible(base, updates)
    ensures r == Merge(base, updates)
    decreases VDict(updates)
  {
    r := base;
    var todo := updates.Keys;
    while todo != {}
      invariant todo <= updates.Keys
      invariant r.Keys == base.Keys + (updates.Keys - todo)
      invariant forall k | k in r ::
        r[k] == if k in updates && k !in todo then Merge(base, updates)[k] else base[k]
      decreases todo
    {
      var k :| k in todo;
      var v := updates[k];
      if v.VDict? {
        var sub := Get(r, k);
        if sub.VDict? {
          var merged := NestedUpdate(sub.fields, v.fields);
          r := r[k := VDict(merged)];
        } else {
          // `v` is empty here: the recursive call returns `sub` untouched
          r := r[k := sub];
        }
      } else {
        r := r[k := v];
      }
      todo := todo - {k};
    }
  }

  /** The value reached by following the key path `path` through nested dictionaries. */
  function Lookup(m: Dict, path: seq<string>): Option<Value>
    decreases |path|
  {
    if path == [] || path[0] !in m then None
    else if |path| == 1 then Some(m[path[0]])
    else match m[path[0]]
      case VDict(f) => Lookup(f, path[1..])
      case _ => None
  }

  /** `path` leaves the update before reaching its end: at some level the
      key is absent from the update, above it only dictionaries. */
  predicate Untouched(updates: Dict, path: seq<string>)
    decreases |path|
  {
    |path| > 0 &&
    (path[0] !in updates ||
     (|path| > 1 && updates[path[0]].VDict? && Untouched(updates[path[0]].fields, path[1..])))
  }

  /** Every non-dictionary leaf of the update sits at the same key path in the result. */
  lemma {:induction false} MergeOverridesLeaves(base: Dict, updates: Dict, path: seq<string>)
    requires Compatible(base, updates)
    requires Lookup(updates, path).Some? && !Lookup(updates, path).value.VDict?
    ensures Lookup(Merge(base, updates), path) == Lookup(updates, path)
    decreases |path|
  {
    var k := path[0];
    if |path| > 1 {
      var u := updates[k].fields;
      assert path[1] in u;
      var b := Get(base, k);
      assert CompatibleValue(b, u);
      assert b.VDict?;
      MergeOverridesLeaves(b.fields, u, path[1..]);
    }
  }

  /** Paths the update does not reach keep their base value (or stay absent). */
  lemma {:induction false} MergeKeepsUntouched(base: Dict, updates: Dict, path: seq<string>)
    requires Compatible(base, updates)
    requires Untouched(updates, path)
    ensures Lookup(Merge(base, updates), path) == Lookup(base, path)
    decreases |path|
  {
    var k := path[0];
    if k in updates {
      var u := updates[k].fields;
      var b := Get(base, k);
      assert CompatibleValue(b, u);
      if b.VDict? {
        MergeKeepsUntouched(b.fields, u, path[1..]);
        if k !in base {
          EmptyLookup(path[1..]);
        }
      } else {
        assert u == map[];
      }
    }
  }

  lemma EmptyLookup(path: seq<string>)
    ensures Lookup(map[], path) == None
  {
  }

  lemma MergeWithNothing(base: Dict)
    ensures Compatible(base, map[])
    ensures Merge(base, map[]) == base
  {
  }

  /** Applying the same update twice gives the same map as applying it once. */
  lemma {:induction false} MergeIdempotent(base: Dict, updates: Dict)
    requires Compatible(base, updates)
    ensures Compatible(Merge(base, updates), updates)
    ensures Merge(Merge(base, updates), updates) == Merge(base, updates)
    decreases VDict(updates)
  {
    var once := Merge(base, updates);
    forall k | k in updates && updates[k].VDict?
      ensures CompatibleValue(Get(once, k), updates[k].fields)
      ensures MergeValue(Get(once, k), updates[k].fields) == once[k]
    {
      var u := updates[k].fields;
      var b := Get(base, k);
      assert CompatibleValue(b, u);
      assert Get(once, k) == once[k] == MergeValue(b, u);
      if b.VDict? {
        MergeIdempotent(b.fields, u);
      } else {
        assert u == map[];
      }
    }
    var twice := Merge(once, updates);
    assert twice.Keys == once.Keys;
    forall k | k in once
      ensures twice[k] == once[k]
    {
    }
  }
}
