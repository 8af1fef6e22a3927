/** `_copy_hdf5_dsets` (src/disp_s1/product.py:1399-1426): copying datasets
    and groups from a source HDF5 file into a destination opened for
    appending.  An HDF5 file is a map from absolute object path to the
    object stored there. */
module Hdf5Copy {
  import opened Wrappers
  import opened ParamDicts
  import Text

  /** An HDF5 object: a group, or a dataset holding a value. */
  datatype Item = Group | Dataset(data: Value)

  type Tree = map<string, Item>

  /** `str(Path(p).parent)` for a path without trailing or doubled separators. */
  function Parent(p: string): (r: string)
    ensures r == "." || r == "/" || |r| < |p|
  {
    var i := Text.LastSlash(p);
    if i < 0 then "." else if i == 0 then "/" else p[..i]
  }

  /** The path of the child `name` of the group at `parent`; h5py resolves
      the relative parent "." against the root group. */
  function Child(parent: string, name: string): string
  {
    if parent == "/" || parent == "." then "/" + name
    else parent + "/" + name
  }

  /** `k` is the object at `p` or lies inside the group at `p`. */
  predicate Under(k: string, p: string)
  {
    k == p || (|k| > |p| && k[..|p|] == p && k[|p|] == '/')
  }

  /** The groups `require_group(g)` needs: `g` and its ancestors below the root. */
  function GroupChain(g: string): (r: set<string>)
    ensures forall a | a in r :: a != "/" && a != "." && |a| <= |g|
    decreases |g|, if g == "." then 0 else 1
  {
    if g == "/" || g == "." || g == "" then {} else {g} + GroupChain(Parent(g))
  }

  /** `dst.require_group(g)`: an existing group is kept, an existing
      dataset in the way is an error, missing groups are created. */
  function RequireGroup(t: Tree, g: string): (r: Result<Tree>)
    ensures r.Ok? ==> forall k | k in t :: k in r.value && r.value[k] == t[k]
    ensures r.Ok? ==> forall a | a in GroupChain(g) :: a in r.value && r.value[a] == Group
    ensures r.Ok? ==> forall k | k in r.value && k !in t :: k in GroupChain(g)
  {
    if exists a | a in GroupChain(g) :: a in t && t[a].Dataset? then Err(TypeError)
    else Ok(t + map a | a in GroupChain(g) && a !in t :: Group)
  }

  /** `del dst[p]`: the object and everything inside it go. */
  function Delete(t: Tree, p: string): (r: Tree)
    ensures forall k :: k in r <==> k in t && !Under(k, p)
    ensures forall k | k in r :: r[k] == t[k]
  {
    map k | k in t && !Under(k, p) :: t[k]
  }

  /** Re-rooting `k` from `p` to `q` loses nothing. */
  lemma ReRootInjective(p: string, q: string)
    ensures forall k1, k2 | Under(k1, p) && Under(k2, p) && q + k1[|p|..] == q + k2[|p|..] :: k1 == k2
  {
    forall k1, k2 | Under(k1, p) && Under(k2, p) && q + k1[|p|..] == q + k2[|p|..] ensures k1 == k2 {
      assert k1[|p|..] == (q + k1[|p|..])[|q|..];
      assert k2[|p|..] == (q + k2[|p|..])[|q|..];
      assert k1 == k1[..|p|] + k1[|p|..];
      assert k2 == k2[..|p|] + k2[|p|..];
    }
  }

  /** A re-rooted path lies under the new root. */
  lemma ReRootUnder(k: string, p: string, q: string)
    requires Under(k, p)
    ensures Under(q + k[|p|..], q)
  {
    var j := q + k[|p|..];
    assert j[..|q|] == q;
    if k != p {
      assert j[|q|] == k[|p|];
    } else {
      assert j == q;
    }
  }

  /** The object at `p` of `src` and everything inside it, re-rooted at `q`. */
  function Subtree(src: Tree, p: string, q: string): (r: Tree)
    ensures forall k | k in src && Under(k, p) :: q + k[|p|..] in r && r[q + k[|p|..]] == src[k]
    ensures forall j | j in r :: Under(j, q)
  {
    ReRootInjective(p, q);
    var r := map k | k in src && Under(k, p) :: q + k[|p|..] := src[k];
    assert forall j | j in r :: Under(j, q) by {
      forall j | j in r ensures Under(j, q) {
        var k :| k in src && Under(k, p) && j == q + k[|p|..];
        ReRootUnder(k, p, q);
      }
    }
    r
  }

  const AlreadyExists := "destination object already exists"

  /** One iteration of the copy loop (product.py:1408-1426), from the
      destination before it to the destination after it, with the error
      that ends the loop, if any.  The parent group is created and the old
      object deleted before the copy is attempted, so an error in the copy
      itself leaves those changes behind. */
  function CopyOne(dst: Tree, src: Tree, sourceFile: string, p: string, prepend: string, errorOnMissing: bool)
    : (r: (Tree, Option<Error>))
  {
    if p !in src then
      if errorOnMissing then (dst, Some(ValueError("Dataset or group " + p + " not found in " + sourceFile)))
      else (dst, None)
    else
      var parent := Parent(p);
      match RequireGroup(dst, parent)
      case Err(e) => (dst, Some(e))
      case Ok(withParent) =>
        var cleared := if p in withParent then Delete(withParent, p) else withParent;
        var target := Child(parent, prepend + Text.BaseName(p));
        if target in cleared then (cleared, Some(ValueError(AlreadyExists)))
        else (cleared + Subtree(src, p, target), None)
  }

  /** The loop over `paths`, stopping at the first error. */
  function CopyAll(dst: Tree, src: Tree, sourceFile: string, paths: seq<string>, prepend: string, errorOnMissing: bool)
    : (Tree, Option<Error>)
  {
    if paths == [] then (dst, None)
    else
      var n := |paths|;
      var before := CopyAll(dst, src, sourceFile, paths[..n - 1], prepend, errorOnMissing);
      if before.1.Some? then before
      else CopyOne(before.0, src, sourceFile, paths[n - 1], prepend, errorOnMissing)
  }

  /** A missing source path raises when `error_on_missing` is set and
      otherwise leaves the destination as it was. */
  lemma MissingPath(dst: Tree, src: Tree, sourceFile: string, p: string, prepend: string, errorOnMissing: bool)
    requires p !in src
    ensures CopyOne(dst, src, sourceFile, p, prepend, errorOnMissing).0 == dst
    ensures CopyOne(dst, src, sourceFile, p, prepend, errorOnMissing).1.Some? <==> errorOnMissing
  {
  }

  /** The destination after a successful copy of a present path: the
      parent's groups made, the old object deleted, the source subtree added
      under the new name. */
  lemma CopyOneResult(dst: Tree, src: Tree, sourceFile: string, p: string, prepend: string, errorOnMissing: bool)
    returns (cleared: Tree, target: string)
    requires p in src
    requires CopyOne(dst, src, sourceFile, p, prepend, errorOnMissing).1.None?
    ensures RequireGroup(dst, Parent(p)).Ok?
    ensures target == Child(Parent(p), prepend + Text.BaseName(p))
    ensures cleared == var w := RequireGroup(dst, Parent(p)).value; if p in w then Delete(w, p) else w
    ensures CopyOne(dst, src, sourceFile, p, prepend, errorOnMissing).0 == cleared + Subtree(src, p, target)
  {
    var parent := Parent(p);
    target := Child(parent, prepend + Text.BaseName(p));
    var withParent := RequireGroup(dst, parent).value;
    cleared := if p in withParent then Delete(withParent, p) else withParent;
  }

  /** A successful copy puts the source object, and everything inside it,
      at `parent/prepend+name`. */
  lemma CopyPlacesObject(dst: Tree, src: Tree, sourceFile: string, p: string, prepend: string, errorOnMissing: bool)
    requires p in src
    requires CopyOne(dst, src, sourceFile, p, prepend, errorOnMissing).1.None?
    ensures var r := CopyOne(dst, src, sourceFile, p, prepend, errorOnMissing).0;
      var target := Child(Parent(p), prepend + Text.BaseName(p));
      && (forall k | k in src && Under(k, p) :: target + k[|p|..] in r && r[target + k[|p|..]] == src[k])
      && target in r && r[target] == src[p]
  {
    var cleared, target := CopyOneResult(dst, src, sourceFile, p, prepend, errorOnMissing);
    assert Under(p, p) && p[|p|..] == "" && target + "" == target;
  }

  /** After a successful copy the parent group and its ancestors exist. */
  lemma CopyMakesParent(dst: Tree, src: Tree, sourceFile: string, p: string, prepend: string, errorOnMissing: bool)
    requires p in src
    requires CopyOne(dst, src, sourceFile, p, prepend, errorOnMissing).1.None?
    ensures forall a | a in GroupChain(Parent(p)) :: a in CopyOne(dst, src, sourceFile, p, prepend, errorOnMissing).0
  {
    var cleared, target := CopyOneResult(dst, src, sourceFile, p, prepend, errorOnMissing);
    forall a | a in GroupChain(Parent(p)) ensures a in cleared {
      assert |a| < |p|;
    }
  }

  /** The object at the source path is gone from the destination after a
      successful copy, unless the new name is that same path. */
  lemma CopyRemovesOld(dst: Tree, src: Tree, sourceFile: string, p: string, prepend: string, errorOnMissing: bool)
    requires p in src
    requires CopyOne(dst, src, sourceFile, p, prepend, errorOnMissing).1.None?
    requires !Under(p, Child(Parent(p), prepend + Text.BaseName(p)))
    ensures p !in CopyOne(dst, src, sourceFile, p, prepend, errorOnMissing).0
  {
    var cleared, target := CopyOneResult(dst, src, sourceFile, p, prepend, errorOnMissing);
    assert Under(p, p);
    assert p !in cleared;
    assert p !in Subtree(src, p, target);
  }

  /** Objects of the destination away from the copied path, its new name
      and the parent's chain of groups keep their contents. */
  lemma CopyKeepsOthers(dst: Tree, src: Tree, sourceFile: string, p: string, prepend: string, errorOnMissing: bool, k: string)
    requires k in dst && !Under(k, p)
    requires var target := Child(Parent(p), prepend + Text.BaseName(p)); !Under(k, target)
    ensures var r := CopyOne(dst, src, sourceFile, p, prepend, errorOnMissing).0;
      k in r && r[k] == dst[k]
  {
  }

  /** Once the loop has stopped on an error, later paths change nothing. */
  lemma {:induction false} ErrorEndsLoop(dst: Tree, src: Tree, sourceFile: string, paths: seq<string>, prepend: string, errorOnMissing: bool, i: nat)
    requires i <= |paths|
    requires CopyAll(dst, src, sourceFile, paths[..i], prepend, errorOnMissing).1.Some?
    ensures CopyAll(dst, src, sourceFile, paths, prepend, errorOnMissing)
         == CopyAll(dst, src, sourceFile, paths[..i], prepend, errorOnMissing)
  {
    if i < |paths| {
      var n := |paths|;
      assert paths[..n - 1][..i] == paths[..i];
      ErrorEndsLoop(dst, src, sourceFile, paths[..n - 1], prepend, errorOnMissing, i);
    } else {
      assert paths[..i] == paths;
    }
  }

  /** An HDF5 file opened for appending. */
  class Hdf5File {
    var items: Tree

    constructor (items: Tree)
      ensures this.items == items
    {
      this.items := items;
    }

    /** One pass of the copy loop for the source path `p`. */
    method CopyPath(src: Tree, sourceFile: string, p: string, prepend: string, errorOnMissing: bool)
      returns (err: Option<Error>)
      modifies this
      ensures (items, err) == CopyOne(old(items), src, sourceFile, p, prepend, errorOnMissing)
    {
      if p !in src {
        if errorOnMissing {
          return Some(ValueError("Dataset or group " + p + " not found in " + sourceFile));
        }
        return None;
      }
      var parent := Parent(p);
      var required := RequireGroup(items, parent);
      if required.Err? {
        return Some(required.error);
      }
      items := required.value;
      if p in items {
        items := Delete(items, p);
      }
      var target := Child(parent, prepend + Text.BaseName(p));
      if target in items {
        return Some(ValueError(AlreadyExists));
      }
      items := items + Subtree(src, p, target);
      err := None;
    }

    /** `_copy_hdf5_dsets` with this file as the destination. */
    method CopyDsets(src: Tree, sourceFile: string, paths: seq<string>, prepend: string, errorOnMissing: bool)
      returns (err: Option<Error>)
      modifies this
      ensures (items, err) == CopyAll(old(items), src, sourceFile, paths, prepend, errorOnMissing)
    {
      ghost var start := items;
      for i := 0 to |paths|
        invariant (items, None) == CopyAll(start, src, sourceFile, paths[..i], prepend, errorOnMissing)
      {
        assert paths[..i + 1][..i] == paths[..i];
        err := CopyPath(src, sourceFile, paths[i], prepend, errorOnMissing);
        if err.Some? {
          ErrorEndsLoop(start, src, sourceFile, paths, prepend, errorOnMissing, i + 1);
          return;
        }
      }
      err := None;
      assert paths[..|paths|] == paths;
    }
  }
}
