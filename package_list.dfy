/**
 * The package index: listings in the order they were added, plus a
 * dictionary from each listing's `full_name` to the listing. Adding never
 * checks for duplicates, so a second listing with the same full name is
 * appended to the list and replaces the first in the dictionary.
 */
module PackageLists {
  import opened Results
  import opened Records
  import opened Slices
  import opened KeyedIndex

  /**
   * The dictionary key Python stores a value under: None when the value is
   * unhashable (a list or a dict); True and False are the same keys as 1 and 0.
   */
  function HashKey(v: Value): (r: Option<Value>)
    ensures r.None? <==> v.List? || v.Dict?
    ensures r.Some? ==> !r.value.Bool?
    ensures v.Bool? ==> r == Some(Int(if v.b then 1 else 0))
  {
    match v
    case List(_) => None
    case Dict(_) => None
    case Bool(b) => Some(Int(if b then 1 else 0))
    case _ => Some(v)
  }

  /** A subscript: a Python value (int, bool, str or any other), or a slice `start:stop:step`. */
  datatype Key =
    | Scalar(v: Value)
    | SliceKey(start: Option<int>, stop: Option<int>, step: Option<int>)

  /** What a subscript returns: one listing, or a new list of listings for a slice. */
  datatype Item = One(package: Record) | Many(packages: seq<Record>)

  /** The position an int or bool subscript denotes. */
  function Position(v: Value): int
    requires v.Int? || v.Bool?
  {
    if v.Int? then v.i else if v.b then 1 else 0
  }

  /**
   * Two hashable values are the same dictionary key exactly when they are
   * equal, or both are ints or bools denoting the same number.
   */
  lemma SameKey(u: Value, v: Value)
    requires HashKey(u).Some? && HashKey(v).Some?
    ensures HashKey(u) == HashKey(v) <==>
              u == v || ((u.Int? || u.Bool?) && (v.Int? || v.Bool?) && Position(u) == Position(v))
  {
  }

  class PackageList {
    /** The listings, in the order they were added. */
    var packages: seq<Record>
    /** The listings by full name. */
    var fullNameMap: map<Value, Record>
    /** For each addition, the key its full name hashed to (None: unhashable, the store raised). */
    ghost var names: seq<Option<Value>>

    /** The dictionary is exactly what storing every addition in turn builds. */
    ghost predicate Valid()
      reads this
    {
      |names| == |packages| && fullNameMap == Index(names, packages)
    }

    constructor ()
      ensures Valid()
      ensures packages == [] && names == [] && fullNameMap == map[]
    {
      packages := [];
      fullNameMap := map[];
      names := [];
    }

    /**
     * Appends the listing, then stores it under its full name. An unhashable
     * full name raises TypeError after the append, leaving the dictionary
     * as it was.
     */
    method AddPackage(package: Record) returns (r: Result<()>)
      requires Valid()
      requires "full_name" in package.fields
      modifies this
      ensures Valid()
      ensures packages == old(packages) + [package]
      ensures names == old(names) + [HashKey(package.fields["full_name"])]
      ensures HashKey(package.fields["full_name"]).Some? ==>
                r == Ok(()) &&
                fullNameMap == old(fullNameMap)[HashKey(package.fields["full_name"]).value := package]
      ensures HashKey(package.fields["full_name"]).None? ==>
                r == Err(TypeError) && fullNameMap == old(fullNameMap)
    {
      var key := HashKey(package.fields["full_name"]);
      IndexAppend(names, packages, key, package);
      packages := packages + [package];
      names := names + [key];
      match key
      case None =>
        return Err(TypeError);
      case Some(k) =>
        fullNameMap := fullNameMap[k := package];
        return Ok(());
    }

    /**
     * Despite its name, looks `uuid4` up among the FULL NAMES: the latest
     * listing added under that full name, or None. Never raises.
     */
    function GetPackageByUuid(uuid4: string): (r: Option<Record>)
      reads this
      requires Valid()
      ensures Last(names, Str(uuid4)).None? ==> r == None
      ensures Last(names, Str(uuid4)).Some? ==> r == Some(packages[Last(names, Str(uuid4)).value])
    {
      IndexAt(names, packages, Str(uuid4));
      if Str(uuid4) in fullNameMap then Some(fullNameMap[Str(uuid4)]) else None
    }

    /**
     * `list[key]`: an int (or bool) or a slice subscripts the list of
     * listings; a str looks up the full-name dictionary; anything else raises
     * TypeError.
     */
    function GetItem(key: Key): (r: Result<Item>)
      reads this
      requires Valid()
      ensures key.Scalar? && (key.v.Int? || key.v.Bool?) ==>
                var i := Position(key.v);
                (r.Ok? <==> -|packages| <= i < |packages|) &&
                (r.Ok? ==> r.value == One(packages[if i < 0 then |packages| + i else i])) &&
                (r.Err? ==> r.error == IndexError)
      ensures key.Scalar? && key.v.Str? ==>
                (r.Ok? <==> Last(names, key.v).Some?) &&
                (r.Ok? ==> r.value == One(packages[Last(names, key.v).value])) &&
                (r.Err? ==> r.error == KeyError)
      ensures key.SliceKey? ==>
                (r.Ok? <==> key.step != Some(0)) &&
                (r.Ok? ==> r.value == Many(Slice(packages, key.start, key.stop, key.step).value)) &&
                (r.Err? ==> r.error == ValueError)
      ensures key.Scalar? && !(key.v.Int? || key.v.Bool? || key.v.Str?) ==> r == Err(TypeError)
    {
      match key
      case SliceKey(start, stop, step) =>
        (match Slice(packages, start, stop, step)
         case Ok(s) => Ok(Many(s))
         case Err(e) => Err(e))
      case Scalar(v) =>
        if v.Int? || v.Bool? then
          (match At(packages, Position(v))
           case Ok(p) => Ok(One(p))
           case Err(e) => Err(e))
        else if v.Str? then
          IndexAt(names, packages, v);
          if v in fullNameMap then Ok(One(fullNameMap[v])) else Err(KeyError)
        else Err(TypeError)
    }

    /** Iteration: the listings in insertion order, each the one that subscripting by its position gives. */
    function Elements(): (r: seq<Record>)
      reads this
      requires Valid()
      ensures |r| == |packages|
      ensures forall i :: 0 <= i < |r| ==> GetItem(Scalar(Int(i))) == Ok(One(r[i]))
      ensures forall i :: 0 <= i < |r| ==> GetItem(Scalar(Int(i - |r|))) == Ok(One(r[i]))
    {
      packages
    }
  }

  /**
   * The index invariant: every dictionary entry is a listing that was added
   * under that full name, and no later listing was; every listing with a
   * hashable full name can be found under it; the dictionary has one entry
   * per distinct full name added.
   */
  lemma Consistent(l: PackageList)
    requires l.Valid()
    ensures forall k :: k in l.fullNameMap ==>
              exists i :: 0 <= i < |l.packages| && l.names[i] == Some(k) && l.packages[i] == l.fullNameMap[k] &&
                forall j :: i < j < |l.packages| ==> l.names[j] != Some(k)
    ensures forall i :: 0 <= i < |l.packages| && l.names[i].Some? ==> l.names[i].value in l.fullNameMap
    ensures |l.fullNameMap| == |Stored(l.names)|
  {
    forall k | k in l.fullNameMap
      ensures exists i :: 0 <= i < |l.packages| && l.names[i] == Some(k) && l.packages[i] == l.fullNameMap[k] &&
                forall j :: i < j < |l.packages| ==> l.names[j] != Some(k)
    {
      IndexAt(l.names, l.packages, k);
      var i := Last(l.names, k).value;
      assert l.packages[i] == l.fullNameMap[k];
    }
    forall i | 0 <= i < |l.packages| && l.names[i].Some?
      ensures l.names[i].value in l.fullNameMap
    {
      IndexComplete(l.names, l.packages, i);
    }
    IndexSize(l.names, l.packages);
  }
}
