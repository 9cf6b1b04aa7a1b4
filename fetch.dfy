/**
 * Building the package index from a parsed list response, and the metrics
 * records from parsed metrics responses. The HTTP requests, the status
 * check and the JSON parsing happen before these methods: they receive the
 * parsed body.
 */
module Fetch {
  import opened Results
  import opened Records
  import opened PackageLists

  /**
   * Python's `for v in value`: a list yields its items, a str its
   * one-character strings; None, bools, ints and records are not iterable.
   */
  function Iterated(value: Value): (r: Result<seq<Value>>)
    ensures r.Ok? <==> value.List? || value.Str?
    ensures r.Err? ==> r.error == TypeError
    ensures value.List? ==> r.value == value.items
    ensures value.Str? ==> |r.value| == |value.s|
    ensures value.Str? ==> forall j :: 0 <= j < |value.s| ==> r.value[j] == Str([value.s[j]])
  {
    match value
    case List(xs) => Ok(xs)
    case Str(s) => Ok(seq(|s|, j requires 0 <= j < |s| => Str([s[j]])))
    case _ => Err(TypeError)
  }

  /** The attributes of a version record built by `FromJson(PackageVersion(), v)`. */
  function Version(v: Value): Result<map<string, Value>>
  {
    Loaded(PackageVersion, Defaults(PackageVersion), v)
  }

  /** The attributes of a listing built by `FromJson(PackageListing(), d)`, or the exception. */
  function ListingOf(d: Value): (r: Result<map<string, Value>>)
    ensures r.Ok? ==> "full_name" in r.value && "versions" in r.value
  {
    DefaultsKeys(PackageListing);
    assert Fields(PackageListing)[1] == "full_name" && Fields(PackageListing)[13] == "versions";
    var r := Loaded(PackageListing, Defaults(PackageListing), d);
    if r.Ok? then LoadedKeys(PackageListing, Defaults(PackageListing), d); r else r
  }

  /** The records referred to by a list of values. */
  function Refs(items: seq<Value>): set<Record>
  {
    set j | 0 <= j < |items| && items[j].Obj? :: items[j].ref
  }

  /** `items` are version records, one per JSON value of `vs`, in order, each built from its value. */
  ghost predicate BuiltFrom(items: seq<Value>, vs: seq<Value>)
    reads Refs(items)
  {
    |items| == |vs| &&
    forall j :: 0 <= j < |vs| ==>
      items[j].Obj? && items[j].ref.kind == PackageVersion && Version(vs[j]) == Ok(items[j].ref.fields)
  }

  /** No record occurs twice among `items`. */
  predicate Separate(items: seq<Value>)
  {
    forall a, b :: 0 <= a < b < |items| && items[a].Obj? && items[b].Obj? ==> items[a].ref != items[b].ref
  }

  /** The version records a listing's `versions` refers to. */
  function VersionRecords(listing: Record): set<Record>
    reads listing
  {
    if "versions" in listing.fields && listing.fields["versions"].List? then
      Refs(listing.fields["versions"].items)
    else {}
  }

  /** The second pass can convert a listing whose attributes are `attrs`. */
  ghost predicate Convertible(attrs: map<string, Value>)
  {
    "versions" in attrs && Iterated(attrs["versions"]).Ok? &&
    forall j :: 0 <= j < |Iterated(attrs["versions"]).value| ==>
      Version(Iterated(attrs["versions"]).value[j]).Ok?
  }

  /**
   * `listing` is what the second pass makes of a listing whose attributes
   * were `before`: `versions` replaced by version records built from the
   * old `versions`, same number and order, no record twice, every other
   * attribute unchanged.
   */
  ghost predicate Converted(before: map<string, Value>, listing: Record)
    reads listing, VersionRecords(listing)
  {
    "versions" in before && Iterated(before["versions"]).Ok? &&
    "versions" in listing.fields && listing.fields["versions"].List? &&
    listing.fields == before["versions" := listing.fields["versions"]] &&
    BuiltFrom(listing.fields["versions"].items, Iterated(before["versions"]).value) &&
    Separate(listing.fields["versions"].items)
  }

  /** `[FromJson(PackageVersion(), v) for v in vs]`: new, distinct version records, or the first exception. */
  method BuildVersions(vs: seq<Value>) returns (r: Result<seq<Value>>)
    ensures r.Ok? <==> forall j :: 0 <= j < |vs| ==> Version(vs[j]).Ok?
    ensures r.Err? ==> r.error == TypeError
    ensures r.Ok? ==> BuiltFrom(r.value, vs) && forall x :: x in Refs(r.value) ==> fresh(x)
    ensures r.Ok? ==> Separate(r.value)
  {
    var out: seq<Value> := [];
    var j := 0;
    while j < |vs|
      invariant 0 <= j <= |vs|
      invariant forall k :: 0 <= k < j ==> Version(vs[k]).Ok?
      invariant BuiltFrom(out, vs[..j])
      invariant forall k :: 0 <= k < |out| ==> out[k].Obj? && fresh(out[k].ref)
      invariant Separate(out)
    {
      var record := new Record(PackageVersion);
      var loaded := FromJson(record, vs[j]);
      if loaded.Err? {
        return Err(loaded.error);
      }
      out := out + [Obj(record)];
      j := j + 1;
    }
    assert vs[..j] == vs;
    return Ok(out);
  }

  /**
   * `listing.versions = [FromJson(PackageVersion(), v) for v in listing.versions]`.
   * The new version records are none of the records in `earlier`, which
   * all existed before the call.
   */
  method ConvertListing(listing: Record, ghost earlier: set<Record>) returns (r: Result<()>)
    requires "versions" in listing.fields
    modifies listing
    ensures r.Ok? <==> Convertible(old(listing.fields))
    ensures r.Err? ==> r.error == TypeError && listing.fields == old(listing.fields)
    ensures r.Ok? ==> Converted(old(listing.fields), listing)
    ensures r.Ok? ==> forall x :: x in VersionRecords(listing) ==> fresh(x)
    ensures r.Ok? ==> VersionRecords(listing) !! earlier
  {
    var vs := Iterated(listing.fields["versions"]);
    if vs.Err? {
      return Err(vs.error);
    }
    var items := BuildVersions(vs.value);
    if items.Err? {
      return Err(items.error);
    }
    listing.fields := listing.fields["versions" := List(items.value)];
    assert VersionRecords(listing) == Refs(items.value);
    return Ok(());
  }

  /**
   * One step of the second pass: converts listing `i`, whose attributes are
   * still `orig[i]`, when the listings before it are converted, with their
   * version records among `made`.
   */
  method ConvertAt(list: PackageList, i: nat, ghost orig: seq<map<string, Value>>, ghost made: set<Record>)
    returns (r: Result<()>)
    requires forall j, k :: 0 <= j < k < |list.packages| ==> list.packages[j] != list.packages[k]
    requires |orig| == |list.packages| && i < |list.packages|
    requires forall j :: 0 <= j < |list.packages| ==> list.packages[j] !in made
    requires forall j :: i <= j < |list.packages| ==> list.packages[j].fields == orig[j]
    requires "versions" in orig[i]
    requires forall j :: 0 <= j < i ==> Converted(orig[j], list.packages[j]) && VersionRecords(list.packages[j]) <= made
    requires forall j, k :: 0 <= j < k < i ==> VersionRecords(list.packages[j]) !! VersionRecords(list.packages[k])
    modifies list.packages[i]
    ensures r.Ok? <==> Convertible(orig[i])
    ensures r.Err? ==> r.error == TypeError
    ensures forall j :: i < j < |list.packages| ==> list.packages[j].fields == orig[j]
    ensures r.Err? ==> list.packages[i].fields == orig[i]
    ensures r.Err? ==> forall j :: 0 <= j < i ==> Converted(orig[j], list.packages[j])
    ensures r.Ok? ==> forall x :: x in VersionRecords(list.packages[i]) ==> fresh(x)
    ensures r.Ok? ==> forall j :: 0 <= j <= i ==>
              Converted(orig[j], list.packages[j]) && VersionRecords(list.packages[j]) <= made + VersionRecords(list.packages[i])
    ensures r.Ok? ==> forall j, k :: 0 <= j < k <= i ==> VersionRecords(list.packages[j]) !! VersionRecords(list.packages[k])
  {
    r := ConvertListing(list.packages[i], made);
  }

  /**
   * The second pass of building the index: for each listing in order,
   * replace `versions` by the list of version records built from it. An
   * exception stops the pass: the listings before the failing one are
   * converted, it and the ones after are untouched. No two listings share a
   * version record. `orig` holds each listing's attributes before the pass;
   * `failed` is the position of the listing whose conversion raised.
   */
  method ConvertVersions(list: PackageList, ghost orig: seq<map<string, Value>>) returns (r: Result<()>, ghost failed: nat)
    requires forall i, j :: 0 <= i < j < |list.packages| ==> list.packages[i] != list.packages[j]
    requires |orig| == |list.packages|
    requires forall i :: 0 <= i < |list.packages| ==> list.packages[i].fields == orig[i] && "versions" in orig[i]
    modifies set i | 0 <= i < |list.packages| :: list.packages[i]
    ensures r.Ok? <==> forall i :: 0 <= i < |list.packages| ==> Convertible(orig[i])
    ensures r.Err? ==> r.error == TypeError
    ensures r.Ok? ==> forall i :: 0 <= i < |list.packages| ==>
              Converted(orig[i], list.packages[i]) &&
              forall x :: x in VersionRecords(list.packages[i]) ==> fresh(x)
    ensures r.Ok? ==> forall i, j :: 0 <= i < j < |list.packages| ==>
              VersionRecords(list.packages[i]) !! VersionRecords(list.packages[j])
    ensures r.Err? ==> failed < |list.packages| && !Convertible(orig[failed])
    ensures r.Err? ==> forall j :: 0 <= j < failed ==> Converted(orig[j], list.packages[j])
    ensures r.Err? ==> forall j :: failed <= j < |list.packages| ==> list.packages[j].fields == orig[j]
  {
    ghost var made: set<Record> := {};
    var i := 0;
    while i < |list.packages|
      invariant 0 <= i <= |list.packages|
      invariant forall j :: 0 <= j < i ==> Convertible(orig[j])
      invariant forall j :: 0 <= j < i ==> Converted(orig[j], list.packages[j]) && VersionRecords(list.packages[j]) <= made
      invariant forall j :: i <= j < |list.packages| ==> list.packages[j].fields == orig[j]
      invariant forall x :: x in made ==> fresh(x)
      invariant forall j, k :: 0 <= j < k < i ==> VersionRecords(list.packages[j]) !! VersionRecords(list.packages[k])
    {
      var converted := ConvertAt(list, i, orig, made);
      if converted.Err? {
        return converted, i;
      }
      made := made + VersionRecords(list.packages[i]);
      i := i + 1;
    }
    return Ok(()), i;
  }

  /** Every element of the response can be copied onto a listing and stored under a hashable full name. */
  ghost predicate FirstPassSucceeds(data: seq<Value>)
  {
    forall i :: 0 <= i < |data| ==>
      ListingOf(data[i]).Ok? && HashKey(ListingOf(data[i]).value["full_name"]).Some?
  }

  /** The response builds an index: the first pass succeeds and every listing's versions convert. */
  ghost predicate Accepts(data: seq<Value>)
  {
    FirstPassSucceeds(data) &&
    forall i :: 0 <= i < |data| ==> Convertible(ListingOf(data[i]).value)
  }

  /** `listing`, stored under `key`, is what the first pass makes of the response element `d`. */
  ghost predicate ListedFrom(listing: Record, key: Option<Value>, d: Value)
    reads listing
  {
    ListingOf(d).Ok? && HashKey(ListingOf(d).value["full_name"]).Some? &&
    listing.kind == PackageListing && listing.fields == ListingOf(d).value &&
    key == HashKey(ListingOf(d).value["full_name"])
  }

  /** `list.add_package(FromJson(PackageListing(), d))`: one step of the first pass. */
  method AddListing(list: PackageList, d: Value) returns (r: Result<()>)
    requires list.Valid()
    modifies list
    ensures list.Valid()
    ensures r.Ok? <==> ListingOf(d).Ok? && HashKey(ListingOf(d).value["full_name"]).Some?
    ensures r.Err? ==> r.error == TypeError
    ensures r.Ok? ==>
              |list.packages| == |old(list.packages)| + 1 && list.packages[..|old(list.packages)|] == old(list.packages) &&
              list.names == old(list.names) + [HashKey(ListingOf(d).value["full_name"])]
    ensures r.Ok? ==>
              var listing := list.packages[|old(list.packages)|];
              fresh(listing) && listing.kind == PackageListing && listing.fields == ListingOf(d).value
  {
    var listing := new Record(PackageListing);
    var loaded := FromJson(listing, d);
    if loaded.Err? {
      return Err(loaded.error);
    }
    assert listing.fields == ListingOf(d).value;
    r := list.AddPackage(listing);
  }

  /**
   * The first pass of building the index: a new index, and for each element
   * of the response in order a new listing copied from it and added.
   */
  method AddListings(data: seq<Value>) returns (r: Result<PackageList>)
    ensures r.Ok? <==> FirstPassSucceeds(data)
    ensures r.Err? ==> r.error == TypeError
    ensures r.Ok? ==> fresh(r.value) && r.value.Valid() && |r.value.packages| == |data|
    ensures r.Ok? ==> forall i, j :: 0 <= i < j < |data| ==> r.value.packages[i] != r.value.packages[j]
    ensures r.Ok? ==> forall i :: 0 <= i < |data| ==>
              fresh(r.value.packages[i]) && r.value.packages[i].kind == PackageListing &&
              r.value.packages[i].fields == ListingOf(data[i]).value &&
              r.value.names[i] == HashKey(ListingOf(data[i]).value["full_name"])
  {
    var list := new PackageList();
    var i := 0;
    while i < |data|
      invariant 0 <= i <= |data|
      invariant fresh(list) && list.Valid() && |list.packages| == i
      invariant forall j :: 0 <= j < i ==> fresh(list.packages[j]) && ListedFrom(list.packages[j], list.names[j], data[j])
      invariant forall j, k :: 0 <= j < k < i ==> list.packages[j] != list.packages[k]
    {
      ghost var before, keys := list.packages, list.names;
      var added := AddListing(list, data[i]);
      if added.Err? {
        return Err(added.error);
      }
      assert ListedFrom(list.packages[i], list.names[i], data[i]);
      assert forall j :: 0 <= j < i ==> list.packages[j] == before[j] && list.names[j] == keys[j];
      i := i + 1;
    }
    return Ok(list);
  }

  /**
   * `getPackageList` after the response has been fetched and parsed into the
   * list `data`: the first pass, then the second pass over the index.
   */
  method GetPackageList(data: seq<Value>) returns (r: Result<PackageList>)
    ensures r.Ok? <==> Accepts(data)
    ensures r.Err? ==> r.error == TypeError
    ensures r.Ok? ==> fresh(r.value) && r.value.Valid() && |r.value.packages| == |data|
    ensures r.Ok? ==> forall i, j :: 0 <= i < j < |data| ==> r.value.packages[i] != r.value.packages[j]
    ensures r.Ok? ==> forall i :: 0 <= i < |data| ==>
              fresh(r.value.packages[i]) && r.value.packages[i].kind == PackageListing &&
              r.value.names[i] == HashKey(ListingOf(data[i]).value["full_name"]) &&
              Converted(ListingOf(data[i]).value, r.value.packages[i])
    ensures r.Ok? ==> forall i, j :: 0 <= i < j < |data| ==>
              VersionRecords(r.value.packages[i]) !! VersionRecords(r.value.packages[j])
    ensures r.Ok? ==> forall i :: 0 <= i < |data| ==>
              forall x :: x in VersionRecords(r.value.packages[i]) ==> fresh(x)
  {
    var built := AddListings(data);
    if built.Err? {
      return Err(built.error);
    }
    var list := built.value;
    ghost var listed := seq(|data|, j requires 0 <= j < |data| =>
                              if ListingOf(data[j]).Ok? then ListingOf(data[j]).value else map[]);
    var converted, _ := ConvertVersions(list, listed);
    if converted.Err? {
      return Err(converted.error);
    }
    return Ok(list);
  }

  /** `getPackageMetrics` after the response has been fetched and parsed into `data`. */
  method GetPackageMetrics(data: Value) returns (r: Result<Record>)
    ensures r.Ok? <==> Loaded(PackageMetrics, Defaults(PackageMetrics), data).Ok?
    ensures r.Err? ==> r.error == TypeError
    ensures r.Ok? ==> fresh(r.value) && r.value.kind == PackageMetrics
    ensures r.Ok? ==> r.value.fields == Loaded(PackageMetrics, Defaults(PackageMetrics), data).value
  {
    var metrics := new Record(PackageMetrics);
    r := FromJson(metrics, data);
  }

  /** `getPackageVersionMetrics` after the response has been fetched and parsed into `data`. */
  method GetPackageVersionMetrics(data: Value) returns (r: Result<Record>)
    ensures r.Ok? <==> Loaded(PackageVersionMetrics, Defaults(PackageVersionMetrics), data).Ok?
    ensures r.Err? ==> r.error == TypeError
    ensures r.Ok? ==> fresh(r.value) && r.value.kind == PackageVersionMetrics
    ensures r.Ok? ==> r.value.fields == Loaded(PackageVersionMetrics, Defaults(PackageVersionMetrics), data).value
  {
    var metrics := new Record(PackageVersionMetrics);
    r := FromJson(metrics, data);
  }
}
