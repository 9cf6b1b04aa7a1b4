/**
 * Clients of the index, checked against the contracts alone: a one-package
 * response, an empty response, and two listings sharing a full name.
 */
module Examples {
  import opened Results
  import opened Records
  import opened KeyedIndex
  import opened PackageLists
  import opened Fetch

  /**
   * A response with one package carrying one version: the index has one
   * listing, found by position and by full name; its version record holds
   * the version number; looking the package up by its uuid4 finds nothing,
   * because that lookup consults the full names.
   */
  method OnePackage(name: string, fullName: string, uuid: string, number: string)
    requires uuid != fullName
  {
    var version := Dict(map["name" := Str(name), "version_number" := Str(number)]);
    var m := map["name" := Str(name), "full_name" := Str(fullName),
                 "uuid4" := Str(uuid), "versions" := List([version])];
    var data := [Dict(m)];
    OnePackageAccepted(m, version.entries);
    var attrs := ListingOf(data[0]).value;

    var r := GetPackageList(data);
    assert r.Ok?;
    var list := r.value;
    var listing := list.packages[0];
    assert list.names == [Some(Str(fullName))];

    assert list.GetItem(Scalar(Int(0))) == Ok(One(listing));
    assert Last(list.names, Str(fullName)) == Some(0);
    assert list.GetItem(Scalar(Str(fullName))) == Ok(One(listing));
    assert listing.fields["name"] == Str(name);

    assert Converted(attrs, listing);
    var items := listing.fields["versions"].items;
    assert |items| == 1 && items[0].Obj?;
    assert items[0].ref.fields["version_number"] == Str(number);

    assert Last(list.names, Str(uuid)).None?;
    assert list.GetPackageByUuid(uuid) == None;
  }

  lemma OnePackageAccepted(m: map<string, Value>, v: map<string, Value>)
    requires "full_name" in m && m["full_name"].Str?
    requires "versions" in m && m["versions"] == List([Dict(v)])
    ensures Accepts([Dict(m)])
    ensures "name" in ListingOf(Dict(m)).value
    ensures ListingOf(Dict(m)).value["name"] == if "name" in m then m["name"] else Null
    ensures ListingOf(Dict(m)).value["full_name"] == m["full_name"]
    ensures ListingOf(Dict(m)).value["versions"] == m["versions"]
    ensures Version(Dict(v)).Ok? && "version_number" in Version(Dict(v)).value
    ensures Version(Dict(v)).value["version_number"] == if "version_number" in v then v["version_number"] else Null
  {
    ListingFromObject(m);
    VersionFromObject(v);
    var attrs := ListingOf(Dict(m)).value;
    assert Iterated(attrs["versions"]) == Ok([Dict(v)]);
    assert Convertible(attrs);
  }

  lemma ListingFromObject(m: map<string, Value>)
    ensures ListingOf(Dict(m)).Ok?
    ensures "name" in ListingOf(Dict(m)).value
    ensures ListingOf(Dict(m)).value["name"] == if "name" in m then m["name"] else Null
    ensures ListingOf(Dict(m)).value["full_name"] == if "full_name" in m then m["full_name"] else Null
    ensures ListingOf(Dict(m)).value["versions"] == if "versions" in m then m["versions"] else Null
  {
    var fields := Fields(PackageListing);
    assert "name" in fields by { assert fields[0] == "name"; }
    assert "full_name" in fields by { assert fields[1] == "full_name"; }
    assert "versions" in fields by { assert fields[13] == "versions"; }
    LoadedFresh(PackageListing, m);
    assert ListingOf(Dict(m)) == Loaded(PackageListing, Defaults(PackageListing), Dict(m));
  }

  lemma VersionFromObject(v: map<string, Value>)
    ensures Version(Dict(v)).Ok? && "version_number" in Version(Dict(v)).value
    ensures Version(Dict(v)).value["version_number"] == if "version_number" in v then v["version_number"] else Null
  {
    LoadedFresh(PackageVersion, v);
    assert Fields(PackageVersion)[4] == "version_number";
  }

  /** An empty response: an empty index, nothing to iterate, and position 0 raises IndexError. */
  method NoPackages()
  {
    var r := GetPackageList([]);
    assert r.Ok?;
    var list := r.value;
    assert list.Elements() == [];
    assert list.GetItem(Scalar(Int(0))) == Err(IndexError);
    assert list.GetItem(Scalar(Str("Owner-Foo-1.0.0"))) == Err(KeyError);
    assert list.GetItem(Scalar(Null)) == Err(TypeError);
  }

  /** Two listings with one full name: both stay in the list, the name finds the later one. */
  method SharedFullName()
  {
    var list := new PackageList();
    var first := new Record(PackageListing);
    var second := new Record(PackageListing);
    first.fields := first.fields["full_name" := Str("Owner-Foo")];
    second.fields := second.fields["full_name" := Str("Owner-Foo")];
    var a := list.AddPackage(first);
    var b := list.AddPackage(second);
    assert list.packages == [first, second];
    assert list.names == [Some(Str("Owner-Foo")), Some(Str("Owner-Foo"))];
    assert Last(list.names, Str("Owner-Foo")) == Some(1);
    assert list.GetItem(Scalar(Str("Owner-Foo"))) == Ok(One(second));
    assert list.GetItem(Scalar(Int(0))) == Ok(One(first));
    assert list.fullNameMap.Keys == {Str("Owner-Foo")};
  }
}
