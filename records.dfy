/**
 * The four record classes of the registry client and the generic field copier
 * `FromJson`, which copies every declared attribute that the parsed JSON
 * object carries onto a record, verbatim and without type checks.
 */
module Records {
  import opened Results

  /**
   * A Python value as the JSON parser produces it (None, bool, int, str,
   * list, dict with string keys), plus a reference to a record, which is what
   * a listing's `versions` holds once the second pass has run.
   */
  datatype Value =
    | Null
    | Bool(b: bool)
    | Int(i: int)
    | Str(s: string)
    | List(items: seq<Value>)
    | Dict(entries: map<string, Value>)
    | Obj(ref: Record)

  /** The four record classes. */
  datatype Kind = PackageListing | PackageVersion | PackageMetrics | PackageVersionMetrics

  /** The annotated attributes of each record class, in declaration order. */
  function Fields(kind: Kind): (names: seq<string>)
    ensures |names| > 0
    ensures forall i, j :: 0 <= i < j < |names| ==> names[i] != names[j]
    ensures forall i :: 0 <= i < |names| ==> |names[i]| >= 4
  {
    match kind
    case PackageListing =>
      ["name", "full_name", "owner", "package_url", "donation_link", "date_created",
       "date_updated", "uuid4", "rating_score", "is_pinned", "is_deprecated",
       "has_nsfw_content", "categories", "versions"]
    case PackageVersion =>
      ["name", "full_name", "description", "icon", "version_number", "dependencies",
       "download_url", "downloads", "date_created", "website_url", "is_active", "uuid4"]
    case PackageMetrics =>
      ["downloads", "rating_score", "latest_version"]
    case PackageVersionMetrics =>
      ["downloads"]
  }

  ghost function Declared(kind: Kind): set<string>
  {
    set f | f in Fields(kind)
  }

  /** The attributes of a freshly constructed record: every declared one is None. */
  function Defaults(kind: Kind): map<string, Value>
  {
    map f | f in Fields(kind) :: Null
  }

  /** One record object; `fields` are its attributes, updated in place. */
  class Record {
    const kind: Kind
    var fields: map<string, Value>

    constructor (kind: Kind)
      ensures this.kind == kind && fields == Defaults(kind)
    {
      this.kind := kind;
      fields := Defaults(kind);
    }
  }

  /** `needle` stands in `hay` at position `i`. */
  predicate OccursAt(needle: string, hay: string, i: int)
  {
    0 <= i && i + |needle| <= |hay| && hay[i..i + |needle|] == needle
  }

  /** Python's `needle in hay` on two strings. */
  predicate IsSubstring(needle: string, hay: string)
  {
    exists i :: 0 <= i <= |hay| && OccursAt(needle, hay, i)
  }

  /**
   * Python's `name in data` for a string `name`: key membership for a dict,
   * element membership for a list, a substring test for a str (the empty
   * name and the whole string are always in it); any other value raises.
   */
  function Contains(data: Value, name: string): (r: Result<bool>)
    ensures r.Ok? <==> data.Dict? || data.List? || data.Str?
    ensures r.Err? ==> r.error == TypeError
    ensures data.Dict? ==> r == Ok(name in data.entries)
    ensures data.List? ==> r == Ok(Str(name) in data.items)
    ensures data.Str? && r == Ok(true) ==> |name| <= |data.s|
    ensures data.Str? && (name == [] || name == data.s) ==> r == Ok(true)
  {
    match data
    case Dict(m) => Ok(name in m)
    case List(xs) => Ok(Str(name) in xs)
    case Str(s) =>
      assert name == [] || name == s ==> OccursAt(name, s, 0);
      Ok(IsSubstring(name, s))
    case _ => Err(TypeError)
  }

  /**
   * Python's `data[name]` for a string `name`: only a dict accepts a string
   * subscript, and only for a key it holds.
   */
  function Subscript(data: Value, name: string): (r: Result<Value>)
    ensures r.Ok? <==> data.Dict? && name in data.entries
    ensures r.Ok? ==> r.value == data.entries[name] && Contains(data, name) == Ok(true)
    ensures data.Dict? && name !in data.entries ==> r == Err(KeyError)
    ensures !data.Dict? ==> r == Err(TypeError)
  {
    match data
    case Dict(m) => if name in m then Ok(m[name]) else Err(KeyError)
    case _ => Err(TypeError)
  }

  /**
   * The attributes after `setattr(obj, f, data[f])` for each name `f` of
   * `names`, taken in order, that is a key of `data`.
   */
  function Assign(attrs: map<string, Value>, names: seq<string>, data: map<string, Value>): map<string, Value>
    decreases |names|
  {
    if names == [] then attrs
    else
      var prior := Assign(attrs, names[..|names| - 1], data);
      var f := names[|names| - 1];
      if f in data then prior[f := data[f]] else prior
  }

  /**
   * What `FromJson(obj, data)` makes of a record of class `kind` whose
   * attributes are `attrs`: its new attributes, or the exception it raises
   * (the record is then left as it was).
   */
  function Loaded(kind: Kind, attrs: map<string, Value>, data: Value): (r: Result<map<string, Value>>)
    ensures r.Err? ==> r.error == TypeError
    ensures data.Dict? ==> r.Ok?
    ensures data.List? || data.Str? ==>
              (r.Ok? <==> forall f :: f in Fields(kind) ==> Contains(data, f) == Ok(false))
    ensures r.Ok? && !data.Dict? ==> r.value == attrs
    ensures !(data.Dict? || data.List? || data.Str?) ==> r.Err?
  {
    match data
    case Dict(m) => Ok(Assign(attrs, Fields(kind), m))
    case List(_) =>
      if exists f :: f in Fields(kind) && Contains(data, f) == Ok(true) then Err(TypeError) else Ok(attrs)
    case Str(_) =>
      if exists f :: f in Fields(kind) && Contains(data, f) == Ok(true) then Err(TypeError) else Ok(attrs)
    case _ => Err(TypeError)
  }

  /**
   * The field copier: for each declared attribute of `obj`, in declaration
   * order, if it is in `data`, set it to `data[it]`. Returns the same object.
   */
  method FromJson(obj: Record, data: Value) returns (r: Result<Record>)
    modifies obj
    ensures Loaded(obj.kind, old(obj.fields), data).Ok? ==>
              r == Ok(obj) && obj.fields == Loaded(obj.kind, old(obj.fields), data).value
    ensures Loaded(obj.kind, old(obj.fields), data).Err? ==>
              r == Err(TypeError) && obj.fields == old(obj.fields)
  {
    var names := Fields(obj.kind);
    var i := 0;
    while i < |names|
      invariant 0 <= i <= |names|
      invariant data.Dict? ==> obj.fields == Assign(old(obj.fields), names[..i], data.entries)
      invariant !data.Dict? ==> obj.fields == old(obj.fields)
      invariant forall f :: f in names[..i] && !data.Dict? ==> Contains(data, f) == Ok(false)
    {
      var f := names[i];
      var c := Contains(data, f);
      if c.Err? {
        return Err(c.error);
      }
      if c.value {
        var v := Subscript(data, f);
        if v.Err? {
          return Err(v.error);
        }
        obj.fields := obj.fields[f := v.value];
      }
      assert names[..i + 1] == names[..i] + [f];
      i := i + 1;
    }
    assert names[..i] == names;
    if !data.Dict? {
      assert names[0] in names[..i];
    }
    return Ok(obj);
  }

  /** After the copy, an attribute holds the JSON value if it is declared and present, else its old value. */
  lemma {:induction false} AssignAt(attrs: map<string, Value>, names: seq<string>, data: map<string, Value>, g: string)
    ensures g in Assign(attrs, names, data) <==> g in attrs || (g in names && g in data)
    ensures g in Assign(attrs, names, data) ==>
              Assign(attrs, names, data)[g] == if g in names && g in data then data[g] else attrs[g]
    decreases |names|
  {
    if names != [] {
      var front := names[..|names| - 1];
      AssignAt(attrs, front, data, g);
      assert names == front + [names[|names| - 1]];
    }
  }

  /**
   * Copying from a JSON object: every declared attribute takes the object's
   * value when the object has that key and keeps its prior value otherwise;
   * the record keeps exactly its declared attributes.
   */
  lemma LoadedFromObject(kind: Kind, attrs: map<string, Value>, m: map<string, Value>)
    requires attrs.Keys == Declared(kind)
    ensures Loaded(kind, attrs, Dict(m)).Ok?
    ensures Loaded(kind, attrs, Dict(m)).value.Keys == Declared(kind)
    ensures forall f :: f in Fields(kind) ==>
              f in Loaded(kind, attrs, Dict(m)).value &&
              Loaded(kind, attrs, Dict(m)).value[f] == if f in m then m[f] else attrs[f]
  {
    var r := Assign(attrs, Fields(kind), m);
    forall g
      ensures g in r <==> g in Declared(kind)
      ensures g in r ==> r[g] == if g in m then m[g] else attrs[g]
    {
      AssignAt(attrs, Fields(kind), m, g);
    }
  }

  /** A fresh record has exactly the declared attributes. */
  lemma DefaultsKeys(kind: Kind)
    ensures Defaults(kind).Keys == Declared(kind)
  {
  }

  /** A fresh record loaded from a JSON object holds that object's value or None in each declared attribute. */
  lemma LoadedFresh(kind: Kind, m: map<string, Value>)
    ensures Loaded(kind, Defaults(kind), Dict(m)).Ok?
    ensures forall f :: f in Fields(kind) ==>
              f in Loaded(kind, Defaults(kind), Dict(m)).value &&
              Loaded(kind, Defaults(kind), Dict(m)).value[f] == if f in m then m[f] else Null
  {
    DefaultsKeys(kind);
    LoadedFromObject(kind, Defaults(kind), m);
  }

  /** Whatever the JSON value, a successful copy leaves a record with exactly its declared attributes. */
  lemma LoadedKeys(kind: Kind, attrs: map<string, Value>, data: Value)
    requires attrs.Keys == Declared(kind)
    requires Loaded(kind, attrs, data).Ok?
    ensures Loaded(kind, attrs, data).value.Keys == Declared(kind)
  {
    if data.Dict? {
      LoadedFromObject(kind, attrs, data.entries);
    }
  }

  /** The metrics record of a response carrying downloads and rating only: the latest version stays None. */
  lemma MetricsExample()
    ensures Loaded(PackageMetrics, Defaults(PackageMetrics),
                   Dict(map["downloads" := Int(42), "rating_score" := Int(7)]))
            == Ok(map["downloads" := Int(42), "rating_score" := Int(7), "latest_version" := Null])
  {
    var m := map["downloads" := Int(42), "rating_score" := Int(7)];
    LoadedFresh(PackageMetrics, m);
    DefaultsKeys(PackageMetrics);
    LoadedFromObject(PackageMetrics, Defaults(PackageMetrics), m);
    var r := Loaded(PackageMetrics, Defaults(PackageMetrics), Dict(m)).value;
    assert r.Keys == {"downloads", "rating_score", "latest_version"};
    assert r == map["downloads" := Int(42), "rating_score" := Int(7), "latest_version" := Null];
  }

  /** Keys of the JSON object that are not declared attributes make no difference. */
  lemma LoadedIgnoresUndeclared(kind: Kind, attrs: map<string, Value>, m: map<string, Value>, m': map<string, Value>)
    requires forall f :: f in Fields(kind) ==> (f in m <==> f in m')
    requires forall f :: f in Fields(kind) && f in m ==> m[f] == m'[f]
    ensures Loaded(kind, attrs, Dict(m)) == Loaded(kind, attrs, Dict(m'))
  {
    var r, r' := Assign(attrs, Fields(kind), m), Assign(attrs, Fields(kind), m');
    forall g
      ensures g in r <==> g in r'
      ensures g in r ==> r[g] == r'[g]
    {
      AssignAt(attrs, Fields(kind), m, g);
      AssignAt(attrs, Fields(kind), m', g);
    }
    assert r == r';
  }

  /** Copying the same JSON object a second time changes nothing. */
  lemma LoadedIdempotent(kind: Kind, attrs: map<string, Value>, m: map<string, Value>)
    ensures Loaded(kind, Loaded(kind, attrs, Dict(m)).value, Dict(m)) == Loaded(kind, attrs, Dict(m))
  {
    var once := Assign(attrs, Fields(kind), m);
    var twice := Assign(once, Fields(kind), m);
    forall g
      ensures g in twice <==> g in once
      ensures g in twice ==> twice[g] == once[g]
    {
      AssignAt(attrs, Fields(kind), m, g);
      AssignAt(once, Fields(kind), m, g);
    }
    assert twice == once;
  }

  /**
   * A one-character string holds no attribute name (all have four or more
   * characters), so copying from it leaves the record unchanged and raises
   * nothing.
   */
  lemma LoadedFromCharacter(kind: Kind, attrs: map<string, Value>, c: char)
    ensures Loaded(kind, attrs, Str([c])) == Ok(attrs)
  {
    forall f | f in Fields(kind)
      ensures Contains(Str([c]), f) == Ok(false)
    {
      assert |f| >= 4;
    }
  }
}
