# ThunderstorePy: the package index and the JSON field copier

ThunderstorePy is a small client for the Thunderstore mod registry. This
project models the part of it that works on data once a response has been
parsed:

- **the package index** (`PackageList`). It keeps the listings in the order
  they were added, plus a dictionary from each listing's `full_name` to the
  listing. Adding a listing never checks for duplicates: two listings with
  the same full name both stay in the list, and the dictionary keeps the
  later one. Subscripting works as follows:
  - an int (or bool) or a slice indexes the list, with Python's negative
    positions and slice clamping;
  - a str looks up the dictionary;
  - any other key raises `TypeError`.

  `get_package_by_uuid` is modelled as written: it looks its argument up
  among the full names, never among the `uuid4` attributes.
- **the four record classes** (`PackageListing`, `PackageVersion`,
  `PackageMetrics`, `PackageVersionMetrics`). Each has its declared attribute
  names, and every attribute defaults to None.
- **`FromJson`**. For every declared attribute that the parsed JSON value
  contains, in declaration order, it copies the value verbatim onto the
  record, then returns the same record. It is modelled with Python's meaning
  for whatever value it is handed:
  - a dict copies the attributes it contains;
  - for a list or a str, `in` is membership or a substring test, and
    `data[name]` then raises `TypeError`;
  - None, a bool or an int raises `TypeError`.
- **`getPackageList`, `getPackageMetrics` and `getPackageVersionMetrics`**,
  each after its response has been fetched and parsed. `getPackageList` runs
  two passes:
  - the first pass copies each element of the response onto a new listing
    and adds it to a new index;
  - the second pass replaces each listing's `versions` with new version
    records copied from the old `versions`, in order.

Records are a `Record` class whose attribute map is updated in place. The
index is a `PackageList` class with a sequence and a map field. It also has
a ghost history of the key each addition was stored under. Its invariant
says the map is what storing every addition in turn builds (`KeyedIndex.Index`).
Exceptions are modelled as `Result` values carrying the Python exception
class.

Modules:
- `Results`: Option and Result.
- `Records`: values, record classes, `FromJson`.
- `Slices`: Python's list subscript and slicing.
- `KeyedIndex`: the dictionary as a function of the history of additions.
- `PackageLists`: the index.
- `Fetch`: the bodies of the three fetch functions.
- `Examples`: clients checked against the contracts alone.

## Model

| member | source | states |
|---|---|---|
| Records.Fields | ThunderstorePy/Thunderstore.py:31-67 | each record class's annotated attribute names, in declaration order; they are non-empty, pairwise distinct, and each has at least four characters |
| Records.Record.constructor | ThunderstorePy/Thunderstore.py:31-67 | a new record of a class has exactly that class's declared attributes, all None |
| Records.DefaultsKeys | ThunderstorePy/Thunderstore.py:31-67 | a fresh record's attributes are exactly the declared ones |
| Records.FromJson | ThunderstorePy/Thunderstore.py:69-73 | copies every declared attribute the data contains, in declaration order, and returns the same object; on a list or str with a matching member, or a non-container, it raises TypeError and leaves the record as it was |
| Records.Contains | ThunderstorePy/Thunderstore.py:71 | `name in data`: key membership for a dict, element membership for a list, a substring test for a str (the empty name and the whole string are always found, and a found name is no longer than the string); None, bools, ints and records raise TypeError |
| Records.Subscript | ThunderstorePy/Thunderstore.py:72 | `data[name]` succeeds exactly for a dict holding the key, gives its value, and then `name in data` holds too; a dict without the key raises KeyError, anything else TypeError |
| Records.Loaded | ThunderstorePy/Thunderstore.py:69-73 | the attributes `FromJson` leaves, or its exception, which is always TypeError: a dict never raises; a list or str raises exactly when some declared name is a member of it, and otherwise changes nothing; any other value raises |
| Records.AssignAt | ThunderstorePy/Thunderstore.py:70-72 | after copying a list of names, an attribute holds the data's value if it is one of the names present in the data, and its prior value otherwise |
| Records.LoadedFromObject | ThunderstorePy/Thunderstore.py:69-73 | copying a JSON object succeeds; each declared attribute becomes `data[f]` when `f` is a key and keeps its prior value otherwise; no attribute is added |
| Records.LoadedFresh | ThunderstorePy/Thunderstore.py:69-73 | a fresh record loaded from a JSON object holds, for each declared attribute, the object's value or None |
| Records.LoadedKeys | ThunderstorePy/Thunderstore.py:69-73 | whatever the data, a successful copy leaves exactly the declared attributes |
| Records.LoadedIgnoresUndeclared | ThunderstorePy/Thunderstore.py:70-72 | two JSON objects that agree on the declared attributes give the same record; other keys are ignored |
| Records.LoadedIdempotent | ThunderstorePy/Thunderstore.py:69-73 | copying the same JSON object twice gives the same attributes as copying it once |
| Records.LoadedFromCharacter | ThunderstorePy/Thunderstore.py:70-72 | copying from a one-character string changes nothing and raises nothing, because no attribute name is that short |
| Records.MetricsExample | ThunderstorePy/Thunderstore.py:61-73 | metrics copied from an object with downloads 42 and rating 7 have those values, and latest_version stays None |
| Slices.At | ThunderstorePy/Thunderstore.py:21-22 | an int subscript succeeds exactly for `-len <= i < len`; a negative position counts from the end; otherwise it raises IndexError |
| Slices.Clamp | ThunderstorePy/Thunderstore.py:21-22 | a given slice bound is clamped into `[0, len]` (positive step) or `[-1, len-1]` (negative step): an in-range bound is kept, a negative one counts from the end, one below `-len` becomes 0 (or -1 for a negative step), one at or past `len` becomes `len` (or `len-1`) |
| Slices.Bounds | ThunderstorePy/Thunderstore.py:21-22 | the effective slice bounds: a zero step raises ValueError; a missing step is 1; with a positive step both bounds lie in `[0, len]`, with a negative step in `[-1, len-1]` |
| Slices.Take | ThunderstorePy/Thunderstore.py:21-22 | walking from start by step while short of stop picks as many elements as CPython's slice-length formula gives |
| Slices.Slice | ThunderstorePy/Thunderstore.py:21-22 | `s[start:stop:step]` raises ValueError exactly for a zero step, and otherwise has CPython's slice length for the effective bounds |
| Slices.TakeAt | ThunderstorePy/Thunderstore.py:21-22 | element k of a slice is element `start + k*step` of the list, which is in range |
| Slices.TakeContiguous | ThunderstorePy/Thunderstore.py:21-22 | a unit-step slice between in-range positions is the contiguous subsequence |
| Slices.SliceContiguous | ThunderstorePy/Thunderstore.py:21-22 | `s[lo:hi]` with `0 <= lo <= hi <= len(s)` is `s[lo..hi]` |
| Slices.SliceReversed | ThunderstorePy/Thunderstore.py:21-22 | `s[::-1]` is `s` reversed |
| Slices.SliceElements | ThunderstorePy/Thunderstore.py:21-22 | any slice with a non-zero step has CPython's length and picks elements `start + k*step` |
| KeyedIndex.Index | ThunderstorePy/Thunderstore.py:13-15 | the dictionary that storing every addition in turn builds; each of its values is one of the added items |
| KeyedIndex.Last | ThunderstorePy/Thunderstore.py:13-15 | the position of the last addition stored under a key, or none when no addition used it |
| KeyedIndex.IndexAt | ThunderstorePy/Thunderstore.py:13-15 | a key is in the dictionary exactly when some addition used it, and it maps to the latest such item |
| KeyedIndex.IndexSize | ThunderstorePy/Thunderstore.py:13-15 | the dictionary's keys are the distinct hashable keys added, so its size is their number |
| KeyedIndex.IndexSound | ThunderstorePy/Thunderstore.py:13-15 | every dictionary entry is an added item that was stored under that key |
| KeyedIndex.IndexComplete | ThunderstorePy/Thunderstore.py:13-15 | every addition with a hashable key can be found in the dictionary |
| KeyedIndex.IndexAppend | ThunderstorePy/Thunderstore.py:13-15 | one more addition overwrites its key's entry and leaves every other entry unchanged |
| PackageLists.HashKey | ThunderstorePy/Thunderstore.py:15 | the dictionary key a full name is stored under: none (TypeError) exactly for a list or dict; True and False become 1 and 0, so no key is a bool |
| PackageLists.SameKey | ThunderstorePy/Thunderstore.py:15 | two hashable full names land on the same dictionary entry exactly when they are equal or are ints or bools with the same numeric value |
| PackageLists.PackageList.constructor | ThunderstorePy/Thunderstore.py:9-11 | a new index is empty and satisfies the invariant |
| PackageLists.PackageList.AddPackage | ThunderstorePy/Thunderstore.py:13-15 | appends the listing and keeps earlier ones; stores it under its full name, overwriting, with every other entry unchanged; an unhashable full name raises TypeError after the append; the invariant is kept |
| PackageLists.PackageList.GetPackageByUuid | ThunderstorePy/Thunderstore.py:17-18 | the latest listing added under that FULL NAME, or None; never raises |
| PackageLists.PackageList.GetItem | ThunderstorePy/Thunderstore.py:20-26 | int or bool keys index the list with Python's bounds (IndexError otherwise); str keys give the latest listing with that full name (KeyError if none); slices give CPython's slice (ValueError for step 0); any other key raises TypeError |
| PackageLists.PackageList.Elements | ThunderstorePy/Thunderstore.py:28-29 | iteration yields the listings in insertion order, each the one its position (or its negative position) subscripts |
| PackageLists.Consistent | ThunderstorePy/Thunderstore.py:9-15 | each dictionary entry is the last listing added under its key; every hashable full name added is a key; the dictionary's size is the number of distinct full names added |
| Fetch.ListingOf | ThunderstorePy/Thunderstore.py:81 | a listing copied from a response element, when the copy succeeds, has `full_name` and `versions` attributes |
| Fetch.AddListing | ThunderstorePy/Thunderstore.py:81 | one first-pass step adds a new listing copied from the element and fails exactly when the copy raises or the full name is unhashable |
| Fetch.AddListings | ThunderstorePy/Thunderstore.py:78-81 | the first pass builds a new valid index of one new, distinct listing per element, in order, each copied from its element |
| Fetch.Iterated | ThunderstorePy/Thunderstore.py:83 | `for v in versions`: a list yields its items, a str its one-character strings, in order; anything else raises TypeError |
| Fetch.BuildVersions | ThunderstorePy/Thunderstore.py:83 | one new version record per value, in order, each copied from its value, no record twice; it fails with TypeError exactly when one of the copies raises |
| Fetch.ConvertListing | ThunderstorePy/Thunderstore.py:83 | one listing's `versions` becomes new version records copied from its old elements, every other attribute unchanged; it raises exactly when the listing is not convertible, and then leaves it unchanged |
| Fetch.ConvertAt | ThunderstorePy/Thunderstore.py:82-83 | one step of the second pass keeps the earlier listings converted and gives the new listing version records shared with no earlier listing |
| Fetch.ConvertVersions | ThunderstorePy/Thunderstore.py:82-83 | succeeds exactly when every listing's `versions` is iterable and all its elements copy; each listing's `versions` becomes same-length, same-order new, distinct version records, with every other attribute unchanged; no two listings share a version record; on failure, the listings before the failing one are converted and the rest are untouched |
| Fetch.GetPackageList | ThunderstorePy/Thunderstore.py:78-84 | succeeds exactly when the response is accepted by both passes; the result is a new valid index with one listing per element, in order, keyed by its full name, with converted versions, all version records new objects, and no two listings sharing one |
| Fetch.GetPackageMetrics | ThunderstorePy/Thunderstore.py:86-89 | a new metrics record copied from the parsed response, or TypeError exactly when the copy raises |
| Fetch.GetPackageVersionMetrics | ThunderstorePy/Thunderstore.py:91-94 | a new version-metrics record copied from the parsed response, or TypeError exactly when the copy raises |
| Examples.ListingFromObject | ThunderstorePy/Thunderstore.py:32-45 | a listing copied from any JSON object holds the object's name, full_name and versions, or None where absent |
| Examples.VersionFromObject | ThunderstorePy/Thunderstore.py:47-59 | a version copied from any JSON object holds the object's version_number, or None where absent |
| Examples.OnePackageAccepted | ThunderstorePy/Thunderstore.py:80-83 | a response of one listing with a string full name and a list of one JSON object as versions is accepted by both passes |

## Left out

- The HTTP requests, `raise_for_status` and `r.json()` (ThunderstorePy/Thunderstore.py:76-79, 87-89, 92-94) are network I/O and JSON parsing. The fetch methods take the parsed body as a parameter. An HTTP error such as a 404 therefore has no counterpart here.
- The URLs built with f-strings (lines 76, 87 and 92) only feed the requests.
- The `__main__` demo and its `print` (lines 96-98) are I/O.
- Fetch.GetPackageList takes the parsed body as a list. A response that is a JSON object or a scalar is not modelled; iterating it would give keys, characters or TypeError.
- Fetch.Iterated models a dict-valued `versions` as raising TypeError. In Python, iterating a dict yields its keys in insertion order, but a Dafny map keeps no order.
- JSON floats are not part of the value type.
- The `__annotations__` lookup and `setattr` (lines 70-72) are replaced by an explicit attribute-name list per record class and an attribute map.
- The type annotations on the attributes are not enforced, as in the source. Attributes hold any value.
- PackageLists.Key only models slice bounds that are integers or None. Python objects with `__index__` are not modelled as slice bounds.
- Fetch.ConvertVersions requires the listings in the index to be pairwise distinct objects. GetPackageList meets this because every listing it adds is new. A hand-built index holding one listing twice would convert it twice in Python. The listings' attributes before the pass are passed in as a ghost sequence.
- Python's hash equality is modelled only between bools and ints (True is 1 as a key). Other cross-type equalities that could arise between JSON values cannot arise without floats.
