/** The scans the resolvers run over a listing, and what each resolver answers once it
    holds the listing. A listing is the sequence of entries under the reply's plural key
    (`zones['zone']`); the empty sequence stands for the empty reply `{}`. */
module Lookup {
  import opened Py

  /** The test a scan applies to one entry. */
  datatype Test =
    | AnyField(ref: Value, keys: seq<string>)  // ref in [e[k1], e[k2], ...]
    | SameLower(ref: Value)                     // ref.lower() == e['name'].lower()
    | FieldIs(key: string, want: Value)         // e[key] == want
    | NameOrIdIn(names: Value)                  // e['name'] in names or e['id'] in names
    | Finished                                  // e['jobstatus'] != 0 and 'jobresult' in e

  /** `[e[k1], e[k2], ...]`, raising at the first key that cannot be read. */
  function Fields(e: Value, keys: seq<string>): Result<seq<Value>>
  {
    if keys == [] then Ok([])
    else
      var v :- Index(e, keys[0]);
      var vs :- Fields(e, keys[1..]);
      Ok([v] + vs)
  }

  /** Python's evaluation of the test on one entry, with the exception it may raise. */
  function Check(t: Test, e: Value): Result<bool> {
    match t
    case AnyField(ref, keys) =>
      (var vs :- Fields(e, keys); Ok(ref in vs))
    case SameLower(ref) =>
      (var wanted :- Lower(ref);
       var name :- Index(e, "name");
       var listed :- Lower(name);
       Ok(wanted == listed))
    case FieldIs(key, want) =>
      (var v :- Index(e, key); Ok(v == want))
    case NameOrIdIn(names) =>
      (var name :- Index(e, "name");
       var byName :- In(name, names);
       if byName then Ok(true)
       else
         var id :- Index(e, "id");
         In(id, names))
    case Finished =>
      (var status :- Index(e, "jobstatus");
       if status == Int(0) then Ok(false) else Has(e, "jobresult"))
  }

  /** Where a scan stopped: at the first entry passing the test, nowhere, or at the
      entry whose test raised. */
  datatype Found = At(index: nat) | Nowhere | Broke(index: nat, error: Error)

  /** The first-match scan `for e in xs: if <t>: ...`. */
  function FirstWhere(t: Test, xs: seq<Value>): (f: Found)
    ensures f.At? ==> f.index < |xs| && Check(t, xs[f.index]) == Ok(true)
    ensures f.Broke? ==> f.index < |xs| && Check(t, xs[f.index]) == Err(f.error)
    ensures f.At? || f.Broke? ==> forall j :: 0 <= j < f.index ==> Check(t, xs[j]) == Ok(false)
    ensures f.Nowhere? ==> forall j :: 0 <= j < |xs| ==> Check(t, xs[j]) == Ok(false)
  {
    if xs == [] then Nowhere
    else
      match Check(t, xs[0])
      case Ok(hit) =>
        if hit then At(0)
        else
          (match FirstWhere(t, xs[1..])
           case At(i) => At(i + 1)
           case Nowhere => Nowhere
           case Broke(i, e) => Broke(i + 1, e))
      case Err(e) => Broke(0, e)
  }

  /** The loop every resolver runs: stop at the first entry that passes the test or whose
      test raises. */
  method Scan(t: Test, xs: seq<Value>) returns (f: Found)
    ensures f == FirstWhere(t, xs)
  {
    for i := 0 to |xs|
      invariant forall j :: 0 <= j < i ==> Check(t, xs[j]) == Ok(false)
    {
      var c := Check(t, xs[i]);
      if c.Err? {
        return Broke(i, c.error);
      }
      if c.value {
        return At(i);
      }
    }
    return Nowhere;
  }

  /** `for e in xs: if <t>: return e`, falling through to None. */
  function FirstRecord(t: Test, xs: seq<Value>): Result<Value> {
    match FirstWhere(t, xs)
    case At(i) => Ok(xs[i])
    case Broke(_, e) => Err(e)
    case Nowhere => Ok(Null)
  }

  /** `for e in xs: if <t>: return e[field]`, falling through to fail_json(msg=missing). */
  function ScanFor(t: Test, xs: seq<Value>, field: string, missing: string): Result<Value> {
    match FirstWhere(t, xs)
    case At(i) => Index(xs[i], field)
    case Broke(_, e) => Err(e)
    case Nowhere => Err(Failed(missing))
  }

  /** The message `"<kind> '%s' not found" % ref`. */
  function NotFound(kind: string, ref: Value): string {
    kind + " '" + Show(ref) + "' not found"
  }

  const ProjectKeys := ["name", "displaytext", "id"]
  const NameIdKeys := ["name", "id"]
  const OsTypeKeys := ["description", "id"]
  const ImageKeys := ["displaytext", "name", "id"]

  /** A resolver that answers None for an unset reference and otherwise the id of the
      first entry with the reference in one of `keys`: get_project_id, get_os_type_id,
      get_disk_offering_id and get_network_id once past their memo. */
  function OptionalLookup(kind: string, ref: Value, xs: seq<Value>, keys: seq<string>): Result<Value> {
    if !Truthy(ref) then Ok(Null)
    else ScanFor(AnyField(ref, keys), xs, "id", NotFound(kind, ref))
  }

  /** get_zone_id once past its memo: the first zone when no zone is given (a KeyError
      on the empty reply), else the first zone matched by name or id. */
  function ZoneLookup(zone: Value, zones: seq<Value>): Result<Value> {
    if !Truthy(zone) then (if zones == [] then Err(KeyError) else Index(zones[0], "id"))
    else ScanFor(AnyField(zone, NameIdKeys), zones, "id", NotFound("zone", zone))
  }

  /** get_network_offering_id and get_service_offering_id: the first offering when none
      is given, else the first matched by name or id. */
  function OfferingLookup(kind: string, ref: Value, xs: seq<Value>): Result<Value> {
    if xs == [] then Err(Failed(NotFound(kind, ref)))
    else if !Truthy(ref) then Index(xs[0], "id")
    else ScanFor(AnyField(ref, NameIdKeys), xs, "id", NotFound(kind, ref))
  }

  /** get_hypervisor once past its memo: the listed name of the first hypervisor whose
      name equals the reference ignoring case. Neither branch guards the empty reply. */
  function HypervisorLookup(ref: Value, xs: seq<Value>): Result<Value> {
    if xs == [] then Err(KeyError)
    else if !Truthy(ref) then Index(xs[0], "name")
    else ScanFor(SameLower(ref), xs, "name", NotFound("Hypervisor", ref))
  }

  /** A listing entry that carries every one of `keys`. */
  predicate IsRecord(e: Value, keys: seq<string>) {
    e.Dict? && forall k <- keys :: k in e.entries
  }

  /** `e.get(k)` on an entry; None when the entry is not a dict. */
  function Field(e: Value, k: string): Value {
    if e.Dict? then Get(e.entries, k) else Null
  }

  /** One of the entry's `keys` holds the reference. */
  predicate Holds(ref: Value, e: Value, keys: seq<string>) {
    exists k <- keys :: Field(e, k) == ref
  }

  /** Entry `i` is the first entry of `xs` holding the reference in one of `keys`. */
  predicate FirstHolding(ref: Value, xs: seq<Value>, keys: seq<string>, i: int) {
    && 0 <= i < |xs|
    && Holds(ref, xs[i], keys)
    && forall j :: 0 <= j < i ==> !Holds(ref, xs[j], keys)
  }

  lemma {:induction false} FieldsOfRecord(e: Value, keys: seq<string>)
    requires IsRecord(e, keys)
    ensures Fields(e, keys).Ok?
    ensures |Fields(e, keys).value| == |keys|
    ensures forall i :: 0 <= i < |keys| ==> Fields(e, keys).value[i] == Field(e, keys[i])
  {
    if keys != [] {
      assert IsRecord(e, keys[1..]) by {
        forall k <- keys[1..] ensures k in e.entries { assert k in keys; }
      }
      FieldsOfRecord(e, keys[1..]);
      assert keys[0] in keys;
    }
  }

  /** On an entry carrying every key, `ref in [e[k], ...]` raises nothing and is true
      exactly when one of the keys holds the reference. */
  lemma AnyFieldOnRecord(ref: Value, e: Value, keys: seq<string>)
    requires IsRecord(e, keys)
    ensures Check(AnyField(ref, keys), e) == Ok(Holds(ref, e, keys))
  {
    FieldsOfRecord(e, keys);
    var vs := Fields(e, keys).value;
    if ref in vs {
      var i :| 0 <= i < |vs| && vs[i] == ref;
      assert keys[i] in keys;
    }
    if Holds(ref, e, keys) {
      var k :| k in keys && Field(e, k) == ref;
      var i :| 0 <= i < |keys| && keys[i] == k;
      assert vs[i] == ref;
    }
  }

  /** A first-match resolver over well-formed entries: it succeeds exactly when some entry
      holds the reference in one of `keys`, then answers the id of the first such entry,
      and otherwise fails with "<kind> '<ref>' not found". */
  lemma FirstMatchOnRecords(kind: string, ref: Value, xs: seq<Value>, keys: seq<string>)
    requires "id" in keys
    requires forall i :: 0 <= i < |xs| ==> IsRecord(xs[i], keys)
    ensures var r := ScanFor(AnyField(ref, keys), xs, "id", NotFound(kind, ref));
      && (r.Ok? <==> exists i :: 0 <= i < |xs| && Holds(ref, xs[i], keys))
      && (r.Ok? ==> exists i :: FirstHolding(ref, xs, keys, i) && r.value == Field(xs[i], "id"))
      && (!r.Ok? ==> r == Err(Failed(NotFound(kind, ref))))
  {
    forall i | 0 <= i < |xs| ensures Check(AnyField(ref, keys), xs[i]) == Ok(Holds(ref, xs[i], keys)) {
      AnyFieldOnRecord(ref, xs[i], keys);
    }
    match FirstWhere(AnyField(ref, keys), xs)
    case At(i) =>
      assert FirstHolding(ref, xs, keys, i);
    case Nowhere =>
    case Broke(i, _) =>
  }

  /** On a zone carrying a name and an id, "the zone holds the reference" means its name
      or its id equals it. */
  lemma HoldsNameOrId(ref: Value, e: Value)
    ensures Holds(ref, e, NameIdKeys) <==> (Field(e, "name") == ref || Field(e, "id") == ref)
  {
    assert "name" in NameIdKeys && "id" in NameIdKeys;
  }

  /** get_zone_id over well-formed zones: with no zone given the first zone's id; otherwise
      the id of the first zone whose name or id equals the reference, and "zone '<ref>' not
      found" when there is none. */
  lemma ZoneLookupFirstMatch(zone: Value, zones: seq<Value>)
    requires forall i :: 0 <= i < |zones| ==> IsRecord(zones[i], NameIdKeys)
    ensures var r := ZoneLookup(zone, zones);
      && (!Truthy(zone) && zones != [] ==> r == Ok(Field(zones[0], "id")))
      && (!Truthy(zone) && zones == [] ==> r == Err(KeyError))
      && (Truthy(zone) ==> (r.Ok? <==> exists i :: 0 <= i < |zones| && Holds(zone, zones[i], NameIdKeys)))
      && (Truthy(zone) && r.Ok? ==>
            exists i :: FirstHolding(zone, zones, NameIdKeys, i) && r.value == Field(zones[i], "id"))
      && (Truthy(zone) && !r.Ok? ==> r == Err(Failed(NotFound("zone", zone))))
  {
    if Truthy(zone) {
      FirstMatchOnRecords("zone", zone, zones, NameIdKeys);
    } else if zones != [] {
      assert IsRecord(zones[0], NameIdKeys);
      assert "id" in NameIdKeys;
    }
  }

  /** get_project_id over well-formed projects: an unset project resolves to None without
      a match; otherwise the id of the first project whose name, display text or id equals
      the reference, and "project '<ref>' not found" when there is none. */
  lemma ProjectLookupFirstMatch(project: Value, projects: seq<Value>)
    requires forall i :: 0 <= i < |projects| ==> IsRecord(projects[i], ProjectKeys)
    ensures var r := OptionalLookup("project", project, projects, ProjectKeys);
      && (!Truthy(project) ==> r == Ok(Null))
      && (Truthy(project) ==>
            (r.Ok? <==> exists i :: 0 <= i < |projects| && Holds(project, projects[i], ProjectKeys)))
      && (Truthy(project) && r.Ok? ==>
            exists i :: FirstHolding(project, projects, ProjectKeys, i) && r.value == Field(projects[i], "id"))
      && (Truthy(project) && !r.Ok? ==> r == Err(Failed(NotFound("project", project))))
  {
    if Truthy(project) {
      assert "id" in ProjectKeys;
      FirstMatchOnRecords("project", project, projects, ProjectKeys);
    }
  }

  /** The entry's name is a string equal to `ref` ignoring case. */
  predicate SameNameIgnoringCase(ref: string, e: Value) {
    Field(e, "name").Str? && LowerText(Field(e, "name").s) == LowerText(ref)
  }

  /** Hypervisor entries whose names are strings. */
  predicate NamedEntries(xs: seq<Value>) {
    forall i :: 0 <= i < |xs| ==> IsRecord(xs[i], ["name"]) && Field(xs[i], "name").Str?
  }

  /** get_hypervisor matches ignoring case but answers the listing's own spelling: the
      first listed name when none is given, otherwise the first name equal to the
      reference up to case, and "Hypervisor '<ref>' not found" when there is none; the
      empty reply raises a KeyError either way. */
  lemma HypervisorKeepsListedSpelling(ref: Value, xs: seq<Value>)
    requires NamedEntries(xs)
    ensures var r := HypervisorLookup(ref, xs);
      && (xs == [] ==> r == Err(KeyError))
      && (xs != [] && !Truthy(ref) ==> r == Ok(Field(xs[0], "name")))
      && (xs != [] && ref.Str? && Truthy(ref) ==>
            (r.Ok? <==> exists i :: 0 <= i < |xs| && SameNameIgnoringCase(ref.s, xs[i])))
      && (xs != [] && ref.Str? && Truthy(ref) && r.Ok? ==>
            exists i :: 0 <= i < |xs| && SameNameIgnoringCase(ref.s, xs[i])
              && (forall j :: 0 <= j < i ==> !SameNameIgnoringCase(ref.s, xs[j]))
              && r.value == Field(xs[i], "name"))
      && (xs != [] && ref.Str? && Truthy(ref) && !r.Ok? ==>
            r == Err(Failed(NotFound("Hypervisor", ref))))
  {
    if xs != [] && !Truthy(ref) {
      assert IsRecord(xs[0], ["name"]);
    } else if xs != [] && ref.Str? {
      forall i | 0 <= i < |xs|
        ensures Check(SameLower(ref), xs[i]) == Ok(SameNameIgnoringCase(ref.s, xs[i]))
      {
        assert IsRecord(xs[i], ["name"]);
      }
      match FirstWhere(SameLower(ref), xs)
      case At(i) =>
        assert IsRecord(xs[i], ["name"]);
      case Nowhere =>
      case Broke(i, _) =>
    }
  }

  /** `ids = []; for e in xs: if <t>: ids.append(e['id'])`. */
  function IdsWhere(t: Test, xs: seq<Value>): Result<seq<Value>>
    decreases |xs|
  {
    if xs == [] then Ok([])
    else
      var ids :- IdsWhere(t, xs[..|xs| - 1]);
      var last := xs[|xs| - 1];
      var hit :- Check(t, last);
      if hit then (var id :- Index(last, "id"); Ok(ids + [id])) else Ok(ids)
  }

  /** Once the ids of a prefix cannot be collected, the whole listing fails the same way. */
  lemma {:induction false} IdsWhereKeepsError(t: Test, xs: seq<Value>, i: nat)
    requires i <= |xs|
    requires IdsWhere(t, xs[..i]).Err?
    ensures IdsWhere(t, xs) == IdsWhere(t, xs[..i])
    decreases |xs| - i
  {
    if i < |xs| {
      assert xs[..i + 1][..i] == xs[..i];
      IdsWhereKeepsError(t, xs, i + 1);
    } else {
      assert xs[..i] == xs;
    }
  }

  /** The loop of get_network_ids: the ids of the entries that pass the test, in order,
      or the first failure met on the way. */
  method CollectIds(t: Test, xs: seq<Value>) returns (r: Result<seq<Value>>)
    ensures r == IdsWhere(t, xs)
  {
    var ids: seq<Value> := [];
    for i := 0 to |xs|
      invariant IdsWhere(t, xs[..i]) == Ok(ids)
    {
      assert xs[..i + 1][..i] == xs[..i];
      var hit := Check(t, xs[i]);
      if hit.Err? {
        IdsWhereKeepsError(t, xs, i + 1);
        return Err(hit.error);
      }
      if hit.value {
        var id := Index(xs[i], "id");
        if id.Err? {
          IdsWhereKeepsError(t, xs, i + 1);
          return Err(id.error);
        }
        ids := ids + [id.value];
      }
    }
    assert xs[..|xs|] == xs;
    return Ok(ids);
  }

  /** The positions of the entries that pass the test, in increasing order. */
  ghost function Matching(t: Test, xs: seq<Value>): (m: seq<nat>)
    ensures forall k :: 0 <= k < |m| ==> m[k] < |xs|
    ensures forall k, l :: 0 <= k < l < |m| ==> m[k] < m[l]
    ensures forall i :: 0 <= i < |xs| ==> (i in m <==> Check(t, xs[i]) == Ok(true))
    decreases |xs|
  {
    if xs == [] then []
    else
      var m := Matching(t, xs[..|xs| - 1]);
      if Check(t, xs[|xs| - 1]) == Ok(true) then m + [|xs| - 1] else m
  }

  /** When no test raises and every passing entry has an id, the collected ids are those of
      exactly the passing entries, in listing order. */
  lemma {:induction false} IdsWhereSelects(t: Test, xs: seq<Value>)
    requires forall i :: 0 <= i < |xs| ==> Check(t, xs[i]).Ok?
    requires forall i :: 0 <= i < |xs| && Check(t, xs[i]) == Ok(true) ==> IsRecord(xs[i], ["id"])
    ensures IdsWhere(t, xs).Ok?
    ensures |IdsWhere(t, xs).value| == |Matching(t, xs)|
    ensures forall k :: 0 <= k < |Matching(t, xs)| ==>
              IdsWhere(t, xs).value[k] == Field(xs[Matching(t, xs)[k]], "id")
    decreases |xs|
  {
    if xs != [] {
      var init := xs[..|xs| - 1];
      forall i | 0 <= i < |init| ensures Check(t, init[i]) == Check(t, xs[i]) { }
      IdsWhereSelects(t, init);
      var last := xs[|xs| - 1];
      if Check(t, last) == Ok(true) {
        assert IsRecord(last, ["id"]);
      }
    }
  }

  /** A network of the listing passes get_network_ids' test exactly when its name or its
      id is among the names given. */
  lemma NameOrIdInOnRecord(names: seq<Value>, e: Value)
    requires IsRecord(e, NameIdKeys)
    ensures Check(NameOrIdIn(List(names)), e) ==
            Ok(Field(e, "name") in names || Field(e, "id") in names)
  {
  }
}
