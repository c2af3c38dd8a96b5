/** The rubric catalog: rubric suites parsed from YAML files under per-tier
    directories, validated against the rubric schema, and filed by tier. */
module Rubrics {
  import opened Json
  import opened Text
  import opened Schema

  datatype RubricCheck = RubricCheck(
    id: string,
    description: string,
    checkType: string,
    severity: string,
    gate: string,
    requiredFixes: seq<string>,
    scoring: Json)   // Null when the file gives no scoring

  datatype RubricSuite = RubricSuite(
    id: string,
    tier: int,
    version: string,
    purpose: string,
    checks: seq<RubricCheck>)
  {
    /** The first check of this suite whose id is `checkId`, if any. */
    method GetCheck(checkId: string) returns (r: Option<RubricCheck>)
      ensures r.None? <==> forall i :: 0 <= i < |checks| ==> checks[i].id != checkId
      ensures r.Some? ==> exists i :: 0 <= i < |checks| && checks[i] == r.value
                            && r.value.id == checkId
                            && forall j :: 0 <= j < i ==> checks[j].id != checkId
    {
      for i := 0 to |checks|
        invariant forall j :: 0 <= j < i ==> checks[j].id != checkId
      {
        if checks[i].id == checkId {
          return Some(checks[i]);
        }
      }
      return None;
    }
  }

  /** Why one rubric file was not loaded. */
  datatype LoadError =
    | Unreadable                         // the file cannot be read or is not YAML
    | SchemaInvalid(messages: seq<string>)
    | Malformed(fault: Fault)            // accepted by the schema, yet not of the expected shape

  /** A file found in a tier directory: its name and its parsed YAML
      document, or None when it cannot be read or parsed. */
  datatype RubricFile = RubricFile(name: string, document: Option<Json>)

  /** A rubrics directory: each tier directory present, with its files in the
      order the directory listing yields them. */
  type RubricTree = map<string, seq<RubricFile>>

  /** The catalog: suites filed under tiers 1, 2 and 3. */
  type Catalog = map<int, seq<RubricSuite>>

  /** `check_data.get("required_fixes", [])`, a list of strings. */
  function FixesField(d: Dict<Json>): Result<seq<string>, Fault>
  {
    match AsStrList(GetOr(d, "required_fixes", Arr([])))
    case None => Err(TypeError("required_fixes is not a list of strings"))
    case Some(fixes) => Ok(fixes)
  }

  /** One entry of a suite's `checks` list. */
  function ParseCheck(j: Json): (r: Result<RubricCheck, Fault>)
    ensures r.Ok? ==> j.Obj? && Lookup(j.fields, "id") == Some(Str(r.value.id))
    ensures r.Ok? && Lookup(j.fields, "required_fixes").None? ==> r.value.requiredFixes == []
    ensures r.Ok? && Lookup(j.fields, "scoring").None? ==> r.value.scoring == Null
  {
    if !j.Obj? then Err(TypeError("check entry is not a mapping"))
    else
      var d := j.fields;
      var id :- StringField(d, "id");
      var description :- StringField(d, "description");
      var checkType :- StringField(d, "check_type");
      var severity :- StringField(d, "severity");
      var gate :- StringField(d, "gate");
      var fixes :- FixesField(d);
      Ok(RubricCheck(id, description, checkType, severity, gate, fixes, GetOr(d, "scoring", Null)))
  }

  /** `raw["rubric_suite"]`, which must be a dict. */
  function SuiteData(raw: Json): (r: Result<Dict<Json>, Fault>)
    ensures r.Ok? <==> raw.Obj? && Lookup(raw.fields, "rubric_suite").Some?
                       && Lookup(raw.fields, "rubric_suite").value.Obj?
    ensures r.Ok? ==> r.value == Lookup(raw.fields, "rubric_suite").value.fields
  {
    if !raw.Obj? then Err(TypeError("rubric document is not a mapping"))
    else
      match Lookup(raw.fields, "rubric_suite")
      case None => Err(KeyError("rubric_suite"))
      case Some(suiteData) =>
        if suiteData.Obj? then Ok(suiteData.fields)
        else Err(AttributeError("rubric_suite has no attribute 'get'"))
  }

  /** The suite's own fields, read once its checks are built. */
  function SuiteFields(d: Dict<Json>, checks: seq<RubricCheck>): (r: Result<RubricSuite, Fault>)
    ensures r.Ok? ==> r.value.checks == checks && Lookup(d, "id") == Some(Str(r.value.id))
    ensures r.Ok? && Lookup(d, "purpose").None? ==> r.value.purpose == ""
  {
    var id :- StringField(d, "id");
    var tier :- IntField(d, "tier");
    var version :- StringField(d, "version");
    var purpose :- OptStringField(d, "purpose", "");
    Ok(RubricSuite(id, tier, version, purpose, checks))
  }

  /** The document turned into a suite, in the order the source reads it:
      the checks first, then the suite's own fields. */
  function ParseSuite(raw: Json): (r: Result<RubricSuite, Fault>)
  {
    var d :- SuiteData(raw);
    var items :- KeyedItems(GetOr(d, "checks", Arr([])));
    var checks :- MapAll(ParseCheck, items);
    SuiteFields(d, checks)
  }

  /** Every check of a loaded suite is the parse of the entry at its place. */
  lemma ParseSuiteChecks(raw: Json)
    requires ParseSuite(raw).Ok?
    ensures var items := KeyedItems(GetOr(SuiteData(raw).value, "checks", Arr([])));
            items.Ok? && |ParseSuite(raw).value.checks| == |items.value|
            && forall i :: 0 <= i < |items.value| ==> ParseCheck(items.value[i]) == Ok(ParseSuite(raw).value.checks[i])
  {
    var items := KeyedItems(GetOr(SuiteData(raw).value, "checks", Arr([]))).value;
    MapAllOk(ParseCheck, items);
  }

  /** The messages of the loader's ValueError: each error as "<dotted path>: <message>". */
  function LoaderMessages(errors: seq<SchemaError>): (ms: seq<string>)
    ensures |ms| == |errors|
    ensures forall i :: 0 <= i < |errors| ==>
              ms[i] == DottedPath(errors[i].path) + ": " + errors[i].message
  {
    seq(|errors|, i requires 0 <= i < |errors| => DottedPath(errors[i].path) + ": " + errors[i].message)
  }

  /** What `load_rubric_file` returns or raises for one file. */
  function SuiteOf(document: Option<Json>, validator: Validator): (r: Result<RubricSuite, LoadError>)
    ensures document.Some? && validator(document.value) != [] ==>
              r == Err(SchemaInvalid(LoaderMessages(validator(document.value))))
    ensures r.Ok? ==> document.Some? && validator(document.value) == []
  {
    match document
    case None => Err(Unreadable)
    case Some(raw) =>
      if validator(raw) != [] then Err(SchemaInvalid(LoaderMessages(validator(raw))))
      else
        match ParseSuite(raw)
        case Err(e) => Err(Malformed(e))
        case Ok(suite) => Ok(suite)
  }

  /** The suite built from a validated document, its checks appended one by one. */
  method BuildSuite(raw: Json) returns (r: Result<RubricSuite, Fault>)
    ensures r == ParseSuite(raw)
  {
    var d :- SuiteData(raw);
    var items :- KeyedItems(GetOr(d, "checks", Arr([])));
    var checks: seq<RubricCheck> := [];
    for i := 0 to |items|
      invariant MapAll(ParseCheck, items[..i]) == Ok(checks)
    {
      var parsed := ParseCheck(items[i]);
      assert items[..i + 1][..i] == items[..i];
      if parsed.Err? {
        MapAllPrefix(ParseCheck, items, i + 1);
        return Err(parsed.error);
      }
      checks := checks + [parsed.value];
    }
    assert items[..|items|] == items;
    r := SuiteFields(d, checks);
  }

  /** `load_rubric_file`: read, validate, then build the suite. */
  method LoadRubricFile(document: Option<Json>, validator: Validator)
    returns (r: Result<RubricSuite, LoadError>)
    ensures r == SuiteOf(document, validator)
  {
    if document.None? {
      return Err(Unreadable);
    }
    var raw := document.value;
    var errors := validator(raw);
    if errors != [] {
      return Err(SchemaInvalid(LoaderMessages(errors)));
    }
    var built := BuildSuite(raw);
    match built
    case Err(e) =>
      return Err(Malformed(e));
    case Ok(suite) =>
      return Ok(suite);
  }

  const TierDirs: seq<string> := ["tier1", "tier2", "tier3"]

  /** The listing `tier_path.glob("*.yaml")` keeps names ending in ".yaml". */
  predicate IsYaml(name: string)
  {
    |name| >= 5 && name[|name| - 5..] == ".yaml"
  }

  /** The suite one listed file contributes: one only for a ".yaml" file
      that loads. */
  function LoadedSuite(validator: Validator, f: RubricFile): (r: Option<RubricSuite>)
    ensures r.Some? <==> IsYaml(f.name) && SuiteOf(f.document, validator).Ok?
    ensures r.Some? ==> SuiteOf(f.document, validator) == Ok(r.value)
  {
    if IsYaml(f.name) then
      match SuiteOf(f.document, validator)
      case Ok(s) => Some(s)
      case Err(_) => None
    else None
  }

  function Loader(validator: Validator): RubricFile -> Option<RubricSuite>
  {
    f => LoadedSuite(validator, f)
  }

  /** The suites loaded from one directory's files, in listing order; a file
      that fails to load is skipped. */
  function TierSuites(files: seq<RubricFile>, validator: Validator): seq<RubricSuite>
  {
    Collect(Loader(validator), files)
  }

  /** The suites of the directory `dir`; none when it does not exist. */
  function DirSuites(tree: RubricTree, dir: string, validator: Validator): seq<RubricSuite>
  {
    if dir in tree then TierSuites(tree[dir], validator) else []
  }

  /** What `load_all_rubrics` builds from a rubrics directory. */
  function CatalogOf(tree: RubricTree, validator: Validator): (c: Catalog)
    ensures c.Keys == {1, 2, 3}
  {
    map[1 := DirSuites(tree, "tier1", validator),
        2 := DirSuites(tree, "tier2", validator),
        3 := DirSuites(tree, "tier3", validator)]
  }

  /** The catalog once the first `k` tier directories are loaded. */
  function CatalogBelow(tree: RubricTree, validator: Validator, k: nat): Catalog
  {
    map[1 := if k >= 1 then DirSuites(tree, "tier1", validator) else [],
        2 := if k >= 2 then DirSuites(tree, "tier2", validator) else [],
        3 := if k >= 3 then DirSuites(tree, "tier3", validator) else []]
  }

  /** Loading the next directory fills in its tier, which was empty. */
  lemma CatalogBelowStep(tree: RubricTree, validator: Validator, k: nat)
    requires k < 3
    ensures CatalogBelow(tree, validator, k)[k + 1] == []
    ensures CatalogBelow(tree, validator, k + 1)
            == CatalogBelow(tree, validator, k)[k + 1 := DirSuites(tree, TierDirs[k], validator)]
  {
    assert TierDirs[0] == "tier1" && TierDirs[1] == "tier2" && TierDirs[2] == "tier3";
  }

  /** The inner loop of `load_all_rubrics`: the listed files in order, each
      ".yaml" file that loads appended to the tier's list. */
  method LoadTier(suites0: seq<RubricSuite>, files: seq<RubricFile>, validator: Validator)
    returns (suites: seq<RubricSuite>)
    ensures suites == suites0 + TierSuites(files, validator)
  {
    suites := suites0;
    for j := 0 to |files|
      invariant suites == suites0 + TierSuites(files[..j], validator)
    {
      assert files[..j + 1][..j] == files[..j];
      if IsYaml(files[j].name) {
        var loaded := LoadRubricFile(files[j].document, validator);
        if loaded.Ok? {
          suites := suites + [loaded.value];
        }
      }
    }
    assert files[..|files|] == files;
  }

  /** `load_all_rubrics`: walk tier1, tier2, tier3 and file each suite that
      loads under the tier its directory names. */
  method LoadAllRubrics(tree: RubricTree, validator: Validator) returns (byTier: Catalog)
    ensures byTier == CatalogOf(tree, validator)
    ensures byTier.Keys == {1, 2, 3}
  {
    byTier := map[1 := [], 2 := [], 3 := []];
    for k := 0 to 3
      invariant byTier == CatalogBelow(tree, validator, k)
    {
      var dir := TierDirs[k];
      CatalogBelowStep(tree, validator, k);
      if dir in tree {
        TierDirDigit(k);
        var tierNum := dir[|dir| - 1] as int - '0' as int;
        var suites := LoadTier(byTier[tierNum], tree[dir], validator);
        assert suites == DirSuites(tree, dir, validator);
        byTier := byTier[tierNum := suites];
      } else {
        assert byTier[k + 1 := []] == byTier;
      }
    }
  }

  /** `int(tier_dir[-1])`: the last character of each tier directory is its tier. */
  lemma TierDirDigit(k: nat)
    requires k < 3
    ensures TierDirs[k][|TierDirs[k]| - 1] as int - '0' as int == k + 1
  {
    if k == 0 {
      assert TierDirs[0] == "tier1";
    } else if k == 1 {
      assert TierDirs[1] == "tier2";
    } else {
      assert TierDirs[2] == "tier3";
    }
  }

  /** A file that fails to load is skipped, and the files before and after
      it still load. */
  lemma BadFileSkipped(before: seq<RubricFile>, bad: RubricFile, after: seq<RubricFile>,
                       validator: Validator)
    requires !IsYaml(bad.name) || SuiteOf(bad.document, validator).Err?
    ensures TierSuites(before + [bad] + after, validator)
            == TierSuites(before, validator) + TierSuites(after, validator)
  {
    var load := Loader(validator);
    CollectAppend(load, before + [bad], after);
    CollectAppend(load, before, [bad]);
    assert [bad][..0] == [];
  }

  /** A YAML file that loads contributes its suite at its place in the listing. */
  lemma GoodFileKept(before: seq<RubricFile>, good: RubricFile, after: seq<RubricFile>,
                     validator: Validator)
    requires IsYaml(good.name) && SuiteOf(good.document, validator).Ok?
    ensures TierSuites(before + [good] + after, validator)
            == TierSuites(before, validator) + [SuiteOf(good.document, validator).value]
               + TierSuites(after, validator)
  {
    var load := Loader(validator);
    CollectAppend(load, before + [good], after);
    CollectAppend(load, before, [good]);
    assert [good][..0] == [];
  }

  /** Every suite of a tier comes from a YAML file of that tier's directory
      that loads to it; the suite's own `tier` field plays no part. */
  lemma SuiteFromItsDirectory(tree: RubricTree, validator: Validator, n: int, s: RubricSuite)
    requires n in CatalogOf(tree, validator) && s in CatalogOf(tree, validator)[n]
    ensures TierDirs[n - 1] in tree
    ensures exists f :: f in tree[TierDirs[n - 1]] && IsYaml(f.name) && SuiteOf(f.document, validator) == Ok(s)
  {
    var dir := TierDirs[n - 1];
    CollectFrom(Loader(validator), tree[dir], s);
    var f :| f in tree[dir] && Loader(validator)(f) == Some(s);
    assert LoadedSuite(validator, f) == Some(s);
  }

  /** The suites of the whole catalog, tier 1 first. */
  function AllSuites(c: Catalog): seq<RubricSuite>
    requires c.Keys == {1, 2, 3}
  {
    c[1] + c[2] + c[3]
  }

  /** The suites of the tiers below `t`. */
  function TiersBelow(c: Catalog, t: int): seq<RubricSuite>
    requires c.Keys == {1, 2, 3} && 1 <= t <= 4
    decreases t
  {
    if t == 1 then [] else TiersBelow(c, t - 1) + c[t - 1]
  }

  /** `versions` after assigning `versions[s.id] = s.version` for each suite in turn. */
  function PutVersions(versions: Dict<string>, suites: seq<RubricSuite>): Dict<string>
  {
    if suites == [] then versions
    else
      var s := suites[|suites| - 1];
      Put(PutVersions(versions, suites[..|suites| - 1]), s.id, s.version)
  }

  /** The id-to-version dict of a list of suites. */
  function VersionMap(suites: seq<RubricSuite>): Dict<string>
  {
    PutVersions([], suites)
  }

  lemma {:induction false} PutVersionsAppend(versions: Dict<string>, a: seq<RubricSuite>, b: seq<RubricSuite>)
    ensures PutVersions(versions, a + b) == PutVersions(PutVersions(versions, a), b)
    decreases |b|
  {
    if b == [] {
      assert a + b == a;
    } else {
      var n := |b|;
      assert (a + b)[..|a + b| - 1] == a + b[..n - 1];
      assert (a + b)[|a + b| - 1] == b[n - 1];
      PutVersionsAppend(versions, a, b[..n - 1]);
    }
  }

  /** An id no suite carries keeps the entry it had. */
  lemma {:induction false} PutVersionsAbsent(versions: Dict<string>, suites: seq<RubricSuite>, id: string)
    requires forall i :: 0 <= i < |suites| ==> suites[i].id != id
    ensures Lookup(PutVersions(versions, suites), id) == Lookup(versions, id)
  {
    if suites != [] {
      var n := |suites|;
      var prev := suites[..n - 1];
      assert forall i :: 0 <= i < |prev| ==> prev[i] == suites[i];
      PutVersionsAbsent(versions, prev, id);
      PutLookup(PutVersions(versions, prev), suites[n - 1].id, suites[n - 1].version, id);
    }
  }

  /** An id carries the version of the last suite with that id. */
  lemma {:induction false} PutVersionsLast(versions: Dict<string>, suites: seq<RubricSuite>, id: string, i: nat)
    requires i < |suites| && suites[i].id == id
    requires forall j :: i < j < |suites| ==> suites[j].id != id
    ensures Lookup(PutVersions(versions, suites), id) == Some(suites[i].version)
  {
    var n := |suites|;
    var prev := suites[..n - 1];
    PutLookup(PutVersions(versions, prev), suites[n - 1].id, suites[n - 1].version, id);
    if i < n - 1 {
      assert forall j :: 0 <= j < |prev| ==> prev[j] == suites[j];
      PutVersionsLast(versions, prev, id, i);
    }
  }

  /** In the versions of a list of suites, an id no suite carries is absent. */
  lemma VersionMapAbsent(suites: seq<RubricSuite>, id: string)
    requires forall i :: 0 <= i < |suites| ==> suites[i].id != id
    ensures Lookup(VersionMap(suites), id) == None
  {
    PutVersionsAbsent([], suites, id);
  }

  /** In the versions of a list of suites, an id maps to the version of the
      last suite carrying it. */
  lemma VersionMapLast(suites: seq<RubricSuite>, id: string, i: nat)
    requires i < |suites| && suites[i].id == id
    requires forall j :: i < j < |suites| ==> suites[j].id != id
    ensures Lookup(VersionMap(suites), id) == Some(suites[i].version)
  {
    PutVersionsLast([], suites, id, i);
  }

  /** The inner loop of `get_rubric_versions`. */
  method RecordVersions(versions0: Dict<string>, suites: seq<RubricSuite>) returns (versions: Dict<string>)
    ensures versions == PutVersions(versions0, suites)
  {
    versions := versions0;
    for j := 0 to |suites|
      invariant versions == PutVersions(versions0, suites[..j])
    {
      assert suites[..j + 1][..j] == suites[..j];
      versions := Put(versions, suites[j].id, suites[j].version);
    }
    assert suites[..|suites|] == suites;
  }

  /** `get_rubric_versions`: load the catalog, then record each suite's
      version under its id, tier by tier. */
  method GetRubricVersions(tree: RubricTree, validator: Validator) returns (versions: Dict<string>)
    ensures versions == VersionMap(AllSuites(CatalogOf(tree, validator)))
  {
    var byTier := LoadAllRubrics(tree, validator);
    versions := [];
    for t := 1 to 4
      invariant versions == PutVersions([], TiersBelow(byTier, t))
    {
      versions := RecordVersions(versions, byTier[t]);
      PutVersionsAppend([], TiersBelow(byTier, t), byTier[t]);
    }
    assert TiersBelow(byTier, 4) == AllSuites(byTier) by {
      assert TiersBelow(byTier, 2) == byTier[1];
    }
  }
}
