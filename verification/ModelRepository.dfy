/** The model repository: scanning a tree for what to serve, and resolving one version of it. */
module ModelRepository {
  import opened Wrappers
  import opened Versions

  /**
   * A model's directory: the names of its sub-directories as `sortedEntries` lists them, and the sorted file names of each.
   * `backendOf` is the empty string for a file it does not recognise; a lower `rank` is a better backend.
   */
  datatype ModelDir = ModelDir(name: string, dirs: seq<string>, files: string -> seq<string>)

  datatype Backends = Backends(backendOf: string -> string, rank: string -> nat)

  datatype Choice = Choice(file: string, backend: string)

  /** What is served: the canonical version, and a file in the directory that stands for it. */
  datatype Served = Served(version: string, dir: string, file: string, backend: string)

  // ------------------------------------------------------------ picking a file

  /** The file to serve: recognised, of the best rank, and the first such. */
  ghost predicate IsPick(b: Backends, files: seq<string>, pick: Option<Choice>) {
    match pick
    case None => forall i :: 0 <= i < |files| ==> b.backendOf(files[i]) == ""
    case Some(choice) => exists k: nat :: PicksAt(b, files, k, choice)
  }

  predicate PicksAt(b: Backends, files: seq<string>, k: nat, choice: Choice) {
    && k < |files| && choice == Choice(files[k], b.backendOf(files[k])) && choice.backend != ""
    && forall i :: 0 <= i < |files| && b.backendOf(files[i]) != "" ==>
         b.rank(choice.backend) <= b.rank(b.backendOf(files[i])) && (i < k ==> b.rank(choice.backend) < b.rank(b.backendOf(files[i])))
  }

  method PickModelFile(b: Backends, files: seq<string>) returns (pick: Option<Choice>)
    ensures IsPick(b, files, pick)
  {
    pick := None;
    ghost var at := 0;
    for i := 0 to |files|
      invariant pick.None? ==> forall j :: 0 <= j < i ==> b.backendOf(files[j]) == ""
      invariant pick.Some? ==> PicksAt(b, files[..i], at, pick.value)
    {
      var candidate := b.backendOf(files[i]);
      if candidate != "" && (pick.None? || b.rank(candidate) < b.rank(pick.value.backend)) {
        pick := Some(Choice(files[i], candidate));
        at := i;
      }
    }
    assert files[..|files|] == files;
  }

  /** There is only one such choice. */
  lemma PickUnique(b: Backends, files: seq<string>, p: Option<Choice>, q: Option<Choice>)
    requires IsPick(b, files, p) && IsPick(b, files, q)
    ensures p == q
  {
    if p.Some? && q.Some? {
      var j: nat :| PicksAt(b, files, j, p.value);
      var k: nat :| PicksAt(b, files, k, q.value);
      assert j == k;
    }
  }

  // --------------------------------------------------------------- grouping

  /** Version directories of one number, under its canonical name. */
  datatype Group = Group(version: string, raws: seq<string>)

  /** The directories that spell a version, in listing order. */
  function Spellings(dirs: seq<string>, version: string): seq<string> {
    if dirs == [] then []
    else
      var last := |dirs| - 1;
      Spellings(dirs[..last], version) + if IsNumericVersion(dirs[last]) && Canonical(dirs[last]) == version then [dirs[last]] else []
  }

  predicate Descending(groups: seq<Group>) {
    forall i, j :: 0 <= i < j < |groups| ==> IsHigherVersion(groups[i].version, groups[j].version)
  }

  predicate GroupOf(dirs: seq<string>, g: Group) {
    g.raws == Spellings(dirs, g.version) && g.raws != [] && AllDigits(g.version) && IsCanonical(g.version)
  }

  /** Every numeric directory is in the group of its number, and the groups fall from the highest number. */
  predicate IsGrouping(dirs: seq<string>, groups: seq<Group>) {
    && Descending(groups)
    && (forall g :: g in groups ==> GroupOf(dirs, g))
    && (forall d :: d in dirs && IsNumericVersion(d) ==> exists g :: g in groups && g.version == Canonical(d))
  }

  lemma {:induction false} SpellingsAre(dirs: seq<string>, version: string)
    ensures forall d :: d in Spellings(dirs, version) <==> d in dirs && IsNumericVersion(d) && Canonical(d) == version
  {
    if dirs != [] {
      SpellingsAre(dirs[..|dirs| - 1], version);
    }
  }

  method GroupVersions(dirs: seq<string>) returns (groups: map<string, seq<string>>)
    ensures forall v :: v in groups <==> Spellings(dirs, v) != []
    ensures forall v :: v in groups ==> groups[v] == Spellings(dirs, v)
  {
    groups := map[];
    for i := 0 to |dirs|
      invariant forall v :: v in groups <==> Spellings(dirs[..i], v) != []
      invariant forall v :: v in groups ==> groups[v] == Spellings(dirs[..i], v)
    {
      assert dirs[..i + 1][..i] == dirs[..i];
      if IsNumericVersion(dirs[i]) {
        var version := Canonical(dirs[i]);
        groups := groups[version := (if version in groups then groups[version] else []) + [dirs[i]]];
      }
    }
    assert dirs[..|dirs|] == dirs;
  }

  method InsertGroup(ordered: seq<Group>, g: Group) returns (more: seq<Group>)
    requires Descending(ordered) && AllDigits(g.version) && IsCanonical(g.version)
    requires forall h :: h in ordered ==> AllDigits(h.version) && IsCanonical(h.version) && h.version != g.version
    ensures Descending(more) && forall h :: h in more <==> h in ordered || h == g
  {
    var i := 0;
    while i < |ordered| && IsHigherVersion(ordered[i].version, g.version)
      invariant 0 <= i <= |ordered|
      invariant forall j :: 0 <= j < i ==> IsHigherVersion(ordered[j].version, g.version)
    {
      i := i + 1;
    }
    more := ordered[..i] + [g] + ordered[i..];
    Inserted(ordered, g, i);
  }

  lemma Inserted(ordered: seq<Group>, g: Group, i: nat)
    requires Descending(ordered) && AllDigits(g.version) && IsCanonical(g.version) && i <= |ordered|
    requires forall h :: h in ordered ==> AllDigits(h.version) && IsCanonical(h.version) && h.version != g.version
    requires forall j :: 0 <= j < i ==> IsHigherVersion(ordered[j].version, g.version)
    requires i < |ordered| ==> !IsHigherVersion(ordered[i].version, g.version)
    ensures Descending(ordered[..i] + [g] + ordered[i..])
  {
    var more := ordered[..i] + [g] + ordered[i..];
    assert forall k :: 0 <= k < |more| ==> more[k] == if k < i then ordered[k] else if k == i then g else ordered[k - 1];
    forall j | i <= j < |ordered| ensures IsHigherVersion(g.version, ordered[j].version) {
      assert ordered[i] in ordered && ordered[j] in ordered;
      NumericOrder(g.version, ordered[i].version);
      NumericOrder(g.version, ordered[j].version);
      HigherIsNumeric(ordered[i].version, ordered[j].version);
    }
  }

  lemma NumericOrder(a: string, b: string)
    requires AllDigits(a) && AllDigits(b) && IsCanonical(a) && IsCanonical(b)
    ensures IsHigherVersion(a, b) <==> Value(a) > Value(b)
    ensures IsHigherVersion(b, a) <==> Value(b) > Value(a)
    ensures a == b <==> Value(a) == Value(b)
  {
    HigherIsNumeric(a, b);
    HigherIsNumeric(b, a);
    CanonicalOrder(a, b);
  }

  /** Groups by number, highest first. */
  method GroupVersionsDescending(dirs: seq<string>) returns (groups: seq<Group>)
    ensures IsGrouping(dirs, groups)
  {
    var byVersion := GroupVersions(dirs);
    var left := byVersion.Keys;
    groups := [];
    while left != {}
      invariant left <= byVersion.Keys && Descending(groups)
      invariant forall g :: g in groups ==> GroupOf(dirs, g) && g.version !in left
      invariant forall v :: v in byVersion && v !in left ==> exists g :: g in groups && g.version == v
    {
      var v :| v in left;
      var g := Group(v, byVersion[v]);
      VersionOfGroup(dirs, v);
      ghost var before := groups;
      groups := InsertGroup(groups, g);
      assert g in groups && forall h :: h in before ==> h in groups;
      left := left - {v};
    }
    forall d | d in dirs && IsNumericVersion(d) ensures exists g :: g in groups && g.version == Canonical(d) {
      SpellingsAre(dirs, Canonical(d));
      assert d in Spellings(dirs, Canonical(d));
    }
  }

  lemma VersionOfGroup(dirs: seq<string>, v: string)
    requires Spellings(dirs, v) != []
    ensures GroupOf(dirs, Group(v, Spellings(dirs, v)))
  {
    SpellingsAre(dirs, v);
    var d := Spellings(dirs, v)[0];
    assert d in Spellings(dirs, v);
    CanonicalForm(d);
  }

  // ------------------------------------------------------ scanning and resolving

  /** The directory that stands for a version holds a recognised file. */
  predicate Servable(b: Backends, dir: ModelDir, version: string) {
    && Spellings(dir.dirs, version) != []
    && exists f :: f in dir.files(Spellings(dir.dirs, version)[0]) && b.backendOf(f) != ""
  }

  ghost predicate Serves(b: Backends, dir: ModelDir, s: Served) {
    && Spellings(dir.dirs, s.version) != [] && s.dir == Spellings(dir.dirs, s.version)[0]
    && IsPick(b, dir.files(s.dir), Some(Choice(s.file, s.backend)))
  }

  /** The highest servable version, if any. */
  ghost predicate IsScan(b: Backends, dir: ModelDir, r: Option<Served>) {
    match r
    case None => forall d :: d in dir.dirs && IsNumericVersion(d) ==> !Servable(b, dir, Canonical(d))
    case Some(s) =>
      && IsNumericVersion(s.version) && IsCanonical(s.version) && Serves(b, dir, s)
      && forall d :: d in dir.dirs && IsNumericVersion(d) && Value(d) > Value(s.version) ==> !Servable(b, dir, Canonical(d))
  }

  lemma PickServable(b: Backends, dir: ModelDir, version: string, pick: Option<Choice>)
    requires Spellings(dir.dirs, version) != [] && IsPick(b, dir.files(Spellings(dir.dirs, version)[0]), pick)
    ensures Servable(b, dir, version) <==> pick.Some?
  {
    var files := dir.files(Spellings(dir.dirs, version)[0]);
    if pick.Some? {
      var k: nat :| PicksAt(b, files, k, pick.value);
      assert files[k] in files;
    }
  }

  /** The part of `scanModelRepository` that decides what one model serves. */
  method ScanModel(b: Backends, dir: ModelDir) returns (r: Option<Served>)
    ensures IsScan(b, dir, r)
  {
    var groups := GroupVersionsDescending(dir.dirs);
    for i := 0 to |groups|
      invariant forall j :: 0 <= j < i ==> !Servable(b, dir, groups[j].version)
    {
      var g := groups[i];
      assert GroupOf(dir.dirs, g);
      var pick := PickModelFile(b, dir.files(g.raws[0]));
      PickServable(b, dir, g.version, pick);
      if pick.Some? {
        HighestFirst(b, dir, groups, i);
        return Some(Served(g.version, g.raws[0], pick.value.file, pick.value.backend));
      }
    }
    r := None;
  }

  lemma HighestFirst(b: Backends, dir: ModelDir, groups: seq<Group>, i: nat)
    requires IsGrouping(dir.dirs, groups) && i < |groups| && forall j :: 0 <= j < i ==> !Servable(b, dir, groups[j].version)
    requires AllDigits(groups[i].version)
    ensures forall d :: d in dir.dirs && IsNumericVersion(d) && Value(d) > Value(groups[i].version) ==> !Servable(b, dir, Canonical(d))
  {
    forall d | d in dir.dirs && IsNumericVersion(d) && Value(d) > Value(groups[i].version) ensures !Servable(b, dir, Canonical(d)) {
      var g :| g in groups && g.version == Canonical(d);
      var j :| 0 <= j < |groups| && groups[j] == g;
      CanonicalForm(d);
      assert GroupOf(dir.dirs, groups[i]) && GroupOf(dir.dirs, g);
      if j > i {
        HigherIsNumeric(groups[i].version, g.version);
      }
      assert j < i;
    }
  }

  /** A name that stays one directory below the root. */
  predicate PlainName(name: string) {
    name != "" && name != "." && name != ".." && '/' !in name && '\\' !in name
  }

  ghost predicate IsResolution(b: Backends, dir: ModelDir, version: string, r: Option<Served>) {
    match r
    case Some(s) => IsNumericVersion(version) && PlainName(dir.name) && s.version == Canonical(version) && Serves(b, dir, s)
    case None => !IsNumericVersion(version) || !PlainName(dir.name) || !Servable(b, dir, Canonical(version))
  }

  /** `resolveRepositoryModelVersion` on a model directory that exists. */
  method ResolveVersion(b: Backends, dir: ModelDir, version: string) returns (r: Option<Served>)
    ensures IsResolution(b, dir, version, r)
  {
    if !IsNumericVersion(version) || !PlainName(dir.name) {
      return None;
    }
    var groups := GroupVersionsDescending(dir.dirs);
    var target := Canonical(version);
    for i := 0 to |groups|
      invariant forall j :: 0 <= j < i ==> groups[j].version != target
    {
      var g := groups[i];
      assert GroupOf(dir.dirs, g);
      if g.version == target {
        var pick := PickModelFile(b, dir.files(g.raws[0]));
        PickServable(b, dir, g.version, pick);
        return if pick.None? then None else Some(Served(target, g.raws[0], pick.value.file, pick.value.backend));
      }
    }
    UngroupedNotServable(b, dir, groups, target);
    r := None;
  }

  lemma UngroupedNotServable(b: Backends, dir: ModelDir, groups: seq<Group>, version: string)
    requires IsGrouping(dir.dirs, groups) && forall j :: 0 <= j < |groups| ==> groups[j].version != version
    ensures !Servable(b, dir, version)
  {
    var raws := Spellings(dir.dirs, version);
    assert |raws| > 0 ==> raws[0] in raws;
    SpellingsAre(dir.dirs, version);
  }

  /**
   * Scan and resolve agree: any spelling of the version the scan serves resolves to the same directory, file and backend,
   * exactly when the model's name is plain. A directory listed under the root can only fail that by holding a backslash.
   */
  lemma ScanResolveAgree(b: Backends, dir: ModelDir, s: Served, version: string, r: Option<Served>)
    requires IsScan(b, dir, Some(s)) && IsNumericVersion(version) && Value(version) == Value(s.version)
    requires IsResolution(b, dir, version, r)
    ensures r == Some(s) <==> dir.name != "" && dir.name != "." && dir.name != ".." && forall i :: 0 <= i < |dir.name| ==> dir.name[i] != '/' && dir.name[i] != '\\'
  {
    CanonicalForm(version);
    CanonicalOrder(Canonical(version), s.version);
    assert Canonical(version) == s.version;
    PickServable(b, dir, s.version, Some(Choice(s.file, s.backend)));
    if r.Some? {
      PickUnique(b, dir.files(s.dir), Some(Choice(s.file, s.backend)), Some(Choice(r.value.file, r.value.backend)));
    }
  }

  /** A model directory whose name holds a backslash: its version 1 is served by the scan and refused by the resolver. */
  lemma BackslashNotResolved() returns (b: Backends, dir: ModelDir, s: Served)
    ensures IsScan(b, dir, Some(s)) && s.version == "1" && IsResolution(b, dir, s.version, None)
    ensures '/' !in dir.name && dir.name != "" && dir.name != "." && dir.name != ".."
  {
    b := Backends(f => if f == "m.onnx" then "onnx_runtime" else "", _ => 0);
    dir := ModelDir("a\\b", ["1"], d => if d == "1" then ["m.onnx"] else []);
    s := Served("1", "1", "m.onnx", "onnx_runtime");
    assert Canonical("1") == "1" && IsNumericVersion("1");
    assert dir.dirs[..0] == [] && Spellings([], "1") == [];
    assert Spellings(dir.dirs, "1") == ["1"];
    assert PicksAt(b, dir.files("1"), 0, Choice("m.onnx", "onnx_runtime"));
    assert dir.name[1] == '\\';
    assert forall d :: d in dir.dirs ==> d == "1";
  }
}
