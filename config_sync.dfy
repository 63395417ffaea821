/**
 * `sync_configs` of the Codex config sync script: load the dotfiles
 * document, load the active document if there is one, back the active file
 * up, replace the active document with the dotfiles one while keeping only
 * the active `projects` table, and write the result with the manual
 * serialiser.
 *
 * The file system is not modelled: what each `load_toml` call finds,
 * whether the active file exists, whether the backup copy succeeds and
 * whether the active file opens for writing are inputs, and the backup
 * copy and the final write are recorded as effects, in the order they happen.
 */
module ConfigSync {
  import opened Wrappers
  import opened TomlDoc
  import opened TomlWriter
  import opened TomlWriterProps
  import opened StrOrder
  import opened PyText

  /** What opening and parsing one TOML file gives. */
  datatype LoadOutcome =
    | FileMissing            // FileNotFoundError
    | Unreadable(reason: string) // any other error while reading or parsing
    | Parsed(doc: Dict)      // `tomllib` never repeats a key

  /** `load_toml`: the parsed document, or `None` on any failure. */
  function LoadToml(outcome: LoadOutcome): (r: Option<Doc>)
    ensures r.Some? <==> outcome.Parsed?
    ensures r.Some? ==> r.value == outcome.doc
  {
    match outcome
    case Parsed(doc) => Some(doc)
    case _ => None
  }

  const ProjectsKey: string := "projects"

  /**
   * `merged = dotfiles.copy()`, then `merged['projects'] = active['projects']`
   * when the active document has a `projects` table.
   */
  function Merge(source: Doc, active: Doc): (merged: Doc)
    ensures forall k :: k != ProjectsKey ==> Lookup(merged, k) == Lookup(source, k)
    ensures Lookup(merged, ProjectsKey)
         == if HasKey(active, ProjectsKey) then Lookup(active, ProjectsKey) else Lookup(source, ProjectsKey)
    ensures |merged| == if HasKey(active, ProjectsKey) && !HasKey(source, ProjectsKey) then |source| + 1 else |source|
    ensures forall i :: 0 <= i < |source| ==> merged[i].0 == source[i].0
  {
    match Lookup(active, ProjectsKey)
    case Some(projects) => Assign(source, ProjectsKey, projects)
    case None => source
  }

  /** A document the merge may go ahead with: loaded and not empty (`if not dotfiles_data`). */
  predicate Usable(loaded: Option<Doc>)
  {
    loaded.Some? && loaded.value != []
  }

  /** What the sync does to the file system, in order. */
  datatype Effect =
    | Backup                           // shutil.copy2(active, backup)
    | WriteConfig(lines: seq<string>)  // the active file, truncated and rewritten

  datatype SyncRun = SyncRun(effects: seq<Effect>, exitCode: int)

  /** A value `len` accepts: a string, a table or an array. */
  predicate Sized(v: Value)
  {
    v.Str? || v.Table? || v.List?
  }

  /** The document the active file contributes: `{}` when there is no active file. */
  function ActiveDoc(activeExists: bool, active: LoadOutcome): (r: Option<Doc>)
    ensures r.None? <==> activeExists && !active.Parsed?
    ensures !activeExists ==> r == Some([])
    ensures activeExists && active.Parsed? ==> r == Some(active.doc)
  {
    if activeExists then LoadToml(active) else Some([])
  }

  /** The active `projects` value cannot be counted: `len(...)` raises. */
  predicate UncountableProjects(activeDoc: Doc)
  {
    HasKey(activeDoc, ProjectsKey) && !Sized(Lookup(activeDoc, ProjectsKey).value)
  }

  /**
   * One run of `sync_configs`. A run that ends in an exception exits with
   * status 1, as an uncaught Python exception does. `copyOk` says whether
   * `shutil.copy2` succeeds and `openOk` whether the active file opens for
   * writing; each only matters when the run gets that far.
   */
  method SyncConfigs(source: LoadOutcome, activeExists: bool, active: LoadOutcome, copyOk: bool, openOk: bool)
    returns (run: SyncRun)
    // no usable source: exit 1 before any backup or write
    ensures !Usable(LoadToml(source)) ==> run == SyncRun([], 1)
    // the backup is made exactly when the source is usable, the active file exists and the copy succeeds; it comes first
    ensures Backup in run.effects <==> Usable(LoadToml(source)) && activeExists && copyOk
    ensures Backup in run.effects ==> run.effects[0] == Backup
    // a failed copy raises: exit 1, nothing done
    ensures Usable(LoadToml(source)) && activeExists && !copyOk ==> run == SyncRun([], 1)
    // an active file that exists but does not load: `'projects' in None` raises after the backup
    ensures Usable(LoadToml(source)) && copyOk && ActiveDoc(activeExists, active).None? ==> run == SyncRun([Backup], 1)
    // an active `projects` value without a length: `len` raises after the backup, before the write
    ensures Usable(LoadToml(source)) && (!activeExists || copyOk) && ActiveDoc(activeExists, active).Some?
              && UncountableProjects(ActiveDoc(activeExists, active).value) ==>
              run == SyncRun(if activeExists then [Backup] else [], 1)
    // the active file does not open for writing: exit 1, the file is left as it was
    ensures Usable(LoadToml(source)) && (!activeExists || copyOk) && ActiveDoc(activeExists, active).Some?
              && !UncountableProjects(ActiveDoc(activeExists, active).value) && !openOk ==>
              run == SyncRun(if activeExists then [Backup] else [], 1)
    // otherwise the merged document is written, last, and the exit status says whether the writer raised
    ensures Usable(LoadToml(source)) && (!activeExists || copyOk) && ActiveDoc(activeExists, active).Some?
              && !UncountableProjects(ActiveDoc(activeExists, active).value) && openOk ==>
              var merged := Merge(source.doc, ActiveDoc(activeExists, active).value);
              && run.effects == (if activeExists then [Backup] else []) + [WriteConfig(Render(merged).lines)]
              && (run.exitCode == 0 <==> Render(merged).error.None?)
              && (run.exitCode == 0 || run.exitCode == 1)
  {
    var dotfilesData := LoadToml(source);
    if dotfilesData.None? || dotfilesData.value == [] {
      return SyncRun([], 1);
    }

    var activeData := ActiveDoc(activeExists, active);

    var effects: seq<Effect> := [];
    if activeExists {
      if !copyOk {
        // `shutil.copy2` raises
        return SyncRun(effects, 1);
      }
      effects := effects + [Backup];
    }

    if activeData.None? {
      // `'projects' in active_data` with `active_data` None: TypeError
      return SyncRun(effects, 1);
    }

    var merged := dotfilesData.value;
    var projects := Lookup(activeData.value, ProjectsKey);
    if projects.Some? {
      merged := Assign(merged, ProjectsKey, projects.value);
      if !Sized(projects.value) {
        // `len(active_data['projects'])` in the progress message: TypeError
        return SyncRun(effects, 1);
      }
    }

    assert merged == Merge(source.doc, activeData.value);
    if !openOk {
      // `open(file_path, 'w')` in the serialiser raises before anything is written
      return SyncRun(effects, 1);
    }
    var lines, error := WriteTomlManual(merged);
    effects := effects + [WriteConfig(lines)];
    run := SyncRun(effects, if error.None? then 0 else 1);
  }

  // ----- what the merge does to the written file -----

  /** No value under `projects`, or a table there. */
  predicate ProjectsTable(d: Doc)
  {
    HasKey(d, ProjectsKey) ==> Lookup(d, ProjectsKey).value.Table?
  }

  /**
   * With `projects` a table on both sides, the written file keeps the
   * dotfiles' top-level settings and every dotfiles table except
   * `projects`, which comes from the active file when it has one.
   */
  lemma MergedOutput(source: Doc, active: Doc)
    requires ProjectsTable(source) && ProjectsTable(active)
    ensures TopBlock(Merge(source, active)) == TopBlock(source)
    ensures SectionLines(Merge(source, active), ProjectsKey)
         == SectionLines(if HasKey(active, ProjectsKey) then active else source, ProjectsKey)
    ensures forall s :: s in Sections && s != ProjectsKey ==>
              SectionLines(Merge(source, active), s) == SectionLines(source, s)
  {
    if HasKey(active, ProjectsKey) {
      AssignTableKeepsTopBlock(source, Lookup(active, ProjectsKey).value);
    }
  }

  /** Storing a table under `projects` in place of a table, or as a new key, prints no top-level line. */
  lemma AssignTableKeepsTopBlock(source: Doc, v: Value)
    requires ProjectsTable(source) && v.Table?
    ensures TopBlock(Assign(source, ProjectsKey, v)) == TopBlock(source)
  {
    if HasKey(source, ProjectsKey) {
      ReplaceTableKeepsTopBlock(source, v);
    } else {
      AssignAppends(source, ProjectsKey, v);
      TopBlockIgnoresTable(source, (ProjectsKey, v));
    }
  }

  lemma ReplaceTableKeepsTopBlock(source: Doc, v: Value)
    requires HasKey(source, ProjectsKey) && Lookup(source, ProjectsKey).value.Table? && v.Table?
    ensures TopBlock(Assign(source, ProjectsKey, v)) == TopBlock(source)
  {
    var merged := Assign(source, ProjectsKey, v);
    var j := IndexOf(source, ProjectsKey);
    AssignReplaces(source, ProjectsKey, v);
    assert merged == source[j := (ProjectsKey, v)];
    forall i | 0 <= i < |merged| ensures merged[i].0 == source[i].0 && merged[i].1.Table? == source[i].1.Table? {
    }
    NonTableKeysSameShape(merged, source);
    var keys := SortStrings(NonTableKeys(source));
    forall k | k in keys ensures KeyLines(merged, k) == KeyLines(source, k) {
      if k != ProjectsKey {
        assert Lookup(merged, k) == Lookup(source, k);
      }
    }
    TopLinesSameKeyLines(merged, source, keys);
  }

  /** Without an active `projects` table the dotfiles document is written as it is. */
  lemma MergeWithoutActiveProjects(source: Doc, active: Doc)
    requires !HasKey(active, ProjectsKey)
    ensures Render(Merge(source, active)) == Render(source)
  {
  }

  /**
   * A dotfiles document with an empty `projects` table and an active file
   * that trusts one project: the written file keeps the dotfiles' model and
   * the active project's trust level.
   */
  const ExampleSource: Doc := [("model", Str("o3")), ("projects", Table([]))]
  const ExampleActive: Doc := [("projects", Table([("/a", Table([("trust_level", Str("trusted"))]))]))]

  lemma ActiveProjectTrustKept()
    ensures Render(Merge(ExampleSource, ExampleActive))
         == Written(HeaderLines + ["model = \"o3\"", "", "[projects.\"/a\"]", "trust_level = \"trusted\"", ""], None)
  {
    var merged := Merge(ExampleSource, ExampleActive);
    ExampleMerge();
    ExampleTopBlock(merged);
    ExampleProjects(merged);
    ExampleNoOtherSection(merged, "model_providers");
    ExampleNoOtherSection(merged, "profiles");
    ExampleNoOtherSection(merged, "mcp_servers");
    RenderOnlyProjects(merged, ["model = \"o3\"", ""], ["[projects.\"/a\"]", "trust_level = \"trusted\"", ""]);
    assert ["model = \"o3\"", ""] + ["[projects.\"/a\"]", "trust_level = \"trusted\"", ""]
        == ["model = \"o3\"", "", "[projects.\"/a\"]", "trust_level = \"trusted\"", ""];
  }

  /** A document whose only section with entries is `projects` is written as the header, the top block and that section. */
  lemma RenderOnlyProjects(data: Doc, top: seq<string>, projects: seq<string>)
    requires TopBlock(data) == top
    requires SectionLines(data, "projects") == Written(projects, None)
    requires SectionLines(data, "model_providers") == Written([], None)
    requires SectionLines(data, "profiles") == Written([], None)
    requires SectionLines(data, "mcp_servers") == Written([], None)
    ensures Render(data) == Written(HeaderLines + (top + projects), None)
  {
    assert HeaderLines + top + projects == HeaderLines + (top + projects);
    assert HeaderLines + (top + projects) + [] == HeaderLines + (top + projects);
  }

  lemma ExampleMerge()
    ensures Merge(ExampleSource, ExampleActive) == [("model", Str("o3")), ExampleActive[0]]
  {
    assert Lookup(ExampleActive, ProjectsKey) == Some(ExampleActive[0].1);
    assert ExampleSource[1..][0].0 == ProjectsKey;
  }

  lemma ExampleNoOtherSection(merged: Doc, section: string)
    requires merged == [("model", Str("o3")), ExampleActive[0]]
    requires section != "model" && section != ProjectsKey
    ensures SectionLines(merged, section) == Written([], None)
  {
    assert merged[1..][1..] == [];
  }

  lemma ExampleTopBlock(merged: Doc)
    requires merged == [("model", Str("o3")), ExampleActive[0]]
    ensures TopBlock(merged) == ["model = \"o3\"", ""]
  {
    assert merged[..1] == [("model", Str("o3"))];
    assert merged[..1][..0] == [];
    assert NonTableKeys(merged[..1]) == ["model"];
    assert NonTableKeys(merged) == ["model"];
    assert SortStrings(["model"]) == ["model"];
    assert Lookup(merged, "model") == Some(Str("o3"));
    assert ["model"][..0] == [];
    assert ScalarText(Str("o3")) == "\"o3\"";
    assert "model" + " = " + "\"o3\"" == "model = \"o3\"";
    assert ScalarLines("model", Str("o3")) == ["model = \"o3\""];
    assert KeyLines(merged, "model") == ["model = \"o3\""];
    assert TopLines(merged, ["model"]) == ["model = \"o3\""];
  }

  lemma ExampleProjects(merged: Doc)
    requires merged == [("model", Str("o3")), ExampleActive[0]]
    ensures SectionLines(merged, "projects") == Written(["[projects.\"/a\"]", "trust_level = \"trusted\"", ""], None)
  {
    var settings := [("trust_level", Str("trusted"))];
    assert settings[..0] == [];
    assert PyStr(Str("trusted")) == "trusted";
    assert QuotedLine("trust_level", Str("trusted")) == "trust_level = \"trusted\"";
    assert SettingsLines(settings) == ["trust_level = \"trusted\""];
    var entries := [("/a", Table(settings))];
    assert entries[..0] == [];
    assert EntryHeader("projects", "/a") == "[projects.\"/a\"]";
    assert EntryLines("projects", "/a", Table(settings)) == Written(["[projects.\"/a\"]", "trust_level = \"trusted\"", ""], None);
    assert EntriesLines("projects", entries) == Written(["[projects.\"/a\"]", "trust_level = \"trusted\"", ""], None);
  }

  /** The merged document is a dict: no key appears twice. */
  lemma MergeDistinct(source: Doc, active: Doc)
    requires DistinctKeys(source)
    ensures DistinctKeys(Merge(source, active))
  {
    if HasKey(active, ProjectsKey) {
      AssignDistinct(source, ProjectsKey, Lookup(active, ProjectsKey).value);
    }
  }

  /**
   * The top-level block of the file a sync writes prints the merged
   * document's string, boolean and integer keys, each once, in sorted order.
   */
  lemma WrittenTopKeysSorted(source: Dict, active: Doc)
    ensures Sorted(TopKeys(Merge(source, active)))
    ensures multiset(TopKeys(Merge(source, active))) == multiset(ScalarKeys(Merge(source, active)))
  {
    MergeDistinct(source, active);
    TopKeysSortedPermutation(Merge(source, active));
  }
}
