/** Building one component: run its build script in the checked-out
    repository, tell the build recorder about the component, and record
    every artifact the build left under `artifacts/<type>`. */
module BuildWorkflow {
  import opened Values
  import opened Text
  import opened Effects

  /** A builder for one component in one checked-out repository. */
  datatype Builder = Builder(componentName: string, repoDir: string, outputPath: string)

  /** `Builder(component_name, git_repo, script_finder, build_recorder)`;
      the script finder and the recorder are the `World` and the trace. */
  function NewBuilder(componentName: string, repoDir: string): (b: Builder)
    ensures b.componentName == componentName && b.repoDir == repoDir
    ensures b.outputPath == "artifacts"
  {
    Builder(componentName, repoDir, "artifacts")
  }

  /** "{script} -v {version} -a {arch} -s {snapshot, lower-cased} -o {output}". */
  function BuildCommand(script: string, version: string, architecture: string, snapshot: bool, outputPath: string): string
  {
    Join([script, "-v", version, "-a", architecture, "-s", BoolFlag(snapshot), "-o", outputPath], ' ')
  }

  /** The shell sees exactly these nine words when the script, version and
      architecture hold no space. */
  lemma BuildCommandWords(script: string, version: string, architecture: string, snapshot: bool)
    requires ' ' !in script && ' ' !in version && ' ' !in architecture
    ensures Split(BuildCommand(script, version, architecture, snapshot, "artifacts"), ' ')
         == [script, "-v", version, "-a", architecture, "-s", if snapshot then "true" else "false", "-o", "artifacts"]
  {
    var words := [script, "-v", version, "-a", architecture, "-s", BoolFlag(snapshot), "-o", "artifacts"];
    forall i | 0 <= i < |words| ensures ' ' !in words[i] {
    }
    SplitJoin(words, ' ');
  }

  /** `Builder.build(version, arch, snapshot)`: the build script found for
      this component and repository is run there first; the component is
      recorded once, and only when the build did not raise. */
  function Build(b: Builder, w: World, version: string, architecture: string, snapshot: bool): (r: Step)
    ensures var run := RepoExecute(At(b.repoDir),
        BuildCommand(w.buildScript(b.componentName, b.repoDir), version, architecture, snapshot, b.outputPath));
      && (r.outcome.Ok? <==> w.succeeds(run))
      && (r.outcome.Ok? ==> r.events == [run, RecordComponent(b.componentName, b.repoDir)])
      && (r.outcome.Raised? ==> r.events == [run] && r.outcome.fault == CallFailed(run))
  {
    var script := w.buildScript(b.componentName, b.repoDir);
    Run(w, [RepoExecute(At(b.repoDir), BuildCommand(script, version, architecture, snapshot, b.outputPath)),
            RecordComponent(b.componentName, b.repoDir)])
  }

  /** The artifact directories, in the order they are visited. */
  const ArtifactTypes: seq<string> := ["maven", "bundle", "plugins", "libs"]

  /** One triple of `os.walk`: the directory, as the path segments below
      `artifacts/<type>`, and the names of the files directly in it. */
  datatype WalkDir = WalkDir(sub: seq<string>, files: seq<string>)

  /** The path of a file relative to the artifacts directory. */
  function RelativePath(artifactType: string, sub: seq<string>, file: string): (r: string)
    ensures IsPrefix(artifactType + "/", r)
  {
    var r := Join([artifactType] + sub + [file], '/');
    JoinStartsWithFirst([artifactType] + sub + [file], '/');
    r
  }

  lemma {:induction false} JoinStartsWithFirst(ws: seq<string>, sep: char)
    requires |ws| >= 2
    ensures IsPrefix(ws[0] + [sep], Join(ws, sep))
  {
    assert Join(ws, sep) == ws[0] + [sep] + Join(ws[1..], sep);
  }

  function Record(b: Builder, artifactsDir: string, artifactType: string, sub: seq<string>, file: string): Event
  {
    var relative := RelativePath(artifactType, sub, file);
    RecordArtifact(b.componentName, artifactType, relative, artifactsDir + "/" + relative)
  }

  /** The records for the files of one walked directory, in order. */
  function DirRecords(b: Builder, artifactsDir: string, artifactType: string, d: WalkDir): (r: seq<Event>)
    ensures |r| == |d.files|
    ensures forall i :: 0 <= i < |r| ==> r[i] == Record(b, artifactsDir, artifactType, d.sub, d.files[i])
  {
    seq(|d.files|, i requires 0 <= i < |d.files| => Record(b, artifactsDir, artifactType, d.sub, d.files[i]))
  }

  /** The records for every directory `os.walk` yields under one type. */
  function TypeRecords(b: Builder, artifactsDir: string, artifactType: string, dirs: seq<WalkDir>): seq<Event>
    decreases |dirs|
  {
    if |dirs| == 0 then []
    else TypeRecords(b, artifactsDir, artifactType, dirs[..|dirs| - 1])
         + DirRecords(b, artifactsDir, artifactType, dirs[|dirs| - 1])
  }

  /** The records for the artifact types `types`, in order. */
  function Records(b: Builder, artifactsDir: string, types: seq<string>, walk: string -> seq<WalkDir>): seq<Event>
    decreases |types|
  {
    if |types| == 0 then []
    else Records(b, artifactsDir, types[..|types| - 1], walk)
         + TypeRecords(b, artifactsDir, types[|types| - 1], walk(types[|types| - 1]))
  }

  /** What `export_artifacts` records: `walk(t)` is what `os.walk` yields
      for `artifacts/t`. */
  function Exported(b: Builder, artifactsDir: string, walk: string -> seq<WalkDir>): seq<Event>
  {
    Records(b, artifactsDir, ArtifactTypes, walk)
  }

  /** `Builder.export_artifacts()`: the four artifact types in order, each
      walked directory in `os.walk` order, each file in it in order. */
  method ExportArtifacts(b: Builder, artifactsDir: string, walk: string -> seq<WalkDir>) returns (events: seq<Event>)
    ensures events == Exported(b, artifactsDir, walk)
  {
    var types := ArtifactTypes;
    events := [];
    for t := 0 to |types|
      invariant events == Records(b, artifactsDir, types[..t], walk)
    {
      var recorded := ExportType(b, artifactsDir, types[t], walk(types[t]));
      events := events + recorded;
      assert types[..t + 1][..t] == types[..t];
    }
    assert types[..|types|] == types;
  }

  /** The inner loops of `export_artifacts` for one artifact type. */
  method ExportType(b: Builder, artifactsDir: string, artifactType: string, dirs: seq<WalkDir>) returns (events: seq<Event>)
    ensures events == TypeRecords(b, artifactsDir, artifactType, dirs)
  {
    events := [];
    for d := 0 to |dirs|
      invariant events == TypeRecords(b, artifactsDir, artifactType, dirs[..d])
    {
      var recorded := ExportDir(b, artifactsDir, artifactType, dirs[d]);
      events := events + recorded;
      assert dirs[..d + 1][..d] == dirs[..d];
    }
    assert dirs[..|dirs|] == dirs;
  }

  /** The innermost loop of `export_artifacts`: one record per file of one
      walked directory. */
  method ExportDir(b: Builder, artifactsDir: string, artifactType: string, dir: WalkDir) returns (events: seq<Event>)
    ensures events == DirRecords(b, artifactsDir, artifactType, dir)
  {
    events := [];
    for f := 0 to |dir.files|
      invariant events == DirRecords(b, artifactsDir, artifactType, WalkDir(dir.sub, dir.files[..f]))
    {
      var relative := RelativePath(artifactType, dir.sub, dir.files[f]);
      events := events + [RecordArtifact(b.componentName, artifactType, relative, artifactsDir + "/" + relative)];
    }
    assert dir.files[..|dir.files|] == dir.files;
  }

  /** The number of files `os.walk` reported under the given types. */
  function FileCount(types: seq<string>, walk: string -> seq<WalkDir>): nat
    decreases |types|
  {
    if |types| == 0 then 0 else FileCount(types[..|types| - 1], walk) + DirsFileCount(walk(types[|types| - 1]))
  }

  function DirsFileCount(dirs: seq<WalkDir>): nat
    decreases |dirs|
  {
    if |dirs| == 0 then 0 else DirsFileCount(dirs[..|dirs| - 1]) + |dirs[|dirs| - 1].files|
  }

  /** Every record of one type is for that type, by this component, with a
      relative path under the type's directory and an absolute path that is
      the artifacts directory joined with it; there is one per file. */
  lemma {:induction false} TypeRecordsShape(b: Builder, artifactsDir: string, artifactType: string, dirs: seq<WalkDir>)
    ensures |TypeRecords(b, artifactsDir, artifactType, dirs)| == DirsFileCount(dirs)
    ensures forall e :: e in TypeRecords(b, artifactsDir, artifactType, dirs) ==>
      && e.RecordArtifact? && e.builtBy == b.componentName && e.artifactType == artifactType
      && IsPrefix(artifactType + "/", e.relativePath)
      && e.absolutePath == artifactsDir + "/" + e.relativePath
    decreases |dirs|
  {
    if |dirs| > 0 {
      TypeRecordsShape(b, artifactsDir, artifactType, dirs[..|dirs| - 1]);
    }
  }

  /** The records of `export_artifacts`: one per file found, each naming one
      of the four artifact types, with its relative path under that type's
      directory and its absolute path in the artifacts directory. */
  lemma {:induction false} RecordsShape(b: Builder, artifactsDir: string, types: seq<string>, walk: string -> seq<WalkDir>)
    ensures |Records(b, artifactsDir, types, walk)| == FileCount(types, walk)
    ensures forall e :: e in Records(b, artifactsDir, types, walk) ==>
      && e.RecordArtifact? && e.builtBy == b.componentName && e.artifactType in types
      && IsPrefix(e.artifactType + "/", e.relativePath)
      && e.absolutePath == artifactsDir + "/" + e.relativePath
    decreases |types|
  {
    if |types| > 0 {
      var last := types[|types| - 1];
      RecordsShape(b, artifactsDir, types[..|types| - 1], walk);
      TypeRecordsShape(b, artifactsDir, last, walk(last));
    }
  }

  lemma ExportedShape(b: Builder, artifactsDir: string, walk: string -> seq<WalkDir>)
    ensures |Exported(b, artifactsDir, walk)| == FileCount(ArtifactTypes, walk)
    ensures forall e :: e in Exported(b, artifactsDir, walk) ==>
      && e.RecordArtifact? && e.builtBy == b.componentName && e.artifactType in ArtifactTypes
      && IsPrefix(e.artifactType + "/", e.relativePath)
      && e.absolutePath == artifactsDir + "/" + e.relativePath
  {
    RecordsShape(b, artifactsDir, ArtifactTypes, walk);
  }

  /** Only the four artifact directories are looked at: two walks that agree
      on them give the same records. */
  lemma {:induction false} OnlyArtifactTypesRead(b: Builder, artifactsDir: string, types: seq<string>,
      walk: string -> seq<WalkDir>, walk': string -> seq<WalkDir>)
    requires forall i :: 0 <= i < |types| ==> walk(types[i]) == walk'(types[i])
    ensures Records(b, artifactsDir, types, walk) == Records(b, artifactsDir, types, walk')
    decreases |types|
  {
    if |types| > 0 {
      OnlyArtifactTypesRead(b, artifactsDir, types[..|types| - 1], walk, walk');
      assert walk(types[|types| - 1]) == walk'(types[|types| - 1]);
    }
  }

  /** The maven records come first, then bundle, then plugins, then libs. */
  lemma ExportOrder(b: Builder, artifactsDir: string, walk: string -> seq<WalkDir>)
    ensures Exported(b, artifactsDir, walk)
         == TypeRecords(b, artifactsDir, "maven", walk("maven"))
          + TypeRecords(b, artifactsDir, "bundle", walk("bundle"))
          + TypeRecords(b, artifactsDir, "plugins", walk("plugins"))
          + TypeRecords(b, artifactsDir, "libs", walk("libs"))
  {
    var ts := ArtifactTypes;
    assert ts[..4][..3] == ts[..3] && ts[..3][..2] == ts[..2] && ts[..2][..1] == ts[..1] && ts[..1][..0] == [];
    assert ts[..4] == ts;
    assert Records(b, artifactsDir, ts[..1], walk) == TypeRecords(b, artifactsDir, "maven", walk("maven"));
    assert Records(b, artifactsDir, ts[..2], walk)
        == Records(b, artifactsDir, ts[..1], walk) + TypeRecords(b, artifactsDir, "bundle", walk("bundle"));
    assert Records(b, artifactsDir, ts[..3], walk)
        == Records(b, artifactsDir, ts[..2], walk) + TypeRecords(b, artifactsDir, "plugins", walk("plugins"));
    assert Records(b, artifactsDir, ts, walk)
        == Records(b, artifactsDir, ts[..3], walk) + TypeRecords(b, artifactsDir, "libs", walk("libs"));
  }
}
