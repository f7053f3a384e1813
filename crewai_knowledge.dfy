/** Knowledge loading for the CrewAI adapter (`_load_knowledge`), over an
    abstract file system. */
module CrewAIKnowledge {
  import opened Results
  import opened Text
  import opened CrewAISdk

  /** The file system as `_load_knowledge` sees it: which paths exist, what
      reading each file gives (`None`: `read_text` raised `OSError`; a path
      with no entry, such as a directory, raises it too) and what `rglob`
      yields for a root and a pattern, in its own fixed order. */
  datatype FileSystem = FileSystem(
    existing: set<string>,
    files: map<string, Option<string>>,
    rglob: (string, string) -> seq<string>)

  /** The patterns searched under every root, in this order. */
  const Patterns: seq<string> := ["*.md", "*.txt", "*.py", "*.ts"]

  function ReadText(fs: FileSystem, path: string): Option<string> {
    if path in fs.files then fs.files[path] else None
  }

  /** A file becomes a knowledge source when it can be read and is not blank. */
  predicate Qualifies(fs: FileSystem, path: string) {
    ReadText(fs, path).Some? && Strip(ReadText(fs, path).value) != ""
  }

  function FileSources(fs: FileSystem, files: seq<string>): seq<KnowledgeSource> {
    if files == [] then []
    else
      var f := files[|files| - 1];
      FileSources(fs, files[..|files| - 1]) + if Qualifies(fs, f) then [TextFileKnowledgeSource([f])] else []
  }

  function RootSources(fs: FileSystem, root: string, patterns: seq<string>): seq<KnowledgeSource> {
    if patterns == [] then []
    else RootSources(fs, root, patterns[..|patterns| - 1]) + FileSources(fs, fs.rglob(root, patterns[|patterns| - 1]))
  }

  /** The sources loaded from `paths`: missing roots give none. */
  function Knowledge(fs: FileSystem, paths: seq<string>): seq<KnowledgeSource> {
    if paths == [] then []
    else
      var root := paths[|paths| - 1];
      Knowledge(fs, paths[..|paths| - 1]) + if root in fs.existing then RootSources(fs, root, Patterns) else []
  }

  /** `_load_knowledge`: for every existing root and every pattern, every file
      `rglob` yields that reads as non-blank text becomes one source; read
      errors are swallowed. The loop over one root's matches is `LoadRoot`. */
  method LoadKnowledge(sdk: Sdk, fs: FileSystem, paths: seq<string>) returns (sources: seq<KnowledgeSource>)
    modifies sdk
    ensures sources == Knowledge(fs, paths)
    ensures sdk.constructed == old(sdk.constructed) + SourceObjects(sources)
  {
    sources := [];
    for i := 0 to |paths|
      invariant sources == Knowledge(fs, paths[..i])
      invariant sdk.constructed == old(sdk.constructed) + SourceObjects(sources)
    {
      var root := paths[i];
      KnowledgeStep(fs, paths, i);
      if root !in fs.existing {
        continue;
      }
      var found := LoadRoot(sdk, fs, root);
      SourceObjectsAppend(sources, found);
      sources := sources + found;
    }
    assert paths[..|paths|] == paths;
  }

  /** The two inner loops of `_load_knowledge`, for one existing root: the
      patterns in order, and for each the files `LoadFiles` reads. */
  method LoadRoot(sdk: Sdk, fs: FileSystem, root: string) returns (found: seq<KnowledgeSource>)
    modifies sdk
    ensures found == RootSources(fs, root, Patterns)
    ensures sdk.constructed == old(sdk.constructed) + SourceObjects(found)
  {
    found := [];
    for j := 0 to |Patterns|
      invariant found == RootSources(fs, root, Patterns[..j])
      invariant sdk.constructed == old(sdk.constructed) + SourceObjects(found)
    {
      RootSourcesStep(fs, root, Patterns, j);
      var matched := LoadFiles(sdk, fs, fs.rglob(root, Patterns[j]));
      SourceObjectsAppend(found, matched);
      found := found + matched;
    }
    assert Patterns[..|Patterns|] == Patterns;
  }

  /** The innermost loop: every matched file that reads as non-blank text
      becomes one source; a read error skips the file. */
  method LoadFiles(sdk: Sdk, fs: FileSystem, files: seq<string>) returns (found: seq<KnowledgeSource>)
    modifies sdk
    ensures found == FileSources(fs, files)
    ensures sdk.constructed == old(sdk.constructed) + SourceObjects(found)
  {
    found := [];
    for k := 0 to |files|
      invariant found == FileSources(fs, files[..k])
      invariant sdk.constructed == old(sdk.constructed) + SourceObjects(found)
    {
      var f := files[k];
      FileSourcesStep(fs, files, k);
      var content := ReadText(fs, f);
      if content.Some? && Strip(content.value) != "" {
        var s := sdk.NewSource(TextFileKnowledgeSource([f]));
        LogSource(old(sdk.constructed), found, s);
        found := found + [s];
      }
    }
    assert files[..|files|] == files;
  }

  lemma KnowledgeStep(fs: FileSystem, paths: seq<string>, i: nat)
    requires i < |paths|
    ensures Knowledge(fs, paths[..i + 1])
         == Knowledge(fs, paths[..i]) + if paths[i] in fs.existing then RootSources(fs, paths[i], Patterns) else []
  {
    assert paths[..i + 1][..i] == paths[..i];
  }

  lemma RootSourcesStep(fs: FileSystem, root: string, patterns: seq<string>, j: nat)
    requires j < |patterns|
    ensures RootSources(fs, root, patterns[..j + 1])
         == RootSources(fs, root, patterns[..j]) + FileSources(fs, fs.rglob(root, patterns[j]))
  {
    assert patterns[..j + 1][..j] == patterns[..j];
  }

  lemma FileSourcesStep(fs: FileSystem, files: seq<string>, k: nat)
    requires k < |files|
    ensures FileSources(fs, files[..k + 1])
         == FileSources(fs, files[..k]) + if Qualifies(fs, files[k]) then [TextFileKnowledgeSource([files[k]])] else []
  {
    assert files[..k + 1][..k] == files[..k];
  }

  /** Logging one more source keeps the log equal to the sources so far. */
  lemma LogSource(log: seq<Native>, found: seq<KnowledgeSource>, s: KnowledgeSource)
    ensures log + SourceObjects(found) + [NativeSource(s)] == log + SourceObjects(found + [s])
  {
    assert (found + [s])[..|found + [s]| - 1] == found;
  }

  lemma {:induction false} SourceObjectsAppend(a: seq<KnowledgeSource>, b: seq<KnowledgeSource>)
    ensures SourceObjects(a + b) == SourceObjects(a) + SourceObjects(b)
  {
    if b == [] {
      assert a + b == a;
    } else {
      assert (a + b)[..|a + b| - 1] == a + b[..|b| - 1];
      SourceObjectsAppend(a, b[..|b| - 1]);
    }
  }

  // ---------------------------------------------------------------------
  // What `_load_knowledge` loads

  /** A loaded source names exactly one file. */
  predicate SingleFile(s: KnowledgeSource) {
    |s.filePaths| == 1
  }

  /** `f` is a match `rglob` reports for some existing root among `paths` and
      some pattern, and it reads as non-blank text. */
  predicate Loadable(fs: FileSystem, paths: seq<string>, f: string) {
    Qualifies(fs, f)
    && exists i, j :: 0 <= i < |paths| && 0 <= j < |Patterns| && paths[i] in fs.existing
                      && f in fs.rglob(paths[i], Patterns[j])
  }

  lemma {:induction false} FileSourcesMembers(fs: FileSystem, files: seq<string>)
    ensures forall s :: s in FileSources(fs, files)
                    <==> SingleFile(s) && s.filePaths[0] in files && Qualifies(fs, s.filePaths[0])
  {
    if files != [] {
      var init, f := files[..|files| - 1], files[|files| - 1];
      FileSourcesMembers(fs, init);
      assert files == init + [f];
      forall s | SingleFile(s) && s.filePaths[0] in files && Qualifies(fs, s.filePaths[0])
        ensures s in FileSources(fs, files)
      {
        if s.filePaths[0] != f {
          assert s.filePaths[0] in init;
        } else {
          assert s == TextFileKnowledgeSource([f]);
        }
      }
    }
  }

  lemma {:induction false} RootSourcesMembers(fs: FileSystem, root: string, patterns: seq<string>)
    ensures forall s :: s in RootSources(fs, root, patterns)
                    <==> SingleFile(s) && Qualifies(fs, s.filePaths[0])
                         && exists j :: 0 <= j < |patterns| && s.filePaths[0] in fs.rglob(root, patterns[j])
  {
    if patterns != [] {
      var init, p := patterns[..|patterns| - 1], patterns[|patterns| - 1];
      RootSourcesMembers(fs, root, init);
      FileSourcesMembers(fs, fs.rglob(root, p));
      forall s | SingleFile(s) && Qualifies(fs, s.filePaths[0])
                 && exists j :: 0 <= j < |patterns| && s.filePaths[0] in fs.rglob(root, patterns[j])
        ensures s in RootSources(fs, root, patterns)
      {
        var j :| 0 <= j < |patterns| && s.filePaths[0] in fs.rglob(root, patterns[j]);
        if j < |init| {
          assert init[j] == patterns[j];
        }
      }
      forall s | s in RootSources(fs, root, patterns)
        ensures exists j :: 0 <= j < |patterns| && s.filePaths[0] in fs.rglob(root, patterns[j])
      {
        if s in RootSources(fs, root, init) {
          var j :| 0 <= j < |init| && s.filePaths[0] in fs.rglob(root, init[j]);
          assert patterns[j] == init[j];
        } else {
          assert s.filePaths[0] in fs.rglob(root, patterns[|patterns| - 1]);
        }
      }
    }
  }

  /** Soundness and completeness: the sources loaded from `paths` are exactly
      the single-file sources of the non-blank, readable matches under the
      existing roots. Missing roots and unreadable or blank files give none. */
  lemma {:induction false} KnowledgeMembers(fs: FileSystem, paths: seq<string>)
    ensures forall s :: s in Knowledge(fs, paths) <==> SingleFile(s) && Loadable(fs, paths, s.filePaths[0])
  {
    if paths != [] {
      var init, root := paths[..|paths| - 1], paths[|paths| - 1];
      KnowledgeMembers(fs, init);
      RootSourcesMembers(fs, root, Patterns);
      forall s | SingleFile(s) && Loadable(fs, paths, s.filePaths[0])
        ensures s in Knowledge(fs, paths)
      {
        var i, j :| 0 <= i < |paths| && 0 <= j < |Patterns| && paths[i] in fs.existing
                    && s.filePaths[0] in fs.rglob(paths[i], Patterns[j]);
        if i < |init| {
          assert init[i] == paths[i];
          assert Loadable(fs, init, s.filePaths[0]);
        }
      }
      forall s | s in Knowledge(fs, paths)
        ensures Loadable(fs, paths, s.filePaths[0])
      {
        if s in Knowledge(fs, init) {
          var i, j :| 0 <= i < |init| && 0 <= j < |Patterns| && init[i] in fs.existing
                      && s.filePaths[0] in fs.rglob(init[i], Patterns[j]);
          assert paths[i] == init[i];
        } else {
          var j :| 0 <= j < |Patterns| && s.filePaths[0] in fs.rglob(root, Patterns[j]);
          assert paths[|paths| - 1] == root;
        }
      }
    }
  }

  /** Roots are visited in order: loading `a + b` loads `a`'s sources, then `b`'s. */
  lemma {:induction false} KnowledgeAppend(fs: FileSystem, a: seq<string>, b: seq<string>)
    ensures Knowledge(fs, a + b) == Knowledge(fs, a) + Knowledge(fs, b)
    ensures Knowledge(fs, []) == []
  {
    if b == [] {
      assert a + b == a;
    } else {
      assert (a + b)[..|a + b| - 1] == a + b[..|b| - 1];
      KnowledgeAppend(fs, a, b[..|b| - 1]);
    }
  }

  /** A root that does not exist is skipped without error, wherever it stands. */
  lemma MissingRootSkipped(fs: FileSystem, a: seq<string>, root: string, b: seq<string>)
    requires root !in fs.existing
    ensures Knowledge(fs, a + [root] + b) == Knowledge(fs, a + b)
  {
    KnowledgeAppend(fs, a + [root], b);
    KnowledgeAppend(fs, a, [root]);
    KnowledgeAppend(fs, a, b);
    assert [root][..0] == [];
  }

  /** Under one root the patterns are searched in the order .md, .txt, .py, .ts. */
  lemma PatternOrder(fs: FileSystem, root: string)
    ensures RootSources(fs, root, Patterns)
         == FileSources(fs, fs.rglob(root, "*.md")) + FileSources(fs, fs.rglob(root, "*.txt"))
          + FileSources(fs, fs.rglob(root, "*.py")) + FileSources(fs, fs.rglob(root, "*.ts"))
  {
    RootSourcesOfFour(fs, root, Patterns);
  }

  lemma RootSourcesOfFour(fs: FileSystem, root: string, p: seq<string>)
    requires |p| == 4
    ensures RootSources(fs, root, p)
         == FileSources(fs, fs.rglob(root, p[0])) + FileSources(fs, fs.rglob(root, p[1]))
          + FileSources(fs, fs.rglob(root, p[2])) + FileSources(fs, fs.rglob(root, p[3]))
  {
    RootSourcesStep(fs, root, p, 0);
    RootSourcesStep(fs, root, p, 1);
    RootSourcesStep(fs, root, p, 2);
    RootSourcesStep(fs, root, p, 3);
    assert p[..0] == [];
    assert p[..4] == p;
  }
}
