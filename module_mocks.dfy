/** The plugin's module-mocking fixtures (`mock_frameworks`, `mock_crewai`,
    `mock_langgraph`, `mock_strands`): each replaces a fixed list of entries of
    `sys.modules` by fresh mocks for the duration of a test and puts the
    previous entries back afterwards. */
module ModuleMocks {

  /** A module object: an imported module or a `MagicMock` standing in for one. */
  class Module {
    constructor () {}
  }

  /** `sys.modules`: the interpreter's table from module name to module. */
  class ModuleTable {
    var entries: map<string, Module>

    constructor (entries: map<string, Module>)
      ensures this.entries == entries
    {
      this.entries := entries;
    }
  }

  const FrameworkModules: seq<string> := [
    "crewai",
    "crewai.knowledge",
    "crewai.knowledge.source",
    "crewai.knowledge.source.text_file_knowledge_source",
    "langgraph",
    "langgraph.prebuilt",
    "langchain_anthropic",
    "strands"]

  const CrewaiModules: seq<string> := [
    "crewai",
    "crewai.knowledge",
    "crewai.knowledge.source",
    "crewai.knowledge.source.text_file_knowledge_source"]

  const LanggraphModules: seq<string> := ["langgraph", "langgraph.prebuilt", "langchain_anthropic"]

  const StrandsModules: seq<string> := ["strands"]

  /** The four fixtures differ only in the module list they patch. */
  datatype Fixture = MockFrameworks | MockCrewai | MockLanggraph | MockStrands

  function ModulesOf(f: Fixture): seq<string> {
    match f
    case MockFrameworks => FrameworkModules
    case MockCrewai => CrewaiModules
    case MockLanggraph => LanggraphModules
    case MockStrands => StrandsModules
  }

  predicate Distinct(names: seq<string>) {
    forall i, j :: 0 <= i < j < |names| ==> names[i] != names[j]
  }

  /** No fixture lists a module twice, which is what makes saving the entry
      met at a name's only visit save the entry from before the fixture. */
  lemma ModuleListsDistinct(f: Fixture)
    ensures Distinct(ModulesOf(f))
  {
    var names := ModulesOf(f);
    // the listed names all have different lengths
    forall i, j | 0 <= i < j < |names| ensures names[i] != names[j] {
      assert |names[i]| != |names[j]|;
    }
  }

  /** The saved originals: the entries the table had for the listed names. */
  function Saved(table: map<string, Module>, names: set<string>): (saved: map<string, Module>)
    ensures saved.Keys == table.Keys * names
  {
    map k | k in table.Keys * names :: table[k]
  }

  /** Teardown: every listed name gets its saved entry back or is removed when
      it had none; every other name keeps whatever it maps to now. */
  function Restored(table: map<string, Module>, names: set<string>, saved: map<string, Module>)
    : (restored: map<string, Module>)
    ensures restored.Keys == (table.Keys - names) + (saved.Keys * names)
  {
    map k | k in (table.Keys - names) + (saved.Keys * names) :: if k in names then saved[k] else table[k]
  }

  /** The names a list mentions. */
  function NameSet(names: seq<string>): set<string> {
    set n | n in names
  }

  /** One iteration of the teardown loop restores one more listed name. */
  lemma RestoreStep(table: map<string, Module>, names: seq<string>, i: nat, saved: map<string, Module>)
    requires i < |names|
    ensures var m, name := Restored(table, NameSet(names[..i]), saved), names[i];
      (if name in saved then m[name := saved[name]] else m - {name})
      == Restored(table, NameSet(names[..i + 1]), saved)
  {
    assert names[..i + 1] == names[..i] + [names[i]];
    assert NameSet(names[..i + 1]) == NameSet(names[..i]) + {names[i]};
  }

  lemma FreshName(names: seq<string>, i: nat)
    requires Distinct(names) && i < |names|
    ensures names[i] !in names[..i]
  {
  }

  lemma PatchStep(table: map<string, Module>, made: map<string, Module>, saved: map<string, Module>,
                  entries: map<string, Module>, name: string, mock: Module)
    requires name !in made
    requires entries == table + made
    requires saved == Saved(table, made.Keys)
    ensures (if name in entries then saved[name := entries[name]] else saved) == Saved(table, made[name := mock].Keys)
    ensures entries[name := mock] == table + made[name := mock]
  {
  }

  /** A mocking fixture, from its setup to its teardown. */
  class MockFixture {
    const names: seq<string>
    var original: map<string, Module>
    var mocks: map<string, Module>

    constructor (f: Fixture)
      ensures names == ModulesOf(f) && original == map[] && mocks == map[]
    {
      names := ModulesOf(f);
      original := map[];
      mocks := map[];
    }

    /** The code before the `yield`: for each listed name in order, make a
        fresh mock, save the current entry if there is one, and install the
        mock. The dict yielded is `mocks`. */
    method Setup(sys: ModuleTable) returns (yielded: map<string, Module>)
      requires Distinct(names)
      modifies this, sys
      ensures forall n :: n in mocks <==> n in names
      ensures forall n :: n in mocks ==> fresh(mocks[n])
      ensures forall n, m :: n in mocks && m in mocks && n != m ==> mocks[n] != mocks[m]
      ensures original == Saved(old(sys.entries), mocks.Keys)
      ensures sys.entries == old(sys.entries) + mocks
      ensures yielded == mocks
    {
      ghost var table := sys.entries;
      var saved: map<string, Module> := map[];
      var made: map<string, Module> := map[];
      for i := 0 to |names|
        invariant forall n :: n in made <==> n in names[..i]
        invariant forall n :: n in made ==> fresh(made[n])
        invariant forall n, m :: n in made && m in made && n != m ==> made[n] != made[m]
        invariant saved == Saved(table, made.Keys)
        invariant sys.entries == table + made
      {
        var name := names[i];
        FreshName(names, i);
        var mock := new Module();
        PatchStep(table, made, saved, sys.entries, name, mock);
        if name in sys.entries {
          saved := saved[name := sys.entries[name]];
        }
        sys.entries := sys.entries[name := mock];
        made := made[name := mock];
        assert names[..i + 1] == names[..i] + [name];
      }
      assert names[..|names|] == names;
      mocks := made;
      original := saved;
      yielded := made;
    }

    /** The code after the `yield`: for each listed name, put the saved entry
        back, or pop the name when nothing was saved for it. */
    method Teardown(sys: ModuleTable)
      modifies sys
      ensures sys.entries == Restored(old(sys.entries), NameSet(names), original)
    {
      ghost var table := sys.entries;
      for i := 0 to |names|
        invariant sys.entries == Restored(table, NameSet(names[..i]), original)
      {
        var name := names[i];
        RestoreStep(table, names, i, original);
        if name in original {
          sys.entries := sys.entries[name := original[name]];
        } else {
          sys.entries := sys.entries - {name};
        }
      }
      assert names[..|names|] == names;
    }
  }

  /** A whole fixture use around a test that leaves `sys.modules` alone:
      afterwards the table is exactly what it was. */
  method UseFixture(f: Fixture, sys: ModuleTable) returns (yielded: map<string, Module>)
    modifies sys
    ensures forall n :: n in yielded <==> n in ModulesOf(f)
    ensures sys.entries == old(sys.entries)
  {
    ghost var table := sys.entries;
    var fixture := new MockFixture(f);
    ModuleListsDistinct(f);
    yielded := fixture.Setup(sys);
    assert NameSet(fixture.names) == yielded.Keys;
    RestoreAfterPatch(table, yielded);
    fixture.Teardown(sys);
  }

  /** Restoring the saved entries after installing mocks gives back the
      original table: names that had an entry get it back, names that had
      none are removed, and no other name is touched. */
  lemma RestoreAfterPatch(table: map<string, Module>, mocks: map<string, Module>)
    ensures Restored(table + mocks, mocks.Keys, Saved(table, mocks.Keys)) == table
  {
    var r := Restored(table + mocks, mocks.Keys, Saved(table, mocks.Keys));
    assert r.Keys == table.Keys;
    forall k | k in table ensures r[k] == table[k] {
    }
  }

  /** Whatever the test does to the table, teardown gives every listed name
      its entry from before the fixture (or removes it), and leaves every other
      name as the test left it. */
  lemma RestoreOnListedNames(before: map<string, Module>, during: map<string, Module>, names: set<string>)
    ensures var r := Restored(during, names, Saved(before, names));
      && (forall n :: n in names ==> (n in r <==> n in before) && (n in before ==> r[n] == before[n]))
      && (forall n :: n !in names ==> (n in r <==> n in during) && (n in during ==> r[n] == during[n]))
  {
  }
}
