/** The framework-neutral crew configuration the runners read. Python
    dictionaries accessed with `get(key, default)` become records of optional
    fields; a mapping iterated with `.items()` becomes a `Dict`, an
    insertion-ordered list of entries with distinct keys. */
module CrewConfig {
  import opened Results

  predicate DistinctKeys<V>(entries: seq<(string, V)>) {
    forall i, j :: 0 <= i < j < |entries| ==> entries[i].0 != entries[j].0
  }

  /** A Python dict in iteration (insertion) order; keys are unique. */
  type Dict<V> = entries: seq<(string, V)> | DistinctKeys(entries) witness []

  /** The keys of an ordered mapping. */
  function Keys<V>(d: seq<(string, V)>): set<string> {
    if d == [] then {} else Keys(d[..|d| - 1]) + {d[|d| - 1].0}
  }

  lemma {:induction false} KeysMember<V>(d: seq<(string, V)>, key: string)
    ensures key in Keys(d) <==> exists i :: 0 <= i < |d| && d[i].0 == key
  {
    if d != [] {
      var init := d[..|d| - 1];
      KeysMember(init, key);
      if key in Keys(init) {
        var i :| 0 <= i < |init| && init[i].0 == key;
        assert d[i].0 == key;
      }
      if exists i :: 0 <= i < |d| && d[i].0 == key {
        var i :| 0 <= i < |d| && d[i].0 == key;
        if i < |init| { assert init[i].0 == key; }
      }
    }
  }

  lemma KeysStep<V>(d: seq<(string, V)>, i: nat)
    requires i < |d|
    ensures Keys(d[..i + 1]) == Keys(d[..i]) + {d[i].0}
  {
    assert d[..i + 1][..i] == d[..i];
  }

  /** `d[key]` for a key that is present. */
  function Lookup<V>(d: Dict<V>, key: string): (v: V)
    requires key in Keys(d)
    ensures exists i :: 0 <= i < |d| && d[i] == (key, v)
  {
    var init: seq<(string, V)> := d[..|d| - 1];
    if d[|d| - 1].0 == key then d[|d| - 1].1
    else
      assert DistinctKeys(init) by {
        forall i, j | 0 <= i < j < |init| ensures init[i].0 != init[j].0 {
          assert init[i] == d[i] && init[j] == d[j];
        }
      }
      var v := Lookup(init, key);
      assert exists i :: 0 <= i < |d| && d[i] == (key, v) by {
        var i :| 0 <= i < |init| && init[i] == (key, v);
        assert d[i] == init[i];
      }
      v
  }

  /** With distinct keys, looking up the key at position `i` gives the value there. */
  lemma LookupAt<V>(d: Dict<V>, i: nat)
    requires i < |d|
    ensures d[i].0 in Keys(d) && Lookup(d, d[i].0) == d[i].1
  {
    KeysMember(d, d[i].0);
  }

  /** A tool object handed to a backend; its contents are never inspected. */
  datatype Tool = Tool(name: string)

  datatype AgentConfig = AgentConfig(
    role: Option<string>,
    goal: Option<string>,
    backstory: Option<string>,
    llm: Option<string>,
    allowDelegation: Option<bool>)

  datatype TaskConfig = TaskConfig(
    description: Option<string>,
    expectedOutput: Option<string>,
    agent: Option<string>,
    context: seq<string>)

  /** A crew configuration. An absent `agents` or `tasks` key reads as an empty
      mapping and an absent `knowledge_paths` as an empty list, which is all the
      runners ever do with them, so those keys are not optional here. */
  datatype Crew = Crew(
    name: Option<string>,
    description: Option<string>,
    agents: Dict<AgentConfig>,
    tasks: Dict<TaskConfig>,
    knowledgePaths: seq<string>,
    process: Option<string>,
    planning: Option<bool>,
    memory: Option<bool>,
    verbose: Option<bool>)
}
