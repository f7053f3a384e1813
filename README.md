# agentic-crew runner adapters and test plugin, in Dafny

This project models three pieces of the agentic-crew library:

- the AWS Strands adapter (`StrandsRunner`);
- the CrewAI adapter (`CrewAIRunner`);
- the pytest plugin that ships with the library.

It proves what these pieces promise about their inputs and outputs.

**Strands adapter.** Strands runs a single agent, so `build_crew` folds a whole crew configuration into one system prompt.

- Modules `Strands` and `StrandsPrompt` (files `strands_runner.dfy`, `strands_prompt.dfy`).
- `Strands.BuildSystemPrompt` grows the list of prompt parts in two loops, as `_build_system_prompt` does. It is proved equal to the specification function `Strands.SystemPrompt`.
- `StrandsPrompt` proves the shape of that prompt, stated over the list of parts that is joined into it:
  - which headings appear among the parts, and exactly when;
  - the role and goal lines, in agent order;
  - the task summaries and their 200-character truncation;
  - the empty prompt;
  - that every part, and so every heading and line emitted, occurs in the joined text.
- Also modelled: `run`'s choice of prompt, `build_agent`, `build_task` and `_collect_tools`.

**CrewAI adapter.** Modules `CrewAISdk`, `CrewAIKnowledge`, `CrewAI` and `CrewAIProps`.

- The CrewAI SDK is modelled by its constructor calls. Class `CrewAISdk.Sdk` logs every `Agent`, `Task`, `TextFileKnowledgeSource` and `Crew` the adapter constructs. This makes what has already been built when `build_crew` raises `ValueError` part of the state.
- `CrewAI.BuildCrew` is the imperative `build_crew`. It is proved to return `CrewAI.CrewOf` and to leave the log extended by `CrewAI.BuildTrace`.
- Its loops are the methods `BuildAgents`, `BuildTasks`, `CrewAIKnowledge.LoadKnowledge`, `CrewAIKnowledge.LoadRoot` and `CrewAIKnowledge.LoadFiles`:
  - the agent loop;
  - the task loop with its early `raise`;
  - the `_load_knowledge` loops: over the paths, over the patterns of one root, and over the files of one pattern.
- `AssembleCrew` has no loop: it loads the knowledge and constructs the `Crew`.
- `CrewAIProps` and `CrewAIKnowledge` state what these functions promise:
  - when the build fails, and with which message;
  - the agents and tasks of a built crew, and their binding;
  - the process and the defaults;
  - which files become knowledge sources.

**Test plugin.**

- `TestPlugin` models `pytest_collection_modifyitems`. The items are a class whose `AddMarker` appends a marker.
- `ModuleMocks` models the four `sys.modules` mocking fixtures. `sys.modules` is a class holding a `map`. A fixture's setup and teardown are methods of `MockFixture`.

**Shared modules.**

- `Results`: `Option` and `Result`.
- `Text`: join, split, prefix truncation and Python's `str.strip` / `str.isspace`.
- `CrewConfig`: the crew configuration.
  - A Python dict iterated with `.items()` becomes a `Dict`: a sequence of entries whose keys are distinct, in insertion order.
  - A `get(key, default)` lookup becomes an `Option` field.

The foreign calls are parameters of the functions that make them:

- `get_llm`;
- `str()` of a dict or of a result;
- a Strands agent call;
- `Crew.kickoff`;
- `Path.rglob`.

## Model

| member | source | states |
|---|---|---|
| Strands.NewRunner | src/agentic_crew/runners/strands_runner.py:22-29 | construction succeeds iff the `strands` SDK is importable; otherwise it fails with the exact install message |
| Strands.BuildSystemPrompt | src/agentic_crew/runners/strands_runner.py:115-153 | the loop-built prompt equals `SystemPrompt(c)`: purpose part, then capabilities, then tasks, joined with "\n" |
| Strands.AppendCapabilities | src/agentic_crew/runners/strands_runner.py:134-142 | appends the capabilities heading and one block per agent, in order, only when there are agents |
| Strands.AppendAgentBlock | src/agentic_crew/runners/strands_runner.py:138-142 | one agent's iteration appends its role heading (the key without a role) and then, only for a non-empty goal, its goal line |
| Strands.AppendTasks | src/agentic_crew/runners/strands_runner.py:145-151 | appends the tasks heading when there are tasks, then one summary line per task that has a description |
| Strands.AppendTaskLine | src/agentic_crew/runners/strands_runner.py:149-151 | one task's iteration appends its summary line when the description is non-empty, and nothing otherwise |
| Strands.BuildCrew | src/agentic_crew/runners/strands_runner.py:31-54 | the single agent carries exactly the synthesised system prompt and no tools |
| Strands.CollectTools | src/agentic_crew/runners/strands_runner.py:155-166 | no tools are ever collected |
| Strands.InputPrompt | src/agentic_crew/runners/strands_runner.py:66-67 | the prompt is `inputs["input"]` if present, else `inputs["task"]` if present, else `str(inputs)`; a present key wins even when empty |
| Strands.Run | src/agentic_crew/runners/strands_runner.py:56-71 | the agent is invoked on exactly the prompt chosen by that three-step rule |
| Strands.BuildAgent | src/agentic_crew/runners/strands_runner.py:73-94 | the prompt is the role/goal/background text; absent tools and an empty tool list both give [] |
| Strands.BuildTask | src/agentic_crew/runners/strands_runner.py:96-113 | description and expected output default to ""; the given agent is bound unchanged |
| StrandsPrompt.EmptyConfigEmptyPrompt | src/agentic_crew/runners/strands_runner.py:127-153 | no description, no agents and no tasks give the empty prompt |
| StrandsPrompt.PurposeSection | src/agentic_crew/runners/strands_runner.py:129-131 | a purpose part `"# Your Purpose\n" + description` exists iff the description is non-empty; it is then first and the prompt starts with it |
| StrandsPrompt.CapabilitiesHeadingIff | src/agentic_crew/runners/strands_runner.py:134-136 | among the parts joined into the prompt, the capabilities heading occurs once iff there are agents, and never otherwise |
| StrandsPrompt.TasksHeadingIff | src/agentic_crew/runners/strands_runner.py:145-147 | among the parts joined into the prompt, the tasks heading occurs once iff there are tasks, even when no task has a description |
| StrandsPrompt.RolesInOrder | src/agentic_crew/runners/strands_runner.py:137-140 | among the parts joined into the prompt, the role lines are exactly one per agent, in iteration order, with the key as the role when none is given |
| StrandsPrompt.GoalsInOrder | src/agentic_crew/runners/strands_runner.py:139-142 | among the parts joined into the prompt, a goal line appears for exactly the agents with a non-empty goal, in order |
| StrandsPrompt.TaskSummariesInOrder | src/agentic_crew/runners/strands_runner.py:148-151 | among the parts joined into the prompt, the task lines are exactly those of the tasks with a description, in iteration order |
| StrandsPrompt.PartsInPrompt | src/agentic_crew/runners/strands_runner.py:127-153 | every part appended to `parts` occurs as a substring of the joined prompt |
| StrandsPrompt.HeadingsInPromptText | src/agentic_crew/runners/strands_runner.py:134-153 | the prompt text contains the capabilities heading when there are agents, the tasks heading when there are tasks, and every role, goal and task line emitted |
| StrandsPrompt.MarkerInDescription | src/agentic_crew/runners/strands_runner.py:130-131 | a description `"a\n- b"` with no agents or tasks puts the task-line marker into the text although no task line is among the parts |
| Text.JoinContainsPart | src/agentic_crew/runners/strands_runner.py:153 | `"\n".join(parts)` contains each of the parts |
| StrandsPrompt.TaskSummary | src/agentic_crew/runners/strands_runner.py:149-151 | an empty description gives no line. Otherwise the line is `"\n- name: "` + kept text + `"..."`. The kept text is a prefix of the description of at most 200 characters. It is the whole description iff that has at most 200 characters, and otherwise exactly 200 characters |
| StrandsPrompt.AgentPromptFields | src/agentic_crew/runners/strands_runner.py:85-89 | with no line break in its fields, the agent prompt splits into the role sentence, a blank line, the goal, a blank line and the background |
| Text.Take | src/agentic_crew/runners/strands_runner.py:151 | `desc[:200]` is the prefix of length min(len, 200) |
| Text.SplitJoin | src/agentic_crew/runners/strands_runner.py:153 | splitting a join at a separator no part contains gives the parts back |
| Text.StripEmptyIffBlank | src/agentic_crew/runners/crewai_runner.py:152 | `content.strip()` is empty iff every character is whitespace in Python's sense |
| CrewAI.NewRunner | src/agentic_crew/runners/crewai_runner.py:24-32 | construction succeeds iff the `crewai` SDK is importable; otherwise it fails with the exact install message |
| CrewAI.AgentDefaults | src/agentic_crew/runners/crewai_runner.py:102-110 | role defaults to "Agent", goal and backstory to "", tools to [], delegation to false; the agent is verbose and its model is `get_llm(llm)` |
| CrewAI.TaskDefaults | src/agentic_crew/runners/crewai_runner.py:124-128 | description and expected output default to ""; the task is bound to the given agent |
| CrewAI.BuildAgent | src/agentic_crew/runners/crewai_runner.py:90-110 | constructs exactly one SDK agent, with those arguments |
| CrewAI.BuildTask | src/agentic_crew/runners/crewai_runner.py:112-128 | constructs exactly one SDK task, with those arguments |
| CrewAI.ProcessOf | src/agentic_crew/runners/crewai_runner.py:64-65 | hierarchical iff `process` is exactly "hierarchical"; every other value, and absence, give sequential |
| CrewAI.Run | src/agentic_crew/runners/crewai_runner.py:77-88 | the output is the result's `raw` when it has one, otherwise its `str()` rendering |
| CrewAI.FirstInvalid | src/agentic_crew/runners/crewai_runner.py:54-57 | the index of the first task whose agent reference is absent, empty or unknown, or the task count when every reference resolves |
| CrewAI.BuildCrew | src/agentic_crew/runners/crewai_runner.py:34-75 | returns `CrewOf(c)`: failure at the first bad reference, otherwise the crew. The log grows by all agents, then the tasks before the failure, then (on success only) the knowledge sources and the crew |
| CrewAI.BuildAgents | src/agentic_crew/runners/crewai_runner.py:46-49 | builds one agent per configured agent, in order; the dict's keys are the configured keys, each mapping to the agent built from its entry |
| CrewAI.BuildTasks | src/agentic_crew/runners/crewai_runner.py:52-58 | fails with the message naming the first bad task, or returns one task per entry bound to its named agent; only the tasks before a failure are constructed |
| CrewAI.AssembleCrew | src/agentic_crew/runners/crewai_runner.py:60-75 | loads the knowledge, maps the process, applies the `True` defaults, turns an empty source list into `None`, and constructs the crew last |
| CrewAI.FailureShape | src/agentic_crew/runners/crewai_runner.py:54-57 | with a bad reference the result is the error for the first one, and the trace is the agents plus the tasks before it |
| CrewAI.SuccessShape | src/agentic_crew/runners/crewai_runner.py:52-75 | with every reference resolving, the crew holds all agents and all tasks, and the trace ends with the sources and the crew |
| CrewAI.BuildCrewChecked | src/agentic_crew/runners/crewai_runner.py:34-75 | the validate-first build: the same result as `build_crew`; a failed build constructs nothing |
| CrewAIKnowledge.LoadKnowledge | src/agentic_crew/runners/crewai_runner.py:130-157 | the sources loaded equal `Knowledge(fs, paths)`; exactly one SDK source is constructed for each, in order |
| CrewAIKnowledge.LoadRoot | src/agentic_crew/runners/crewai_runner.py:148-155 | one existing root gives, pattern by pattern, the readable non-blank files `rglob` yields |
| CrewAIKnowledge.LoadFiles | src/agentic_crew/runners/crewai_runner.py:149-155 | the files of one `rglob` are read in order; exactly those that are readable and not blank become sources, one SDK source each, and a read error skips the file |
| CrewAIKnowledge.FileSourcesMembers | src/agentic_crew/runners/crewai_runner.py:149-155 | a file's source is loaded iff the file was yielded, is readable (no `OSError`) and is not blank after stripping |
| CrewAIKnowledge.RootSourcesMembers | src/agentic_crew/runners/crewai_runner.py:148-155 | under one root, a source is loaded iff its single file qualifies and matches one of the patterns |
| CrewAIKnowledge.KnowledgeMembers | src/agentic_crew/runners/crewai_runner.py:141-157 | sound and complete: the loaded sources are the single-file sources of the qualifying matches under existing roots |
| CrewAIKnowledge.KnowledgeAppend | src/agentic_crew/runners/crewai_runner.py:142-146 | roots are visited in order: loading `a + b` gives `a`'s sources, then `b`'s; an empty path list gives no sources |
| CrewAIKnowledge.MissingRootSkipped | src/agentic_crew/runners/crewai_runner.py:145-146 | a root that does not exist contributes nothing and raises no error, wherever it stands |
| CrewAIKnowledge.PatternOrder | src/agentic_crew/runners/crewai_runner.py:148-149 | under one root the matches are taken for .md, .txt, .py, .ts in that order |
| CrewAIProps.BuildFailsIff | src/agentic_crew/runners/crewai_runner.py:54-57 | the build fails iff some task's agent is absent, empty or not a configured key; the message names the first such task and its reference |
| CrewAIProps.CrewAgents | src/agentic_crew/runners/crewai_runner.py:46-68 | a built crew has one agent per configured agent, in iteration order, each built from its own entry |
| CrewAIProps.CrewTasks | src/agentic_crew/runners/crewai_runner.py:52-58 | a built crew has one task per configured task, in order, with its texts, bound to the crew's agent at the index of the entry it names |
| CrewAIProps.AgentsBuiltFirst | src/agentic_crew/runners/crewai_runner.py:46-57 | whether or not the build fails, the first objects constructed are all the agents, before any task reference is checked |
| CrewAIProps.FailedBuildTrace | src/agentic_crew/runners/crewai_runner.py:46-58 | a failed build constructs every agent and the tasks before the offending one, and no source and no crew |
| CrewAIProps.CrewSettings | src/agentic_crew/runners/crewai_runner.py:64-74 | process hierarchical iff "hierarchical"; planning, memory and verbose on unless set to false; knowledge sources `None` iff none loaded, and otherwise the loaded list |
| CrewAIProps.MultiAgentCrewBuilds | packages/pytest-agentic-crew/src/pytest_agentic_crew/plugin.py:326-358 | the two-agent fixture builds: research task first, bound to the researcher, then the writing task, bound to the writer. The crew is sequential, plans, remembers and has no sources |
| CrewAIProps.UnknownAgentRejected | src/agentic_crew/runners/crewai_runner.py:54-57 | a task naming an unconfigured agent gives "Task 'edit_task' has invalid agent: editor" after both agents were constructed |
| TestPlugin.Item.AddMarker | packages/pytest-agentic-crew/src/pytest_agentic_crew/plugin.py:75 | appends the marker; its name joins the keywords |
| TestPlugin.CollectionModifyItems | packages/pytest-agentic-crew/src/pytest_agentic_crew/plugin.py:58-82 | every item's markers grow by exactly `NewMarkers` of its keywords; nothing else changes, and the list is not touched |
| TestPlugin.E2eSkipIff | packages/pytest-agentic-crew/src/pytest_agentic_crew/plugin.py:74-75 | the e2e skip marker is added iff the item has the `e2e` keyword and `--e2e` is not set |
| TestPlugin.NoFilterNoFrameworkSkip | packages/pytest-agentic-crew/src/pytest_agentic_crew/plugin.py:77 | with `--framework` unset or empty, no framework skip marker is added |
| TestPlugin.FrameworkSkipIff | packages/pytest-agentic-crew/src/pytest_agentic_crew/plugin.py:77-82 | with `--framework=f`, the framework skip marker is added iff the item has a framework keyword and `f` is not one of its framework keywords |
| TestPlugin.AtMostOneOfEach | packages/pytest-agentic-crew/src/pytest_agentic_crew/plugin.py:73-82 | at most two markers per item, at most one of each kind, the e2e one first |
| TestPlugin.OnlySkipAdded | packages/pytest-agentic-crew/src/pytest_agentic_crew/plugin.py:68-82 | the only keyword the hook adds is "skip", and it is added iff some marker is |
| ModuleMocks.ModuleListsDistinct | packages/pytest-agentic-crew/src/pytest_agentic_crew/plugin.py:119-128 | none of the four fixtures' module lists names a module twice |
| ModuleMocks.Saved | packages/pytest-agentic-crew/src/pytest_agentic_crew/plugin.py:154-155 | the saved originals are the table's entries for the listed names that had one |
| ModuleMocks.Restored | packages/pytest-agentic-crew/src/pytest_agentic_crew/plugin.py:161-165 | after restoring, a listed name is present iff it was saved, and any other name iff it is present now |
| ModuleMocks.MockFixture.Setup | packages/pytest-agentic-crew/src/pytest_agentic_crew/plugin.py:148-158 | one fresh, distinct mock per listed name. The originals are saved, and the table maps each listed name to its mock and leaves every other name alone. The yielded dict is the mocks |
| ModuleMocks.MockFixture.Teardown | packages/pytest-agentic-crew/src/pytest_agentic_crew/plugin.py:160-165 | each listed name gets its saved entry back or is popped; other names keep their current entries |
| ModuleMocks.UseFixture | packages/pytest-agentic-crew/src/pytest_agentic_crew/plugin.py:131-165 | around a test that leaves `sys.modules` alone, the table after teardown is exactly the table before setup |
| ModuleMocks.RestoreAfterPatch | packages/pytest-agentic-crew/src/pytest_agentic_crew/plugin.py:152-165 | restoring the saved entries after installing the mocks gives back the original map |
| ModuleMocks.RestoreOnListedNames | packages/pytest-agentic-crew/src/pytest_agentic_crew/plugin.py:196-200 | whatever the test did, after teardown every listed name has its pre-fixture entry (or none) and every other name is as the test left it |

## Left out

- StrandsPrompt.CapabilitiesHeadingIff, TasksHeadingIff, RolesInOrder, GoalsInOrder, TaskSummariesInOrder: the "exactly when" and "exactly these" directions are stated over the parts list, not the joined text. A description, role or goal may itself contain a heading or a line marker (`MarkerInDescription`), so for the text only the forward direction holds (`HeadingsInPromptText`).
- SDK execution. The CrewAI and Strands objects are records of their constructor arguments. `kickoff`, calling a Strands agent, and Python's `str()` of dicts and results are function parameters.
- Strands.InputPrompt: `inputs` is a `map<string, string>`, which has no order, so the `str()` parameter cannot depend on insertion order the way Python's `str(dict)` output does; nothing else in the model relies on that order. Its values are also narrowed to strings, where the source takes `dict[str, Any]`. The same narrowing applies to `Strands.Run` and `CrewAI.Run`: input values of other Python types, which the source passes on to the agent or to `kickoff` unchanged, are not modelled.
- `get_llm` and `BaseRunner` are not part of this model. `get_llm` is a function parameter applied to the `llm` entry.
- The constructor-time `import` checks are a boolean "SDK importable" parameter.
- The real file system. `Path.exists`, `rglob` and `read_text` become a set of existing paths, a fixed `rglob` result per root and pattern, and a map from path to contents in which `None` stands for an `OSError`.
- The `Path(...)` conversion is left out: paths are strings.
- CrewAIKnowledge.ReadText: every failed read is an `OSError`, which is swallowed. A `UnicodeDecodeError` from `read_text` is not an `OSError` and would propagate out of `_load_knowledge`; that case is not modelled.
- Configuration values of unexpected Python types are not modelled: a key present with value `None`, a non-string description, a non-boolean `planning`. Each field is either absent or holds a value of its documented type.
- TestPlugin.CollectionModifyItems: requires the items to be distinct objects, as pytest's collected items are. Keywords are an abstract set of strings.
- ModuleMocks.MockFixture.Setup: requires the module list to have no duplicate names. All four fixtures' lists meet this, as `ModuleListsDistinct` shows.
- `MagicMock` behaviour is not modelled: a mock is just a fresh object.
- ModuleMocks.UseFixture: assumes the test body leaves `sys.modules` alone. `RestoreOnListedNames` covers a test that changes it.
- `pytest_addoption`, the VCR fixtures, and the environment-variable fixtures `check_api_key` and `check_aws_credentials` are not modelled: option plumbing and environment lookups.
- The static configuration fixtures are used only as example inputs (`MultiAgentCrew`).
- The runner-selection factory and the LangGraph runner are not part of this model.
- The library's design text says task references are validated before any backend object is constructed. The code builds every agent first, and builds tasks while validating them. The model follows the code (see Findings).

## Findings

| source | as written | input that shows it | evidently intended | confidence | as-written member | corrected member |
|---|---|---|---|---|---|---|
| src/agentic_crew/runners/crewai_runner.py:46-57 | all agents, and every task before the offending one, are constructed before the `ValueError` for a bad agent reference is raised | `multi_agent_crew_config` with its tasks replaced by one task naming agent "editor": the build fails after constructing both agents | references are checked before any SDK object is constructed, so a failed build leaves no partial state | not executed | CrewAIProps.UnknownAgentRejected | CrewAI.BuildCrewChecked |

The corrected build returns the same result as the code in every case. It differs only in what it constructs before failing. So the result lemmas above hold for both builds.
