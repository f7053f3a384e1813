/** The multi-agent adapter for CrewAI: one SDK agent per configured agent,
    one SDK task per configured task, bound to the agent it names. */
module CrewAI {
  import opened Results
  import CrewConfig
  import opened CrewAISdk
  import opened CrewAIKnowledge

  const FrameworkName := "crewai"
  const NotInstalled := "CrewAI not installed. Install with: pip install crewai[tools]"
  const DefaultRole := "Agent"

  /** Constructing the runner fails when the `crewai` package cannot be imported. */
  function NewRunner(sdkInstalled: bool): (r: Result<string, string>)
    ensures r.Success? <==> sdkInstalled
    ensures r.Success? ==> r.value == FrameworkName
    ensures r.Failure? ==> r.error == NotInstalled
  {
    if sdkInstalled then Success(FrameworkName) else Failure(NotInstalled)
  }

  /** The arguments `build_agent` passes to the SDK's `Agent`; `getLlm` is the
      runner's `get_llm`, applied to the optional `llm` entry. `tools or []`
      turns both an absent and an empty list into []. */
  function AgentOf(cfg: CrewConfig.AgentConfig, tools: Option<seq<CrewConfig.Tool>>,
                   getLlm: Option<string> -> Llm): Agent
  {
    Agent(
      role := cfg.role.GetOr(DefaultRole),
      goal := cfg.goal.GetOr(""),
      backstory := cfg.backstory.GetOr(""),
      llm := getLlm(cfg.llm),
      tools := if tools.Some? && tools.value != [] then tools.value else [],
      allowDelegation := cfg.allowDelegation.GetOr(false),
      verbose := true)
  }

  /** The arguments `build_task` passes to the SDK's `Task`. */
  function TaskOf(cfg: CrewConfig.TaskConfig, agent: Agent): Task {
    Task(cfg.description.GetOr(""), cfg.expectedOutput.GetOr(""), agent)
  }

  /** What an agent is built with when its configuration leaves entries out:
      role "Agent", empty goal and backstory, no tools, no delegation; it is
      always verbose and its model is whatever `get_llm` makes of the `llm` entry. */
  lemma AgentDefaults(cfg: CrewConfig.AgentConfig, tools: Option<seq<CrewConfig.Tool>>,
                      getLlm: Option<string> -> Llm)
    ensures var a := AgentOf(cfg, tools, getLlm);
      && a.role == (if cfg.role.Some? then cfg.role.value else DefaultRole)
      && a.goal == (if cfg.goal.Some? then cfg.goal.value else "")
      && a.backstory == (if cfg.backstory.Some? then cfg.backstory.value else "")
      && a.llm == getLlm(cfg.llm)
      && a.tools == (if tools.Some? then tools.value else [])
      && (a.allowDelegation <==> cfg.allowDelegation == Some(true))
      && a.verbose
  {
  }

  /** A task is built with empty description and expected output when they are
      left out, and bound to exactly the agent it is given. */
  lemma TaskDefaults(cfg: CrewConfig.TaskConfig, agent: Agent)
    ensures var t := TaskOf(cfg, agent);
      && t.description == (if cfg.description.Some? then cfg.description.value else "")
      && t.expectedOutput == (if cfg.expectedOutput.Some? then cfg.expectedOutput.value else "")
      && t.agent == agent
  {
  }

  /** `build_agent` */
  method BuildAgent(sdk: Sdk, cfg: CrewConfig.AgentConfig, tools: Option<seq<CrewConfig.Tool>>,
                    getLlm: Option<string> -> Llm) returns (a: Agent)
    modifies sdk
    ensures a == AgentOf(cfg, tools, getLlm)
    ensures sdk.constructed == old(sdk.constructed) + [NativeAgent(a)]
  {
    a := sdk.NewAgent(AgentOf(cfg, tools, getLlm));
  }

  /** `build_task` */
  method BuildTask(sdk: Sdk, cfg: CrewConfig.TaskConfig, agent: Agent) returns (t: Task)
    modifies sdk
    ensures t == TaskOf(cfg, agent)
    ensures sdk.constructed == old(sdk.constructed) + [NativeTask(t)]
  {
    t := sdk.NewTask(TaskOf(cfg, agent));
  }

  /** The process: hierarchical only for exactly "hierarchical"; any other
      value, or none, is sequential. */
  function ProcessOf(process: Option<string>): (p: Process)
    ensures p == Hierarchical <==> process == Some("hierarchical")
  {
    if process.GetOr("sequential") == "hierarchical" then Hierarchical else Sequential
  }

  /** What `kickoff` returns, as far as `run` looks at it: its `raw` attribute
      when it has one, and its `str()` rendering. */
  datatype CrewOutput = CrewOutput(raw: Option<string>, rendered: string)

  /** `run`: kicks the crew off with the inputs and returns the output's `raw`
      text when it has one, its rendering otherwise. */
  function Run(crew: Crew, inputs: map<string, string>,
               kickoff: (Crew, map<string, string>) -> CrewOutput): (r: string)
    ensures kickoff(crew, inputs).raw.Some? ==> r == kickoff(crew, inputs).raw.value
    ensures kickoff(crew, inputs).raw.None? ==> r == kickoff(crew, inputs).rendered
  {
    var result := kickoff(crew, inputs);
    if result.raw.Some? then result.raw.value else result.rendered
  }

  // ---------------------------------------------------------------------
  // build_crew, as a function of the configuration

  /** A task's `agent` entry is usable: present, non-empty, and a configured agent's key. */
  predicate Resolves(agent: Option<string>, agents: seq<(string, CrewConfig.AgentConfig)>) {
    Truthy(agent) && agent.value in CrewConfig.Keys(agents)
  }

  function InvalidAgentMessage(taskName: string, agent: Option<string>): string {
    "Task '" + taskName + "' has invalid agent: " + (if agent.Some? then agent.value else "None")
  }

  /** The position of the first task whose agent does not resolve, or the number of tasks. */
  function FirstInvalid(tasks: seq<(string, CrewConfig.TaskConfig)>,
                        agents: seq<(string, CrewConfig.AgentConfig)>): (k: nat)
    ensures k <= |tasks|
    ensures forall j :: 0 <= j < k ==> Resolves(tasks[j].1.agent, agents)
    ensures k < |tasks| ==> !Resolves(tasks[k].1.agent, agents)
  {
    if tasks == [] || !Resolves(tasks[0].1.agent, agents) then 0
    else 1 + FirstInvalid(tasks[1..], agents)
  }

  /** One SDK agent per configured agent, in iteration order. */
  function AgentsOf(agents: seq<(string, CrewConfig.AgentConfig)>, getLlm: Option<string> -> Llm): seq<Agent> {
    seq(|agents|, i requires 0 <= i < |agents| => AgentOf(agents[i].1, None, getLlm))
  }

  /** The agent a resolving task is bound to: the one built from its named entry. */
  function BoundAgent(agents: CrewConfig.Dict<CrewConfig.AgentConfig>, name: string,
                      getLlm: Option<string> -> Llm): Agent
    requires name in CrewConfig.Keys(agents)
  {
    AgentOf(CrewConfig.Lookup(agents, name), None, getLlm)
  }

  /** One SDK task per configured task, in iteration order. */
  function TasksOf(tasks: seq<(string, CrewConfig.TaskConfig)>, agents: CrewConfig.Dict<CrewConfig.AgentConfig>,
                   getLlm: Option<string> -> Llm): seq<Task>
    requires forall j :: 0 <= j < |tasks| ==> Resolves(tasks[j].1.agent, agents)
  {
    seq(|tasks|, j requires 0 <= j < |tasks| && Resolves(tasks[j].1.agent, agents) =>
      TaskOf(tasks[j].1, BoundAgent(agents, tasks[j].1.agent.value, getLlm)))
  }

  /** The tasks built before the first one whose agent does not resolve. */
  function TasksBefore(tasks: seq<(string, CrewConfig.TaskConfig)>, agents: CrewConfig.Dict<CrewConfig.AgentConfig>,
                       getLlm: Option<string> -> Llm): seq<Task>
  {
    var k := FirstInvalid(tasks, agents);
    assert forall j :: 0 <= j < k ==> tasks[..k][j] == tasks[j];
    TasksOf(tasks[..k], agents, getLlm)
  }

  function CrewOf(c: CrewConfig.Crew, getLlm: Option<string> -> Llm, fs: FileSystem): Result<Crew, string> {
    var k := FirstInvalid(c.tasks, c.agents);
    if k < |c.tasks| then Failure(InvalidAgentMessage(c.tasks[k].0, c.tasks[k].1.agent))
    else
      var sources := Knowledge(fs, c.knowledgePaths);
      Success(Crew(
        agents := AgentsOf(c.agents, getLlm),
        tasks := TasksOf(c.tasks, c.agents, getLlm),
        process := ProcessOf(c.process),
        planning := c.planning.GetOr(true),
        memory := c.memory.GetOr(true),
        knowledgeSources := if sources == [] then None else Some(sources),
        verbose := c.verbose.GetOr(true)))
  }

  /** The SDK objects `build_crew` constructs, in order: every agent; then the
      tasks before the first one whose agent does not resolve; and, when there
      is no such task, the knowledge sources and the crew. */
  function BuildTrace(c: CrewConfig.Crew, getLlm: Option<string> -> Llm, fs: FileSystem): seq<Native> {
    AgentObjects(AgentsOf(c.agents, getLlm))
    + TaskObjects(TasksBefore(c.tasks, c.agents, getLlm))
    + match CrewOf(c, getLlm, fs)
      case Success(crew) => SourceObjects(Knowledge(fs, c.knowledgePaths)) + [NativeCrew(crew)]
      case Failure(_) => []
  }

  /** `build_crew`: builds every agent, then walks the tasks in order and raises
      `ValueError` (here `Failure`) at the first whose agent does not resolve,
      then loads the knowledge sources and assembles the crew. Its two loops
      are `BuildAgents` and `BuildTasks`. */
  method BuildCrew(sdk: Sdk, c: CrewConfig.Crew, getLlm: Option<string> -> Llm, fs: FileSystem)
    returns (r: Result<Crew, string>)
    modifies sdk
    ensures r == CrewOf(c, getLlm, fs)
    ensures sdk.constructed == old(sdk.constructed) + BuildTrace(c, getLlm, fs)
  {
    ghost var before := sdk.constructed;
    var agents, agentList := BuildAgents(sdk, c.agents, getLlm);
    var tasks := BuildTasks(sdk, c.tasks, c.agents, agents, getLlm);
    if tasks.Failure? {
      FailureShape(c, getLlm, fs);
      AppendAssoc(before, AgentObjects(agentList), TaskObjects(TasksBefore(c.tasks, c.agents, getLlm)), [], []);
      return Failure(tasks.error);
    }
    SuccessShape(c, getLlm, fs);
    var crew := AssembleCrew(sdk, c, agentList, tasks.value, fs);
    SuccessLog(before, c, getLlm, fs, crew);
    r := Success(crew);
  }

  /** The log of a successful build, regrouped as `BuildTrace` groups it. */
  lemma SuccessLog(before: seq<Native>, c: CrewConfig.Crew, getLlm: Option<string> -> Llm, fs: FileSystem, crew: Crew)
    requires FirstInvalid(c.tasks, c.agents) == |c.tasks|
    requires crew == CrewOf(c, getLlm, fs).value
    ensures before + AgentObjects(AgentsOf(c.agents, getLlm)) + TaskObjects(TasksBefore(c.tasks, c.agents, getLlm))
          + SourceObjects(Knowledge(fs, c.knowledgePaths)) + [NativeCrew(crew)]
         == before + BuildTrace(c, getLlm, fs)
  {
    SuccessShape(c, getLlm, fs);
    AppendAssoc(before, AgentObjects(AgentsOf(c.agents, getLlm)), TaskObjects(TasksBefore(c.tasks, c.agents, getLlm)),
                SourceObjects(Knowledge(fs, c.knowledgePaths)), [NativeCrew(crew)]);
  }

  /** `build_crew` as its design describes it: every task's agent reference is
      checked before any SDK object is constructed, so a failed build leaves
      nothing behind. A successful build constructs what `BuildCrew` does. */
  method BuildCrewChecked(sdk: Sdk, c: CrewConfig.Crew, getLlm: Option<string> -> Llm, fs: FileSystem)
    returns (r: Result<Crew, string>)
    modifies sdk
    ensures r == CrewOf(c, getLlm, fs)
    ensures r.Failure? ==> sdk.constructed == old(sdk.constructed)
    ensures r.Success? ==> sdk.constructed == old(sdk.constructed) + BuildTrace(c, getLlm, fs)
  {
    for i := 0 to |c.tasks|
      invariant forall j :: 0 <= j < i ==> Resolves(c.tasks[j].1.agent, c.agents)
    {
      var taskName, agentName := c.tasks[i].0, c.tasks[i].1.agent;
      if agentName.None? || agentName.value == "" || agentName.value !in CrewConfig.Keys(c.agents) {
        assert FirstInvalid(c.tasks, c.agents) == i;
        return Failure(InvalidAgentMessage(taskName, agentName));
      }
    }
    assert FirstInvalid(c.tasks, c.agents) == |c.tasks|;
    r := BuildCrew(sdk, c, getLlm, fs);
  }

  /** When a task's agent does not resolve, the build fails at the first such
      task, after every agent and the tasks before it have been constructed. */
  lemma FailureShape(c: CrewConfig.Crew, getLlm: Option<string> -> Llm, fs: FileSystem)
    requires FirstInvalid(c.tasks, c.agents) < |c.tasks|
    ensures var k := FirstInvalid(c.tasks, c.agents);
      CrewOf(c, getLlm, fs) == Failure(InvalidAgentMessage(c.tasks[k].0, c.tasks[k].1.agent))
    ensures BuildTrace(c, getLlm, fs)
         == AgentObjects(AgentsOf(c.agents, getLlm)) + TaskObjects(TasksBefore(c.tasks, c.agents, getLlm))
  {
  }

  /** When every task's agent resolves, the build constructs all agents, all
      tasks, the knowledge sources and the crew. */
  lemma SuccessShape(c: CrewConfig.Crew, getLlm: Option<string> -> Llm, fs: FileSystem)
    requires FirstInvalid(c.tasks, c.agents) == |c.tasks|
    ensures TasksBefore(c.tasks, c.agents, getLlm) == TasksOf(c.tasks, c.agents, getLlm)
    ensures var sources := Knowledge(fs, c.knowledgePaths);
      CrewOf(c, getLlm, fs)
      == Success(Crew(AgentsOf(c.agents, getLlm), TasksOf(c.tasks, c.agents, getLlm), ProcessOf(c.process),
                      c.planning.GetOr(true), c.memory.GetOr(true),
                      if sources == [] then None else Some(sources), c.verbose.GetOr(true)))
    ensures BuildTrace(c, getLlm, fs)
         == (AgentObjects(AgentsOf(c.agents, getLlm)) + TaskObjects(TasksOf(c.tasks, c.agents, getLlm)))
          + (SourceObjects(Knowledge(fs, c.knowledgePaths)) + [NativeCrew(CrewOf(c, getLlm, fs).value)])
  {
    assert c.tasks[..|c.tasks|] == c.tasks;
  }

  /** The last stage of `build_crew`: load the knowledge sources, choose the
      process, apply the defaults and construct the crew. */
  method AssembleCrew(sdk: Sdk, c: CrewConfig.Crew, agentList: seq<Agent>, tasks: seq<Task>, fs: FileSystem)
    returns (crew: Crew)
    modifies sdk
    ensures var sources := Knowledge(fs, c.knowledgePaths);
      && crew == Crew(agentList, tasks, ProcessOf(c.process), c.planning.GetOr(true), c.memory.GetOr(true),
                      if sources == [] then None else Some(sources), c.verbose.GetOr(true))
      && sdk.constructed == old(sdk.constructed) + SourceObjects(sources) + [NativeCrew(crew)]
  {
    var knowledge := LoadKnowledge(sdk, fs, c.knowledgePaths);
    var processType := c.process.GetOr("sequential");
    var process := if processType == "hierarchical" then Hierarchical else Sequential;
    crew := sdk.NewCrew(Crew(
      agents := agentList,
      tasks := tasks,
      process := process,
      planning := c.planning.GetOr(true),
      memory := c.memory.GetOr(true),
      knowledgeSources := if knowledge != [] then Some(knowledge) else None,
      verbose := c.verbose.GetOr(true)));
  }

  /** The agent loop of `build_crew`: the dict from agent key to built agent,
      and its values in insertion order. */
  method BuildAgents(sdk: Sdk, agentsConfig: CrewConfig.Dict<CrewConfig.AgentConfig>, getLlm: Option<string> -> Llm)
    returns (agents: map<string, Agent>, agentList: seq<Agent>)
    modifies sdk
    ensures agentList == AgentsOf(agentsConfig, getLlm)
    ensures agents.Keys == CrewConfig.Keys(agentsConfig)
    ensures forall j :: 0 <= j < |agentsConfig| ==> agentsConfig[j].0 in agents && agents[agentsConfig[j].0] == AgentOf(agentsConfig[j].1, None, getLlm)
    ensures sdk.constructed == old(sdk.constructed) + AgentObjects(agentList)
  {
    agents := map[];
    agentList := [];
    for i := 0 to |agentsConfig|
      invariant AgentsBuilt(agentsConfig, i, agents, agentList, getLlm)
      invariant sdk.constructed == old(sdk.constructed) + AgentObjects(agentList)
    {
      var name, cfg := agentsConfig[i].0, agentsConfig[i].1;
      var a := BuildAgent(sdk, cfg, None, getLlm);
      AgentObjectsSnoc(old(sdk.constructed), agentList, a);
      AgentsBuiltStep(agentsConfig, i, agents, agentList, a, getLlm);
      agents := agents[name := a];
      agentList := agentList + [a];
    }
    AgentsBuiltAll(agentsConfig, agents, agentList, getLlm);
  }

  /** What the agent loop has built after `i` iterations. */
  ghost predicate AgentsBuilt(agentsConfig: CrewConfig.Dict<CrewConfig.AgentConfig>, i: nat,
                              agents: map<string, Agent>, agentList: seq<Agent>, getLlm: Option<string> -> Llm)
    requires i <= |agentsConfig|
  {
    && agentList == AgentsOf(agentsConfig[..i], getLlm)
    && agents.Keys == CrewConfig.Keys(agentsConfig[..i])
    && forall j :: 0 <= j < i ==> agentsConfig[j].0 in agents && agents[agentsConfig[j].0] == AgentOf(agentsConfig[j].1, None, getLlm)
  }

  lemma AgentsBuiltStep(agentsConfig: CrewConfig.Dict<CrewConfig.AgentConfig>, i: nat,
                        agents: map<string, Agent>, agentList: seq<Agent>, a: Agent, getLlm: Option<string> -> Llm)
    requires i < |agentsConfig| && AgentsBuilt(agentsConfig, i, agents, agentList, getLlm)
    requires a == AgentOf(agentsConfig[i].1, None, getLlm)
    ensures AgentsBuilt(agentsConfig, i + 1, agents[agentsConfig[i].0 := a], agentList + [a], getLlm)
  {
    AgentsStep(agentsConfig, i, getLlm);
    CrewConfig.KeysStep(agentsConfig, i);
    AgentMapStep(agentsConfig, i, agents, a, getLlm);
  }

  lemma AgentsBuiltAll(agentsConfig: CrewConfig.Dict<CrewConfig.AgentConfig>,
                       agents: map<string, Agent>, agentList: seq<Agent>, getLlm: Option<string> -> Llm)
    requires AgentsBuilt(agentsConfig, |agentsConfig|, agents, agentList, getLlm)
    ensures agentList == AgentsOf(agentsConfig, getLlm)
    ensures agents.Keys == CrewConfig.Keys(agentsConfig)
    ensures forall j :: 0 <= j < |agentsConfig| ==> agentsConfig[j].0 in agents && agents[agentsConfig[j].0] == AgentOf(agentsConfig[j].1, None, getLlm)
  {
    assert agentsConfig[..|agentsConfig|] == agentsConfig;
  }

  /** The task loop of `build_crew`, up to the first task whose agent does not resolve. */
  method BuildTasks(sdk: Sdk, tasksConfig: seq<(string, CrewConfig.TaskConfig)>,
                    agentsConfig: CrewConfig.Dict<CrewConfig.AgentConfig>, agents: map<string, Agent>,
                    getLlm: Option<string> -> Llm)
    returns (r: Result<seq<Task>, string>)
    requires agents.Keys == CrewConfig.Keys(agentsConfig)
    requires forall j :: 0 <= j < |agentsConfig| ==> agentsConfig[j].0 in agents && agents[agentsConfig[j].0] == AgentOf(agentsConfig[j].1, None, getLlm)
    modifies sdk
    ensures var k := FirstInvalid(tasksConfig, agentsConfig);
      && (k < |tasksConfig| ==> r == Failure(InvalidAgentMessage(tasksConfig[k].0, tasksConfig[k].1.agent)))
      && (k == |tasksConfig| ==> r == Success(TasksOf(tasksConfig, agentsConfig, getLlm)))
      && sdk.constructed == old(sdk.constructed) + TaskObjects(TasksBefore(tasksConfig, agentsConfig, getLlm))
  {
    var tasks: seq<Task> := [];
    for i := 0 to |tasksConfig|
      invariant forall j :: 0 <= j < i ==> Resolves(tasksConfig[j].1.agent, agentsConfig)
      invariant tasks == TasksOf(tasksConfig[..i], agentsConfig, getLlm)
      invariant sdk.constructed == old(sdk.constructed) + TaskObjects(tasks)
    {
      var taskName, cfg := tasksConfig[i].0, tasksConfig[i].1;
      var agentName := cfg.agent;
      if agentName.None? || agentName.value == "" || agentName.value !in agents {
        assert FirstInvalid(tasksConfig, agentsConfig) == i;
        return Failure(InvalidAgentMessage(taskName, agentName));
      }
      LookupIsBuilt(agentsConfig, agentName.value, agents, getLlm);
      var t := BuildTask(sdk, cfg, agents[agentName.value]);
      TasksStep(tasksConfig, i, agentsConfig, getLlm);
      TaskObjectsSnoc(old(sdk.constructed), tasks, t);
      tasks := tasks + [t];
    }
    assert tasksConfig[..|tasksConfig|] == tasksConfig;
    assert FirstInvalid(tasksConfig, agentsConfig) == |tasksConfig|;
    r := Success(tasks);
  }

  lemma AppendAssoc<T>(a: seq<T>, b: seq<T>, c: seq<T>, d: seq<T>, e: seq<T>)
    ensures (((a + b) + c) + d) + e == a + ((b + c) + (d + e))
  {
  }

  lemma AgentsStep(agents: seq<(string, CrewConfig.AgentConfig)>, i: nat, getLlm: Option<string> -> Llm)
    requires i < |agents|
    ensures AgentsOf(agents[..i + 1], getLlm) == AgentsOf(agents[..i], getLlm) + [AgentOf(agents[i].1, None, getLlm)]
  {
  }

  lemma TasksStep(tasks: seq<(string, CrewConfig.TaskConfig)>, i: nat,
                  agents: CrewConfig.Dict<CrewConfig.AgentConfig>, getLlm: Option<string> -> Llm)
    requires i < |tasks|
    requires forall j :: 0 <= j <= i ==> Resolves(tasks[j].1.agent, agents)
    ensures TasksOf(tasks[..i + 1], agents, getLlm)
         == TasksOf(tasks[..i], agents, getLlm) + [TaskOf(tasks[i].1, BoundAgent(agents, tasks[i].1.agent.value, getLlm))]
  {
  }

  lemma AgentObjectsSnoc(log: seq<Native>, agents: seq<Agent>, a: Agent)
    ensures AgentObjects(agents + [a]) == AgentObjects(agents) + [NativeAgent(a)]
    ensures log + AgentObjects(agents) + [NativeAgent(a)] == log + AgentObjects(agents + [a])
  {
    assert (agents + [a])[..|agents|] == agents;
  }

  lemma TaskObjectsSnoc(log: seq<Native>, tasks: seq<Task>, t: Task)
    ensures TaskObjects(tasks + [t]) == TaskObjects(tasks) + [NativeTask(t)]
    ensures log + TaskObjects(tasks) + [NativeTask(t)] == log + TaskObjects(tasks + [t])
  {
    assert (tasks + [t])[..|tasks|] == tasks;
  }

  /** Entering the next agent under its (fresh) key keeps the earlier entries. */
  lemma AgentMapStep(agentsConfig: CrewConfig.Dict<CrewConfig.AgentConfig>, i: nat,
                     agents: map<string, Agent>, a: Agent, getLlm: Option<string> -> Llm)
    requires i < |agentsConfig|
    requires a == AgentOf(agentsConfig[i].1, None, getLlm)
    requires forall j :: 0 <= j < i ==> agentsConfig[j].0 in agents && agents[agentsConfig[j].0] == AgentOf(agentsConfig[j].1, None, getLlm)
    ensures var updated := agents[agentsConfig[i].0 := a];
      forall j :: 0 <= j < i + 1 ==> agentsConfig[j].0 in updated && updated[agentsConfig[j].0] == AgentOf(agentsConfig[j].1, None, getLlm)
  {
    assert CrewConfig.DistinctKeys(agentsConfig);
  }

  /** The agent built under a key is the one `BoundAgent` names. */
  lemma LookupIsBuilt(agentsConfig: CrewConfig.Dict<CrewConfig.AgentConfig>, name: string,
                      agents: map<string, Agent>, getLlm: Option<string> -> Llm)
    requires name in agents
    requires agents.Keys == CrewConfig.Keys(agentsConfig)
    requires forall j :: 0 <= j < |agentsConfig| ==> agentsConfig[j].0 in agents && agents[agentsConfig[j].0] == AgentOf(agentsConfig[j].1, None, getLlm)
    ensures agents[name] == BoundAgent(agentsConfig, name, getLlm)
  {
    var v := CrewConfig.Lookup(agentsConfig, name);
    var i :| 0 <= i < |agentsConfig| && agentsConfig[i] == (name, v);
    assert agents[agentsConfig[i].0] == AgentOf(agentsConfig[i].1, None, getLlm);
  }
}
