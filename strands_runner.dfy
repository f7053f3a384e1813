/** The single-agent adapter for AWS Strands. Strands has no crew or task
    objects, so a whole crew is folded into the system prompt of one agent. */
module Strands {
  import opened Results
  import opened Text
  import CrewConfig

  const FrameworkName := "strands"
  const NotInstalled := "Strands not installed. Install with: pip install strands-agents"

  const PurposeHeading := "# Your Purpose\n"
  const CapabilitiesHeading := "\n# Your Capabilities"
  const TasksHeading := "\n# Tasks You Can Perform"
  const RolePrefix := "\n## "
  const GoalPrefix := "Goal: "
  const TaskPrefix := "\n- "
  const Ellipsis := "..."
  /** Task descriptions are cut to this many characters in the system prompt. */
  const DescriptionLimit := 200

  /** A Strands `Agent`, recorded by its constructor arguments. */
  datatype Agent = Agent(systemPrompt: string, tools: seq<CrewConfig.Tool>)

  /** The plain record `build_task` returns in place of an SDK task. */
  datatype TaskRecord = TaskRecord(description: string, expectedOutput: string, agent: Agent)

  /** Constructing the runner fails when the `strands` package cannot be imported. */
  function NewRunner(sdkInstalled: bool): (r: Result<string, string>)
    ensures r.Success? <==> sdkInstalled
    ensures r.Success? ==> r.value == FrameworkName
    ensures r.Failure? ==> r.error == NotInstalled
  {
    if sdkInstalled then Success(FrameworkName) else Failure(NotInstalled)
  }

  // ---------------------------------------------------------------------
  // The crew-level system prompt, as a list of parts joined with "\n"

  /** The heading of an agent's capability block: its role, or its key without one. */
  function Role(name: string, cfg: CrewConfig.AgentConfig): string {
    cfg.role.GetOr(name)
  }

  function AgentBlock(name: string, cfg: CrewConfig.AgentConfig): seq<string> {
    var goal := cfg.goal.GetOr("");
    [RolePrefix + Role(name, cfg)] + (if goal != "" then [GoalPrefix + goal] else [])
  }

  function AgentBlocks(agents: seq<(string, CrewConfig.AgentConfig)>): seq<string> {
    if agents == [] then []
    else
      var last := agents[|agents| - 1];
      AgentBlocks(agents[..|agents| - 1]) + AgentBlock(last.0, last.1)
  }

  function TaskLine(name: string, cfg: CrewConfig.TaskConfig): seq<string> {
    var desc := cfg.description.GetOr("");
    if desc != "" then [TaskPrefix + name + ": " + Take(desc, DescriptionLimit) + Ellipsis] else []
  }

  function TaskLines(tasks: seq<(string, CrewConfig.TaskConfig)>): seq<string> {
    if tasks == [] then []
    else
      var last := tasks[|tasks| - 1];
      TaskLines(tasks[..|tasks| - 1]) + TaskLine(last.0, last.1)
  }

  function PurposeParts(c: CrewConfig.Crew): seq<string> {
    if Truthy(c.description) then [PurposeHeading + c.description.value] else []
  }

  function CapabilityParts(agents: seq<(string, CrewConfig.AgentConfig)>): seq<string> {
    if agents == [] then [] else [CapabilitiesHeading] + AgentBlocks(agents)
  }

  function TaskParts(tasks: seq<(string, CrewConfig.TaskConfig)>): seq<string> {
    if tasks == [] then [] else [TasksHeading] + TaskLines(tasks)
  }

  /** All parts of the system prompt, in the order they are emitted. */
  function PromptParts(c: CrewConfig.Crew): seq<string> {
    PurposeParts(c) + CapabilityParts(c.agents) + TaskParts(c.tasks)
  }

  function SystemPrompt(c: CrewConfig.Crew): string {
    Join(PromptParts(c), "\n")
  }

  /** `_build_system_prompt`: grows the list of parts section by section, then
      joins it. The two loops are the two helper methods below. */
  method BuildSystemPrompt(c: CrewConfig.Crew) returns (prompt: string)
    ensures prompt == SystemPrompt(c)
  {
    var parts: seq<string> := [];
    if Truthy(c.description) {
      parts := parts + [PurposeHeading + c.description.value];
    }
    assert parts == PurposeParts(c);
    parts := AppendCapabilities(parts, c.agents);
    parts := AppendTasks(parts, c.tasks);
    assert parts == PromptParts(c);
    prompt := Join(parts, "\n");
  }

  /** The agent loop of `_build_system_prompt`: a heading, then one block per agent. */
  method AppendCapabilities(parts: seq<string>, agents: seq<(string, CrewConfig.AgentConfig)>)
    returns (out: seq<string>)
    ensures out == parts + CapabilityParts(agents)
  {
    out := parts;
    if |agents| > 0 {
      out := out + [CapabilitiesHeading];
      for i := 0 to |agents|
        invariant out == parts + [CapabilitiesHeading] + AgentBlocks(agents[..i])
      {
        out := AppendAgentBlock(out, agents[i].0, agents[i].1);
        AgentBlocksStep(agents, i);
        Regroup(parts + [CapabilitiesHeading], AgentBlocks(agents[..i]), AgentBlock(agents[i].0, agents[i].1));
      }
      assert agents[..|agents|] == agents;
    }
  }

  /** One iteration of the agent loop: the role heading, then the goal if it is non-empty. */
  method AppendAgentBlock(parts: seq<string>, name: string, cfg: CrewConfig.AgentConfig) returns (out: seq<string>)
    ensures out == parts + AgentBlock(name, cfg)
  {
    var role := cfg.role.GetOr(name);
    var goal := cfg.goal.GetOr("");
    out := parts + [RolePrefix + role];
    if goal != "" {
      out := out + [GoalPrefix + goal];
    }
  }

  /** The task loop of `_build_system_prompt`: a heading, then one line per
      task that has a description. */
  method AppendTasks(parts: seq<string>, tasks: seq<(string, CrewConfig.TaskConfig)>)
    returns (out: seq<string>)
    ensures out == parts + TaskParts(tasks)
  {
    out := parts;
    if |tasks| > 0 {
      out := out + [TasksHeading];
      for i := 0 to |tasks|
        invariant out == parts + [TasksHeading] + TaskLines(tasks[..i])
      {
        out := AppendTaskLine(out, tasks[i].0, tasks[i].1);
        TaskLinesStep(tasks, i);
        Regroup(parts + [TasksHeading], TaskLines(tasks[..i]), TaskLine(tasks[i].0, tasks[i].1));
      }
      assert tasks[..|tasks|] == tasks;
    }
  }

  /** One iteration of the task loop: a summary line when the description is non-empty. */
  method AppendTaskLine(parts: seq<string>, name: string, cfg: CrewConfig.TaskConfig) returns (out: seq<string>)
    ensures out == parts + TaskLine(name, cfg)
  {
    out := parts;
    var desc := cfg.description.GetOr("");
    if desc != "" {
      out := out + [TaskPrefix + name + ": " + Take(desc, DescriptionLimit) + Ellipsis];
    }
  }

  lemma Regroup(prefix: seq<string>, done: seq<string>, next: seq<string>)
    ensures prefix + done + next == prefix + (done + next)
  {
  }

  lemma AgentBlocksStep(agents: seq<(string, CrewConfig.AgentConfig)>, i: nat)
    requires i < |agents|
    ensures AgentBlocks(agents[..i + 1]) == AgentBlocks(agents[..i]) + AgentBlock(agents[i].0, agents[i].1)
  {
    assert agents[..i + 1][..i] == agents[..i];
  }

  lemma TaskLinesStep(tasks: seq<(string, CrewConfig.TaskConfig)>, i: nat)
    requires i < |tasks|
    ensures TaskLines(tasks[..i + 1]) == TaskLines(tasks[..i]) + TaskLine(tasks[i].0, tasks[i].1)
  {
    assert tasks[..i + 1][..i] == tasks[..i];
  }

  /** `_collect_tools`: tool discovery is not implemented, so no tools are ever collected. */
  function CollectTools(c: CrewConfig.Crew): (tools: seq<CrewConfig.Tool>)
    ensures |tools| == 0
  {
    []
  }

  /** `build_crew`: one agent carrying the synthesised prompt and the collected tools. */
  method BuildCrew(c: CrewConfig.Crew) returns (agent: Agent)
    ensures agent.systemPrompt == SystemPrompt(c)
    ensures agent.tools == []
  {
    var prompt := BuildSystemPrompt(c);
    var tools := CollectTools(c);
    agent := Agent(prompt, tools);
  }

  // ---------------------------------------------------------------------
  // run, build_agent, build_task

  /** The prompt `run` sends: `inputs["input"]`, else `inputs["task"]`, else
      `render(inputs)`, Python's `str` of the whole mapping. A present key wins
      whatever its value, the empty string included. */
  function InputPrompt(inputs: map<string, string>, render: map<string, string> -> string): (prompt: string)
    ensures "input" in inputs ==> prompt == inputs["input"]
    ensures "input" !in inputs && "task" in inputs ==> prompt == inputs["task"]
    ensures "input" !in inputs && "task" !in inputs ==> prompt == render(inputs)
  {
    if "input" in inputs then inputs["input"]
    else if "task" in inputs then inputs["task"]
    else render(inputs)
  }

  /** `run`: calls the agent on the extracted prompt; `invoke` stands for
      `str(agent(prompt))`, which runs the model. */
  function Run(agent: Agent, inputs: map<string, string>, render: map<string, string> -> string,
               invoke: (Agent, string) -> string): (output: string)
    ensures "input" in inputs ==> output == invoke(agent, inputs["input"])
    ensures "input" !in inputs && "task" in inputs ==> output == invoke(agent, inputs["task"])
    ensures "input" !in inputs && "task" !in inputs ==> output == invoke(agent, render(inputs))
  {
    invoke(agent, InputPrompt(inputs, render))
  }

  const DefaultRole := "helpful assistant"

  /** The prompt of an isolated agent built by `build_agent`. */
  function AgentPrompt(cfg: CrewConfig.AgentConfig): string {
    "You are a " + cfg.role.GetOr(DefaultRole) + ".\n\nGoal: " + cfg.goal.GetOr("")
    + "\n\nBackground: " + cfg.backstory.GetOr("")
  }

  /** The five lines an isolated agent's prompt consists of. */
  function AgentPromptLines(cfg: CrewConfig.AgentConfig): seq<string> {
    ["You are a " + cfg.role.GetOr(DefaultRole) + ".", "", "Goal: " + cfg.goal.GetOr(""), "",
     "Background: " + cfg.backstory.GetOr("")]
  }

  /** `build_agent`: `tools or []` turns both an absent and an empty list into []. */
  function BuildAgent(cfg: CrewConfig.AgentConfig, tools: Option<seq<CrewConfig.Tool>>): (agent: Agent)
    ensures agent.systemPrompt == AgentPrompt(cfg)
    ensures tools.None? ==> agent.tools == []
    ensures tools.Some? ==> agent.tools == tools.value
  {
    Agent(AgentPrompt(cfg), if tools.Some? && tools.value != [] then tools.value else [])
  }

  /** `build_task`: a plain record, absent fields read as "". */
  function BuildTask(cfg: CrewConfig.TaskConfig, agent: Agent): (t: TaskRecord)
    ensures cfg.description.Some? ==> t.description == cfg.description.value
    ensures cfg.description.None? ==> t.description == ""
    ensures cfg.expectedOutput.Some? ==> t.expectedOutput == cfg.expectedOutput.value
    ensures cfg.expectedOutput.None? ==> t.expectedOutput == ""
    ensures t.agent == agent
  {
    TaskRecord(cfg.description.GetOr(""), cfg.expectedOutput.GetOr(""), agent)
  }
}
