/** What `build_crew` promises, stated over the model of `CrewAI`. */
module CrewAIProps {
  import opened Results
  import CrewConfig
  import opened CrewAISdk
  import opened CrewAIKnowledge
  import opened CrewAI

  /** A task's agent reference is rejected when it is absent, empty, or not a
      configured agent's key. */
  predicate Invalid(t: (string, CrewConfig.TaskConfig), agents: seq<(string, CrewConfig.AgentConfig)>) {
    t.1.agent.None? || t.1.agent.value == "" || t.1.agent.value !in CrewConfig.Keys(agents)
  }

  /** The build fails exactly when some task's agent reference is rejected, and
      then the message names the first such task and its reference. */
  lemma BuildFailsIff(c: CrewConfig.Crew, getLlm: Option<string> -> Llm, fs: FileSystem)
    ensures CrewOf(c, getLlm, fs).Failure? <==> exists j :: 0 <= j < |c.tasks| && Invalid(c.tasks[j], c.agents)
    ensures CrewOf(c, getLlm, fs).Failure? ==>
      exists k :: 0 <= k < |c.tasks| && Invalid(c.tasks[k], c.agents)
        && (forall j :: 0 <= j < k ==> !Invalid(c.tasks[j], c.agents))
        && CrewOf(c, getLlm, fs).error
           == "Task '" + c.tasks[k].0 + "' has invalid agent: "
              + (if c.tasks[k].1.agent.Some? then c.tasks[k].1.agent.value else "None")
  {
    var k := FirstInvalid(c.tasks, c.agents);
    if k < |c.tasks| {
      assert Invalid(c.tasks[k], c.agents);
    } else {
      forall j | 0 <= j < |c.tasks| ensures !Invalid(c.tasks[j], c.agents) {
        assert Resolves(c.tasks[j].1.agent, c.agents);
      }
    }
  }

  /** On success there is one agent per configured agent, in iteration order,
      each built from its own entry. */
  lemma CrewAgents(c: CrewConfig.Crew, getLlm: Option<string> -> Llm, fs: FileSystem)
    requires CrewOf(c, getLlm, fs).Success?
    ensures var crew := CrewOf(c, getLlm, fs).value;
      && |crew.agents| == |c.agents|
      && forall i :: 0 <= i < |c.agents| ==> crew.agents[i] == AgentOf(c.agents[i].1, None, getLlm)
  {
  }

  /** On success there is one task per configured task, in iteration order,
      with the entry's description and expected output, bound to the agent
      that sits in the crew's agent list at the index of the entry it names. */
  lemma CrewTasks(c: CrewConfig.Crew, getLlm: Option<string> -> Llm, fs: FileSystem)
    requires CrewOf(c, getLlm, fs).Success?
    ensures var crew := CrewOf(c, getLlm, fs).value;
      && |crew.tasks| == |c.tasks|
      && forall j :: 0 <= j < |c.tasks| ==>
           && crew.tasks[j].description == c.tasks[j].1.description.GetOr("")
           && crew.tasks[j].expectedOutput == c.tasks[j].1.expectedOutput.GetOr("")
           && c.tasks[j].1.agent.Some?
           && exists i :: 0 <= i < |c.agents| && c.agents[i].0 == c.tasks[j].1.agent.value
                          && crew.tasks[j].agent == crew.agents[i]
  {
    var crew := CrewOf(c, getLlm, fs).value;
    forall j | 0 <= j < |c.tasks|
      ensures c.tasks[j].1.agent.Some?
      ensures exists i :: 0 <= i < |c.agents| && c.agents[i].0 == c.tasks[j].1.agent.value
                          && crew.tasks[j].agent == crew.agents[i]
    {
      assert Resolves(c.tasks[j].1.agent, c.agents);
      var name := c.tasks[j].1.agent.value;
      var v := CrewConfig.Lookup(c.agents, name);
      var i :| 0 <= i < |c.agents| && c.agents[i] == (name, v);
      assert crew.tasks[j].agent == AgentOf(v, None, getLlm);
      assert crew.agents[i] == AgentOf(c.agents[i].1, None, getLlm);
    }
  }

  /** Agents are constructed before any task reference is checked: whatever
      the tasks are, and whether or not the build fails, the first objects
      constructed are one agent per configured agent. */
  lemma AgentsBuiltFirst(c: CrewConfig.Crew, getLlm: Option<string> -> Llm, fs: FileSystem)
    ensures |BuildTrace(c, getLlm, fs)| >= |c.agents|
    ensures BuildTrace(c, getLlm, fs)[..|c.agents|] == AgentObjects(AgentsOf(c.agents, getLlm))
  {
    var a := AgentObjects(AgentsOf(c.agents, getLlm));
    var rest := TaskObjects(TasksBefore(c.tasks, c.agents, getLlm))
      + match CrewOf(c, getLlm, fs)
        case Success(crew) => SourceObjects(Knowledge(fs, c.knowledgePaths)) + [NativeCrew(crew)]
        case Failure(_) => [];
    assert BuildTrace(c, getLlm, fs) == a + rest;
    assert (a + rest)[..|a|] == a;
  }

  lemma {:induction false} TaskObjectsAreTasks(tasks: seq<Task>)
    ensures forall n :: n in TaskObjects(tasks) ==> n.NativeTask?
  {
    if tasks != [] {
      TaskObjectsAreTasks(tasks[..|tasks| - 1]);
    }
  }

  lemma {:induction false} AgentObjectsAreAgents(agents: seq<Agent>)
    ensures forall n :: n in AgentObjects(agents) ==> n.NativeAgent?
  {
    if agents != [] {
      AgentObjectsAreAgents(agents[..|agents| - 1]);
    }
  }

  /** A failed build has constructed every agent and the tasks before the
      offending one (bound as a successful build binds them), and no
      knowledge source and no crew. */
  lemma FailedBuildTrace(c: CrewConfig.Crew, getLlm: Option<string> -> Llm, fs: FileSystem)
    requires CrewOf(c, getLlm, fs).Failure?
    ensures var k := FirstInvalid(c.tasks, c.agents);
      && k < |c.tasks| && Invalid(c.tasks[k], c.agents)
      && var built := TasksBefore(c.tasks, c.agents, getLlm);
      && |built| == k
      && (forall j :: 0 <= j < k ==>
            && c.tasks[j].1.agent.Some?
            && c.tasks[j].1.agent.value in CrewConfig.Keys(c.agents)
            && built[j] == TaskOf(c.tasks[j].1, BoundAgent(c.agents, c.tasks[j].1.agent.value, getLlm)))
      && BuildTrace(c, getLlm, fs) == AgentObjects(AgentsOf(c.agents, getLlm)) + TaskObjects(built)
    ensures forall n :: n in BuildTrace(c, getLlm, fs) ==> !n.NativeSource? && !n.NativeCrew?
  {
    var k := FirstInvalid(c.tasks, c.agents);
    FailureShape(c, getLlm, fs);
    var built := TasksBefore(c.tasks, c.agents, getLlm);
    forall j | 0 <= j < k
      ensures built[j] == TaskOf(c.tasks[j].1, BoundAgent(c.agents, c.tasks[j].1.agent.value, getLlm))
    {
      assert c.tasks[..k][j] == c.tasks[j];
    }
    AgentObjectsAreAgents(AgentsOf(c.agents, getLlm));
    TaskObjectsAreTasks(built);
  }

  /** The crew's settings: the process is hierarchical exactly for
      "hierarchical"; planning, memory and verbose are on unless set to false;
      the knowledge sources are `None` exactly when none were loaded. */
  lemma CrewSettings(c: CrewConfig.Crew, getLlm: Option<string> -> Llm, fs: FileSystem)
    requires CrewOf(c, getLlm, fs).Success?
    ensures var crew := CrewOf(c, getLlm, fs).value;
      && (crew.process == Hierarchical <==> c.process == Some("hierarchical"))
      && (crew.planning <==> c.planning != Some(false))
      && (crew.memory <==> c.memory != Some(false))
      && (crew.verbose <==> c.verbose != Some(false))
      && (crew.knowledgeSources.None? <==> Knowledge(fs, c.knowledgePaths) == [])
      && (crew.knowledgeSources.Some? ==> crew.knowledgeSources.value == Knowledge(fs, c.knowledgePaths))
  {
  }

  /** The two-agent configuration the plugin offers as `multi_agent_crew_config`. */
  function MultiAgentCrew(): CrewConfig.Crew {
    var agents := [
      ("researcher", CrewConfig.AgentConfig(Some("Researcher"), Some("Gather and analyze information"),
                                            Some("You are an expert researcher."), None, None)),
      ("writer", CrewConfig.AgentConfig(Some("Writer"), Some("Write clear summaries"),
                                        Some("You are a skilled technical writer."), None, None))];
    var tasks := [
      ("research_task", CrewConfig.TaskConfig(Some("Research the topic: Python programming"),
                                              Some("Key facts about Python"), Some("researcher"), [])),
      ("writing_task", CrewConfig.TaskConfig(Some("Write a brief summary based on the research"),
                                             Some("A concise summary"), Some("writer"), ["research_task"]))];
    assert CrewConfig.DistinctKeys(agents) by {
      assert |agents[0].0| != |agents[1].0|;
    }
    assert CrewConfig.DistinctKeys(tasks) by {
      assert |tasks[0].0| != |tasks[1].0|;
    }
    CrewConfig.Crew(
      name := Some("multi_agent_crew"),
      description := Some("A crew with multiple collaborating agents"),
      agents := agents,
      tasks := tasks,
      knowledgePaths := [],
      process := None,
      planning := None,
      memory := None,
      verbose := None)
  }

  /** That configuration builds: the research task goes to the researcher and
      comes first, the writing task goes to the writer; the crew is
      sequential, plans, remembers, and has no knowledge sources. */
  lemma MultiAgentCrewBuilds(getLlm: Option<string> -> Llm, fs: FileSystem)
    ensures CrewOf(MultiAgentCrew(), getLlm, fs).Success?
    ensures var crew := CrewOf(MultiAgentCrew(), getLlm, fs).value;
      && |crew.agents| == 2 && |crew.tasks| == 2
      && crew.tasks[0].description == "Research the topic: Python programming"
      && crew.tasks[0].agent == crew.agents[0] && crew.agents[0].role == "Researcher"
      && crew.tasks[1].agent == crew.agents[1] && crew.agents[1].role == "Writer"
      && crew.process == Sequential && crew.planning && crew.memory && crew.verbose
      && crew.knowledgeSources.None?
  {
    var c := MultiAgentCrew();
    MultiAgentKeys();
    assert FirstInvalid(c.tasks, c.agents) == 2 by {
      assert c.tasks[1..][1..] == [];
    }
    assert CrewConfig.Lookup(c.agents, "researcher") == c.agents[0].1;
    assert CrewConfig.Lookup(c.agents, "writer") == c.agents[1].1;
  }

  /** A task naming an agent that is not configured stops the build with a
      message naming the task and the reference. */
  lemma UnknownAgentRejected(getLlm: Option<string> -> Llm, fs: FileSystem)
    ensures var c := MultiAgentCrew().(tasks := [("edit_task",
              CrewConfig.TaskConfig(Some("Edit the summary"), None, Some("editor"), []))]);
      && CrewOf(c, getLlm, fs) == Failure("Task 'edit_task' has invalid agent: editor")
      && BuildTrace(c, getLlm, fs) == AgentObjects(AgentsOf(c.agents, getLlm))
      && |BuildTrace(c, getLlm, fs)| == 2
  {
    var c := MultiAgentCrew().(tasks := [("edit_task",
              CrewConfig.TaskConfig(Some("Edit the summary"), None, Some("editor"), []))]);
    MultiAgentKeys();
    EditorNotConfigured();
    assert !Resolves(c.tasks[0].1.agent, c.agents);
    assert FirstInvalid(c.tasks, c.agents) == 0;
    FailureShape(c, getLlm, fs);
    assert c.tasks[..0] == [];
    assert TasksBefore(c.tasks, c.agents, getLlm) == [];
    EditTaskMessage();
    assert |AgentsOf(c.agents, getLlm)| == 2;
  }

  /** The example's agent keys. */
  lemma MultiAgentKeys()
    ensures CrewConfig.Keys(MultiAgentCrew().agents) == {"researcher", "writer"}
  {
    var agents := MultiAgentCrew().agents;
    assert agents[..1][..0] == [];
  }

  lemma EditorNotConfigured()
    ensures "editor" !in {"researcher", "writer"}
  {
    assert |"editor"| != |"researcher"|;
    assert "editor"[0] != "writer"[0];
  }

  lemma EditTaskMessage()
    ensures InvalidAgentMessage("edit_task", Some("editor")) == "Task 'edit_task' has invalid agent: editor"
  {
  }
}
