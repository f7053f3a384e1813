/** The CrewAI objects the adapter constructs, recorded by their constructor
    arguments, and the SDK itself as the log of every construction, so that
    what has been built when `build_crew` fails can be stated. */
module CrewAISdk {
  import opened Results
  import CrewConfig

  /** What the runner's `get_llm` returns; the model never looks inside. */
  datatype Llm = Llm(handle: string)

  datatype Agent = Agent(
    role: string,
    goal: string,
    backstory: string,
    llm: Llm,
    tools: seq<CrewConfig.Tool>,
    allowDelegation: bool,
    verbose: bool)

  datatype Task = Task(description: string, expectedOutput: string, agent: Agent)

  datatype Process = Sequential | Hierarchical

  datatype KnowledgeSource = TextFileKnowledgeSource(filePaths: seq<string>)

  datatype Crew = Crew(
    agents: seq<Agent>,
    tasks: seq<Task>,
    process: Process,
    planning: bool,
    memory: bool,
    knowledgeSources: Option<seq<KnowledgeSource>>,
    verbose: bool)

  /** One constructor call into the SDK. */
  datatype Native =
    | NativeAgent(agent: Agent)
    | NativeTask(task: Task)
    | NativeSource(source: KnowledgeSource)
    | NativeCrew(crew: Crew)

  function AgentObjects(agents: seq<Agent>): (r: seq<Native>)
    ensures |r| == |agents|
  {
    if agents == [] then [] else AgentObjects(agents[..|agents| - 1]) + [NativeAgent(agents[|agents| - 1])]
  }

  function TaskObjects(tasks: seq<Task>): (r: seq<Native>)
    ensures |r| == |tasks|
  {
    if tasks == [] then [] else TaskObjects(tasks[..|tasks| - 1]) + [NativeTask(tasks[|tasks| - 1])]
  }

  function SourceObjects(sources: seq<KnowledgeSource>): (r: seq<Native>)
    ensures |r| == |sources|
  {
    if sources == [] then [] else SourceObjects(sources[..|sources| - 1]) + [NativeSource(sources[|sources| - 1])]
  }

  /** The `crewai` package as seen by the adapter: every object it has been
      asked to construct, oldest first. */
  class Sdk {
    var constructed: seq<Native>

    constructor ()
      ensures constructed == []
    {
      constructed := [];
    }

    method NewAgent(a: Agent) returns (r: Agent)
      modifies this
      ensures r == a && constructed == old(constructed) + [NativeAgent(a)]
    {
      constructed := constructed + [NativeAgent(a)];
      r := a;
    }

    method NewTask(t: Task) returns (r: Task)
      modifies this
      ensures r == t && constructed == old(constructed) + [NativeTask(t)]
    {
      constructed := constructed + [NativeTask(t)];
      r := t;
    }

    method NewSource(s: KnowledgeSource) returns (r: KnowledgeSource)
      modifies this
      ensures r == s && constructed == old(constructed) + [NativeSource(s)]
    {
      constructed := constructed + [NativeSource(s)];
      r := s;
    }

    method NewCrew(c: Crew) returns (r: Crew)
      modifies this
      ensures r == c && constructed == old(constructed) + [NativeCrew(c)]
    {
      constructed := constructed + [NativeCrew(c)];
      r := c;
    }
  }
}
