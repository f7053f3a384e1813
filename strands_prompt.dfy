/** What the Strands system prompt contains: which headings appear, in what
    order the agents and tasks are listed, and how task descriptions are cut. */
module StrandsPrompt {
  import opened Results
  import opened Text
  import CrewConfig
  import opened Strands

  /** The parts that start with `prefix`, in order. */
  function Filter(parts: seq<string>, prefix: string): seq<string> {
    if parts == [] then []
    else
      var last := parts[|parts| - 1];
      Filter(parts[..|parts| - 1], prefix) + (if StartsWith(last, prefix) then [last] else [])
  }

  lemma {:induction false} FilterAppend(a: seq<string>, b: seq<string>, prefix: string)
    ensures Filter(a + b, prefix) == Filter(a, prefix) + Filter(b, prefix)
  {
    if b != [] {
      assert (a + b)[..|a + b| - 1] == a + b[..|b| - 1];
      FilterAppend(a, b[..|b| - 1], prefix);
    } else {
      assert a + b == a;
    }
  }

  lemma {:induction false} FilterNone(parts: seq<string>, prefix: string)
    requires forall i :: 0 <= i < |parts| ==> !StartsWith(parts[i], prefix)
    ensures Filter(parts, prefix) == []
  {
    if parts != [] {
      FilterNone(parts[..|parts| - 1], prefix);
    }
  }

  /** Two prefixes that differ at some position cannot both start one string. */
  lemma Clash(s: string, p: string, q: string, k: nat)
    requires StartsWith(s, p) && k < |p| && k < |q| && p[k] != q[k]
    ensures !StartsWith(s, q)
  {
    assert s[k] == p[k];
  }

  lemma {:induction false} AgentBlocksShape(agents: seq<(string, CrewConfig.AgentConfig)>)
    ensures forall i :: 0 <= i < |AgentBlocks(agents)| ==>
      StartsWith(AgentBlocks(agents)[i], RolePrefix) || StartsWith(AgentBlocks(agents)[i], GoalPrefix)
  {
    if agents != [] {
      AgentBlocksShape(agents[..|agents| - 1]);
    }
  }

  lemma {:induction false} TaskLinesShape(tasks: seq<(string, CrewConfig.TaskConfig)>)
    ensures forall i :: 0 <= i < |TaskLines(tasks)| ==> StartsWith(TaskLines(tasks)[i], TaskPrefix)
  {
    if tasks != [] {
      TaskLinesShape(tasks[..|tasks| - 1]);
      var last := tasks[|tasks| - 1];
      var line := TaskLine(last.0, last.1);
      if line != [] {
        assert line[0] == TaskPrefix + (last.0 + ": " + Take(last.1.description.GetOr(""), DescriptionLimit) + Ellipsis);
      }
    }
  }

  /** A role or goal line does not start with a `q` that clashes with both prefixes. */
  lemma BlockClash(p: string, q: string, kRole: nat, kGoal: nat)
    requires StartsWith(p, RolePrefix) || StartsWith(p, GoalPrefix)
    requires kRole < |RolePrefix| && kRole < |q| && RolePrefix[kRole] != q[kRole]
    requires kGoal < |GoalPrefix| && kGoal < |q| && GoalPrefix[kGoal] != q[kGoal]
    ensures !StartsWith(p, q)
  {
    if StartsWith(p, RolePrefix) { Clash(p, RolePrefix, q, kRole); }
    else { Clash(p, GoalPrefix, q, kGoal); }
  }

  /** No capability-section part starts with `q`, when `q` clashes with both
      the role and the goal prefix and is not the capabilities heading. */
  lemma NoneInCapabilities(agents: seq<(string, CrewConfig.AgentConfig)>, q: string, kRole: nat, kGoal: nat)
    requires kRole < |RolePrefix| && kRole < |q| && RolePrefix[kRole] != q[kRole]
    requires kGoal < |GoalPrefix| && kGoal < |q| && GoalPrefix[kGoal] != q[kGoal]
    requires !StartsWith(CapabilitiesHeading, q)
    ensures Filter(CapabilityParts(agents), q) == []
  {
    if agents != [] {
      var blocks := AgentBlocks(agents);
      AgentBlocksShape(agents);
      forall i | 0 <= i < |blocks| ensures !StartsWith(blocks[i], q) {
        BlockClash(blocks[i], q, kRole, kGoal);
      }
      FilterNone(blocks, q);
      FilterNone([CapabilitiesHeading], q);
      FilterAppend([CapabilitiesHeading], blocks, q);
    }
  }

  /** No task-section part starts with `q`, when `q` clashes with the task prefix
      and is not the tasks heading. */
  lemma NoneInTasks(tasks: seq<(string, CrewConfig.TaskConfig)>, q: string, k: nat)
    requires k < |TaskPrefix| && k < |q| && TaskPrefix[k] != q[k]
    requires !StartsWith(TasksHeading, q)
    ensures Filter(TaskParts(tasks), q) == []
  {
    if tasks != [] {
      TaskLinesShape(tasks);
      var parts := TaskParts(tasks);
      forall i | 0 <= i < |parts| ensures !StartsWith(parts[i], q) {
        if i > 0 {
          assert parts[i] == TaskLines(tasks)[i - 1];
          Clash(parts[i], TaskPrefix, q, k);
        }
      }
      FilterNone(parts, q);
    }
  }

  /** The characters the prompt's headings and prefixes are told apart by. */
  lemma PrefixChars()
    ensures |PurposeHeading| > 0 && PurposeHeading[0] == '#'
    ensures |CapabilitiesHeading| > 3 && CapabilitiesHeading[0] == '\n' && CapabilitiesHeading[1] == '#'
      && CapabilitiesHeading[2] == ' ' && CapabilitiesHeading[3] == 'Y'
    ensures |TasksHeading| > 3 && TasksHeading[0] == '\n' && TasksHeading[1] == '#'
      && TasksHeading[2] == ' ' && TasksHeading[3] == 'T'
    ensures |RolePrefix| > 2 && RolePrefix[0] == '\n' && RolePrefix[1] == '#' && RolePrefix[2] == '#'
    ensures |GoalPrefix| > 0 && GoalPrefix[0] == 'G'
    ensures |TaskPrefix| > 1 && TaskPrefix[0] == '\n' && TaskPrefix[1] == '-'
  {
  }

  lemma HeadingsDiffer()
    ensures !StartsWith(TasksHeading, CapabilitiesHeading)
    ensures !StartsWith(CapabilitiesHeading, TasksHeading)
  {
    assert TasksHeading[3] == 'T' && CapabilitiesHeading[3] == 'Y';
    assert TasksHeading[..|CapabilitiesHeading|][3] == TasksHeading[3];
  }

  lemma FilterPrompt(c: CrewConfig.Crew, q: string)
    ensures Filter(PromptParts(c), q)
         == Filter(PurposeParts(c), q) + Filter(CapabilityParts(c.agents), q) + Filter(TaskParts(c.tasks), q)
  {
    FilterAppend(PurposeParts(c) + CapabilityParts(c.agents), TaskParts(c.tasks), q);
    FilterAppend(PurposeParts(c), CapabilityParts(c.agents), q);
  }

  /** The filtered prompt, from what each of its three sections contributes. */
  lemma SectionSum(c: CrewConfig.Crew, q: string, purpose: seq<string>, capabilities: seq<string>, tasks: seq<string>)
    requires Filter(PurposeParts(c), q) == purpose
    requires Filter(CapabilityParts(c.agents), q) == capabilities
    requires Filter(TaskParts(c.tasks), q) == tasks
    ensures Filter(PromptParts(c), q) == purpose + capabilities + tasks
  {
    FilterPrompt(c, q);
  }

  /** No purpose-section part starts with `q`, when `q` clashes with the purpose heading. */
  lemma NoneInPurpose(c: CrewConfig.Crew, q: string, k: nat)
    requires k < |PurposeHeading| && k < |q| && PurposeHeading[k] != q[k]
    ensures Filter(PurposeParts(c), q) == []
  {
    if Truthy(c.description) {
      Clash(PurposeHeading + c.description.value, PurposeHeading, q, k);
    }
  }

  // ---------------------------------------------------------------------
  // The properties

  /** No description, agents or tasks: the prompt is empty. */
  lemma EmptyConfigEmptyPrompt(c: CrewConfig.Crew)
    requires !Truthy(c.description) && c.agents == [] && c.tasks == []
    ensures SystemPrompt(c) == ""
  {
  }

  /** The purpose section is present exactly when the description is non-empty;
      it is then the first part, and the prompt begins with it. */
  lemma PurposeSection(c: CrewConfig.Crew)
    ensures Filter(PromptParts(c), PurposeHeading)
         == if Truthy(c.description) then [PurposeHeading + c.description.value] else []
    ensures Truthy(c.description) ==> PromptParts(c)[0] == PurposeHeading + c.description.value
    ensures Truthy(c.description) ==> StartsWith(SystemPrompt(c), PurposeHeading + c.description.value)
  {
    PrefixChars();
    FilterPrompt(c, PurposeHeading);
    NoneInCapabilities(c.agents, PurposeHeading, 0, 0);
    NoneInTasks(c.tasks, PurposeHeading, 0);
    if Truthy(c.description) {
      var p := PurposeHeading + c.description.value;
      assert StartsWith(p, PurposeHeading);
      assert Filter([p], PurposeHeading) == [p];
      JoinStartsWithFirst(PromptParts(c), "\n");
    }
  }

  /** Within its own section the capabilities heading occurs once, ahead of the blocks. */
  lemma CapabilitiesHeadingOnce(agents: seq<(string, CrewConfig.AgentConfig)>)
    ensures Filter(CapabilityParts(agents), CapabilitiesHeading) == if agents == [] then [] else [CapabilitiesHeading]
  {
    PrefixChars();
    var q := CapabilitiesHeading;
    if agents != [] {
      var blocks := AgentBlocks(agents);
      AgentBlocksShape(agents);
      forall i | 0 <= i < |blocks| ensures !StartsWith(blocks[i], q) {
        if StartsWith(blocks[i], RolePrefix) { Clash(blocks[i], RolePrefix, q, 2); }
        else { Clash(blocks[i], GoalPrefix, q, 0); }
      }
      FilterNone(blocks, q);
      FilterAppend([q], blocks, q);
      assert Filter([q], q) == [q];
    }
  }

  /** Within its own section the tasks heading occurs once, ahead of the lines. */
  lemma TasksHeadingOnce(tasks: seq<(string, CrewConfig.TaskConfig)>)
    ensures Filter(TaskParts(tasks), TasksHeading) == if tasks == [] then [] else [TasksHeading]
  {
    PrefixChars();
    var q := TasksHeading;
    if tasks != [] {
      var lines := TaskLines(tasks);
      TaskLinesShape(tasks);
      forall i | 0 <= i < |lines| ensures !StartsWith(lines[i], q) {
        Clash(lines[i], TaskPrefix, q, 1);
      }
      FilterNone(lines, q);
      FilterAppend([q], lines, q);
      assert Filter([q], q) == [q];
    }
  }

  /** The capabilities heading is emitted, once, exactly when there are agents. */
  lemma CapabilitiesHeadingIff(c: CrewConfig.Crew)
    ensures Filter(PromptParts(c), CapabilitiesHeading) == if c.agents == [] then [] else [CapabilitiesHeading]
  {
    PrefixChars();
    HeadingsDiffer();
    var q := CapabilitiesHeading;
    var mid := if c.agents == [] then [] else [q];
    NoneInPurpose(c, q, 0);
    NoneInTasks(c.tasks, q, 1);
    CapabilitiesHeadingOnce(c.agents);
    SectionSum(c, q, [], mid, []);
    assert [] + mid + [] == mid;
  }

  /** The tasks heading is emitted, once, exactly when there are tasks, even
      when no task has a description. */
  lemma TasksHeadingIff(c: CrewConfig.Crew)
    ensures Filter(PromptParts(c), TasksHeading) == if c.tasks == [] then [] else [TasksHeading]
  {
    PrefixChars();
    HeadingsDiffer();
    var q := TasksHeading;
    var last := if c.tasks == [] then [] else [q];
    NoneInPurpose(c, q, 0);
    NoneInCapabilities(c.agents, q, 2, 0);
    TasksHeadingOnce(c.tasks);
    SectionSum(c, q, [], [], last);
    assert [] + [] + last == last;
  }

  /** The role headings, one per agent, in the agents' iteration order. */
  function RoleLines(agents: seq<(string, CrewConfig.AgentConfig)>): seq<string> {
    seq(|agents|, i requires 0 <= i < |agents| => RolePrefix + Role(agents[i].0, agents[i].1))
  }

  /** The goal lines: one for each agent whose goal is non-empty, in order. */
  function GoalLines(agents: seq<(string, CrewConfig.AgentConfig)>): seq<string> {
    if agents == [] then []
    else
      var goal := agents[|agents| - 1].1.goal.GetOr("");
      GoalLines(agents[..|agents| - 1]) + if goal != "" then [GoalPrefix + goal] else []
  }

  lemma {:induction false} RoleLinesOfBlocks(agents: seq<(string, CrewConfig.AgentConfig)>)
    ensures Filter(AgentBlocks(agents), RolePrefix) == RoleLines(agents)
  {
    if agents != [] {
      var init, last := agents[..|agents| - 1], agents[|agents| - 1];
      RoleLinesOfBlocks(init);
      FilterAppend(AgentBlocks(init), AgentBlock(last.0, last.1), RolePrefix);
      var role := RolePrefix + Role(last.0, last.1);
      assert StartsWith(role, RolePrefix);
      var goal := last.1.goal.GetOr("");
      if goal != "" {
        Clash(GoalPrefix + goal, GoalPrefix, RolePrefix, 0);
        FilterAppend([role], [GoalPrefix + goal], RolePrefix);
        assert Filter([GoalPrefix + goal], RolePrefix) == [];
      }
      assert Filter(AgentBlock(last.0, last.1), RolePrefix) == [role];
      assert RoleLines(agents) == RoleLines(init) + [role];
    }
  }

  lemma {:induction false} GoalLinesOfBlocks(agents: seq<(string, CrewConfig.AgentConfig)>)
    ensures Filter(AgentBlocks(agents), GoalPrefix) == GoalLines(agents)
  {
    if agents != [] {
      var init, last := agents[..|agents| - 1], agents[|agents| - 1];
      GoalLinesOfBlocks(init);
      FilterAppend(AgentBlocks(init), AgentBlock(last.0, last.1), GoalPrefix);
      var role := RolePrefix + Role(last.0, last.1);
      Clash(role, RolePrefix, GoalPrefix, 0);
      var goal := last.1.goal.GetOr("");
      if goal != "" {
        assert StartsWith(GoalPrefix + goal, GoalPrefix);
        FilterAppend([role], [GoalPrefix + goal], GoalPrefix);
        assert Filter([GoalPrefix + goal], GoalPrefix) == [GoalPrefix + goal];
      }
      assert Filter([role], GoalPrefix) == [];
    }
  }

  /** Every agent contributes its role heading (its key when it has no role),
      in the agents' iteration order, and nothing else in the prompt looks like one. */
  lemma RolesInOrder(c: CrewConfig.Crew)
    ensures Filter(PromptParts(c), RolePrefix) == RoleLines(c.agents)
  {
    PrefixChars();
    var q := RolePrefix;
    NoneInPurpose(c, q, 0);
    Clash(TasksHeading, TasksHeading, q, 2);
    NoneInTasks(c.tasks, q, 1);
    assert Filter(CapabilityParts(c.agents), q) == RoleLines(c.agents) by {
      if c.agents != [] {
        Clash(CapabilitiesHeading, CapabilitiesHeading, q, 2);
        assert Filter([CapabilitiesHeading], q) == [];
        FilterAppend([CapabilitiesHeading], AgentBlocks(c.agents), q);
        RoleLinesOfBlocks(c.agents);
      }
    }
    SectionSum(c, q, [], RoleLines(c.agents), []);
    assert [] + RoleLines(c.agents) + [] == RoleLines(c.agents);
  }

  /** A goal line appears for exactly the agents with a non-empty goal, in order. */
  lemma GoalsInOrder(c: CrewConfig.Crew)
    ensures Filter(PromptParts(c), GoalPrefix) == GoalLines(c.agents)
  {
    PrefixChars();
    var q := GoalPrefix;
    NoneInPurpose(c, q, 0);
    Clash(TasksHeading, TasksHeading, q, 0);
    NoneInTasks(c.tasks, q, 0);
    assert Filter(CapabilityParts(c.agents), q) == GoalLines(c.agents) by {
      if c.agents != [] {
        Clash(CapabilitiesHeading, CapabilitiesHeading, q, 0);
        assert Filter([CapabilitiesHeading], q) == [];
        FilterAppend([CapabilitiesHeading], AgentBlocks(c.agents), q);
        GoalLinesOfBlocks(c.agents);
      }
    }
    SectionSum(c, q, [], GoalLines(c.agents), []);
    assert [] + GoalLines(c.agents) + [] == GoalLines(c.agents);
  }

  lemma {:induction false} FilterAll(parts: seq<string>, prefix: string)
    requires forall i :: 0 <= i < |parts| ==> StartsWith(parts[i], prefix)
    ensures Filter(parts, prefix) == parts
  {
    if parts != [] {
      FilterAll(parts[..|parts| - 1], prefix);
    }
  }

  /** The task summary lines are exactly those of the tasks with a description,
      in the tasks' iteration order. */
  lemma TaskSummariesInOrder(c: CrewConfig.Crew)
    ensures Filter(PromptParts(c), TaskPrefix) == TaskLines(c.tasks)
  {
    PrefixChars();
    var q := TaskPrefix;
    NoneInPurpose(c, q, 0);
    Clash(CapabilitiesHeading, CapabilitiesHeading, q, 1);
    NoneInCapabilities(c.agents, q, 1, 0);
    assert Filter(TaskParts(c.tasks), q) == TaskLines(c.tasks) by {
      if c.tasks != [] {
        Clash(TasksHeading, TasksHeading, q, 1);
        assert Filter([TasksHeading], q) == [];
        FilterAppend([TasksHeading], TaskLines(c.tasks), q);
        TaskLinesShape(c.tasks);
        FilterAll(TaskLines(c.tasks), q);
      }
    }
    SectionSum(c, q, [], [], TaskLines(c.tasks));
    assert [] + [] + TaskLines(c.tasks) == TaskLines(c.tasks);
  }

  /** A task without a description contributes no line. A task with one
      contributes `"\n- " + name + ": "`, then at most 200 characters of the
      description, then `"..."`, whatever the description's length: the kept
      text is a prefix of the description, the whole of it exactly when it has
      at most 200 characters, and otherwise its first 200. */
  lemma TaskSummary(name: string, cfg: CrewConfig.TaskConfig)
    ensures cfg.description.GetOr("") == "" ==> TaskLine(name, cfg) == []
    ensures cfg.description.GetOr("") != "" ==>
      var d, line, head := cfg.description.value, TaskLine(name, cfg), TaskPrefix + name + ": ";
      && |line| == 1
      && StartsWith(line[0], head)
      && EndsWith(line[0], Ellipsis)
      && |head| + |Ellipsis| <= |line[0]|
      && var kept := line[0][|head|..|line[0]| - |Ellipsis|];
         && |kept| <= DescriptionLimit
         && StartsWith(d, kept)
         && (kept == d <==> |d| <= DescriptionLimit)
         && (|d| > DescriptionLimit ==> |kept| == DescriptionLimit)
  {
    var d := cfg.description.GetOr("");
    if d != "" {
      var head := TaskPrefix + name + ": ";
      var t := Take(d, DescriptionLimit);
      var l := head + t + Ellipsis;
      assert TaskLine(name, cfg) == [l];
      assert l[..|head|] == head;
      assert l[|l| - |Ellipsis|..] == Ellipsis;
      assert l[|head|..|l| - |Ellipsis|] == t;
    }
  }

  /** Without line breaks in its fields, an isolated agent's prompt splits at
      "\n" into exactly its five lines: role sentence, blank, goal, blank, background. */
  lemma AgentPromptFields(cfg: CrewConfig.AgentConfig)
    requires '\n' !in cfg.role.GetOr(DefaultRole)
    requires '\n' !in cfg.goal.GetOr("")
    requires '\n' !in cfg.backstory.GetOr("")
    ensures Split(AgentPrompt(cfg), '\n') == AgentPromptLines(cfg)
  {
    var r, g, b := cfg.role.GetOr(DefaultRole), cfg.goal.GetOr(""), cfg.backstory.GetOr("");
    var lines := AgentPromptLines(cfg);
    JoinFive(lines[0], lines[1], lines[2], lines[3], lines[4], "\n");
    AgentPromptGlue(r, g, b);
    assert Join(lines, "\n") == AgentPrompt(cfg);
    LinesHaveNoBreak(r, g, b);
    SplitJoin(lines, '\n');
  }

  lemma JoinFive(a: string, b: string, c: string, d: string, e: string, sep: string)
    ensures Join([a, b, c, d, e], sep) == a + sep + b + sep + c + sep + d + sep + e
  {
    assert [a, b, c, d, e][1..] == [b, c, d, e];
    assert [b, c, d, e][1..] == [c, d, e];
    assert [c, d, e][1..] == [d, e];
    assert [d, e][1..] == [e];
    assert Join([d, e], sep) == d + sep + e;
    assert Join([c, d, e], sep) == c + sep + (d + sep + e);
    assert Join([b, c, d, e], sep) == b + sep + (c + sep + (d + sep + e));
    assert a + sep + b + sep + c + sep + d + sep + e == a + sep + (b + sep + (c + sep + (d + sep + e)));
  }

  /** The f-string's literal pieces are the lines' text around "\n" separators. */
  lemma AgentPromptGlue(r: string, g: string, b: string)
    ensures "You are a " + r + ".\n\nGoal: " + g + "\n\nBackground: " + b
         == ("You are a " + r + ".") + "\n" + "" + "\n" + ("Goal: " + g) + "\n" + "" + "\n" + ("Background: " + b)
  {
    assert ".\n\nGoal: " == "." + "\n" + "" + "\n" + "Goal: ";
    assert "\n\nBackground: " == "\n" + "" + "\n" + "Background: ";
  }

  lemma LinesHaveNoBreak(r: string, g: string, b: string)
    requires '\n' !in r && '\n' !in g && '\n' !in b
    ensures var lines := ["You are a " + r + ".", "", "Goal: " + g, "", "Background: " + b];
      forall i :: 0 <= i < |lines| ==> '\n' !in lines[i]
  {
    assert '\n' !in "You are a " && '\n' !in "." && '\n' !in "Goal: " && '\n' !in "Background: ";
  }

  /** Every part the prompt is joined from occurs in the prompt text. */
  lemma PartsInPrompt(c: CrewConfig.Crew)
    ensures forall i :: 0 <= i < |PromptParts(c)| ==> Contains(SystemPrompt(c), PromptParts(c)[i])
  {
    forall i | 0 <= i < |PromptParts(c)| ensures Contains(SystemPrompt(c), PromptParts(c)[i]) {
      JoinContainsPart(PromptParts(c), "\n", i);
    }
  }

  /** In the prompt text itself: with agents the capabilities heading occurs,
      with tasks the tasks heading occurs, and every role heading, goal line
      and task summary line occurs. (The converse does not hold for the text:
      user-supplied descriptions, roles and goals may themselves contain
      these markers.) */
  lemma HeadingsInPromptText(c: CrewConfig.Crew)
    ensures c.agents != [] ==> Contains(SystemPrompt(c), CapabilitiesHeading)
    ensures c.tasks != [] ==> Contains(SystemPrompt(c), TasksHeading)
    ensures forall i :: 0 <= i < |RoleLines(c.agents)| ==> Contains(SystemPrompt(c), RoleLines(c.agents)[i])
    ensures forall i :: 0 <= i < |GoalLines(c.agents)| ==> Contains(SystemPrompt(c), GoalLines(c.agents)[i])
    ensures forall i :: 0 <= i < |TaskLines(c.tasks)| ==> Contains(SystemPrompt(c), TaskLines(c.tasks)[i])
  {
    var parts := PromptParts(c);
    var p, caps := |PurposeParts(c)|, |CapabilityParts(c.agents)|;
    PartsInPrompt(c);
    if c.agents != [] {
      assert parts[p] == CapabilitiesHeading;
    }
    if c.tasks != [] {
      assert parts[p + caps] == TasksHeading;
    }
    forall i | 0 <= i < |RoleLines(c.agents)| ensures Contains(SystemPrompt(c), RoleLines(c.agents)[i]) {
      RolesInOrder(c);
      FilteredIsPart(parts, RolePrefix, i);
    }
    forall i | 0 <= i < |GoalLines(c.agents)| ensures Contains(SystemPrompt(c), GoalLines(c.agents)[i]) {
      GoalsInOrder(c);
      FilteredIsPart(parts, GoalPrefix, i);
    }
    forall i | 0 <= i < |TaskLines(c.tasks)| ensures Contains(SystemPrompt(c), TaskLines(c.tasks)[i]) {
      TaskSummariesInOrder(c);
      FilteredIsPart(parts, TaskPrefix, i);
    }
  }

  /** Every element of a filtered list is an element of the list. */
  lemma {:induction false} FilteredIsPart(parts: seq<string>, prefix: string, i: nat)
    requires i < |Filter(parts, prefix)|
    ensures exists j :: 0 <= j < |parts| && parts[j] == Filter(parts, prefix)[i]
  {
    var init := parts[..|parts| - 1];
    if i < |Filter(init, prefix)| {
      FilteredIsPart(init, prefix, i);
      var j :| 0 <= j < |init| && init[j] == Filter(init, prefix)[i];
      assert parts[j] == init[j];
    } else {
      assert parts[|parts| - 1] == Filter(parts, prefix)[i];
    }
  }

  /** Why the heading and line lemmas speak of parts: a description holding a
      bullet makes the text contain the task-line marker although no task
      line was emitted. */
  lemma MarkerInDescription()
    ensures var c := CrewConfig.Crew(None, Some("a\n- b"), [], [], [], None, None, None, None);
      && Filter(PromptParts(c), TaskPrefix) == []
      && Contains(SystemPrompt(c), TaskPrefix)
  {
    var c := CrewConfig.Crew(None, Some("a\n- b"), [], [], [], None, None, None, None);
    var text := PurposeHeading + "a\n- b";
    assert PromptParts(c) == [text];
    PrefixChars();
    assert !StartsWith(text, TaskPrefix) by { assert text[0] == '#'; }
    assert Filter([text], TaskPrefix) == [] by {
      var one: seq<string> := [text];
      assert one[..0] == [];
    }
    assert SystemPrompt(c) == text;
    assert |text| == 20;
    assert text[16..] == "\n- b";
    assert StartsWith(text[16..], TaskPrefix) by {
      assert text[16..][..3] == TaskPrefix;
    }
  }
}
