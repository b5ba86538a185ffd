/** Prompt builders (skill_manager/core/services/prompt_builder.py): the system prompt, the
    message list and the tool definitions handed to the backend. */
module PromptBuilder {
  import opened Wrappers
  import opened Text
  import opened Values
  import opened Dicts
  import opened Skills
  import opened Messages

  /** The two builders. Only the tool-call builder has `build_tools_definition`. */
  datatype Builder = SystemPromptBuilder | ToolCallPromptBuilder

  // ---------------------------------------------------------------- messages

  /** `build_messages(user_input, history)`: a fresh list holding the history (None and an empty
      list alike give none) and then the new user turn. */
  function BuildMessages(userInput: string, history: Option<seq<Message>>): (ms: seq<Message>)
    ensures var h := if history.Some? then history.value else [];
      && |ms| == |h| + 1
      && ms[..|h|] == h
      && ms[|h|] == Message(User, userInput)
  {
    var h := if history.Some? then history.value else [];
    h + [Message(User, userInput)]
  }

  // ---------------------------------------------------------------- skill prompt

  const ReferencesHeader := "\n\n# Reference Documents\n"

  /** One `\n## {name}\n{content}` part per reference. */
  function ReferenceParts(refs: seq<SkillReference>): (parts: seq<string>)
    ensures |parts| == |refs|
    ensures forall i :: 0 <= i < |refs| ==> parts[i] == "\n## " + refs[i].name + "\n" + refs[i].content
  {
    seq(|refs|, i requires 0 <= i < |refs| => "\n## " + refs[i].name + "\n" + refs[i].content)
  }

  /** Whether the reference section is emitted: asked for, and the reference dict is non-empty. */
  predicate ShowsReferences(skill: Skill, includeReferences: bool)
  {
    includeReferences && skill.references.keys != []
  }

  /** The parts `_build_skill_prompt` joins. */
  function SkillPromptParts(skill: Skill, includeReferences: bool): seq<string>
  {
    ["# Active Skill: " + skill.metadata.name + "\n", skill.instructions]
      + (if ShowsReferences(skill, includeReferences)
         then [ReferencesHeader] + ReferenceParts(skill.references.Values())
         else [])
  }

  /** `_build_skill_prompt(skill, include_references)` */
  function BuildSkillPrompt(skill: Skill, includeReferences: bool): string
  {
    Join("\n", SkillPromptParts(skill, includeReferences))
  }

  lemma JoinCons(sep: string, a: string, rest: seq<string>)
    requires rest != []
    ensures Join(sep, [a] + rest) == a + sep + Join(sep, rest)
  {
    JoinConcat(sep, [a], rest);
  }

  /** Without references the prompt is the header line, an empty line and the instructions. */
  lemma SkillPromptWithoutReferences(skill: Skill, includeReferences: bool)
    requires !ShowsReferences(skill, includeReferences)
    ensures BuildSkillPrompt(skill, includeReferences) ==
      "# Active Skill: " + skill.metadata.name + "\n" + "\n" + skill.instructions
  {
    var parts := SkillPromptParts(skill, includeReferences);
    assert parts == ["# Active Skill: " + skill.metadata.name + "\n", skill.instructions];
    assert parts[..1] == ["# Active Skill: " + skill.metadata.name + "\n"];
    assert Join("\n", parts[..1]) == "# Active Skill: " + skill.metadata.name + "\n";
  }

  /** With references the header and instructions are followed by the reference section and then
      each reference, in dict order, all separated by newlines. */
  lemma SkillPromptWithReferences(skill: Skill, includeReferences: bool)
    requires ShowsReferences(skill, includeReferences)
    ensures BuildSkillPrompt(skill, includeReferences) ==
      "# Active Skill: " + skill.metadata.name + "\n" + "\n" + skill.instructions + "\n"
        + Join("\n", [ReferencesHeader] + ReferenceParts(skill.references.Values()))
  {
    var head := "# Active Skill: " + skill.metadata.name + "\n";
    var tail := [ReferencesHeader] + ReferenceParts(skill.references.Values());
    assert SkillPromptParts(skill, includeReferences) == [head, skill.instructions] + tail;
    JoinConcat("\n", [head, skill.instructions], tail);
    assert [head, skill.instructions][..1] == [head];
  }

  /** Every stored reference's name and content appear in a prompt built with references. */
  lemma SkillPromptMentionsReference(skill: Skill, includeReferences: bool, key: string)
    requires skill.Valid() && ShowsReferences(skill, includeReferences)
    requires key in skill.references.entries
    ensures var ref := skill.references.entries[key];
      Contains(BuildSkillPrompt(skill, includeReferences), "\n## " + ref.name + "\n" + ref.content)
  {
    var vs := skill.references.Values();
    var i :| 0 <= i < |skill.references.keys| && skill.references.keys[i] == key;
    assert vs[i] == skill.references.entries[key];
    var pre := ["# Active Skill: " + skill.metadata.name + "\n", skill.instructions, ReferencesHeader];
    PartsWithReferences(skill, includeReferences);
    JoinContainsLaterPart("\n", pre, ReferenceParts(vs), i);
  }

  lemma PartsWithReferences(skill: Skill, includeReferences: bool)
    requires ShowsReferences(skill, includeReferences)
    ensures SkillPromptParts(skill, includeReferences) ==
      ["# Active Skill: " + skill.metadata.name + "\n", skill.instructions, ReferencesHeader]
        + ReferenceParts(skill.references.Values())
  {
  }

  lemma JoinContainsLaterPart(sep: string, pre: seq<string>, rest: seq<string>, i: nat)
    requires i < |rest|
    ensures Contains(Join(sep, pre + rest), rest[i])
  {
    assert (pre + rest)[|pre| + i] == rest[i];
    JoinContainsPart(sep, pre + rest, |pre| + i);
  }

  // ---------------------------------------------------------------- skill catalogue

  const CatalogHeader := "# Available Skills\n"
  const CatalogIntro := "The following skills are available. Use them when relevant:\n"
  const CatalogClosing := "\nTo use a skill, identify which one is most relevant to the task."

  /** One `- **name**: description` line per skill. */
  function CatalogEntries(skills: seq<Skill>): (lines: seq<string>)
    ensures |lines| == |skills|
    ensures forall i :: 0 <= i < |skills| ==>
      lines[i] == "- **" + skills[i].metadata.name + "**: " + skills[i].metadata.description
  {
    seq(|skills|, i requires 0 <= i < |skills| =>
      "- **" + skills[i].metadata.name + "**: " + skills[i].metadata.description)
  }

  /** `_build_available_skills_prompt(skills)` */
  function BuildAvailableSkillsPrompt(skills: seq<Skill>): (p: Option<string>)
    ensures p.None? <==> skills == []
  {
    if skills == [] then None
    else Some(Join("\n", [CatalogHeader, CatalogIntro] + CatalogEntries(skills) + [CatalogClosing]))
  }

  /** The catalogue is the header, the directive line, the skill lines and the closing sentence,
      separated by newlines; it names every skill with its description. */
  lemma CatalogShape(skills: seq<Skill>, i: nat)
    requires i < |skills|
    ensures BuildAvailableSkillsPrompt(skills) == Some(
      CatalogHeader + "\n" + CatalogIntro + "\n" + Join("\n", CatalogEntries(skills)) + "\n" + CatalogClosing)
    ensures Contains(BuildAvailableSkillsPrompt(skills).value,
                     "- **" + skills[i].metadata.name + "**: " + skills[i].metadata.description)
  {
    var entries := CatalogEntries(skills);
    var all := [CatalogHeader, CatalogIntro] + entries + [CatalogClosing];
    JoinConcat("\n", [CatalogHeader, CatalogIntro] + entries, [CatalogClosing]);
    JoinConcat("\n", [CatalogHeader, CatalogIntro], entries);
    assert [CatalogHeader, CatalogIntro][..1] == [CatalogHeader];
    assert Join("\n", [CatalogClosing]) == CatalogClosing;
    assert all[2 + i] == entries[i];
    JoinContainsPart("\n", all, 2 + i);
  }

  // ---------------------------------------------------------------- system prompt

  const ToolCallSystemPrompt :=
    "You have access to specialized skills that can help with specific tasks.\n"
    + "When a skill is relevant to the user's request, activate it using the corresponding function.\n"
    + "If no skill is needed, respond directly."

  /** `builder.build_system_prompt(skill, all_skills, include_references)` */
  function BuildSystemPrompt(builder: Builder, skill: Option<Skill>, allSkills: seq<Skill>, includeReferences: bool): (p: Option<string>)
    ensures builder.ToolCallPromptBuilder? ==> p == Some(ToolCallSystemPrompt)
    ensures builder.SystemPromptBuilder? && skill.Some? ==> p == Some(BuildSkillPrompt(skill.value, includeReferences))
    ensures builder.SystemPromptBuilder? && skill.None? ==> p == BuildAvailableSkillsPrompt(allSkills)
  {
    match builder
    case ToolCallPromptBuilder => Some(ToolCallSystemPrompt)
    case SystemPromptBuilder =>
      if skill.Some? then Some(BuildSkillPrompt(skill.value, includeReferences))
      else BuildAvailableSkillsPrompt(allSkills)
  }

  /** Once a skill is selected the other skills have no influence on the prompt, and the
      tool-call builder ignores all of its inputs. */
  lemma SystemPromptIndependence(builder: Builder, skill: Option<Skill>, skills1: seq<Skill>, skills2: seq<Skill>, refs1: bool, refs2: bool)
    ensures skill.Some? ==>
      BuildSystemPrompt(builder, skill, skills1, refs1) == BuildSystemPrompt(builder, skill, skills2, refs1)
    ensures builder.ToolCallPromptBuilder? ==>
      BuildSystemPrompt(builder, skill, skills1, refs1) == BuildSystemPrompt(builder, None, skills2, refs2)
  {
  }

  /** A system prompt is missing only when no skill is selected and there are none to list. */
  lemma SystemPromptAbsent(builder: Builder, skill: Option<Skill>, allSkills: seq<Skill>, includeReferences: bool)
    ensures BuildSystemPrompt(builder, skill, allSkills, includeReferences).None? <==>
      builder.SystemPromptBuilder? && skill.None? && allSkills == []
  {
  }

  // ---------------------------------------------------------------- tools

  const ToolPrefix := "activate_skill_"

  /** `f"activate_skill_{name.replace('-', '_')}"` */
  function ToolName(skillName: string): (t: string)
    ensures |t| == |ToolPrefix| + |skillName| && t[..|ToolPrefix|] == ToolPrefix
    ensures '-' !in t
  {
    var r := ReplaceChar(skillName, '-', '_');
    assert forall i :: 0 <= i < |r| ==> r[i] != '-';
    ToolPrefix + r
  }

  /** The skill name a tool name stands for, for names without `_` (every valid skill name). */
  function SkillNameOfTool(toolName: string): string
    requires |toolName| >= |ToolPrefix|
  {
    ReplaceChar(toolName[|ToolPrefix|..], '_', '-')
  }

  /** A skill name without `_` is recovered from its tool name, so distinct valid skills get
      distinct tool names. */
  lemma ToolNameRoundTrip(skillName: string)
    requires '_' !in skillName
    ensures SkillNameOfTool(ToolName(skillName)) == skillName
  {
    var t := ToolName(skillName);
    assert t[|ToolPrefix|..] == ReplaceChar(skillName, '-', '_');
  }

  /** The tool entry for one skill. */
  function ToolDefinition(skill: Skill): Value
  {
    Map(map[
      "type" := Str("function"),
      "function" := Map(map[
        "name" := Str(ToolName(skill.metadata.name)),
        "description" := Str(skill.metadata.description),
        "parameters" := Map(map[
          "type" := Str("object"),
          "properties" := Map(map[]),
          "required" := List([])])])])
  }

  /** `build_tools_definition(skills)`: one entry per skill, in order. */
  function BuildToolsDefinition(skills: seq<Skill>): (tools: seq<Value>)
    ensures |tools| == |skills|
    ensures forall i :: 0 <= i < |skills| ==> tools[i] == ToolDefinition(skills[i])
  {
    seq(|skills|, i requires 0 <= i < |skills| => ToolDefinition(skills[i]))
  }

  /** The tool list names each skill in turn: the skill is recovered from the name of its tool,
      so skills with different names (and no `_`) never share a tool name. */
  lemma ToolsNameTheirSkills(skills: seq<Skill>)
    requires forall i :: 0 <= i < |skills| ==> '_' !in skills[i].metadata.name
    ensures var tools := BuildToolsDefinition(skills);
      forall i :: 0 <= i < |skills| ==>
        && tools[i].Map? && "function" in tools[i].fields && tools[i].fields["function"].Map?
        && "name" in tools[i].fields["function"].fields
        && var name := tools[i].fields["function"].fields["name"];
        && name.Str? && |name.s| >= |ToolPrefix|
        && SkillNameOfTool(name.s) == skills[i].metadata.name
    ensures forall i, j ::
      0 <= i < |skills| && 0 <= j < |skills| && skills[i].metadata.name != skills[j].metadata.name ==>
        ToolName(skills[i].metadata.name) != ToolName(skills[j].metadata.name)
  {
    forall i | 0 <= i < |skills|
      ensures SkillNameOfTool(ToolName(skills[i].metadata.name)) == skills[i].metadata.name
    {
      ToolNameRoundTrip(skills[i].metadata.name);
    }
  }

  /** Each tool is a function named after its skill with no hyphen, described by the skill's
      description, taking no parameters. */
  lemma ToolDefinitionFields(skill: Skill)
    ensures var t := ToolDefinition(skill);
      && t.Map? && t.fields["type"] == Str("function")
      && var f := t.fields["function"];
      && f.Map? && f.fields.Keys == {"name", "description", "parameters"}
      && f.fields["name"].Str? && '-' !in f.fields["name"].s
      && f.fields["name"].s[|ToolPrefix|..] == ReplaceChar(skill.metadata.name, '-', '_')
      && f.fields["description"] == Str(skill.metadata.description)
      && f.fields["parameters"].Map?
      && f.fields["parameters"].fields["properties"] == Map(map[])
      && f.fields["parameters"].fields["required"] == List([])
  {
  }
}
