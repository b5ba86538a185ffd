/** Executors (skill_manager/core/services/skill_executor.py): choose a skill, build the prompt
    and the messages, and make the completion call. */
module SkillExecutor {
  import opened Wrappers
  import opened Errors
  import opened Values
  import opened Skills
  import opened Messages
  import opened LlmBackend
  import opened SkillMatcher
  import opened PromptBuilder

  /** `SkillExecutor(matcher, prompt_builder)` or `ToolCallExecutor(prompt_builder)`. */
  datatype Executor =
    | PromptExecutor(matcher: Matcher, builder: Builder)
    | ToolExecutor(builder: Builder)

  /** The objects an executor reads: the keyword matcher's keyword lists, if it has one. */
  function Footprint(executor: Executor): set<object>
  {
    if executor.PromptExecutor? && executor.matcher.Keyword? then {executor.matcher.exact} else {}
  }

  /** Python's truthiness of an optional string. */
  predicate NonEmpty(name: Option<string>)
  {
    name.Some? && name.value != ""
  }

  /** `_select_skill`: a non-empty name is looked up among the candidates, without the matcher;
      otherwise the matcher decides when `auto_match` is set. */
  function SelectSkill(matcher: Matcher, userInput: string, skills: seq<Skill>, backend: Backend,
                       autoMatch: bool, skillName: Option<string>): (run: Run<Option<Skill>>)
    reads if matcher.Keyword? then {matcher.exact} else {}
    ensures NonEmpty(skillName) ==> run.calls == []
    ensures NonEmpty(skillName) && run.result.Ok? ==>
      run.result.value.Some? && run.result.value.value in skills &&
      run.result.value.value.metadata.name == skillName.value
    ensures NonEmpty(skillName) && run.result.Err? ==>
      run.result.error == ValueError("Skill not found: " + skillName.value) &&
      forall s :: s in skills ==> s.metadata.name != skillName.value
    ensures !NonEmpty(skillName) && !autoMatch ==> run == Run(Ok(None), [])
    ensures !NonEmpty(skillName) && autoMatch ==> run == MatchWith(matcher, userInput, skills, backend)
  {
    if NonEmpty(skillName) then
      match SkillNamed(skills, skillName.value)
      case None => Run(Err(ValueError("Skill not found: " + skillName.value)), [])
      case Some(skill) => Run(Ok(Some(skill)), [])
    else if autoMatch then MatchWith(matcher, userInput, skills, backend)
    else Run(Ok(None), [])
  }

  /** An explicit name decides the selection alone: the matcher, the backend and `auto_match`
      make no difference. */
  lemma ExplicitNameWins(m1: Matcher, m2: Matcher, userInput: string, skills: seq<Skill>,
                         b1: Backend, b2: Backend, a1: bool, a2: bool, skillName: Option<string>)
    requires NonEmpty(skillName)
    ensures SelectSkill(m1, userInput, skills, b1, a1, skillName) == SelectSkill(m2, userInput, skills, b2, a2, skillName)
    ensures SelectSkill(m1, userInput, skills, b1, a1, skillName).result ==
      match SkillNamed(skills, skillName.value)
      case None => Err(ValueError("Skill not found: " + skillName.value))
      case Some(s) => Ok(Some(s))
  {
  }

  /** `[m.to_llm_format() for m in messages]` */
  function WireMessages(ms: seq<Message>): (ws: seq<WireMessage>)
    ensures |ws| == |ms|
    ensures forall i :: 0 <= i < |ms| ==> ws[i] == ToLlmFormat(ms[i])
  {
    seq(|ms|, i requires 0 <= i < |ms| => ToLlmFormat(ms[i]))
  }

  /** The completion request once the skill is chosen. */
  function CompletionRequest(builder: Builder, skill: Option<Skill>, skills: seq<Skill>, userInput: string,
                             history: Option<seq<Message>>, includeReferences: bool, tools: Option<seq<Value>>): Request
  {
    Request(
      WireMessages(BuildMessages(userInput, history)),
      BuildSystemPrompt(builder, skill, skills, includeReferences),
      tools)
  }

  /** The turns sent are the history in order and then the user's input. */
  lemma CompletionMessages(builder: Builder, skill: Option<Skill>, skills: seq<Skill>, userInput: string,
                           history: Option<seq<Message>>, includeReferences: bool, tools: Option<seq<Value>>)
    ensures var h := if history.Some? then history.value else [];
      var ms := CompletionRequest(builder, skill, skills, userInput, history, includeReferences, tools).messages;
      && |ms| == |h| + 1
      && (forall i :: 0 <= i < |h| ==> ms[i] == Messages.ToDict(h[i]))
      && ms[|h|] == map["role" := "user", "content" := userInput]
  {
    var h := if history.Some? then history.value else [];
    var built := BuildMessages(userInput, history);
    assert forall i :: 0 <= i < |h| ==> built[i] == built[..|h|][i];
  }

  /** The tools a tool-call executor passes: only a builder with `build_tools_definition` has any. */
  function ToolsFor(builder: Builder, skills: seq<Skill>): (tools: Option<seq<Value>>)
    ensures tools.Some? <==> builder.ToolCallPromptBuilder?
  {
    if builder.ToolCallPromptBuilder? then Some(BuildToolsDefinition(skills)) else None
  }

  /** `executor.execute(user_input, backend, skills, history, auto_match, skill_name,
      include_references)` */
  function Execute(executor: Executor, userInput: string, backend: Backend, skills: seq<Skill>,
                   history: Option<seq<Message>>, autoMatch: bool, skillName: Option<string>,
                   includeReferences: bool): (run: Run<string>)
    reads Footprint(executor)
    ensures run.result.Ok? ==> |run.calls| >= 1 && run.result == backend(run.calls[|run.calls| - 1])
  {
    match executor
    case PromptExecutor(matcher, builder) =>
      var selection := SelectSkill(matcher, userInput, skills, backend, autoMatch, skillName);
      if selection.result.Err? then Run(Err(selection.result.error), selection.calls)
      else
        var request := CompletionRequest(builder, selection.result.value, skills, userInput, history, includeReferences, None);
        Run(backend(request), selection.calls + [request])
    case ToolExecutor(builder) =>
      var request := CompletionRequest(builder, None, skills, userInput, history, includeReferences, ToolsFor(builder, skills));
      Run(backend(request), [request])
  }

  /** `SkillExecutor.execute`: after the selection's own calls, exactly one completion call with
      the selected skill's prompt and no tools, whose text is returned unchanged; an unknown
      explicit name raises before any call. */
  lemma PromptExecutorCalls(matcher: Matcher, builder: Builder, userInput: string, backend: Backend, skills: seq<Skill>,
                            history: Option<seq<Message>>, autoMatch: bool, skillName: Option<string>, includeReferences: bool)
    ensures var sel := SelectSkill(matcher, userInput, skills, backend, autoMatch, skillName);
      var run := Execute(PromptExecutor(matcher, builder), userInput, backend, skills, history, autoMatch, skillName, includeReferences);
      && (sel.result.Err? ==> run == Run(Err(sel.result.error), sel.calls))
      && (sel.result.Ok? ==>
            var request := CompletionRequest(builder, sel.result.value, skills, userInput, history, includeReferences, None);
            && run.calls == sel.calls + [request]
            && request.tools.None?
            && request.systemPrompt == BuildSystemPrompt(builder, sel.result.value, skills, includeReferences)
            && run.result == backend(request))
    ensures NonEmpty(skillName) && SkillNamed(skills, skillName.value).None? ==>
      Execute(PromptExecutor(matcher, builder), userInput, backend, skills, history, autoMatch, skillName, includeReferences)
        == Run(Err(ValueError("Skill not found: " + skillName.value)), [])
    ensures matcher.Keyword? || NonEmpty(skillName) || !autoMatch || skills == [] ==>
      |Execute(PromptExecutor(matcher, builder), userInput, backend, skills, history, autoMatch, skillName, includeReferences).calls| <= 1
  {
  }

  /** `ToolCallExecutor.execute`: one call; the prompt is built with no skill, `auto_match` and
      `skill_name` are ignored, and tools are passed only by a builder that defines them. */
  lemma ToolExecutorCalls(builder: Builder, userInput: string, backend: Backend, skills: seq<Skill>,
                          history: Option<seq<Message>>, a1: bool, a2: bool, n1: Option<string>, n2: Option<string>,
                          includeReferences: bool)
    ensures var run := Execute(ToolExecutor(builder), userInput, backend, skills, history, a1, n1, includeReferences);
      && run == Execute(ToolExecutor(builder), userInput, backend, skills, history, a2, n2, includeReferences)
      && |run.calls| == 1
      && run.calls[0].systemPrompt == BuildSystemPrompt(builder, None, skills, includeReferences)
      && (builder.ToolCallPromptBuilder? ==> run.calls[0].tools == Some(BuildToolsDefinition(skills)))
      && (builder.SystemPromptBuilder? ==> run.calls[0].tools.None?)
      && run.result == backend(run.calls[0])
  {
  }
}
