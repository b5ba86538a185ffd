/** The `SkillManager` facade (skill_manager/facades/skill_manager.py): a registry of loaded
    skills keyed by name, and the entry points that hand it to the services. */
module Facade {
  import opened Wrappers
  import opened Errors
  import opened Values
  import opened Dicts
  import opened FileTree
  import opened Skills
  import opened Messages
  import opened LlmBackend
  import opened SkillLoader
  import opened SkillMatcher
  import opened PromptBuilder
  import opened SkillExecutor

  /** Every skill is stored under its own name. */
  predicate KeyedByName(d: Dict<string, Skill>)
  {
    forall k :: k in d.entries ==> d.entries[k].metadata.name == k
  }

  /** `for skill in skills: registry[skill.metadata.name] = skill` */
  function PutAll(d: Dict<string, Skill>, ss: seq<Skill>): (r: Dict<string, Skill>)
    requires d.Valid()
    ensures r.Valid()
    ensures KeyedByName(d) ==> KeyedByName(r)
    decreases |ss|
  {
    if ss == [] then d
    else
      var last := ss[|ss| - 1];
      PutAll(d, ss[..|ss| - 1]).Put(last.metadata.name, last)
  }

  /** After the inserts, a name holds the last inserted skill of that name, and every other
      name holds what it held before. */
  lemma {:induction false} PutAllLookup(d: Dict<string, Skill>, ss: seq<Skill>, k: string)
    requires d.Valid()
    ensures PutAll(d, ss).Get(k) == if SkillNamed(ss, k).Some? then SkillNamed(ss, k) else d.Get(k)
    decreases |ss|
  {
    if ss != [] {
      PutAllLookup(d, ss[..|ss| - 1], k);
    }
  }

  lemma PutKeyed(d: Dict<string, Skill>, s: Skill)
    requires d.Valid() && KeyedByName(d)
    ensures KeyedByName(d.Put(s.metadata.name, s))
  {
  }

  lemma PutAllSnoc(d: Dict<string, Skill>, ss: seq<Skill>, i: nat)
    requires d.Valid() && i < |ss|
    ensures PutAll(d, ss[..i + 1]) == PutAll(d, ss[..i]).Put(ss[i].metadata.name, ss[i])
  {
    assert ss[..i + 1][..i] == ss[..i];
  }

  lemma {:induction false} PutAllConcat(d: Dict<string, Skill>, a: seq<Skill>, b: seq<Skill>)
    requires d.Valid()
    ensures PutAll(d, a + b) == PutAll(PutAll(d, a), b)
    decreases |b|
  {
    if b == [] {
      assert a + b == a;
    } else {
      assert (a + b)[..|a + b| - 1] == a + b[..|b| - 1];
      PutAllConcat(d, a, b[..|b| - 1]);
    }
  }

  /** `DEFAULT_SKILL_DIRS`, as written and as path segments. */
  const DefaultSkillDirs: seq<(string, seq<string>)> := [("skills", ["skills"]), (".claude/skills", [".claude", "skills"])]

  /** What one default directory contributes: its skills when it exists and is a directory. */
  function DefaultDirSkills(cwd: Node, dir: (string, seq<string>), yaml: YamlLoad): seq<Skill>
  {
    match Resolve(cwd, dir.1)
    case Some(Dir(es)) => LoadAll(dir.0, es, yaml)
    case _ => []
  }

  /** What each directory of `dirs` contributes, in order. */
  function DirResults(cwd: Node, dirs: seq<(string, seq<string>)>, yaml: YamlLoad): (parts: seq<seq<Skill>>)
    ensures |parts| == |dirs|
    ensures forall i :: 0 <= i < |dirs| ==> parts[i] == DefaultDirSkills(cwd, dirs[i], yaml)
  {
    seq(|dirs|, i requires 0 <= i < |dirs| => DefaultDirSkills(cwd, dirs[i], yaml))
  }

  /** The parts, one after the other, as `loaded.extend(part)` builds them. */
  function Flatten<T>(parts: seq<seq<T>>): seq<T>
    decreases |parts|
  {
    if parts == [] then [] else Flatten(parts[..|parts| - 1]) + parts[|parts| - 1]
  }

  lemma FlattenStep<T>(parts: seq<seq<T>>, i: nat)
    requires i < |parts|
    ensures Flatten(parts[..i + 1]) == Flatten(parts[..i]) + parts[i]
  {
    assert parts[..i + 1][..i] == parts[..i];
  }

  lemma FlattenPair<T>(parts: seq<seq<T>>)
    requires |parts| == 2
    ensures Flatten(parts) == parts[0] + parts[1]
  {
    FlattenStep(parts, 0);
    FlattenStep(parts, 1);
    assert parts[..0] == [] && parts[..2] == parts;
  }

  /** The skills `load_default_skills` returns for the directories `dirs`. */
  function DefaultLoaded(cwd: Node, dirs: seq<(string, seq<string>)>, yaml: YamlLoad): seq<Skill>
  {
    Flatten(DirResults(cwd, dirs, yaml))
  }

  /** The default load is the skills of `skills/` followed by those of `.claude/skills/`; a
      missing directory, or one that is a file, contributes nothing. */
  lemma DefaultLoadedShape(cwd: Node, yaml: YamlLoad)
    ensures DefaultLoaded(cwd, DefaultSkillDirs, yaml) ==
      DefaultDirSkills(cwd, ("skills", ["skills"]), yaml) + DefaultDirSkills(cwd, (".claude/skills", [".claude", "skills"]), yaml)
    ensures forall d :: d in DefaultSkillDirs && (Resolve(cwd, d.1).None? || Resolve(cwd, d.1).value.File?) ==>
      DefaultDirSkills(cwd, d, yaml) == []
  {
    FlattenPair(DirResults(cwd, DefaultSkillDirs, yaml));
  }

  /** History dicts as turns: each is read as `Message(MessageRole(d["role"]), d["content"])`,
      and the first failure raises. */
  function ConvertHistory(hs: seq<WireMessage>): (r: Result<seq<Message>, Error>)
    ensures r.Ok? ==> |r.value| == |hs| && forall i :: 0 <= i < |hs| ==> FromDict(hs[i]) == Ok(r.value[i])
    ensures r.Err? ==>
      exists i :: 0 <= i < |hs| && FromDict(hs[i]) == Err(r.error) && forall j :: 0 <= j < i ==> FromDict(hs[j]).Ok?
    decreases |hs|
  {
    if hs == [] then Ok([])
    else
      var n := |hs| - 1;
      var init :- ConvertHistory(hs[..n]);
      assert forall j :: 0 <= j < n ==> hs[..n][j] == hs[j];
      var last :- FromDict(hs[n]);
      Ok(init + [last])
  }

  /** The history argument the executor receives: None for an empty list. */
  function HistoryArgument(hs: seq<WireMessage>): (r: Result<Option<seq<Message>>, Error>)
    ensures hs == [] ==> r == Ok(None)
    ensures hs != [] && r.Ok? ==> r.value.Some? && ConvertHistory(hs) == Ok(r.value.value)
    ensures hs != [] ==> (r.Ok? <==> ConvertHistory(hs).Ok?)
    ensures hs != [] && r.Err? ==> r.error == ConvertHistory(hs).error
  {
    if hs == [] then Ok(None)
    else
      var ms :- ConvertHistory(hs);
      Ok(Some(ms))
  }

  /** History written by `to_dict` converts back to the same turns. */
  lemma {:induction false} ConvertHistoryRoundTrip(ms: seq<Message>)
    ensures ConvertHistory(WireMessages(ms)) == Ok(ms)
    decreases |ms|
  {
    if ms != [] {
      var n := |ms| - 1;
      assert WireMessages(ms)[..n] == WireMessages(ms[..n]);
      ConvertHistoryRoundTrip(ms[..n]);
      FromDictToDict(ms[n]);
      LastSplit(ms);
    }
  }

  lemma LastSplit<T>(s: seq<T>)
    requires s != []
    ensures s[..|s| - 1] + [s[|s| - 1]] == s
  {
  }

  class SkillManager {
    /** `_skills`, in insertion order. */
    var skills: Dict<string, Skill>
    const matcher: Matcher
    const builder: Builder
    const executor: Executor
    /** The YAML parser of the filesystem loader. */
    const yaml: YamlLoad

    ghost predicate Valid()
      reads this
    {
      skills.Valid() && KeyedByName(skills)
    }

    /** The keyword matchers the facade's queries read, besides the facade itself. */
    function Footprint(): set<object>
      reads this
    {
      SkillExecutor.Footprint(executor) + (if matcher.Keyword? then {matcher.exact} else {})
    }

    /** `SkillManager(loader, matcher, prompt_builder, executor, auto_load)`, with `cwd` the tree
        the default directories are looked up in. */
    constructor (yaml: YamlLoad, matcher: Option<Matcher>, builder: Option<Builder>, executor: Option<Executor>,
                 autoLoad: bool, cwd: Node)
      ensures Valid()
      ensures this.matcher == (if matcher.Some? then matcher.value else Semantic)
      ensures this.builder == (if builder.Some? then builder.value else SystemPromptBuilder)
      ensures this.executor == (if executor.Some? then executor.value else PromptExecutor(this.matcher, this.builder))
      ensures this.yaml == yaml
      ensures !autoLoad ==> skills == Empty()
      ensures autoLoad ==> skills == PutAll(Empty(), DefaultLoaded(cwd, DefaultSkillDirs, yaml))
    {
      this.yaml := yaml;
      var m := if matcher.Some? then matcher.value else Semantic;
      var b := if builder.Some? then builder.value else SystemPromptBuilder;
      this.matcher := m;
      this.builder := b;
      this.executor := if executor.Some? then executor.value else PromptExecutor(m, b);
      skills := Empty();
      new;
      if autoLoad {
        var _ := LoadDefaultSkills(cwd);
      }
    }

    /** `load_default_skills()`: every existing default directory is loaded in turn. */
    method LoadDefaultSkills(cwd: Node) returns (loaded: seq<Skill>)
      requires Valid()
      modifies this
      ensures Valid()
      ensures loaded == DefaultLoaded(cwd, DefaultSkillDirs, yaml)
      ensures skills == PutAll(old(skills), loaded)
    {
      loaded := LoadDirectories(cwd, DefaultSkillDirs);
    }

    /** The loop of `load_default_skills` over a list of directories: each one that exists and
        is a directory is loaded, in order. */
    method LoadDirectories(cwd: Node, dirs: seq<(string, seq<string>)>) returns (loaded: seq<Skill>)
      requires Valid()
      modifies this
      ensures Valid()
      ensures loaded == DefaultLoaded(cwd, dirs, yaml)
      ensures skills == PutAll(old(skills), loaded)
    {
      loaded := [];
      ghost var parts := DirResults(cwd, dirs, yaml);
      var i := 0;
      while i < |dirs|
        invariant 0 <= i <= |dirs|
        invariant Valid()
        invariant loaded == Flatten(parts[..i])
        invariant skills == PutAll(old(skills), loaded)
      {
        FlattenStep(parts, i);
        var found := LoadDirectory(cwd, dirs[i]);
        PutAllConcat(old(skills), loaded, found);
        loaded := loaded + found;
        i := i + 1;
      }
      assert parts[..|dirs|] == parts;
    }

    /** One pass of that loop: the directory is loaded when it exists and is a directory. */
    method LoadDirectory(cwd: Node, dir: (string, seq<string>)) returns (found: seq<Skill>)
      requires Valid()
      modifies this
      ensures Valid()
      ensures found == DefaultDirSkills(cwd, dir, yaml)
      ensures skills == PutAll(old(skills), found)
    {
      found := [];
      var node := Resolve(cwd, dir.1);
      if node.Some? && node.value.Dir? {
        var r := LoadSkillsFromDirectory(dir.0, node);
        if r.Ok? {
          found := r.value;
        }
      }
    }

    /** `load_skill(skill_dir)`: the skill is stored under its name, replacing a skill of the
        same name in place; nothing changes when loading raises. */
    method LoadSkill(path: string, node: Option<Node>) returns (r: Result<Skill, Error>)
      requires Valid()
      modifies this
      ensures Valid()
      ensures r == LoadSkillSpec(path, node, yaml)
      ensures r.Ok? ==> skills == old(skills).Put(r.value.metadata.name, r.value)
      ensures r.Err? ==> skills == old(skills)
    {
      r := SkillLoader.LoadSkill(path, node, yaml);
      if r.Ok? {
        var skill := r.value;
        PutKeyed(skills, skill);
        skills := skills.Put(skill.metadata.name, skill);
      }
    }

    /** `load_skills_from_directory(base_dir)`: the loaded skills are stored in order, so a later
        skill replaces an earlier one of the same name. */
    method LoadSkillsFromDirectory(basePath: string, base: Option<Node>) returns (r: Result<seq<Skill>, Error>)
      requires Valid()
      modifies this
      ensures Valid()
      ensures r == LoadSkillsFromDirectorySpec(basePath, base, yaml)
      ensures r.Ok? ==> skills == PutAll(old(skills), r.value)
      ensures r.Err? ==> skills == old(skills)
    {
      r := SkillLoader.LoadSkillsFromDirectory(basePath, base, yaml);
      if r.Ok? {
        StoreAll(r.value);
      }
    }

    /** `for skill in skills: self._skills[skill.metadata.name] = skill` */
    method StoreAll(loaded: seq<Skill>)
      requires Valid()
      modifies this
      ensures Valid()
      ensures skills == PutAll(old(skills), loaded)
    {
      var i := 0;
      while i < |loaded|
        invariant 0 <= i <= |loaded|
        invariant Valid()
        invariant skills == PutAll(old(skills), loaded[..i])
      {
        var skill := loaded[i];
        PutAllSnoc(old(skills), loaded, i);
        skills := skills.Put(skill.metadata.name, skill);
        i := i + 1;
      }
      assert loaded[..|loaded|] == loaded;
    }

    /** `get_skill(name)` */
    function GetSkill(name: string): (r: Option<Skill>)
      requires Valid()
      reads this
      ensures r.Some? <==> name in skills.entries
      ensures r.Some? ==> r.value == skills.entries[name] && r.value.metadata.name == name
    {
      skills.Get(name)
    }

    /** `list(self._skills.values())` */
    function AllSkills(): (ss: seq<Skill>)
      requires Valid()
      reads this
      ensures |ss| == |skills.keys|
      ensures forall i :: 0 <= i < |ss| ==> ss[i] == skills.entries[skills.keys[i]]
    {
      skills.Values()
    }

    /** `list_skills()`: one metadata per stored name, in insertion order. */
    function ListSkills(): (ms: seq<SkillMetadata>)
      requires Valid()
      reads this
      ensures |ms| == |skills.keys|
      ensures forall i :: 0 <= i < |ms| ==> ms[i] == skills.entries[skills.keys[i]].metadata
      ensures forall i :: 0 <= i < |ms| ==> ms[i].name == skills.keys[i]
    {
      var all := AllSkills();
      seq(|all|, i requires 0 <= i < |all| => all[i].metadata)
    }

    /** `execute(...)`: the history dicts become turns (None when there are none), and the
        executor receives every stored skill. */
    function Execute(userInput: string, backend: Backend, autoMatch: bool, skillName: Option<string>,
                     includeReferences: bool, history: seq<WireMessage>): (run: Run<string>)
      requires Valid()
      reads this, Footprint()
      ensures HistoryArgument(history).Err? ==> run == Run(Err(HistoryArgument(history).error), [])
      ensures HistoryArgument(history).Ok? ==>
        run == SkillExecutor.Execute(executor, userInput, backend, AllSkills(), HistoryArgument(history).value,
                                     autoMatch, skillName, includeReferences)
    {
      match HistoryArgument(history)
      case Err(e) => Run(Err(e), [])
      case Ok(h) => SkillExecutor.Execute(executor, userInput, backend, AllSkills(), h, autoMatch, skillName, includeReferences)
    }

    /** `execute_with_tools(...)`: one call with the tool-call prompt, one tool per stored skill
        followed by the additional tools. */
    function ExecuteWithTools(userInput: string, backend: Backend, additionalTools: seq<Value>,
                              history: seq<WireMessage>): (run: Run<string>)
      requires Valid()
      reads this
      ensures HistoryArgument(history).Err? ==> run == Run(Err(HistoryArgument(history).error), [])
      ensures HistoryArgument(history).Ok? ==>
        && |run.calls| == 1
        && run.calls[0].systemPrompt == Some(ToolCallSystemPrompt)
        && run.calls[0].tools == Some(BuildToolsDefinition(AllSkills()) + additionalTools)
        && run.calls[0].messages == WireMessages(BuildMessages(userInput, HistoryArgument(history).value))
        && run.result == backend(run.calls[0])
    {
      match HistoryArgument(history)
      case Err(e) => Run(Err(e), [])
      case Ok(h) =>
        var all := AllSkills();
        var request := Request(
          WireMessages(BuildMessages(userInput, h)),
          BuildSystemPrompt(ToolCallPromptBuilder, None, all, false),
          Some(BuildToolsDefinition(all) + additionalTools));
        Run(backend(request), [request])
    }

    /** `get_skills_system_prompt()`: the catalogue prompt, or "" when the builder gives none. */
    function GetSkillsSystemPrompt(): (p: string)
      requires Valid()
      reads this
      ensures BuildSystemPrompt(builder, None, AllSkills(), false).None? ==> p == ""
      ensures BuildSystemPrompt(builder, None, AllSkills(), false).Some? ==>
        p == BuildSystemPrompt(builder, None, AllSkills(), false).value
    {
      match BuildSystemPrompt(builder, None, AllSkills(), false)
      case None => ""
      case Some(prompt) => prompt
    }

    /** `match_skill(user_input, backend)` */
    function MatchSkill(userInput: string, backend: Backend): (run: Run<Option<Skill>>)
      requires Valid()
      reads this, Footprint()
      ensures run == MatchWith(matcher, userInput, AllSkills(), backend)
    {
      MatchWith(matcher, userInput, AllSkills(), backend)
    }
  }

  /** The registry after a batch load: a name maps to the last loaded skill of that name, and
      names not loaded keep their skill. */
  lemma RegistryAfterBatch(before: Dict<string, Skill>, loaded: seq<Skill>, name: string)
    requires before.Valid()
    ensures var after := PutAll(before, loaded);
      && (SkillNamed(loaded, name).Some? ==> after.Get(name) == SkillNamed(loaded, name))
      && (SkillNamed(loaded, name).None? ==> after.Get(name) == before.Get(name))
  {
    PutAllLookup(before, loaded, name);
  }

  /** Stored names are listed once each. */
  lemma ListSkillsDistinct(m: SkillManager)
    requires m.Valid()
    ensures forall i, j :: 0 <= i < j < |m.ListSkills()| ==> m.ListSkills()[i].name != m.ListSkills()[j].name
  {
  }

  /** With no stored skills the default builder's prompt is empty. */
  lemma EmptyRegistryPrompt(m: SkillManager)
    requires m.Valid() && m.builder.SystemPromptBuilder? && m.skills.keys == []
    ensures m.GetSkillsSystemPrompt() == ""
  {
  }
}
