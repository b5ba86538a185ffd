/** `FilesystemSkillLoader` (skill_manager/core/services/skill_loader.py): parse SKILL.md, collect
    scripts, references and assets, and load every skill below a directory. */
module SkillLoader {
  import opened Wrappers
  import opened Text
  import opened Values
  import opened Errors
  import opened Dicts
  import opened FileTree
  import opened Skills
  import opened Frontmatter

  /** `yaml.safe_load`: the parsed document, or None where the parser raises. */
  type YamlLoad = string -> Option<Value>

  /** The frontmatter keys `SkillMetadata` has a field for. */
  const KnownFields: set<string> :=
    {"name", "description", "license", "version", "author", "allowed-tools", "allowed_tools",
     "compatibility", "metadata"}

  const MaxNameLength := 64
  const MaxDescriptionLength := 1024

  // ---------------------------------------------------------------- name and description rules

  predicate IsNameChar(c: char)
  {
    ('a' <= c <= 'z') || ('0' <= c <= '9')
  }

  /** `[a-z0-9][a-z0-9-]*[a-z0-9]` or `[a-z0-9]`, as a whole string. */
  predicate IsSkillName(s: string)
  {
    && |s| >= 1
    && IsNameChar(s[0])
    && IsNameChar(s[|s| - 1])
    && forall i :: 0 < i < |s| - 1 ==> IsNameChar(s[i]) || s[i] == '-'
  }

  /** `re.match(r'^[a-z0-9][a-z0-9-]*[a-z0-9]$|^[a-z0-9]$', s)`: Python's `$` also matches just
      before a final newline. */
  predicate NameMatches(s: string)
  {
    IsSkillName(s) || (|s| >= 1 && s[|s| - 1] == '\n' && IsSkillName(s[..|s| - 1]))
  }

  /** The Python type name used in the interpreter's own error messages. */
  function TypeName(v: Value): string
  {
    match v
    case Null => "NoneType"
    case Bool(_) => "bool"
    case Int(_) => "int"
    case Float(_) => "float"
    case Str(_) => "str"
    case List(_) => "list"
    case Map(_) => "dict"
  }

  /** The checks on `data['name']`, in the source's order: length, then the pattern. */
  function CheckName(v: Value): (r: Result<string, Error>)
    ensures r.Ok? <==> v.Str? && |v.s| <= MaxNameLength && NameMatches(v.s)
    ensures r.Ok? ==> r.value == v.s
    ensures v.Str? && |v.s| > MaxNameLength ==> r == Err(ValueError("name must be <= 64 characters"))
    ensures v.Str? && |v.s| <= MaxNameLength && !NameMatches(v.s) ==>
      r == Err(ValueError("name must be lowercase letters, numbers, and hyphens only"))
  {
    match LenOf(v)
    case None => Err(TypeError("object of type '" + TypeName(v) + "' has no len()"))
    case Some(n) =>
      if n > MaxNameLength then Err(ValueError("name must be <= 64 characters"))
      else if !v.Str? then Err(TypeError("expected string or bytes-like object, got '" + TypeName(v) + "'"))
      else if !NameMatches(v.s) then Err(ValueError("name must be lowercase letters, numbers, and hyphens only"))
      else Ok(v.s)
  }

  /** The source's check on `data['description']`: only `len(description) > 1024` is tested, so
      a list or mapping of at most 1024 items passes. */
  predicate DescriptionAcceptedAsWritten(v: Value)
  {
    LenOf(v).Some? && LenOf(v).value <= MaxDescriptionLength
  }

  /** The description check with the `str` type that `SkillMetadata.description` declares: the
      length check of the source, and a non-string description rejected like the other ill-typed
      values. */
  function CheckDescription(v: Value): (r: Result<string, Error>)
    ensures r.Ok? <==> v.Str? && |v.s| <= MaxDescriptionLength
    ensures r.Ok? ==> r.value == v.s
    ensures v.Str? && |v.s| > MaxDescriptionLength ==>
      r == Err(ValueError("description must be <= 1024 characters"))
  {
    match LenOf(v)
    case None => Err(TypeError("object of type '" + TypeName(v) + "' has no len()"))
    case Some(n) =>
      if n > MaxDescriptionLength then Err(ValueError("description must be <= 1024 characters"))
      else if !v.Str? then Err(TypeError("description must be a string"))
      else Ok(v.s)
  }

  /** The two checks differ exactly on lists and mappings of at most 1024 items. */
  lemma DescriptionCheckDiffers(v: Value)
    ensures CheckDescription(v).Ok? <==> DescriptionAcceptedAsWritten(v) && v.Str?
    ensures DescriptionAcceptedAsWritten(List([Str("a"), Str("b")]))
    ensures CheckDescription(List([Str("a"), Str("b")])).Err?
  {
  }

  // ---------------------------------------------------------------- metadata

  /** Top-level keys outside the known fields. */
  function ExtraFields(data: map<string, Value>): (extra: map<string, Value>)
    ensures extra.Keys == data.Keys - KnownFields
    ensures forall k :: k in extra ==> extra[k] == data[k]
  {
    map k | k in data && k !in KnownFields :: data[k]
  }

  /** `{**nested, **extra}`: the nested `metadata` map overlaid by the unknown top-level keys. */
  function MergeMetadata(nested: map<string, Value>, data: map<string, Value>): (m: map<string, Value>)
    ensures m.Keys == nested.Keys + (data.Keys - KnownFields)
    ensures forall k :: k in data && k !in KnownFields ==> m[k] == data[k]
    ensures forall k :: k in nested && (k !in data || k in KnownFields) ==> m[k] == nested[k]
  {
    nested + ExtraFields(data)
  }

  /** What `_parse_content` returns: the metadata and the instruction body. */
  datatype Parsed = Parsed(metadata: SkillMetadata, instructions: string)

  /** The field checks and the metadata merge of `_parse_content`, on the parsed mapping. */
  function ParseFields(data: map<string, Value>, body: string): (r: Result<Parsed, Error>)
    ensures "name" !in data ==> r == Err(ValueError("Missing required field: name"))
    ensures "name" in data && "description" !in data ==>
      r == Err(ValueError("Missing required field: description"))
    ensures r.Ok? ==>
      && "name" in data && data["name"] == Str(r.value.metadata.name)
      && "description" in data && data["description"] == Str(r.value.metadata.description)
      && |r.value.metadata.name| <= MaxNameLength && NameMatches(r.value.metadata.name)
      && |r.value.metadata.description| <= MaxDescriptionLength
      && r.value.instructions == body
  {
    if "name" !in data then Err(ValueError("Missing required field: name"))
    else if "description" !in data then Err(ValueError("Missing required field: description"))
    else
      var name :- CheckName(data["name"]);
      var description :- CheckDescription(data["description"]);
      var top := GetOrNull(data, "version");
      var topAuthor := GetOrNull(data, "author");
      var nested := if "metadata" in data then data["metadata"] else Map(map[]);
      if !nested.Map? then
        // `.get` on a non-dict runs first unless both top-level values are truthy,
        // after which `{**nested}` fails
        if Truthy(top) && Truthy(topAuthor) then
          Err(TypeError("'" + TypeName(nested) + "' object is not a mapping"))
        else
          Err(AttributeError("'" + TypeName(nested) + "' object has no attribute 'get'"))
      else
        var metadata := SkillMetadata(
          name,
          description,
          GetOrNull(data, "license"),
          Or(top, GetOrNull(nested.fields, "version")),
          Or(topAuthor, GetOrNull(nested.fields, "author")),
          Or(GetOrNull(data, "allowed-tools"), GetOrNull(data, "allowed_tools")),
          GetOrNull(data, "compatibility"),
          MergeMetadata(nested.fields, data));
        Ok(Parsed(metadata, body))
  }

  /** `_parse_content(content)` with the YAML parser given. */
  function ParseContent(content: string, yaml: YamlLoad): (r: Result<Parsed, Error>)
    ensures MatchFrontmatter(content).None? ==>
      r == Err(ValueError("Invalid SKILL.md format: missing YAML frontmatter"))
    ensures r.Ok? ==>
      && |r.value.metadata.name| <= MaxNameLength && NameMatches(r.value.metadata.name)
      && |r.value.metadata.description| <= MaxDescriptionLength
    ensures r.Ok? ==> r.value.instructions == Strip(MatchFrontmatter(content).value.rest)
  {
    match MatchFrontmatter(content)
    case None => Err(ValueError("Invalid SKILL.md format: missing YAML frontmatter"))
    case Some(m) =>
      match yaml(m.block)
      case None => Err(YamlError)
      case Some(data) =>
        if !data.Map? then Err(ValueError("Invalid YAML frontmatter"))
        else ParseFields(data.fields, Strip(m.rest))
  }

  /** The instruction body is the text after the first closing fence, stripped; a block that is
      not a mapping, or lacks `name` or `description`, is a ValueError. */
  lemma ParseContentStructure(content: string, yaml: YamlLoad)
    requires MatchFrontmatter(content).Some?
    ensures var m := MatchFrontmatter(content).value;
      && (yaml(m.block).None? ==> ParseContent(content, yaml) == Err(YamlError))
      && (yaml(m.block).Some? && !yaml(m.block).value.Map? ==>
            ParseContent(content, yaml) == Err(ValueError("Invalid YAML frontmatter")))
      && (yaml(m.block).Some? && yaml(m.block).value.Map? ==>
            ParseContent(content, yaml) == ParseFields(yaml(m.block).value.fields, Strip(m.rest)))
    ensures ParseContent(content, yaml).Ok? ==>
      var m := MatchFrontmatter(content).value;
      ParseContent(content, yaml).value.instructions == Strip(content[m.close + 4..])
  {
    RestIsTailAfterFence(content);
  }

  /** Which value each optional field takes: `version` and `author` the top-level value when it
      is truthy and the nested one otherwise, `allowed-tools` before `allowed_tools`; the
      extension map is the nested map overlaid by the unknown top-level keys, and a known key
      is never copied from the top level. */
  lemma ParsePrecedence(data: map<string, Value>, body: string)
    requires ParseFields(data, body).Ok?
    ensures var m := ParseFields(data, body).value.metadata;
      var nested := if "metadata" in data then data["metadata"].fields else map[];
      && ("metadata" in data ==> data["metadata"].Map?)
      && m.license == GetOrNull(data, "license")
      && m.compatibility == GetOrNull(data, "compatibility")
      && (Truthy(GetOrNull(data, "version")) ==> m.version == data["version"])
      && (!Truthy(GetOrNull(data, "version")) ==> m.version == GetOrNull(nested, "version"))
      && (Truthy(GetOrNull(data, "author")) ==> m.author == data["author"])
      && (!Truthy(GetOrNull(data, "author")) ==> m.author == GetOrNull(nested, "author"))
      && (Truthy(GetOrNull(data, "allowed-tools")) ==> m.allowedTools == data["allowed-tools"])
      && (!Truthy(GetOrNull(data, "allowed-tools")) ==> m.allowedTools == GetOrNull(data, "allowed_tools"))
      && m.metadata.Keys == nested.Keys + (data.Keys - KnownFields)
      && (forall k :: k in data && k !in KnownFields ==> m.metadata[k] == data[k])
      && (forall k :: k in KnownFields && k in m.metadata ==> k in nested && m.metadata[k] == nested[k])
  {
  }

  /** The source's `$` lets one trailing newline through: `"a\n"` is an accepted name. */
  lemma TrailingNewlineAccepted()
    ensures CheckName(Str("a\n")) == Ok("a\n")
    ensures CheckName(Str("skill-name\n")).Ok?
  {
    assert "a\n"[..1] == "a";
    assert "skill-name\n"[..10] == "skill-name";
  }

  /** Sample names: `a`, `a1-b2` and `skill-name` pass; `Skill`, `-abc`, the empty
      string and a 65-character name fail. */
  lemma NameExamples(long: string)
    requires |long| == 65
    ensures CheckName(Str("a")).Ok? && CheckName(Str("a1-b2")).Ok? && CheckName(Str("skill-name")).Ok?
    ensures CheckName(Str("Skill")).Err? && CheckName(Str("-abc")).Err? && CheckName(Str("")).Err?
    ensures CheckName(Str(long)) == Err(ValueError("name must be <= 64 characters"))
  {
    assert !IsNameChar('S');
    assert !IsNameChar('-');
    assert !("Skill"[4] == '\n');
    assert !("-abc"[3] == '\n');
  }

  // ---------------------------------------------------------------- filesystem errors

  function NoSuchFile(path: string): Error
  {
    FileNotFoundError("[Errno 2] No such file or directory: '" + path + "'")
  }

  function NotADirectory(path: string): Error
  {
    OSError("[Errno 20] Not a directory: '" + path + "'")
  }

  function IsADirectory(path: string): Error
  {
    OSError("[Errno 21] Is a directory: '" + path + "'")
  }

  // ---------------------------------------------------------------- scripts

  /** `language_map.get(suffix.lower(), 'unknown')` */
  function LanguageOf(fileName: string): (lang: string)
    ensures Lower(Suffix(fileName)) == ".py" ==> lang == "python"
    ensures Lower(Suffix(fileName)) == ".sh" ==> lang == "bash"
    ensures Lower(Suffix(fileName)) == ".js" ==> lang == "javascript"
    ensures Lower(Suffix(fileName)) !in {".py", ".sh", ".js"} ==> lang == "unknown"
  {
    var ext := Lower(Suffix(fileName));
    if ext == ".py" then "python"
    else if ext == ".sh" then "bash"
    else if ext == ".js" then "javascript"
    else "unknown"
  }

  /** The suffix decides the language whatever its case; a name with no suffix, or one that
      only starts with a dot, is `unknown`. */
  lemma LanguageExamples()
    ensures LanguageOf("run.py") == "python" && LanguageOf("build.SH") == "bash"
    ensures LanguageOf("app.Js") == "javascript" && LanguageOf("notes.md") == "unknown"
    ensures LanguageOf(".py") == "unknown" && LanguageOf("Makefile") == "unknown"
  {
    assert LastDot("run.py") == 3;
    assert LastDot("build.SH") == 5;
    assert Lower("build.SH"[5..]) == ".sh";
    assert LastDot("app.Js") == 3;
    assert Lower("app.Js"[3..]) == ".js";
    assert LastDot("notes.md") == 5;
    assert LastDot(".py") == 0;
    assert LastDot("Makefile") == -1;
  }

  /** The `SkillScript` for a regular file of `scripts/`. */
  function ScriptOf(dirPath: string, e: Entry): (sc: SkillScript)
    requires e.node.File?
    ensures sc.name + Suffix(e.name) == e.name
    ensures sc.content == e.node.content && sc.path == PathJoin(dirPath, e.name)
    ensures sc.language == LanguageOf(e.name)
  {
    StemSuffix(e.name);
    SkillScript(Stem(e.name), e.node.content, PathJoin(dirPath, e.name), LanguageOf(e.name))
  }

  /** The dict the loop of `_load_scripts` has built after the entries `es`. */
  function CollectScripts(dirPath: string, es: seq<Entry>): (d: Dict<string, SkillScript>)
    ensures d.Valid()
    decreases |es|
  {
    if es == [] then Empty()
    else
      var d := CollectScripts(dirPath, es[..|es| - 1]);
      var e := es[|es| - 1];
      if e.node.File? then d.Put(e.name, ScriptOf(dirPath, e)) else d
  }

  /** `i` is the last regular file in `es` called `k`. */
  predicate LastFileNamed(es: seq<Entry>, i: int, k: string)
  {
    && 0 <= i < |es| && es[i].node.File? && es[i].name == k
    && forall j :: i < j < |es| && es[j].node.File? ==> es[j].name != k
  }

  lemma LastFileExtend(es: seq<Entry>, i: int, k: string)
    requires |es| > 0 && LastFileNamed(es[..|es| - 1], i, k)
    requires !(es[|es| - 1].node.File? && es[|es| - 1].name == k)
    ensures LastFileNamed(es, i, k)
  {
    var pre := es[..|es| - 1];
    assert pre[i] == es[i];
    forall j | i < j < |es| && es[j].node.File? ensures es[j].name != k {
      if j < |pre| {
        assert pre[j] == es[j];
      }
    }
  }

  /** One script per regular file, keyed by its file name; directories are skipped. */
  lemma {:induction false} ScriptsCollected(dirPath: string, es: seq<Entry>, k: string)
    ensures k in CollectScripts(dirPath, es).entries <==>
      exists i :: 0 <= i < |es| && es[i].node.File? && es[i].name == k
    decreases |es|
  {
    if es != [] {
      var n := |es| - 1;
      ScriptsCollected(dirPath, es[..n], k);
      assert forall i :: 0 <= i < n ==> es[..n][i] == es[i];
    }
  }

  /** The script stored under a name is the one built from the last regular file of that name. */
  lemma {:induction false} ScriptsLastWins(dirPath: string, es: seq<Entry>, k: string)
    requires k in CollectScripts(dirPath, es).entries
    ensures exists i :: LastFileNamed(es, i, k) && CollectScripts(dirPath, es).entries[k] == ScriptOf(dirPath, es[i])
    decreases |es|
  {
    var n := |es| - 1;
    var pre := es[..n];
    if es[n].node.File? && es[n].name == k {
      assert LastFileNamed(es, n, k);
    } else {
      var d := CollectScripts(dirPath, pre);
      assert CollectScripts(dirPath, es).entries[k] == d.entries[k];
      ScriptsLastWins(dirPath, pre, k);
      var i :| LastFileNamed(pre, i, k) && d.entries[k] == ScriptOf(dirPath, pre[i]);
      LastFileExtend(es, i, k);
    }
  }

  /** What `_load_scripts` returns, or raises. */
  function ScriptsOf(skillPath: string, skillDir: seq<Entry>): (r: Result<Dict<string, SkillScript>, Error>)
    ensures Lookup(skillDir, "scripts").None? ==> r == Ok(Empty())
    ensures r.Ok? ==> r.value.Valid()
  {
    var dirPath := PathJoin(skillPath, "scripts");
    match Lookup(skillDir, "scripts")
    case None => Ok(Empty())
    case Some(File(_)) => Err(NotADirectory(dirPath))
    case Some(Dir(es)) => Ok(CollectScripts(dirPath, es))
  }

  lemma CollectScriptsStep(dirPath: string, es: seq<Entry>, i: nat)
    requires i < |es|
    ensures var d := CollectScripts(dirPath, es[..i]);
      CollectScripts(dirPath, es[..i + 1]) == if es[i].node.File? then d.Put(es[i].name, ScriptOf(dirPath, es[i])) else d
  {
    assert es[..i + 1][..i] == es[..i];
  }

  /** `_load_scripts(skill_dir)` */
  method LoadScripts(skillPath: string, skillDir: seq<Entry>) returns (r: Result<Dict<string, SkillScript>, Error>)
    ensures r == ScriptsOf(skillPath, skillDir)
  {
    var dirPath := PathJoin(skillPath, "scripts");
    match Lookup(skillDir, "scripts") {
      case None =>
        return Ok(Empty());
      case Some(File(_)) =>
        return Err(NotADirectory(dirPath));
      case Some(Dir(es)) =>
        var scripts := Empty();
        var i := 0;
        while i < |es|
          invariant 0 <= i <= |es|
          invariant scripts == CollectScripts(dirPath, es[..i])
        {
          var e := es[i];
          CollectScriptsStep(dirPath, es, i);
          if e.node.File? {
            scripts := scripts.Put(e.name, ScriptOf(dirPath, e));
          }
          i := i + 1;
        }
        assert es[..|es|] == es;
        return Ok(scripts);
    }
  }

  // ---------------------------------------------------------------- references

  /** `path.suffix.lower() == '.md'` */
  predicate IsMarkdown(name: string)
  {
    Lower(Suffix(name)) == ".md"
  }

  predicate IsReferenceFile(e: Entry)
  {
    e.node.File? && IsMarkdown(e.name)
  }

  function ReferenceOf(dirPath: string, e: Entry): (ref: SkillReference)
    requires e.node.File?
    ensures ref.name + Suffix(e.name) == e.name
    ensures ref.content == e.node.content && ref.path == PathJoin(dirPath, e.name)
  {
    StemSuffix(e.name);
    SkillReference(Stem(e.name), e.node.content, PathJoin(dirPath, e.name))
  }

  /** The dict the first loop of `_load_references` has built after the entries `es` of
      `references/`. */
  function CollectReferences(dirPath: string, es: seq<Entry>): (d: Dict<string, SkillReference>)
    ensures d.Valid()
    decreases |es|
  {
    if es == [] then Empty()
    else
      var d := CollectReferences(dirPath, es[..|es| - 1]);
      var e := es[|es| - 1];
      if IsReferenceFile(e) then d.Put(e.name, ReferenceOf(dirPath, e)) else d
  }

  /** `i` is the last Markdown file in `es` called `k`. */
  predicate LastReferenceNamed(es: seq<Entry>, i: int, k: string)
  {
    && 0 <= i < |es| && IsReferenceFile(es[i]) && es[i].name == k
    && forall j :: i < j < |es| && IsReferenceFile(es[j]) ==> es[j].name != k
  }

  lemma LastReferenceExtend(es: seq<Entry>, i: int, k: string)
    requires |es| > 0 && LastReferenceNamed(es[..|es| - 1], i, k)
    requires !(IsReferenceFile(es[|es| - 1]) && es[|es| - 1].name == k)
    ensures LastReferenceNamed(es, i, k)
  {
    var pre := es[..|es| - 1];
    assert pre[i] == es[i];
    forall j | i < j < |es| && IsReferenceFile(es[j]) ensures es[j].name != k {
      if j < |pre| {
        assert pre[j] == es[j];
      }
    }
  }

  /** Every regular `.md` file of `references/` (any case of the suffix), keyed by file name. */
  lemma ReferencesCollected(dirPath: string, es: seq<Entry>, k: string)
    ensures k in CollectReferences(dirPath, es).entries <==>
      exists i :: 0 <= i < |es| && IsReferenceFile(es[i]) && es[i].name == k
  {
    if k in CollectReferences(dirPath, es).entries {
      CollectedFromFile(dirPath, es, k);
    } else {
      forall i | 0 <= i < |es| && IsReferenceFile(es[i]) && es[i].name == k
        ensures k in CollectReferences(dirPath, es).entries
      {
        FileCollected(dirPath, es, i);
      }
    }
  }

  lemma {:induction false} CollectedFromFile(dirPath: string, es: seq<Entry>, k: string)
    requires k in CollectReferences(dirPath, es).entries
    ensures exists i :: 0 <= i < |es| && IsReferenceFile(es[i]) && es[i].name == k
    decreases |es|
  {
    var n := |es| - 1;
    var pre := es[..n];
    CollectReferencesKeys(dirPath, es);
    if k in CollectReferences(dirPath, pre).entries {
      CollectedFromFile(dirPath, pre, k);
      var i :| 0 <= i < n && IsReferenceFile(pre[i]) && pre[i].name == k;
      assert es[i] == pre[i];
    } else {
      assert IsReferenceFile(es[n]) && es[n].name == k;
    }
  }

  lemma {:induction false} FileCollected(dirPath: string, es: seq<Entry>, i: nat)
    requires i < |es| && IsReferenceFile(es[i])
    ensures es[i].name in CollectReferences(dirPath, es).entries
    decreases |es|
  {
    var n := |es| - 1;
    CollectReferencesKeys(dirPath, es);
    if i < n {
      FileCollected(dirPath, es[..n], i);
    }
  }

  /** One step of the first loop adds at most the name of the entry it reads. */
  lemma CollectReferencesKeys(dirPath: string, es: seq<Entry>)
    requires es != []
    ensures var n := |es| - 1;
      CollectReferences(dirPath, es).entries.Keys ==
        CollectReferences(dirPath, es[..n]).entries.Keys + (if IsReferenceFile(es[n]) then {es[n].name} else {})
  {
  }

  /** The reference stored under a name is built from the last Markdown file of that name. */
  lemma {:induction false} ReferencesLastWins(dirPath: string, es: seq<Entry>, k: string)
    requires k in CollectReferences(dirPath, es).entries
    ensures exists i ::
      LastReferenceNamed(es, i, k) && CollectReferences(dirPath, es).entries[k] == ReferenceOf(dirPath, es[i])
    decreases |es|
  {
    var n := |es| - 1;
    var pre := es[..n];
    if IsReferenceFile(es[n]) && es[n].name == k {
      assert LastReferenceNamed(es, n, k);
    } else {
      var d := CollectReferences(dirPath, pre);
      assert CollectReferences(dirPath, es).entries[k] == d.entries[k];
      ReferencesLastWins(dirPath, pre, k);
      var i :| LastReferenceNamed(pre, i, k) && d.entries[k] == ReferenceOf(dirPath, pre[i]);
      assert pre[i] == es[i];
      LastReferenceExtend(es, i, k);
    }
  }

  /** `skill_dir.glob("*.md")` selects the names ending in `.md` (matched case-sensitively). */
  predicate IsRootMarkdown(name: string)
  {
    EndsWith(name, ".md")
  }

  /** One step of the second loop of `_load_references`: a root Markdown file other than
      SKILL.md is added unless its name is already present. */
  function AddRootStep(skillPath: string, d: Dict<string, SkillReference>, e: Entry): (r: Result<Dict<string, SkillReference>, Error>)
    requires d.Valid()
    ensures r.Ok? ==> r.value.Valid()
  {
    if IsRootMarkdown(e.name) && e.name != "SKILL.md" && e.name !in d.entries then
      if e.node.File? then Ok(d.Put(e.name, ReferenceOf(skillPath, e)))
      else Err(IsADirectory(PathJoin(skillPath, e.name)))
    else Ok(d)
  }

  /** The second loop after the root entries `es`; the first error ends it. */
  function AddRootMarkdown(skillPath: string, d: Dict<string, SkillReference>, es: seq<Entry>): (r: Result<Dict<string, SkillReference>, Error>)
    requires d.Valid()
    ensures r.Ok? ==> r.value.Valid()
    decreases |es|
  {
    if es == [] then Ok(d)
    else
      var acc :- AddRootMarkdown(skillPath, d, es[..|es| - 1]);
      AddRootStep(skillPath, acc, es[|es| - 1])
  }

  /** The root files never replace a reference already present (the `references/` copy wins),
      SKILL.md is never added from the root, and every added name is a root `.md` file. */
  lemma {:induction false} RootMarkdownKeeps(skillPath: string, d: Dict<string, SkillReference>, es: seq<Entry>, k: string)
    requires d.Valid()
    requires AddRootMarkdown(skillPath, d, es).Ok?
    ensures var r := AddRootMarkdown(skillPath, d, es).value;
      && (k in d.entries ==> k in r.entries && r.entries[k] == d.entries[k])
      && (k in r.entries && k !in d.entries ==>
            && k != "SKILL.md" && IsRootMarkdown(k)
            && exists i :: 0 <= i < |es| && es[i].name == k && es[i].node.File? &&
                 r.entries[k] == ReferenceOf(skillPath, es[i]))
    decreases |es|
  {
    if es != [] {
      var n := |es| - 1;
      RootMarkdownKeeps(skillPath, d, es[..n], k);
      var acc := AddRootMarkdown(skillPath, d, es[..n]).value;
      var r := AddRootMarkdown(skillPath, d, es).value;
      if k in r.entries && k !in acc.entries {
        assert es[n].name == k && r.entries[k] == ReferenceOf(skillPath, es[n]);
      } else if k in r.entries && k !in d.entries {
        var i :| 0 <= i < n && es[..n][i].name == k && es[..n][i].node.File? &&
                 acc.entries[k] == ReferenceOf(skillPath, es[..n][i]);
        assert es[i] == es[..n][i];
      }
    }
  }

  /** A root `.md` file other than SKILL.md is always present afterwards when the loop completes. */
  lemma {:induction false} RootMarkdownAdds(skillPath: string, d: Dict<string, SkillReference>, es: seq<Entry>, i: nat)
    requires d.Valid()
    requires AddRootMarkdown(skillPath, d, es).Ok?
    requires i < |es| && IsRootMarkdown(es[i].name) && es[i].name != "SKILL.md"
    ensures es[i].name in AddRootMarkdown(skillPath, d, es).value.entries
    decreases |es|
  {
    var n := |es| - 1;
    if i < n {
      RootMarkdownAdds(skillPath, d, es[..n], i);
      RootMarkdownKeeps(skillPath, AddRootMarkdown(skillPath, d, es[..n]).value, [es[n]], es[i].name);
      assert [es[n]][..0] == [];
    }
  }

  /** What `_load_references` returns, or raises. */
  function ReferencesOf(skillPath: string, skillDir: seq<Entry>): (r: Result<Dict<string, SkillReference>, Error>)
    ensures r.Ok? ==> r.value.Valid()
  {
    var dirPath := PathJoin(skillPath, "references");
    var fromDir :- match Lookup(skillDir, "references")
      case None => Ok(Empty())
      case Some(File(_)) => Err(NotADirectory(dirPath))
      case Some(Dir(es)) => Ok(CollectReferences(dirPath, es));
    AddRootMarkdown(skillPath, fromDir, skillDir)
  }

  lemma CollectReferencesStep(dirPath: string, es: seq<Entry>, i: nat)
    requires i < |es|
    ensures var d := CollectReferences(dirPath, es[..i]);
      CollectReferences(dirPath, es[..i + 1]) ==
        if IsReferenceFile(es[i]) then d.Put(es[i].name, ReferenceOf(dirPath, es[i])) else d
  {
    assert es[..i + 1][..i] == es[..i];
  }

  /** `_load_references(skill_dir)` */
  method LoadReferences(skillPath: string, skillDir: seq<Entry>) returns (r: Result<Dict<string, SkillReference>, Error>)
    ensures r == ReferencesOf(skillPath, skillDir)
  {
    var dirPath := PathJoin(skillPath, "references");
    var references := Empty();
    match Lookup(skillDir, "references") {
      case None =>
      case Some(File(_)) =>
        return Err(NotADirectory(dirPath));
      case Some(Dir(es)) =>
        var i := 0;
        while i < |es|
          invariant 0 <= i <= |es|
          invariant references == CollectReferences(dirPath, es[..i])
        {
          var e := es[i];
          CollectReferencesStep(dirPath, es, i);
          if IsReferenceFile(e) {
            references := references.Put(e.name, ReferenceOf(dirPath, e));
          }
          i := i + 1;
        }
        assert es[..|es|] == es;
    }
    r := AddRootReferences(skillPath, references, skillDir);
  }

  /** The second loop of `_load_references`, over the entries of the skill directory. */
  method AddRootReferences(skillPath: string, fromDir: Dict<string, SkillReference>, skillDir: seq<Entry>)
    returns (r: Result<Dict<string, SkillReference>, Error>)
    requires fromDir.Valid()
    ensures r == AddRootMarkdown(skillPath, fromDir, skillDir)
  {
    var references := fromDir;
    var j := 0;
    while j < |skillDir|
      invariant 0 <= j <= |skillDir|
      invariant references.Valid()
      invariant AddRootMarkdown(skillPath, fromDir, skillDir[..j]) == Ok(references)
    {
      var e := skillDir[j];
      AddRootSnoc(skillPath, fromDir, skillDir, j);
      if IsRootMarkdown(e.name) && e.name != "SKILL.md" && e.name !in references.entries {
        if !e.node.File? {
          AddRootErrorStays(skillPath, fromDir, skillDir, j + 1);
          return Err(IsADirectory(PathJoin(skillPath, e.name)));
        }
        references := references.Put(e.name, ReferenceOf(skillPath, e));
      }
      j := j + 1;
    }
    assert skillDir[..|skillDir|] == skillDir;
    return Ok(references);
  }

  lemma AddRootSnoc(skillPath: string, d: Dict<string, SkillReference>, es: seq<Entry>, j: nat)
    requires d.Valid()
    requires j < |es| && AddRootMarkdown(skillPath, d, es[..j]).Ok?
    ensures AddRootMarkdown(skillPath, d, es[..j + 1]) ==
      AddRootStep(skillPath, AddRootMarkdown(skillPath, d, es[..j]).value, es[j])
  {
    assert es[..j + 1][..j] == es[..j];
  }

  /** Once the second loop has raised, later entries do not change the error. */
  lemma {:induction false} AddRootErrorStays(skillPath: string, d: Dict<string, SkillReference>, es: seq<Entry>, n: nat)
    requires d.Valid()
    requires n <= |es| && AddRootMarkdown(skillPath, d, es[..n]).Err?
    ensures AddRootMarkdown(skillPath, d, es) == AddRootMarkdown(skillPath, d, es[..n])
    decreases |es| - n
  {
    if n < |es| {
      assert es[..n + 1][..n] == es[..n];
      AddRootErrorStays(skillPath, d, es, n + 1);
    } else {
      assert es[..n] == es;
    }
  }

  // ---------------------------------------------------------------- assets and load_skill

  /** What `_load_assets` returns, or raises: the paths of `assets/`, in listing order. */
  function AssetsOf(skillPath: string, skillDir: seq<Entry>): (r: Result<seq<string>, Error>)
    ensures Lookup(skillDir, "assets").None? ==> r == Ok([])
    ensures r.Ok? && Lookup(skillDir, "assets").Some? && Lookup(skillDir, "assets").value.Dir? ==>
      var es := Lookup(skillDir, "assets").value.entries;
      |r.value| == |es| &&
      forall i :: 0 <= i < |es| ==> r.value[i] == PathJoin(PathJoin(skillPath, "assets"), es[i].name)
  {
    var dirPath := PathJoin(skillPath, "assets");
    match Lookup(skillDir, "assets")
    case None => Ok([])
    case Some(File(_)) => Err(NotADirectory(dirPath))
    case Some(Dir(es)) => Ok(seq(|es|, i requires 0 <= i < |es| => PathJoin(dirPath, es[i].name)))
  }

  /** What `load_skill(skill_dir)` returns, or raises; `node` is what is found at the path. */
  function LoadSkillSpec(path: string, node: Option<Node>, yaml: YamlLoad): (r: Result<Skill, Error>)
    ensures (node.None? || node.value.File? || Lookup(node.value.entries, "SKILL.md").None?) ==>
      r == Err(FileNotFoundError("SKILL.md not found in " + path))
    ensures r.Ok? ==> r.value.Valid() && r.value.path == path
    ensures r.Ok? ==>
      && node.Some? && node.value.Dir?
      && Lookup(node.value.entries, "SKILL.md").Some?
      && Lookup(node.value.entries, "SKILL.md").value.File?
      && var parsed := ParseContent(Lookup(node.value.entries, "SKILL.md").value.content, yaml);
         parsed == Ok(Parsed(r.value.metadata, r.value.instructions))
  {
    if node.None? || node.value.File? then Err(FileNotFoundError("SKILL.md not found in " + path))
    else
      var es := node.value.entries;
      match Lookup(es, "SKILL.md")
      case None => Err(FileNotFoundError("SKILL.md not found in " + path))
      case Some(Dir(_)) => Err(IsADirectory(PathJoin(path, "SKILL.md")))
      case Some(File(content)) =>
        var parsed :- ParseContent(content, yaml);
        var scripts :- ScriptsOf(path, es);
        var references :- ReferencesOf(path, es);
        var assets :- AssetsOf(path, es);
        Ok(Skill(parsed.metadata, parsed.instructions, path, scripts, references, assets))
  }

  /** `load_skill(skill_dir)` */
  method LoadSkill(path: string, node: Option<Node>, yaml: YamlLoad) returns (r: Result<Skill, Error>)
    ensures r == LoadSkillSpec(path, node, yaml)
  {
    if node.None? || node.value.File? {
      return Err(FileNotFoundError("SKILL.md not found in " + path));
    }
    var es := node.value.entries;
    match Lookup(es, "SKILL.md") {
      case None =>
        return Err(FileNotFoundError("SKILL.md not found in " + path));
      case Some(Dir(_)) =>
        return Err(IsADirectory(PathJoin(path, "SKILL.md")));
      case Some(File(content)) =>
        var parsed :- ParseContent(content, yaml);
        var scripts :- LoadScripts(path, es);
        var references :- LoadReferences(path, es);
        var assets :- AssetsOf(path, es);
        return Ok(Skill(parsed.metadata, parsed.instructions, path, scripts, references, assets));
    }
  }

  // ---------------------------------------------------------------- batch loading

  /** `item.is_dir() and (item / "SKILL.md").exists()` */
  predicate Eligible(e: Entry)
  {
    e.node.Dir? && Lookup(e.node.entries, "SKILL.md").Some?
  }

  /** What one entry of the base directory contributes: the skill it loads to, or nothing when
      it is not eligible or its load raises. */
  function Attempt(basePath: string, e: Entry, yaml: YamlLoad): Option<Skill>
  {
    if !Eligible(e) then None
    else
      match LoadSkillSpec(PathJoin(basePath, e.name), Some(e.node), yaml)
      case Ok(s) => Some(s)
      case Err(_) => None
  }

  function Attempts(basePath: string, es: seq<Entry>, yaml: YamlLoad): (rs: seq<Option<Skill>>)
    ensures |rs| == |es|
    ensures forall i :: 0 <= i < |es| ==> rs[i] == Attempt(basePath, es[i], yaml)
  {
    seq(|es|, i requires 0 <= i < |es| => Attempt(basePath, es[i], yaml))
  }

  /** The skills of the attempts that succeeded, in order. */
  function Successes(rs: seq<Option<Skill>>): (skills: seq<Skill>)
    ensures |skills| <= |rs|
    decreases |rs|
  {
    if rs == [] then []
    else
      var last := rs[|rs| - 1];
      Successes(rs[..|rs| - 1]) + (if last.Some? then [last.value] else [])
  }

  lemma {:induction false} SuccessesConcat(rs1: seq<Option<Skill>>, rs2: seq<Option<Skill>>)
    ensures Successes(rs1 + rs2) == Successes(rs1) + Successes(rs2)
    decreases |rs2|
  {
    if rs2 == [] {
      assert rs1 + rs2 == rs1;
    } else {
      var n := |rs2| - 1;
      assert (rs1 + rs2)[..|rs1 + rs2| - 1] == rs1 + rs2[..n];
      SuccessesConcat(rs1, rs2[..n]);
    }
  }

  lemma SuccessesStep(rs: seq<Option<Skill>>, i: nat)
    requires i < |rs|
    ensures Successes(rs[..i + 1]) == Successes(rs[..i]) + if rs[i].Some? then [rs[i].value] else []
  {
    assert rs[..i + 1][..i] == rs[..i];
  }

  lemma {:induction false} SuccessesMembers(rs: seq<Option<Skill>>, s: Skill)
    ensures s in Successes(rs) <==> exists i :: 0 <= i < |rs| && rs[i] == Some(s)
    decreases |rs|
  {
    if rs != [] {
      var n := |rs| - 1;
      SuccessesMembers(rs[..n], s);
      assert forall i :: 0 <= i < n ==> rs[..n][i] == rs[i];
    }
  }

  /** The skills the loop of `load_skills_from_directory` collects from the entries `es`. */
  function LoadAll(basePath: string, es: seq<Entry>, yaml: YamlLoad): (skills: seq<Skill>)
    ensures |skills| <= |es|
  {
    Successes(Attempts(basePath, es, yaml))
  }

  /** The loaded skills of two listings, one after the other, are the two results concatenated:
      the order is the listing order and no skill affects another. */
  lemma LoadAllConcat(basePath: string, es1: seq<Entry>, es2: seq<Entry>, yaml: YamlLoad)
    ensures LoadAll(basePath, es1 + es2, yaml) == LoadAll(basePath, es1, yaml) + LoadAll(basePath, es2, yaml)
  {
    AttemptsConcat(basePath, es1, es2, yaml);
    SuccessesConcat(Attempts(basePath, es1, yaml), Attempts(basePath, es2, yaml));
  }

  lemma AttemptsConcat(basePath: string, es1: seq<Entry>, es2: seq<Entry>, yaml: YamlLoad)
    ensures Attempts(basePath, es1 + es2, yaml) == Attempts(basePath, es1, yaml) + Attempts(basePath, es2, yaml)
  {
    var whole := Attempts(basePath, es1 + es2, yaml);
    var parts := Attempts(basePath, es1, yaml) + Attempts(basePath, es2, yaml);
    forall i | 0 <= i < |whole| ensures whole[i] == parts[i] {
      if i < |es1| {
        assert (es1 + es2)[i] == es1[i];
      } else {
        assert (es1 + es2)[i] == es2[i - |es1|];
      }
    }
  }

  /** The entry `e` of the base directory is eligible and loads to `s`. */
  predicate LoadsTo(basePath: string, e: Entry, yaml: YamlLoad, s: Skill)
  {
    Eligible(e) && LoadSkillSpec(PathJoin(basePath, e.name), Some(e.node), yaml) == Ok(s)
  }

  /** A skill is returned exactly when some eligible entry loads to it. */
  lemma LoadAllMembers(basePath: string, es: seq<Entry>, yaml: YamlLoad, s: Skill)
    ensures s in LoadAll(basePath, es, yaml) <==> exists i :: 0 <= i < |es| && LoadsTo(basePath, es[i], yaml, s)
  {
    var rs := Attempts(basePath, es, yaml);
    SuccessesMembers(rs, s);
    forall i | 0 <= i < |es| ensures rs[i] == Some(s) <==> LoadsTo(basePath, es[i], yaml, s) {
    }
  }

  /** What `load_skills_from_directory(base_dir)` returns, or raises. Only listing the base
      directory can raise; a failing skill never does. */
  function LoadSkillsFromDirectorySpec(basePath: string, base: Option<Node>, yaml: YamlLoad): (r: Result<seq<Skill>, Error>)
    ensures base.Some? && base.value.Dir? ==> r == Ok(LoadAll(basePath, base.value.entries, yaml))
    ensures base.None? ==> r == Err(NoSuchFile(basePath))
  {
    match base
    case None => Err(NoSuchFile(basePath))
    case Some(File(_)) => Err(NotADirectory(basePath))
    case Some(Dir(es)) => Ok(LoadAll(basePath, es, yaml))
  }

  /** `load_skills_from_directory(base_dir)` */
  method LoadSkillsFromDirectory(basePath: string, base: Option<Node>, yaml: YamlLoad) returns (r: Result<seq<Skill>, Error>)
    ensures r == LoadSkillsFromDirectorySpec(basePath, base, yaml)
  {
    if base.None? {
      return Err(NoSuchFile(basePath));
    } else if base.value.File? {
      return Err(NotADirectory(basePath));
    }
    var es := base.value.entries;
    ghost var attempts := Attempts(basePath, es, yaml);
    var loaded: seq<Skill> := [];
    var i := 0;
    while i < |es|
      invariant 0 <= i <= |es|
      invariant loaded == Successes(attempts[..i])
    {
      SuccessesStep(attempts, i);
      var attempt := LoadEntry(basePath, es[i], yaml);
      if attempt.Some? {
        loaded := loaded + [attempt.value];
      }
      i := i + 1;
    }
    assert attempts[..|es|] == attempts;
    return Ok(loaded);
  }

  /** One pass of that loop: an eligible entry is loaded, and a load that raises is skipped. */
  method LoadEntry(basePath: string, item: Entry, yaml: YamlLoad) returns (attempt: Option<Skill>)
    ensures attempt == Attempt(basePath, item, yaml)
  {
    attempt := None;
    if Eligible(item) {
      var skill := LoadSkill(PathJoin(basePath, item.name), Some(item.node), yaml);
      if skill.Ok? {
        attempt := Some(skill.value);
      }
    }
  }
}
