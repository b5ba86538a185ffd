/** Helpers to create and validate a skill directory (skill_manager/utils.py). */
module SkillUtils {
  import opened Wrappers
  import opened Errors
  import opened Text
  import opened Values
  import opened FileTree
  import opened Skills
  import opened Frontmatter
  import opened SkillLoader

  const DefaultInstructions := "# Instructions\n\nAdd your skill instructions here."
  const ExampleScript := "#!/usr/bin/env python3\nprint(\"Hello from skill script!\")\n"

  /** The SKILL.md text `create_skill_template` writes. */
  function TemplateContent(name: string, description: string, instructions: string): string
  {
    "---\nname: " + name + "\ndescription: " + description + "\n---\n\n" + instructions + "\n"
  }

  function FileExists(path: string): Error
  {
    OSError("[Errno 17] File exists: '" + path + "'")
  }

  /** `(dir / name).mkdir(exist_ok=True)` on the listing of `dir`. */
  function MakeDir(dirPath: string, entries: seq<Entry>, name: string): (r: Result<seq<Entry>, Error>)
    ensures r.Ok? ==> Lookup(r.value, name).Some? && Lookup(r.value, name).value.Dir?
    ensures r.Ok? && Lookup(entries, name).None? ==> Lookup(r.value, name) == Some(Dir([]))
    ensures r.Ok? ==> forall other {:trigger Lookup(r.value, other)} :: other != name ==> Lookup(r.value, other) == Lookup(entries, other)
    ensures r.Err? <==> Lookup(entries, name).Some? && Lookup(entries, name).value.File?
    ensures Lookup(entries, name).Some? && Lookup(entries, name).value.Dir? ==> r == Ok(entries)
  {
    match Lookup(entries, name)
    case None => Ok(SetEntry(entries, name, Dir([])))
    case Some(Dir(_)) => Ok(entries)
    case Some(File(_)) => Err(FileExists(PathJoin(dirPath, name)))
  }

  /** `(dir / name).write_text(content)` on the listing of `dir`. */
  function WriteText(dirPath: string, entries: seq<Entry>, name: string, content: string): (r: Result<seq<Entry>, Error>)
    ensures r.Ok? ==> Lookup(r.value, name) == Some(File(content))
    ensures r.Ok? ==> forall other {:trigger Lookup(r.value, other)} :: other != name ==> Lookup(r.value, other) == Lookup(entries, other)
    ensures r.Err? <==> Lookup(entries, name).Some? && Lookup(entries, name).value.Dir?
  {
    match Lookup(entries, name)
    case Some(Dir(_)) => Err(IsADirectory(PathJoin(dirPath, name)))
    case _ => Ok(SetEntry(entries, name, File(content)))
  }

  /** The optional `scripts/` directory with its example script. */
  function AddScripts(skillPath: string, entries: seq<Entry>): (r: Result<seq<Entry>, Error>)
    ensures r.Ok? ==> ScriptsWritten(r.value)
    ensures r.Ok? ==> forall other {:trigger Lookup(r.value, other)} :: other != "scripts" ==> Lookup(r.value, other) == Lookup(entries, other)
    ensures Lookup(entries, "scripts").None? ==> r.Ok?
    ensures r.Ok? ==> forall f {:trigger Lookup(DirEntries(Lookup(r.value, "scripts")), f)} :: f != "example.py" ==>
      Lookup(DirEntries(Lookup(r.value, "scripts")), f) == Lookup(DirEntries(Lookup(entries, "scripts")), f)
    ensures r.Err? <==>
      || (Lookup(entries, "scripts").Some? && Lookup(entries, "scripts").value.File?)
      || (var e := Lookup(DirEntries(Lookup(entries, "scripts")), "example.py"); e.Some? && e.value.Dir?)
  {
    var withDir :- MakeDir(skillPath, entries, "scripts");
    var scriptsPath := PathJoin(skillPath, "scripts");
    var scripts :- WriteText(scriptsPath, Lookup(withDir, "scripts").value.entries, "example.py", ExampleScript);
    Ok(SetEntry(withDir, "scripts", Dir(scripts)))
  }

  /** `scripts/example.py` holds the example script. */
  predicate ScriptsWritten(entries: seq<Entry>)
  {
    && Lookup(entries, "scripts").Some?
    && Lookup(entries, "scripts").value.Dir?
    && Lookup(Lookup(entries, "scripts").value.entries, "example.py") == Some(File(ExampleScript))
  }

  /** What an optional `mkdir(exist_ok=True)` leaves under a name: a new empty directory where
      there was nothing and the flag is set, otherwise what was there. */
  function AfterMkdirIf(n: Option<Node>, flag: bool): Option<Node>
  {
    if flag && n.None? then Some(Dir([])) else n
  }

  /** One optional step: nothing happens unless its flag is set. */
  function OptionalDir(skillPath: string, entries: seq<Entry>, flag: bool, name: string): (r: Result<seq<Entry>, Error>)
    ensures !flag ==> r == Ok(entries)
    ensures r.Ok? && flag ==> Lookup(r.value, name).Some?
    ensures r.Ok? ==> forall other {:trigger Lookup(r.value, other)} :: other != name ==> Lookup(r.value, other) == Lookup(entries, other)
    ensures Lookup(entries, name).None? ==> r.Ok?
    ensures r.Ok? ==> Lookup(r.value, name) == AfterMkdirIf(Lookup(entries, name), flag)
  {
    if flag then MakeDir(skillPath, entries, name) else Ok(entries)
  }

  function OptionalScripts(skillPath: string, entries: seq<Entry>, flag: bool): (r: Result<seq<Entry>, Error>)
    ensures !flag ==> r == Ok(entries)
    ensures r.Ok? && flag ==> ScriptsWritten(r.value)
    ensures r.Ok? ==> forall other {:trigger Lookup(r.value, other)} :: other != "scripts" ==> Lookup(r.value, other) == Lookup(entries, other)
    ensures Lookup(entries, "scripts").None? ==> r.Ok? && (Lookup(r.value, "scripts").Some? <==> flag)
    ensures r.Ok? ==> forall f {:trigger Lookup(DirEntries(Lookup(r.value, "scripts")), f)} :: f != "example.py" ==>
      Lookup(DirEntries(Lookup(r.value, "scripts")), f) == Lookup(DirEntries(Lookup(entries, "scripts")), f)
  {
    if flag then AddScripts(skillPath, entries) else Ok(entries)
  }

  lemma NamesDistinct()
    ensures "SKILL.md" != "scripts" && "SKILL.md" != "references" && "SKILL.md" != "assets"
    ensures "scripts" != "references" && "scripts" != "assets" && "references" != "assets"
  {
  }

  /** The optional `references/` and `assets/` directories. */
  function AddDirs(skillPath: string, entries: seq<Entry>, includeReferences: bool, includeAssets: bool): (r: Result<seq<Entry>, Error>)
    ensures r.Ok? && includeReferences ==> Lookup(r.value, "references").Some?
    ensures r.Ok? && includeAssets ==> Lookup(r.value, "assets").Some?
    ensures r.Ok? ==> forall other {:trigger Lookup(r.value, other)} ::
      other != "references" && other != "assets" ==> Lookup(r.value, other) == Lookup(entries, other)
    ensures Lookup(entries, "references").None? && Lookup(entries, "assets").None? ==>
      && r.Ok?
      && (Lookup(r.value, "references").Some? <==> includeReferences)
      && (Lookup(r.value, "assets").Some? <==> includeAssets)
    ensures r.Ok? ==>
      Lookup(r.value, "references") == AfterMkdirIf(Lookup(entries, "references"), includeReferences)
    ensures r.Ok? ==> Lookup(r.value, "assets") == AfterMkdirIf(Lookup(entries, "assets"), includeAssets)
  {
    NamesDistinct();
    match OptionalDir(skillPath, entries, includeReferences, "references")
    case Err(e) => Err(e)
    case Ok(es) =>
      var r := OptionalDir(skillPath, es, includeAssets, "assets");
      if r.Err? then r
      else
        LookupKept(es, r.value, "assets", "assets", "references");
        LookupKept(entries, es, "references", "references", "assets");
        r
  }

  /** The files written into the skill directory, whose listing was `entries`. */
  function FillSkillDir(skillPath: string, entries: seq<Entry>, content: string,
                        includeScripts: bool, includeReferences: bool, includeAssets: bool): (r: Result<seq<Entry>, Error>)
    ensures r.Ok? ==> Lookup(r.value, "SKILL.md") == Some(File(content))
    ensures r.Ok? && includeScripts ==> ScriptsWritten(r.value)
    ensures r.Ok? && includeReferences ==> Lookup(r.value, "references").Some?
    ensures r.Ok? && includeAssets ==> Lookup(r.value, "assets").Some?
  {
    NamesDistinct();
    match WriteText(skillPath, entries, "SKILL.md", content)
    case Err(e) => Err(e)
    case Ok(es1) =>
      match OptionalScripts(skillPath, es1, includeScripts)
      case Err(e) => Err(e)
      case Ok(es2) => AddDirs(skillPath, es2, includeReferences, includeAssets)
  }

  /** Filling a skill directory keeps what was there: names other than the four it writes keep
      their entries, `scripts/` keeps every file but `example.py`, an unrequested directory is
      left alone, and a requested one that exists already is left as it was. */
  lemma FillSkillDirKeeps(skillPath: string, entries: seq<Entry>, content: string,
                          includeScripts: bool, includeReferences: bool, includeAssets: bool)
    ensures var r := FillSkillDir(skillPath, entries, content, includeScripts, includeReferences, includeAssets);
      r.Ok? ==>
        && (forall other {:trigger Lookup(r.value, other)} ::
              other != "SKILL.md" && other != "scripts" && other != "references" && other != "assets" ==>
                Lookup(r.value, other) == Lookup(entries, other))
        && (forall f {:trigger Lookup(DirEntries(Lookup(r.value, "scripts")), f)} :: f != "example.py" ==>
              Lookup(DirEntries(Lookup(r.value, "scripts")), f) == Lookup(DirEntries(Lookup(entries, "scripts")), f))
        && (!includeScripts ==> Lookup(r.value, "scripts") == Lookup(entries, "scripts"))
        && Lookup(r.value, "references") == AfterMkdirIf(Lookup(entries, "references"), includeReferences)
        && Lookup(r.value, "assets") == AfterMkdirIf(Lookup(entries, "assets"), includeAssets)
  {
    NamesDistinct();
    var w := WriteText(skillPath, entries, "SKILL.md", content);
    if w.Ok? {
      var es1 := w.value;
      var o := OptionalScripts(skillPath, es1, includeScripts);
      if o.Ok? {
        var es2 := o.value;
        var d := AddDirs(skillPath, es2, includeReferences, includeAssets);
        if d.Ok? {
          var es3 := d.value;
          assert FillSkillDir(skillPath, entries, content, includeScripts, includeReferences, includeAssets) == Ok(es3);
          LookupThroughSteps(entries, es1, es2, es3, "SKILL.md", "scripts", "references", "assets");
          LookupKept(es2, es3, "references", "assets", "scripts");
          LookupKept(entries, es1, "SKILL.md", "SKILL.md", "scripts");
          LookupKept(es1, es2, "scripts", "scripts", "references");
          LookupKept(entries, es1, "SKILL.md", "SKILL.md", "references");
          LookupKept(es1, es2, "scripts", "scripts", "assets");
          LookupKept(entries, es1, "SKILL.md", "SKILL.md", "assets");
        }
      }
    }
  }

  /** `create_skill_template(output_dir, name, description, instructions, ...)`: the path of the
      skill directory and what it holds afterwards; `existing` is what was at that path. */
  function CreateSkillTemplate(outputDir: string, existing: Option<Node>, name: string, description: string,
                               instructions: string, includeScripts: bool, includeReferences: bool,
                               includeAssets: bool): (r: Result<(string, Node), Error>)
    ensures r.Ok? ==> r.value.0 == PathJoin(outputDir, name) && r.value.1.Dir?
    ensures r.Ok? ==>
      Lookup(r.value.1.entries, "SKILL.md") == Some(File(TemplateContent(name, description, instructions)))
    ensures r.Ok? && includeScripts ==> ScriptsWritten(r.value.1.entries)
    ensures r.Ok? && includeReferences ==> Lookup(r.value.1.entries, "references").Some?
    ensures r.Ok? && includeAssets ==> Lookup(r.value.1.entries, "assets").Some?
    ensures existing.Some? && existing.value.File? ==> r == Err(FileExists(PathJoin(outputDir, name)))
  {
    var skillPath := PathJoin(outputDir, name);
    var es :- match existing
      case None => Ok([])
      case Some(Dir(es)) => Ok(es)
      case Some(File(_)) => Err(FileExists(skillPath));
    var filled :- FillSkillDir(skillPath, es, TemplateContent(name, description, instructions),
                               includeScripts, includeReferences, includeAssets);
    Ok((skillPath, Dir(filled)))
  }

  /** An existing skill directory keeps its other contents: names other than the four the
      template writes keep their entries, `scripts/` keeps every file but `example.py`, and the
      optional directories are made only where nothing was. */
  lemma CreateSkillTemplateKeeps(outputDir: string, existing: Option<Node>, name: string, description: string,
                                 instructions: string, includeScripts: bool, includeReferences: bool,
                                 includeAssets: bool)
    ensures var r := CreateSkillTemplate(outputDir, existing, name, description, instructions,
                                         includeScripts, includeReferences, includeAssets);
      var before := DirEntries(existing);
      r.Ok? ==>
        && r.value.1.Dir?
        && (forall other {:trigger Lookup(r.value.1.entries, other)} ::
              other != "SKILL.md" && other != "scripts" && other != "references" && other != "assets" ==>
                Lookup(r.value.1.entries, other) == Lookup(before, other))
        && (forall f {:trigger Lookup(DirEntries(Lookup(r.value.1.entries, "scripts")), f)} :: f != "example.py" ==>
              Lookup(DirEntries(Lookup(r.value.1.entries, "scripts")), f) == Lookup(DirEntries(Lookup(before, "scripts")), f))
        && Lookup(r.value.1.entries, "references") == AfterMkdirIf(Lookup(before, "references"), includeReferences)
        && Lookup(r.value.1.entries, "assets") == AfterMkdirIf(Lookup(before, "assets"), includeAssets)
  {
    var content := TemplateContent(name, description, instructions);
    FillSkillDirKeeps(PathJoin(outputDir, name), DirEntries(existing), content,
                      includeScripts, includeReferences, includeAssets);
  }

  /** In a fresh directory the template never fails, and creates an optional directory exactly
      when its flag is set. */
  lemma FreshTemplate(skillPath: string, content: string,
                      includeScripts: bool, includeReferences: bool, includeAssets: bool)
    ensures var r := FillSkillDir(skillPath, [], content, includeScripts, includeReferences, includeAssets);
      && r.Ok?
      && (Lookup(r.value, "scripts").Some? <==> includeScripts)
      && (Lookup(r.value, "references").Some? <==> includeReferences)
      && (Lookup(r.value, "assets").Some? <==> includeAssets)
  {
    var es1 := FreshSkillMd(skillPath, content);
    var es2 := FreshScripts(skillPath, es1, includeScripts);
    var es3 := FreshDirs(skillPath, es2, includeReferences, includeAssets);
    assert FillSkillDir(skillPath, [], content, includeScripts, includeReferences, includeAssets) == Ok(es3);
  }

  lemma FreshScripts(skillPath: string, es1: seq<Entry>, flag: bool) returns (es2: seq<Entry>)
    requires Lookup(es1, "scripts").None? && Lookup(es1, "references").None? && Lookup(es1, "assets").None?
    ensures OptionalScripts(skillPath, es1, flag) == Ok(es2)
    ensures Lookup(es2, "scripts").Some? <==> flag
    ensures Lookup(es2, "references").None? && Lookup(es2, "assets").None?
  {
    es2 := OptionalScripts(skillPath, es1, flag).value;
    NamesDistinct();
    LookupKept(es1, es2, "scripts", "scripts", "references");
    LookupKept(es1, es2, "scripts", "scripts", "assets");
  }

  lemma FreshDirs(skillPath: string, es2: seq<Entry>, includeReferences: bool, includeAssets: bool) returns (es3: seq<Entry>)
    requires Lookup(es2, "references").None? && Lookup(es2, "assets").None?
    ensures AddDirs(skillPath, es2, includeReferences, includeAssets) == Ok(es3)
    ensures Lookup(es3, "scripts") == Lookup(es2, "scripts")
    ensures Lookup(es3, "references").Some? <==> includeReferences
    ensures Lookup(es3, "assets").Some? <==> includeAssets
  {
    NamesDistinct();
    es3 := AddDirs(skillPath, es2, includeReferences, includeAssets).value;
  }

  /** Writing SKILL.md into an empty directory succeeds and creates nothing else. */
  lemma FreshSkillMd(skillPath: string, content: string) returns (es: seq<Entry>)
    ensures WriteText(skillPath, [], "SKILL.md", content) == Ok(es)
    ensures Lookup(es, "scripts").None? && Lookup(es, "references").None? && Lookup(es, "assets").None?
  {
    NamesDistinct();
    es := WriteText(skillPath, [], "SKILL.md", content).value;
    assert Lookup(es, "scripts") == Lookup([], "scripts");
    assert Lookup(es, "references") == Lookup([], "references");
    assert Lookup(es, "assets") == Lookup([], "assets");
  }

  /** The YAML block of the template: two lines, `name: …` and `description: …`. */
  function TemplateBlock(name: string, description: string): string
  {
    "name: " + name + "\ndescription: " + description
  }

  /** A valid name and a one-line description that the YAML parser reads as plain strings are
      loaded back from the template: the name, the description, and the instructions less
      surrounding white space. */
  lemma TemplateRoundTrip(name: string, description: string, instructions: string, yaml: YamlLoad)
    requires IsSkillName(name) && |name| <= MaxNameLength
    requires '\n' !in description && |description| <= MaxDescriptionLength
    requires yaml(TemplateBlock(name, description)) ==
      Some(Map(map["name" := Str(name), "description" := Str(description)]))
    ensures var r := ParseContent(TemplateContent(name, description, instructions), yaml);
      && r.Ok?
      && r.value.metadata.name == name
      && r.value.metadata.description == description
      && r.value.instructions == Strip(instructions)
  {
    TemplateMatches(name, description, instructions);
    ParseTwoFields(TemplateContent(name, description, instructions), yaml, name, description);
  }

  /** Frontmatter whose block the YAML parser reads as a valid `name` and `description` parses. */
  lemma ParseTwoFields(content: string, yaml: YamlLoad, name: string, description: string)
    requires MatchFrontmatter(content).Some?
    requires yaml(MatchFrontmatter(content).value.block) ==
      Some(Map(map["name" := Str(name), "description" := Str(description)]))
    requires IsSkillName(name) && |name| <= MaxNameLength && |description| <= MaxDescriptionLength
    ensures ParseContent(content, yaml).Ok?
    ensures ParseContent(content, yaml).value.metadata.name == name
    ensures ParseContent(content, yaml).value.metadata.description == description
  {
    ParseContentStructure(content, yaml);
    TwoFieldsAccepted(name, description, Strip(MatchFrontmatter(content).value.rest));
  }

  /** A mapping with just a valid `name` and `description` is accepted. */
  lemma TwoFieldsAccepted(name: string, description: string, body: string)
    requires IsSkillName(name) && |name| <= MaxNameLength && |description| <= MaxDescriptionLength
    ensures ParseFields(map["name" := Str(name), "description" := Str(description)], body).Ok?
  {
    var fields := map["name" := Str(name), "description" := Str(description)];
    assert "metadata" !in fields by {
      assert |"metadata"| != |"name"| && |"metadata"| != |"description"|;
    }
    assert CheckName(fields["name"]).Ok?;
  }

  /** The frontmatter pattern finds the template's block, and its body is the instructions. */
  lemma TemplateMatches(name: string, description: string, instructions: string)
    requires IsSkillName(name) && '\n' !in description
    ensures var m := MatchFrontmatter(TemplateContent(name, description, instructions));
      && m.Some?
      && m.value.block == TemplateBlock(name, description)
      && Strip(m.value.rest) == Strip(instructions)
  {
    var y := TemplateBlock(name, description);
    var tail := "\n\n" + instructions + "\n";
    assert TemplateContent(name, description, instructions) == "---\n" + y + "\n---" + tail;
    TemplateBlockLines(name, description);
    MatchWritten(y, tail);
    BodyStrip(instructions);
  }

  /** The blank line after the fence and the final newline are stripped off the body. */
  lemma BodyStrip(instructions: string)
    ensures Strip("\n\n" + instructions + "\n") == Strip(instructions)
  {
    assert AllSpace("\n\n") && AllSpace("\n");
    StripSpaceAround("\n\n", instructions, "\n");
  }

  /** No line of the template's block after the first starts with `-`. */
  lemma TemplateBlockLines(name: string, description: string)
    requires IsSkillName(name) && '\n' !in description
    ensures var y := TemplateBlock(name, description);
      && y != [] && !IsSpace(y[0])
      && forall i :: 0 <= i < |y| && y[i] == '\n' ==> i + 1 < |y| && y[i + 1] != '-'
  {
    var y := TemplateBlock(name, description);
    var k := 6 + |name|;
    assert y[..k] == "name: " + name;
    assert y[k..] == "\ndescription: " + description;
    forall i | 0 <= i < |y| && i != k ensures y[i] != '\n' {
      if i < k {
        assert y[i] == (y[..k])[i];
        if i >= 6 {
          assert IsNameChar(name[i - 6]) || name[i - 6] == '-';
        }
      } else {
        assert y[i] == (y[k..])[i - k];
        if i - k >= 14 {
          assert description[i - k - 14] in description;
        }
      }
    }
    assert y[k + 1] == (y[k..])[1];
  }

  /** `(skill_dir / "SKILL.md").exists()` */
  predicate SkillMdExists(node: Option<Node>)
  {
    node.Some? && node.value.Dir? && Lookup(node.value.entries, "SKILL.md").Some?
  }

  /** `loader.parse_skill_metadata(skill_md)`: read the file, then parse it. */
  function ParseSkillMd(path: string, node: Option<Node>, yaml: YamlLoad): Result<Parsed, Error>
    requires SkillMdExists(node)
  {
    match Lookup(node.value.entries, "SKILL.md").value
    case Dir(_) => Err(IsADirectory(PathJoin(path, "SKILL.md")))
    case File(content) => ParseContent(content, yaml)
  }

  /** `validate_skill(skill_dir)`: `valid` holds exactly when there are no errors, which is
      exactly when SKILL.md parses; the re-checks after parsing never add an error, because the
      parser enforces the same rules. */
  method ValidateSkill(path: string, node: Option<Node>, yaml: YamlLoad) returns (valid: bool, errors: seq<string>)
    ensures valid <==> errors == []
    ensures valid <==> SkillMdExists(node) && ParseSkillMd(path, node, yaml).Ok?
    ensures !SkillMdExists(node) ==> errors == ["SKILL.md not found"]
    ensures SkillMdExists(node) && ParseSkillMd(path, node, yaml).Err? ==>
      errors == ["Failed to parse SKILL.md: " + Message(ParseSkillMd(path, node, yaml).error)]
  {
    errors := [];
    if !SkillMdExists(node) {
      errors := errors + ["SKILL.md not found"];
      return false, errors;
    }
    var parsed := ParseSkillMd(path, node, yaml);
    if parsed.Err? {
      errors := errors + ["Failed to parse SKILL.md: " + Message(parsed.error)];
      return false, errors;
    }
    var metadata := parsed.value.metadata;
    if !NameMatches(metadata.name) {
      errors := errors + ["name must contain only lowercase letters, numbers, and hyphens"];
    }
    if |metadata.name| > MaxNameLength {
      errors := errors + ["name must be <= 64 characters"];
    }
    if |metadata.description| > MaxDescriptionLength {
      errors := errors + ["description must be <= 1024 characters"];
    }
    return |errors| == 0, errors;
  }
}
