/** Skill entities (skill_manager/core/entities/skill.py). */
module Skills {
  import opened Wrappers
  import opened Values
  import opened Dicts

  /** `SkillMetadata`. The optional fields hold whatever the frontmatter held (Null for None). */
  datatype SkillMetadata = SkillMetadata(
    name: string,
    description: string,
    license: Value,
    version: Value,
    author: Value,
    allowedTools: Value,
    compatibility: Value,
    metadata: map<string, Value>)

  /** `SkillMetadata(name, description)` with every default. */
  function NewMetadata(name: string, description: string): (m: SkillMetadata)
    ensures m.name == name && m.description == description
    ensures m.license == m.version == m.author == m.allowedTools == m.compatibility == Null
    ensures m.metadata == map[]
  {
    SkillMetadata(name, description, Null, Null, Null, Null, Null, map[])
  }

  const MetadataKeys: seq<string> :=
    ["name", "description", "license", "version", "author", "allowed_tools", "compatibility", "metadata"]

  /** `SkillMetadata.to_dict`: every field under its own key, in declaration order. */
  function ToDict(m: SkillMetadata): (d: Dict<string, Value>)
    ensures d.Valid() && d.keys == MetadataKeys
  {
    var d := Dict(MetadataKeys, map[
      "name" := Str(m.name), "description" := Str(m.description),
      "license" := m.license, "version" := m.version, "author" := m.author,
      "allowed_tools" := m.allowedTools, "compatibility" := m.compatibility,
      "metadata" := Map(m.metadata)]);
    MetadataKeysDistinct();
    assert d.entries.Keys == (set i | 0 <= i < |MetadataKeys| :: MetadataKeys[i]) by {
      assert MetadataKeys[0] == "name" && MetadataKeys[1] == "description";
      assert MetadataKeys[2] == "license" && MetadataKeys[3] == "version";
      assert MetadataKeys[4] == "author" && MetadataKeys[5] == "allowed_tools";
      assert MetadataKeys[6] == "compatibility" && MetadataKeys[7] == "metadata";
    }
    d
  }

  lemma MetadataKeysDistinct()
    ensures forall i, j :: 0 <= i < j < |MetadataKeys| ==> MetadataKeys[i] != MetadataKeys[j]
  {
    assert "license" != "version" by {
      assert "license"[0] != "version"[0];
    }
    assert "allowed_tools" != "compatibility" by {
      assert "allowed_tools"[0] != "compatibility"[0];
    }
  }

  /** The value under each key of `to_dict` is the field of that name. */
  lemma ToDictEntries(m: SkillMetadata)
    ensures var d := ToDict(m);
      && d.entries.Keys ==
           {"name", "description", "license", "version", "author", "allowed_tools", "compatibility", "metadata"}
      && d.entries["name"] == Str(m.name) && d.entries["description"] == Str(m.description)
      && d.entries["license"] == m.license && d.entries["version"] == m.version
      && d.entries["author"] == m.author && d.entries["allowed_tools"] == m.allowedTools
      && d.entries["compatibility"] == m.compatibility && d.entries["metadata"] == Map(m.metadata)
  {
    MetadataKeysDistinct();
    assert MetadataKeys[2] == "license" && MetadataKeys[3] == "version";
    assert MetadataKeys[5] == "allowed_tools" && MetadataKeys[6] == "compatibility";
  }

  /** Nothing of the metadata is lost by `to_dict`: equal dicts come from equal metadata. */
  lemma ToDictInjective(m1: SkillMetadata, m2: SkillMetadata)
    requires ToDict(m1) == ToDict(m2)
    ensures m1 == m2
  {
    var d1, d2 := ToDict(m1), ToDict(m2);
    ToDictEntries(m1);
    ToDictEntries(m2);
    assert d1.entries["name"] == d2.entries["name"];
    assert d1.entries["description"] == d2.entries["description"];
    assert d1.entries["metadata"] == d2.entries["metadata"];
  }

  datatype SkillScript = SkillScript(name: string, content: string, path: string, language: string)

  datatype SkillReference = SkillReference(name: string, content: string, path: string)

  datatype Skill = Skill(
    metadata: SkillMetadata,
    instructions: string,
    path: string,
    scripts: Dict<string, SkillScript>,
    references: Dict<string, SkillReference>,
    assets: seq<string>)
  {
    ghost predicate Valid()
    {
      scripts.Valid() && references.Valid()
    }

    /** `full_content`: the instructions. */
    function FullContent(): string
    {
      instructions
    }

    /** `get_reference(name)` */
    function GetReference(name: string): (r: Option<SkillReference>)
      ensures r.Some? <==> name in references.entries
      ensures r.Some? ==> r.value == references.entries[name]
    {
      references.Get(name)
    }

    /** `get_script(name)` */
    function GetScript(name: string): (r: Option<SkillScript>)
      ensures r.Some? <==> name in scripts.entries
      ensures r.Some? ==> r.value == scripts.entries[name]
    {
      scripts.Get(name)
    }

    /** `list_reference_names()`: the keys, in insertion order. */
    function ListReferenceNames(): seq<string>
    {
      references.keys
    }

    /** `list_script_names()` */
    function ListScriptNames(): seq<string>
    {
      scripts.keys
    }
  }

  /** `Skill(metadata, instructions, path)` with empty scripts, references and assets. */
  function NewSkill(metadata: SkillMetadata, instructions: string, path: string): (s: Skill)
    ensures s.Valid()
    ensures s.metadata == metadata && s.FullContent() == instructions && s.path == path
    ensures s.ListScriptNames() == [] && s.ListReferenceNames() == [] && s.assets == []
  {
    Skill(metadata, instructions, path, Empty(), Empty(), [])
  }

  /** The listed names are exactly the names `get_reference` / `get_script` find, each once. */
  lemma ListedNamesAreLookups(s: Skill, name: string)
    requires s.Valid()
    ensures name in s.ListReferenceNames() <==> s.GetReference(name).Some?
    ensures name in s.ListScriptNames() <==> s.GetScript(name).Some?
    ensures forall i, j :: 0 <= i < j < |s.ListReferenceNames()| ==>
      s.ListReferenceNames()[i] != s.ListReferenceNames()[j]
  {
    if name in s.references.keys {
      var i :| 0 <= i < |s.references.keys| && s.references.keys[i] == name;
    }
    if name in s.references.entries {
      var i :| 0 <= i < |s.references.keys| && s.references.keys[i] == name;
    }
    if name in s.scripts.keys {
      var i :| 0 <= i < |s.scripts.keys| && s.scripts.keys[i] == name;
    }
    if name in s.scripts.entries {
      var i :| 0 <= i < |s.scripts.keys| && s.scripts.keys[i] == name;
    }
  }
}
