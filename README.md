# llm-skills-manager — a Dafny model of the skill pipeline

llm-skills-manager loads *skills* from disk and uses them to steer a chat-completion backend.
A skill is a directory holding a `SKILL.md` file: YAML frontmatter (name, description, optional
fields) followed by Markdown instructions, plus optional `scripts/`, `references/` and
`assets/` sub-directories. The pipeline:

- reads and validates skills from the file system;
- keeps them in a name-keyed registry;
- picks the skill that fits a user request, either by asking the backend or by counting keywords;
- builds a system prompt, the message list and, in function-calling mode, tool definitions;
- makes the completion call.

Two helper functions create a template skill directory and validate one.

This project models that pipeline in Dafny, one module per source file:

| module | file | models |
|---|---|---|
| `Skills` | skill.dfy | the skill entities (`skill_manager/core/entities/skill.py`) |
| `Messages` | message.dfy | chat messages and roles (`skill_manager/core/entities/message.py`) |
| `LlmBackend` | backend.dfy | the backend interface (`skill_manager/core/interfaces/llm_backend.py`) |
| `Frontmatter` | frontmatter.dfy | the frontmatter regular expression of the loader, including backtracking |
| `SkillLoader` | skill_loader.dfy | `FilesystemSkillLoader` (`skill_manager/core/services/skill_loader.py`) |
| `SkillMatcher` | skill_matcher.dfy | the semantic and keyword matchers (`skill_manager/core/services/skill_matcher.py`) |
| `PromptBuilder` | prompt_builder.dfy | both prompt builders (`skill_manager/core/services/prompt_builder.py`) |
| `SkillExecutor` | skill_executor.dfy | both executors (`skill_manager/core/services/skill_executor.py`) |
| `Facade` | skill_manager.dfy | the `SkillManager` facade (`skill_manager/facades/skill_manager.py`) |
| `SkillUtils` | utils.dfy | `create_skill_template` and `validate_skill` (`skill_manager/utils.py`) |

Supporting modules:

- `Wrappers`: Option and Result.
- `Errors`: the Python exception classes that can escape.
- `Text`: the Python `str` operations used — `strip`, ASCII `lower`, `in`, `join`, `replace`.
- `Dicts`: an insertion-ordered Python dict. Overwriting a key keeps its position.
- `Values`: YAML/JSON values with Python truthiness and `len`.
- `FileTree`: an in-memory directory tree with pathlib's `suffix` and `stem`.

Modelling choices:

- **File system.** It is a value (`FileTree.Node`), so reading a skill is a function of the tree.
  The YAML parser is a function parameter (`SkillLoader.YamlLoad`); `None` stands for a YAML error.
- **Backend.** It is a function from a request to text or an error (`LlmBackend.Backend`).
  Every service returns a `Run`: the result together with the list of backend calls it made.
  Contracts therefore state how many calls are made and with which arguments.
- **Keyword matcher.** `ExactSkillMatcher` keeps its keyword lists in a mutable field, so it is a
  `class`.
- **Facade.** `SkillManager` keeps its registry in a mutable field, so it is a `class`.
- **Loops.** The loops of the loader (directory scans, batch loading), of the keyword matcher
  and of the facade's default loading are `method`s with loop invariants. Each is proved equal
  to a specification function, and the properties are lemmas about those functions.

## Model

| member | source | states |
|---|---|---|
| `Dicts.Dict.Put` | skill_manager/facades/skill_manager.py:94 | assigning a key in a Python dict: the key maps to the new value, other keys are untouched, and a new key is appended to the iteration order while an existing key keeps its place |
| `Dicts.Dict.Values` | skill_manager/facades/skill_manager.py:111 | `dict.values()` lists the value of each key in insertion order |
| `Values.OrProperties` | skill_manager/core/services/skill_loader.py:142-144 | Python's `a or b` yields one of its operands, is truthy exactly when either operand is, is associative, and `a or a` is `a` |
| `Values.LenOf` | skill_manager/core/services/skill_loader.py:121 | `len()` is defined exactly on strings, lists and mappings; any other YAML value raises |
| `FileTree.Lookup` | skill_manager/core/services/skill_loader.py:59-60 | a directory entry is found exactly when some entry has that name, and the node returned is that entry's |
| `FileTree.LastDot` | skill_manager/core/services/skill_loader.py:158 | the position pathlib splits a suffix at is a dot with no dot after it |
| `FileTree.StemSuffix` | skill_manager/core/services/skill_loader.py:158-165 | a file name is its stem followed by its suffix |
| `FileTree.SetEntry` | skill_manager/utils.py:48 | writing an entry makes that name resolve to the new node and leaves every other name resolving as before |
| `Text.TrimStart` | skill_manager/core/services/skill_loader.py:106 | the left half of `str.strip()`: a suffix of the input whose removed prefix is white space and which does not start with white space |
| `Text.TrimEnd` | skill_manager/core/services/skill_loader.py:106 | the right half of `str.strip()`: a prefix of the input whose removed suffix is white space and which does not end with white space |
| `Text.StripSpaceAround` | skill_manager/core/services/skill_loader.py:106 | white space added around a text does not change what `strip()` returns |
| `Text.StripEnds` | skill_manager/core/services/skill_matcher.py:89 | a stripped string neither starts nor ends with white space |
| `Text.LowerProperties` | skill_manager/core/services/skill_matcher.py:89 | `lower()` is idempotent, distributes over concatenation, and leaves a string without capitals unchanged |
| `Text.LowerNoUpper` | skill_manager/core/services/skill_matcher.py:89 | no upper-case letter survives `lower()` |
| `Text.ReplaceCharProperties` | skill_manager/core/services/prompt_builder.py:133 | after `replace(a, b)` no `a` is left, a string without `a` is unchanged, and replacing `b` back by `a` restores a string that had no `b` |
| `Text.RemoveChar` | skill_manager/core/services/skill_matcher.py:89 | `replace(c, '')` leaves no `c`, adds no character, never lengthens the string, and leaves a string without `c` unchanged |
| `Text.RemoveCharConcat` | skill_manager/core/services/skill_matcher.py:89 | removing a character from a concatenation removes it from each part and keeps the parts in order |
| `Text.StripUnpadded` | skill_manager/core/services/skill_matcher.py:89 | a string that neither starts nor ends with white space is its own `strip()` |
| `Text.JoinContainsPart` | skill_manager/core/services/prompt_builder.py:81 | every part of a `join` occurs in the joined text |
| `Skills.NewMetadata` | skill_manager/core/entities/skill.py:18-25 | a metadata record built from name and description has every optional field `None` and empty extra metadata |
| `Skills.ToDict` | skill_manager/core/entities/skill.py:27-38 | `to_dict` has exactly the eight keys, in declaration order |
| `Skills.ToDictEntries` | skill_manager/core/entities/skill.py:27-38 | `to_dict` has exactly the eight field names as keys, and each key holds the field of that name |
| `Skills.ToDictInjective` | skill_manager/core/entities/skill.py:27-38 | `to_dict` loses nothing: two records with the same dict are equal |
| `Skills.Skill.GetReference` | skill_manager/core/entities/skill.py:86-88 | a reference is returned exactly when its key is stored, and it is the stored one |
| `Skills.Skill.GetScript` | skill_manager/core/entities/skill.py:90-92 | a script is returned exactly when its key is stored, and it is the stored one |
| `Skills.NewSkill` | skill_manager/core/entities/skill.py:74-84 | a skill built with defaults has no scripts, references or assets, and its full content is its instructions |
| `Skills.ListedNamesAreLookups` | skill_manager/core/entities/skill.py:86-100 | a name is listed exactly when `get_reference`/`get_script` finds it, and listed names are distinct |
| `Messages.Role.Value` | skill_manager/core/entities/message.py:10-14 | a role's value is one of the three role strings |
| `Messages.RoleOf` | skill_manager/core/entities/message.py:10-14 | `MessageRole(s)` succeeds exactly on the three role strings, inverts `value`, and otherwise raises ValueError with Python's message |
| `Messages.RoleValueRoundTrip` | skill_manager/core/entities/message.py:10-14 | every role is recovered from its value |
| `Messages.ToDict` | skill_manager/core/entities/message.py:27-29 | `to_dict` has exactly the keys `role` and `content`, holding the role's value and the content |
| `Messages.ToLlmFormat` | skill_manager/core/entities/message.py:39-41 | the LLM format is the same dict as `to_dict` |
| `Messages.FromDict` | skill_manager/core/entities/message.py:31-37 | a missing `role` raises KeyError and an unknown role raises the role's ValueError |
| `Messages.FromDictToDict` | skill_manager/core/entities/message.py:27-37 | `from_dict(to_dict(m)) == m` for every message |
| `Messages.ToDictFromDict` | skill_manager/core/entities/message.py:27-37 | an accepted dict has both keys, and `to_dict` gives back its `role` and `content`, the whole dict when it has no other keys |
| `Messages.FromDictAccepts` | skill_manager/core/entities/message.py:31-37 | `from_dict` succeeds exactly when both keys are present and the role is one of the three strings |
| `Frontmatter.RunEnd` | skill_manager/core/services/skill_loader.py:48 | a greedy `\s*` run stays inside the text |
| `Frontmatter.FindClose` | skill_manager/core/services/skill_loader.py:48 | the lazy `(.*?)` stops only where `\n---\s*\n` matches |
| `Frontmatter.FindCloseFirst` | skill_manager/core/services/skill_loader.py:48 | the lazy group stops at the first closing fence, never after it |
| `Frontmatter.TryOpen` | skill_manager/core/services/skill_loader.py:48 | backtracking the greedy `\s*\n` after `---` picks the latest newline from which a closing fence is reachable, and finds none only when no newline qualifies |
| `Frontmatter.MatchAt` | skill_manager/core/services/skill_loader.py:47-50 | group 1 of a match is the text between the opening newline and the first closing fence after it |
| `Frontmatter.Opening` | skill_manager/core/services/skill_loader.py:47-50 | an opening newline follows `---` and can reach a closing fence |
| `Frontmatter.MatchIsShape` | skill_manager/core/services/skill_loader.py:47-50 | the pattern matches exactly the texts of the shape `---`, white space, newline, block, closing fence; the match opens at the latest possible newline and closes at the first fence after it |
| `Frontmatter.MatchShape` | skill_manager/core/services/skill_loader.py:47-50 | a match has that shape, with group 1 running to the first closing fence |
| `Frontmatter.MatchLatest` | skill_manager/core/services/skill_loader.py:47-50 | no decomposition of that shape opens later than the match |
| `Frontmatter.NoMatchNoShape` | skill_manager/core/services/skill_loader.py:101-103 | when the pattern fails, no decomposition of that shape exists |
| `Frontmatter.RestIsTailAfterFence` | skill_manager/core/services/skill_loader.py:105-106 | group 2 after `strip()` is the stripped text after the closing `---` |
| `Frontmatter.MatchWritten` | skill_manager/core/services/skill_loader.py:47-50 | a file written as `---\n` + block + `\n---` + body is read back with that block, and with that body after stripping |
| `SkillLoader.CheckName` | skill_manager/core/services/skill_loader.py:119-124 | a name is accepted exactly when it is a string of at most 64 characters matching the name regex; each failure raises the source's own message |
| `SkillLoader.TrailingNewlineAccepted` | skill_manager/core/services/skill_loader.py:123 | the regex's `$` accepts one trailing newline, so `"a\n"` is a valid name |
| `SkillLoader.NameExamples` | skill_manager/core/services/skill_loader.py:119-124 | sample names: `a`, `a1-b2` and `skill-name` pass; `Skill`, `-abc` and the empty name fail; 65 characters fail on length |
| `SkillLoader.CheckDescription` | skill_manager/core/services/skill_loader.py:126-129 | a description is accepted exactly when it is a string of at most 1024 characters (corrected; see Findings) |
| `SkillLoader.DescriptionCheckDiffers` | skill_manager/core/services/skill_loader.py:126-129 | the check as written accepts a two-item list, which the corrected check rejects; on strings the two agree |
| `SkillLoader.ExtraFields` | skill_manager/core/services/skill_loader.py:132-136 | the extra metadata is exactly the fields outside the nine known ones, with their values |
| `SkillLoader.MergeMetadata` | skill_manager/core/services/skill_loader.py:146 | `{**nested, **extra}`: extra fields win over the nested `metadata` mapping, and the nested mapping fills the rest |
| `SkillLoader.ParseFields` | skill_manager/core/services/skill_loader.py:113-149 | a missing name or description raises its own message, and an accepted record carries a valid name and description taken from the mapping, with the body as instructions |
| `SkillLoader.ParsePrecedence` | skill_manager/core/services/skill_loader.py:138-147 | `license` and `compatibility` are copied; `version` and `author` fall back to the nested mapping when falsy; `allowed-tools` falls back to `allowed_tools`; the metadata map is the merge |
| `SkillLoader.ParseContent` | skill_manager/core/services/skill_loader.py:99-149 | no frontmatter raises the source's ValueError; an accepted file has a valid name and description, and its instructions are the stripped group 2 |
| `SkillLoader.ParseContentStructure` | skill_manager/core/services/skill_loader.py:105-111 | malformed YAML raises, non-mapping YAML raises "Invalid YAML frontmatter", and a mapping is checked field by field; the instructions are the stripped text after the fence |
| `SkillLoader.LanguageOf` | skill_manager/core/services/skill_loader.py:158-168 | the language follows the lower-cased suffix: `.py`, `.sh` and `.js` map to python, bash and javascript, anything else to unknown |
| `SkillLoader.LanguageExamples` | skill_manager/core/services/skill_loader.py:158-168 | suffixes are matched without regard to case, and a dot-file or a name without a dot has no suffix |
| `SkillLoader.ScriptOf` | skill_manager/core/services/skill_loader.py:164-169 | a script record has the file's stem as name, its content, its joined path and the language of its suffix |
| `SkillLoader.ScriptsCollected` | skill_manager/core/services/skill_loader.py:156-164 | a name is a script key exactly when a file of that name is in `scripts/` |
| `SkillLoader.ScriptsLastWins` | skill_manager/core/services/skill_loader.py:164 | a script key holds the record of the last file of that name in listing order |
| `SkillLoader.ScriptsOf` | skill_manager/core/services/skill_loader.py:151-170 | with no `scripts` entry the scripts dict is empty |
| `SkillLoader.LoadScripts` | skill_manager/core/services/skill_loader.py:151-170 | the scanning loop computes exactly `ScriptsOf` |
| `SkillLoader.ReferenceOf` | skill_manager/core/services/skill_loader.py:181-185 | a reference record has the file's stem as name, its content and its joined path |
| `SkillLoader.ReferencesCollected` | skill_manager/core/services/skill_loader.py:177-185 | a name is a key from `references/` exactly when a `.md` file of that name, suffix compared without case, is there |
| `SkillLoader.ReferencesLastWins` | skill_manager/core/services/skill_loader.py:181 | a reference key holds the record of the last qualifying file of that name |
| `SkillLoader.RootMarkdownKeeps` | skill_manager/core/services/skill_loader.py:188-194 | root Markdown files never overwrite a reference from `references/`; every added key is a root `*.md` file other than `SKILL.md` |
| `SkillLoader.RootMarkdownAdds` | skill_manager/core/services/skill_loader.py:188-194 | every root `*.md` file other than `SKILL.md` ends up as a key |
| `SkillLoader.ReferencesOf` | skill_manager/core/services/skill_loader.py:172-196 | the references dict keeps every key in the iteration order |
| `SkillLoader.LoadReferences` | skill_manager/core/services/skill_loader.py:172-196 | the loop over `references/` followed by the root scan computes exactly `ReferencesOf` |
| `SkillLoader.AddRootReferences` | skill_manager/core/services/skill_loader.py:188-194 | the loop over the root glob computes exactly the root-Markdown step, stopping at the first error |
| `SkillLoader.AssetsOf` | skill_manager/core/services/skill_loader.py:198-204 | with no `assets` entry the list is empty; otherwise it is the joined path of every entry, in listing order |
| `SkillLoader.LoadSkillSpec` | skill_manager/core/services/skill_loader.py:57-81 | a missing SKILL.md raises FileNotFoundError with the source's message; a loaded skill keeps its path and carries exactly the metadata and instructions parsed from SKILL.md |
| `SkillLoader.LoadSkill` | skill_manager/core/services/skill_loader.py:57-81 | `load_skill` computes exactly `LoadSkillSpec` |
| `SkillLoader.LoadAll` | skill_manager/core/services/skill_loader.py:85-97 | the batch loader returns at most one skill per directory entry |
| `SkillLoader.LoadAllConcat` | skill_manager/core/services/skill_loader.py:87-95 | entries are handled independently: loading two listings is loading each in turn |
| `SkillLoader.LoadAllMembers` | skill_manager/core/services/skill_loader.py:87-95 | a skill is returned exactly when some sub-directory with a SKILL.md loads to it; failures are skipped |
| `SkillLoader.LoadSkillsFromDirectorySpec` | skill_manager/core/services/skill_loader.py:83-97 | a directory yields the batch result without raising; a missing base directory raises |
| `SkillLoader.LoadSkillsFromDirectory` | skill_manager/core/services/skill_loader.py:83-97 | the loop, with its per-entry `try`, computes exactly `LoadSkillsFromDirectorySpec` |
| `SkillLoader.LoadEntry` | skill_manager/core/services/skill_loader.py:88-95 | one loop iteration: a sub-directory with SKILL.md is loaded, and an exception drops it |
| `SkillMatcher.SkillNamed` | skill_manager/core/services/skill_matcher.py:95-96 | the `{name: skill}` lookup finds a candidate of that name, and finds nothing exactly when no candidate has it |
| `SkillMatcher.SkillNamedLast` | skill_manager/core/services/skill_matcher.py:95 | with duplicate names the dict comprehension keeps the last candidate |
| `SkillMatcher.MatchPromptMentions` | skill_manager/core/services/skill_matcher.py:74-82 | the matching prompt lists every candidate and quotes the user request |
| `SkillMatcher.Normalize` | skill_manager/core/services/skill_matcher.py:89 | the cleaned reply has no quotes, no upper-case letters and no surrounding white space |
| `SkillMatcher.NormalizeWrapped` | skill_manager/core/services/skill_matcher.py:89 | a reply that is a quote-free text, optionally wrapped in one kind of quote and in white space, cleans to that text lower-cased |
| `SkillMatcher.NormalizeFixed` | skill_manager/core/services/skill_matcher.py:89 | a text with no quotes, no capitals and no white space at its ends is left as it is |
| `SkillMatcher.NormalizeName` | skill_manager/core/services/skill_matcher.py:89 | every valid skill name cleans to itself |
| `SkillMatcher.SemanticMatch` | skill_manager/core/services/skill_matcher.py:57-96 | no candidates means no backend call and no match; otherwise exactly one call is made, and any match is one of the candidates (corrected; see Findings) |
| `SkillMatcher.SemanticMatchResult` | skill_manager/core/services/skill_matcher.py:84-96 | a backend error propagates; otherwise the match is the candidate named by the cleaned reply, and there is none exactly when the reply is `none` or names no candidate |
| `SkillMatcher.MatchRequestShape` | skill_manager/core/services/skill_matcher.py:85-86 | the matching call sends one user message with the prompt, and no system prompt or tools |
| `SkillMatcher.SemanticMatchNamedReply` | skill_manager/core/services/skill_matcher.py:89-96 | a reply giving a valid skill name, possibly quoted and padded, yields the last candidate of that name, None when no candidate has it, and None for the name `none` even when a candidate has it |
| `SkillMatcher.SemanticMatchNoneReply` | skill_manager/core/services/skill_matcher.py:89-92 | a reply of `none` in any letter case, possibly quoted and padded, matches nothing |
| `SkillMatcher.SemanticMatchAsWritten` | skill_manager/core/services/skill_matcher.py:57-96 | as written, the matcher never reaches the backend |
| `SkillMatcher.SemanticMatchAsWrittenNeverMatches` | skill_manager/core/services/skill_matcher.py:85-86 | as written, every non-empty candidate list raises, while the corrected matcher calls the backend once and, when the reply is the first candidate's valid name other than `none`, returns a candidate of that name (the last one carrying it) |
| `SkillMatcher.KeywordHits` | skill_manager/core/services/skill_matcher.py:151-154 | one point per keyword found, so at most one per keyword |
| `SkillMatcher.KeywordHitsConcat` | skill_manager/core/services/skill_matcher.py:151-154 | the hits of an extended keyword list are the old hits plus the hits of the new words |
| `SkillMatcher.Score` | skill_manager/core/services/skill_matcher.py:142-156 | the score carries a 10-point bonus exactly when the name occurs in the input, plus the keyword hits, and is at most 10 plus the number of keywords |
| `SkillMatcher.ScanIsArgmax` | skill_manager/core/services/skill_matcher.py:131-140 | the scan's best score bounds every score, is zero exactly when nothing is chosen, and a chosen skill is the first one with that score |
| `SkillMatcher.KeywordMatchBest` | skill_manager/core/services/skill_matcher.py:121-140 | no match exactly when every score is zero; otherwise the match has the highest score, and ties go to the earliest skill |
| `SkillMatcher.ExactSkillMatcher.constructor` | skill_manager/core/services/skill_matcher.py:108-113 | the matcher starts with the given keyword lists |
| `SkillMatcher.ExactSkillMatcher.AddKeywords` | skill_manager/core/services/skill_matcher.py:115-119 | the skill's keyword list is extended by the words, created empty first if absent; other lists are unchanged |
| `SkillMatcher.AddKeywordsScore` | skill_manager/core/services/skill_matcher.py:115-119 | adding keywords raises that skill's score by exactly the hits of the new words and leaves other skills' scores unchanged |
| `SkillMatcher.ExactSkillMatcher.CalculateScore` | skill_manager/core/services/skill_matcher.py:142-156 | the scoring loop computes exactly `Score` |
| `SkillMatcher.ExactSkillMatcher.Match` | skill_manager/core/services/skill_matcher.py:121-140 | the matching loop computes exactly the keyword match, the best-scoring skill characterised by `KeywordMatchBest` |
| `SkillMatcher.MatchWith` | skill_manager/facades/skill_manager.py:190-196 | the keyword matcher makes no backend call; the semantic matcher behaves as `SemanticMatch` |
| `PromptBuilder.BuildMessages` | skill_manager/core/services/prompt_builder.py:59-67 | the messages are the history, unchanged, followed by one user message with the input |
| `PromptBuilder.SkillPromptWithoutReferences` | skill_manager/core/services/prompt_builder.py:69-81 | without references the prompt is the heading, a newline and the instructions |
| `PromptBuilder.SkillPromptWithReferences` | skill_manager/core/services/prompt_builder.py:69-81 | with references requested and present, the header and every reference section are joined after the instructions |
| `PromptBuilder.SkillPromptMentionsReference` | skill_manager/core/services/prompt_builder.py:76-79 | with references shown, every stored reference's section occurs in the prompt |
| `PromptBuilder.BuildAvailableSkillsPrompt` | skill_manager/core/services/prompt_builder.py:83-95 | there is no catalogue prompt exactly when there are no skills |
| `PromptBuilder.CatalogShape` | skill_manager/core/services/prompt_builder.py:83-95 | the catalogue is header, intro, entries and closing joined by newlines, and mentions every skill |
| `PromptBuilder.BuildSystemPrompt` | skill_manager/core/services/prompt_builder.py:47-114 | the tool-call builder always returns its fixed prompt; the system builder returns the chosen skill's prompt, or else the catalogue |
| `PromptBuilder.SystemPromptIndependence` | skill_manager/core/services/prompt_builder.py:47-114 | with a chosen skill the catalogue is ignored, and the tool-call builder ignores all of its arguments |
| `PromptBuilder.SystemPromptAbsent` | skill_manager/core/services/prompt_builder.py:47-86 | a system prompt is missing exactly for the system builder with no skill chosen and no skills |
| `PromptBuilder.ToolName` | skill_manager/core/services/prompt_builder.py:133 | a tool name is `activate_skill_` followed by the skill name and contains no `-` |
| `PromptBuilder.ToolNameRoundTrip` | skill_manager/core/services/prompt_builder.py:133 | for names without `_`, the skill name is recovered from its tool name |
| `PromptBuilder.ToolsNameTheirSkills` | skill_manager/core/services/prompt_builder.py:126-142 | each entry of the tool list is named after the skill at its position, that skill is recovered from the name, and skills with different names (without `_`) get different tool names |
| `PromptBuilder.ToolDefinitionFields` | skill_manager/core/services/prompt_builder.py:130-141 | a tool definition is a function with the activation name, the skill's description and an empty-object parameter schema |
| `SkillExecutor.SelectSkill` | skill_manager/core/services/skill_executor.py:110-131 | a non-empty name is looked up without calling the backend and raises "Skill not found" exactly when absent; otherwise the matcher runs if auto-matching, and no skill is chosen if not |
| `SkillExecutor.ExplicitNameWins` | skill_manager/core/services/skill_executor.py:119-125 | with a non-empty name the choice ignores the matcher, the backend and the auto-match flag |
| `SkillExecutor.CompletionMessages` | skill_manager/core/services/skill_executor.py:100-107 | the completion call sends the history's dicts followed by the user input |
| `SkillExecutor.ToolsFor` | skill_manager/core/services/skill_executor.py:159-163 | tools are sent exactly when the builder can build them |
| `SkillExecutor.Execute` | skill_manager/core/services/skill_executor.py:73-184 | a result is the backend's answer to the last call made |
| `SkillExecutor.PromptExecutorCalls` | skill_manager/core/services/skill_executor.py:73-108 | a failed selection is returned with no completion call; otherwise one completion call follows the selection's calls, with the built system prompt and no tools; an unknown name makes no call; at most one call is made unless the semantic matcher runs |
| `SkillExecutor.ToolExecutorCalls` | skill_manager/core/services/skill_executor.py:148-184 | the tool executor ignores the auto-match flag and the skill name and makes exactly one call, with the catalogue or fixed prompt and the tool definitions |
| `Facade.PutAll` | skill_manager/facades/skill_manager.py:101-102 | storing a batch keeps the registry keyed by skill name |
| `Facade.PutAllLookup` | skill_manager/facades/skill_manager.py:101-102 | after a batch, a name maps to the last skill of that name in the batch, or else to what it mapped to before |
| `Facade.PutAllConcat` | skill_manager/facades/skill_manager.py:77-88 | storing two batches is storing their concatenation |
| `Facade.DefaultLoadedShape` | skill_manager/facades/skill_manager.py:36-88 | default loading reads `skills` and then `.claude/skills`; a directory that is missing or is a file contributes nothing |
| `Facade.ConvertHistory` | skill_manager/facades/skill_manager.py:127-135 | a converted history has one message per dict, each `from_dict` of its dict; a failure is the error of the first dict that fails |
| `Facade.HistoryArgument` | skill_manager/facades/skill_manager.py:127-135 | an empty history is passed as `None`; a non-empty one is passed as its conversion when that succeeds, and its conversion error is raised otherwise |
| `Facade.ConvertHistoryRoundTrip` | skill_manager/facades/skill_manager.py:127-135 | converting the LLM format of any message list gives the list back |
| `Facade.SkillManager.constructor` | skill_manager/facades/skill_manager.py:41-71 | missing collaborators default to the semantic matcher, the system prompt builder and an executor over those two; with auto-load the registry holds the default directories' skills, otherwise it is empty |
| `Facade.SkillManager.LoadDefaultSkills` | skill_manager/facades/skill_manager.py:77-88 | returns the skills of both default directories in order and stores each under its name |
| `Facade.SkillManager.LoadDirectories` | skill_manager/facades/skill_manager.py:80-88 | the loop over directories returns their skills concatenated and stores them |
| `Facade.SkillManager.LoadDirectory` | skill_manager/facades/skill_manager.py:81-88 | one directory: its skills are returned and stored |
| `Facade.SkillManager.LoadSkill` | skill_manager/facades/skill_manager.py:90-95 | a loaded skill is stored under its name; on an error the registry is unchanged |
| `Facade.SkillManager.LoadSkillsFromDirectory` | skill_manager/facades/skill_manager.py:97-103 | the batch is stored skill by skill; on an error the registry is unchanged |
| `Facade.SkillManager.StoreAll` | skill_manager/facades/skill_manager.py:101-102 | the storing loop leaves the registry as `PutAll` of the batch |
| `Facade.SkillManager.GetSkill` | skill_manager/facades/skill_manager.py:105-107 | a skill is found exactly when its name is stored, and it carries that name |
| `Facade.SkillManager.AllSkills` | skill_manager/facades/skill_manager.py:140 | the stored skills, in insertion order |
| `Facade.SkillManager.ListSkills` | skill_manager/facades/skill_manager.py:109-111 | the metadata of each stored skill in insertion order, each listed under its own key |
| `Facade.SkillManager.Execute` | skill_manager/facades/skill_manager.py:117-145 | a history with an invalid role or a missing key fails before any backend call; otherwise the executor runs on the stored skills |
| `Facade.SkillManager.ExecuteWithTools` | skill_manager/facades/skill_manager.py:147-176 | exactly one call, with the fixed tool-call prompt, the skills' tool definitions followed by the additional tools, and the history plus the input |
| `Facade.SkillManager.GetSkillsSystemPrompt` | skill_manager/facades/skill_manager.py:182-188 | the builder's catalogue prompt, or the empty string when there is none |
| `Facade.SkillManager.MatchSkill` | skill_manager/facades/skill_manager.py:190-196 | the configured matcher runs over the stored skills |
| `Facade.RegistryAfterBatch` | skill_manager/facades/skill_manager.py:97-103 | after a batch, a name maps to the last loaded skill of that name; names not loaded keep their skill |
| `Facade.ListSkillsDistinct` | skill_manager/facades/skill_manager.py:109-111 | no name is listed twice |
| `Facade.EmptyRegistryPrompt` | skill_manager/facades/skill_manager.py:182-188 | with no skills the default builder yields the empty prompt |
| `SkillUtils.MakeDir` | skill_manager/utils.py:37-61 | `mkdir(exist_ok=True)` leaves a directory under the name, fails exactly when a file is in the way, leaves an existing directory exactly as it was, and touches no other name |
| `SkillUtils.WriteText` | skill_manager/utils.py:48-55 | `write_text` leaves a file with the content, fails exactly when a directory is in the way, and touches no other name |
| `SkillUtils.AddScripts` | skill_manager/utils.py:51-55 | the scripts step leaves `scripts/example.py` holding the example script and keeps every other file of `scripts/`; it fails exactly when `scripts` is a file or `scripts/example.py` is a directory |
| `SkillUtils.OptionalDir` | skill_manager/utils.py:57-61 | an optional directory is created only when its flag is set and nothing is there; an existing directory is left as it was |
| `SkillUtils.OptionalScripts` | skill_manager/utils.py:51-55 | the scripts directory is created, with its example, only when its flag is set; other files of `scripts/` are kept |
| `SkillUtils.AddDirs` | skill_manager/utils.py:57-61 | the references and assets directories are created as their flags say where nothing was, existing ones are left as they were, and nothing else changes |
| `SkillUtils.FillSkillDir` | skill_manager/utils.py:40-61 | the skill directory holds SKILL.md with the content and each requested sub-directory |
| `SkillUtils.FillSkillDirKeeps` | skill_manager/utils.py:40-61 | filling keeps every entry other than the four written names, every file of `scripts/` but `example.py`, and any existing `references/` or `assets/` as it was |
| `SkillUtils.CreateSkillTemplate` | skill_manager/utils.py:11-63 | the returned path is the output directory joined with the name; SKILL.md holds the template text; requested sub-directories exist; a file in the way raises |
| `SkillUtils.CreateSkillTemplateKeeps` | skill_manager/utils.py:35-61 | an existing skill directory keeps its other entries and the other files of `scripts/`, and existing optional directories are left as they were |
| `SkillUtils.FreshTemplate` | skill_manager/utils.py:40-61 | in a new directory the template succeeds and each sub-directory exists exactly when requested |
| `SkillUtils.TemplateMatches` | skill_manager/utils.py:41-47 | the template's frontmatter is found, with the name and description lines as the YAML block and the instructions as the body |
| `SkillUtils.TemplateRoundTrip` | skill_manager/utils.py:41-47 | a template with a valid name and a one-line description parses back to that name and description, with the stripped instructions |
| `SkillUtils.ValidateSkill` | skill_manager/utils.py:66-103 | valid exactly when there are no errors, exactly when SKILL.md exists and parses; a missing file reports the source's message and a parse failure reports `Failed to parse SKILL.md: ` with the error's text (see Left out) |

## Left out

- Concrete backends (OpenAI, Anthropic, Google, Ollama), the web app, the examples, logging configuration, the package `__init__` files and the bundled `skills/` scripts are not part of this model.
- Network, HTTP and the backends' own behaviour: a backend is any function from a request to text or an error.
- YAML parsing: the parser is a function parameter. YAML keys are strings. Mapping order of the `metadata` field is not kept, because it is a Dafny `map`.
- YAML scalars: `Values.Value` holds null, booleans, integers, reals, strings, lists and string-keyed maps. The dates, timestamps, binary values, NaN and infinities that `yaml.safe_load` can also produce are not represented.
- Unicode case mapping: `lower()` lowers ASCII letters only. White space is Python's `isspace()` set.
- Path normalisation, symbolic links, permissions and names containing `/`: the tree is a value indexed by entry names, and `glob("*.md")` is matched case-sensitively on the suffix.
- Decoding errors of `read_text`. OS errors carry an errno-style message built from the path, which may differ in detail from the platform's text.
- The `print` of the batch loader's warning, and the semantic matcher's unused `threshold`.
- Aliasing: the keyword matcher stores a non-empty dict from the caller as it is, so a later `add_keywords` would show through the caller's reference. An empty or missing dict is replaced by a fresh one through `keywords or {}`, and then nothing is shared. The model always copies the map.
- Custom loader injection: the facade always loads with the filesystem loader model. Custom matcher, builder and executor objects are limited to the ones the source defines.
- Python's `or` on the constructor's arguments treats a falsy object as missing. Only `None` is modelled as missing.
- Key order inside each tool-definition JSON object.
- Non-string history values: the history is a list of string-to-string maps.
- SkillUtils.CreateSkillTemplate: states the result through the entries of the skill directory, not through the parent directories that `mkdir(parents=True)` creates.
- SkillUtils.ValidateSkill: a YAML syntax error is reported with the fixed text `malformed YAML frontmatter` in place of the parser's own `str(e)`, because the YAML parser is a parameter without error messages. It also applies the corrected description check, so a non-string description such as `[a, b]` is reported as `Failed to parse SKILL.md: description must be a string`, whereas the source returns `(True, [])` for a list of at most 1024 items.
- SkillUtils.CreateSkillTemplate: on an error it returns only the error. The source raises from a later `mkdir` or `write_text` after the skill directory, SKILL.md and maybe `scripts/` were already written, and those stay on disk; the model does not return the partly written tree.
- SkillLoader.LoadSkillsFromDirectorySpec: `base_dir.iterdir()` is outside the `try`, so a missing base directory or a plain file raises. The model keeps this; only the per-skill failures are swallowed.

## Findings

| source | as written | input that shows it | evidently intended | confidence | as-written member | corrected member |
|---|---|---|---|---|---|---|
| skill_manager/core/services/skill_matcher.py:85-86 | builds `IMessage` values, a dataclass with no `to_llm_format` (skill_manager/core/interfaces/llm_backend.py:11-15), and calls `to_llm_format()` on them | any non-empty skill list: the call raises AttributeError, so the backend is never asked and semantic matching never returns a skill | send the prompt as one user message and match the cleaned reply; the executor and facade models (`SkillExecutor.SelectSkill`, `Facade.SkillManager.Execute`, `Facade.SkillManager.MatchSkill`) use this corrected matcher through `SkillMatcher.MatchWith`, whereas the source's default `execute` with skills loaded raises AttributeError before any backend call | not executed | `SkillMatcher.SemanticMatchAsWritten` (shown by `SkillMatcher.SemanticMatchAsWrittenNeverMatches`) | `SkillMatcher.SemanticMatch` |
| skill_manager/core/services/skill_loader.py:126-129 | checks the description only with `len(description) > 1024` | frontmatter `description: [a, b]`: a two-item list passes and becomes the description | a description must be a string of at most 1024 characters | not executed | `SkillLoader.DescriptionAcceptedAsWritten` (shown by `SkillLoader.DescriptionCheckDiffers`) | `SkillLoader.CheckDescription` |
