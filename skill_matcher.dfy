/** Skill matchers (skill_manager/core/services/skill_matcher.py): the backend-driven semantic
    matcher and the keyword scorer. */
module SkillMatcher {
  import opened Wrappers
  import opened Errors
  import opened Text
  import opened Skills
  import opened Messages
  import opened LlmBackend
  import opened SkillLoader

  /** `{s.metadata.name: s for s in skills}.get(name)`: a later skill of the same name replaces
      an earlier one in the comprehension, so the last one is found. */
  function SkillNamed(skills: seq<Skill>, name: string): (r: Option<Skill>)
    ensures r.Some? ==> r.value in skills && r.value.metadata.name == name
    ensures r.None? <==> forall s :: s in skills ==> s.metadata.name != name
    decreases |skills|
  {
    if skills == [] then None
    else
      var last := skills[|skills| - 1];
      if last.metadata.name == name then Some(last)
      else
        var r := SkillNamed(skills[..|skills| - 1], name);
        assert forall s :: s in skills ==> s in skills[..|skills| - 1] || s == last;
        r
  }

  /** Of several skills with that name, the last one is found. */
  lemma {:induction false} SkillNamedLast(skills: seq<Skill>, name: string, i: nat)
    requires i < |skills| && skills[i].metadata.name == name
    requires forall j :: i < j < |skills| ==> skills[j].metadata.name != name
    ensures SkillNamed(skills, name) == Some(skills[i])
    decreases |skills|
  {
    if i < |skills| - 1 {
      SkillNamedLast(skills[..|skills| - 1], name, i);
    }
  }

  // ---------------------------------------------------------------- semantic matching

  /** One `- name: description` line per candidate. */
  function CandidateLines(skills: seq<Skill>): (lines: seq<string>)
    ensures |lines| == |skills|
    ensures forall i :: 0 <= i < |skills| ==>
      lines[i] == "- " + skills[i].metadata.name + ": " + skills[i].metadata.description
  {
    seq(|skills|, i requires 0 <= i < |skills| =>
      "- " + skills[i].metadata.name + ": " + skills[i].metadata.description)
  }

  const PromptHead := "Based on the user's request, determine which skill (if any) is most relevant.\n\nAvailable skills:\n"
  const PromptRequest := "\n\nUser request: "
  const PromptTail :=
    "\n\nRespond with ONLY the skill name (e.g., \"pdf\" or \"docx\") if a skill matches, or \"none\" if no skill is relevant.\nDo not include any explanation."

  /** The matching prompt sent to the backend. */
  function MatchPrompt(userInput: string, skills: seq<Skill>): string
  {
    PromptHead + Join("\n", CandidateLines(skills)) + PromptRequest + userInput + PromptTail
  }

  /** The prompt names every candidate with its description and quotes the user's request. */
  lemma MatchPromptMentions(userInput: string, skills: seq<Skill>, i: nat)
    requires i < |skills|
    ensures Contains(MatchPrompt(userInput, skills),
                     "- " + skills[i].metadata.name + ": " + skills[i].metadata.description)
    ensures Contains(MatchPrompt(userInput, skills), userInput)
  {
    var lines := CandidateLines(skills);
    var j := Join("\n", lines);
    var line := lines[i];
    JoinContainsPart("\n", lines, i);
    ContainsSuffixExtend(PromptHead, j, line);
    ContainsPrefixExtend(PromptHead + j, PromptRequest, line);
    ContainsPrefixExtend(PromptHead + j + PromptRequest, userInput, line);
    ContainsPrefixExtend(PromptHead + j + PromptRequest + userInput, PromptTail, line);
    ContainsAt(userInput, userInput, 0);
    ContainsSuffixExtend(PromptHead + j + PromptRequest, userInput, userInput);
    ContainsPrefixExtend(PromptHead + j + PromptRequest + userInput, PromptTail, userInput);
  }

  /** `response.strip().lower().replace('"', '').replace("'", "").strip()` */
  function Normalize(reply: string): (n: string)
    ensures '"' !in n && '\'' !in n
    ensures forall c :: c in n ==> !('A' <= c <= 'Z')
    ensures n != [] ==> !IsSpace(n[0]) && !IsSpace(n[|n| - 1])
  {
    var lowered := Lower(Strip(reply));
    var unquoted := RemoveChar(RemoveChar(lowered, '"'), '\'');
    assert forall c :: c in unquoted ==> c != '"' && !('A' <= c <= 'Z') by {
      LowerNoUpper(Strip(reply));
    }
    StripKeepsChars(unquoted);
    StripEnds(unquoted);
    Strip(unquoted)
  }

  /** A quote mark: `"` or `'`, or nothing. */
  predicate IsQuote(q: string)
  {
    q == [] || q == ['"'] || q == ['\'']
  }

  lemma QuotedUnpadded(q: string, t: string)
    requires IsQuote(q)
    requires t != [] && !IsSpace(t[0]) && !IsSpace(t[|t| - 1])
    ensures var inner := q + t + q; !IsSpace(inner[0]) && !IsSpace(inner[|inner| - 1])
  {
    var inner := q + t + q;
    if q == [] {
      assert inner == t;
    } else {
      assert inner[0] == q[0] == inner[|inner| - 1];
    }
  }

  lemma StripWrapped(w1: string, q: string, t: string, w2: string)
    requires AllSpace(w1) && AllSpace(w2) && IsQuote(q)
    requires t != [] && !IsSpace(t[0]) && !IsSpace(t[|t| - 1])
    ensures Strip(w1 + q + t + q + w2) == q + t + q
  {
    var inner := q + t + q;
    assert w1 + q + t + q + w2 == w1 + inner + w2;
    StripSpaceAround(w1, inner, w2);
    QuotedUnpadded(q, t);
    StripUnpadded(inner);
  }

  /** Lower-casing keeps white space, quotes and everything else that is not a capital letter. */
  lemma LowerKeepsShape(q: string, t: string)
    requires IsQuote(q)
    requires t != [] && !IsSpace(t[0]) && !IsSpace(t[|t| - 1])
    requires '"' !in t && '\'' !in t
    ensures Lower(q + t + q) == q + Lower(t) + q
    ensures Lower(t) != [] && !IsSpace(Lower(t)[0]) && !IsSpace(Lower(t)[|t| - 1])
    ensures '"' !in Lower(t) && '\'' !in Lower(t)
  {
    LowerProperties(q + t, q);
    LowerProperties(q, t);
    assert Lower(q) == q;
    var lt := Lower(t);
    forall i | 0 <= i < |t| ensures lt[i] != '"' && lt[i] != '\'' && (IsSpace(lt[i]) <==> IsSpace(t[i])) {
      LowerCharCases(t[i]);
    }
  }

  /** Removing both quote marks unwraps a quote-free text. */
  lemma RemoveQuotesWrapped(q: string, u: string)
    requires IsQuote(q) && '"' !in u && '\'' !in u
    ensures RemoveChar(RemoveChar(q + u + q, '"'), '\'') == u
  {
    RemoveCharConcat(q + u, q, '"');
    RemoveCharConcat(q, u, '"');
    var q1 := RemoveChar(q, '"');
    assert q1 == [] || q1 == ['\''];
    RemoveCharConcat(q1 + u, q1, '\'');
    RemoveCharConcat(q1, u, '\'');
  }

  /** A reply that is an unquoted, unpadded text `t`, possibly wrapped in one kind of quote and
      in white space, normalises to `t` lower-cased. */
  lemma NormalizeWrapped(w1: string, q: string, t: string, w2: string)
    requires AllSpace(w1) && AllSpace(w2) && IsQuote(q)
    requires t != [] && !IsSpace(t[0]) && !IsSpace(t[|t| - 1])
    requires '"' !in t && '\'' !in t
    ensures Normalize(w1 + q + t + q + w2) == Lower(t)
  {
    StripWrapped(w1, q, t, w2);
    LowerKeepsShape(q, t);
    RemoveQuotesWrapped(q, Lower(t));
    StripUnpadded(Lower(t));
  }

  /** A valid skill name holds neither quotes nor capitals, and does not start or end with
      white space. */
  lemma SkillNameUnquoted(name: string)
    requires IsSkillName(name)
    ensures '"' !in name && '\'' !in name
    ensures forall c :: c in name ==> !('A' <= c <= 'Z')
    ensures !IsSpace(name[0]) && !IsSpace(name[|name| - 1])
  {
    forall i | 0 <= i < |name| ensures IsNameChar(name[i]) || name[i] == '-' {
      if i == 0 || i == |name| - 1 {
      }
    }
  }

  /** A valid skill name is its own normalisation. */
  lemma NormalizeName(name: string)
    requires IsSkillName(name)
    ensures Normalize(name) == name
  {
    SkillNameUnquoted(name);
    NormalizeFixed(name);
  }

  /** A text with no quotes and no capitals that does not start or end with white space is its
      own normalisation. */
  lemma NormalizeFixed(s: string)
    requires s != [] && !IsSpace(s[0]) && !IsSpace(s[|s| - 1])
    requires '"' !in s && '\'' !in s
    requires forall c :: c in s ==> !('A' <= c <= 'Z')
    ensures Normalize(s) == s
  {
    LowerProperties(s, []);
    var e: string := [];
    assert e + e + s + e + e == s;
    NormalizeWrapped(e, e, s, e);
  }

  /** The request the corrected matcher sends: one user message holding the prompt. */
  function MatchRequest(userInput: string, skills: seq<Skill>): Request
  {
    Request([ToLlmFormat(Message(User, MatchPrompt(userInput, skills)))], None, None)
  }

  /** `SemanticSkillMatcher.match` as evidently intended: no call for an empty list, else one
      call whose normalised reply is looked up by name. */
  function SemanticMatch(userInput: string, skills: seq<Skill>, backend: Backend): (run: Run<Option<Skill>>)
    ensures skills == [] ==> run == Run(Ok(None), [])
    ensures skills != [] ==> run.calls == [MatchRequest(userInput, skills)]
    ensures run.result.Ok? && run.result.value.Some? ==> run.result.value.value in skills
  {
    if skills == [] then Run(Ok(None), [])
    else
      var request := MatchRequest(userInput, skills);
      match backend(request)
      case Err(e) => Run(Err(e), [request])
      case Ok(reply) =>
        var name := Normalize(reply);
        if name == "none" then Run(Ok(None), [request])
        else Run(Ok(SkillNamed(skills, name)), [request])
  }

  /** The semantic result is a candidate named as the normalised reply says, `none` or an
      unknown name give None, and a backend failure is passed on. */
  lemma SemanticMatchResult(userInput: string, skills: seq<Skill>, backend: Backend)
    requires skills != []
    ensures var run := SemanticMatch(userInput, skills, backend);
      var reply := backend(MatchRequest(userInput, skills));
      && (reply.Err? ==> run.result == Err(reply.error))
      && (reply.Ok? ==> run.result.Ok?)
      && (reply.Ok? && run.result.value.Some? ==>
            run.result.value.value.metadata.name == Normalize(reply.value) != "none")
      && (reply.Ok? ==>
            (run.result.value.None? <==>
              Normalize(reply.value) == "none" || forall s :: s in skills ==> s.metadata.name != Normalize(reply.value)))
  {
  }

  /** A reply naming a valid skill name, possibly quoted and padded, selects the last candidate
      of that name; a name no candidate carries gives None, and so does the name `none` even
      when a candidate carries it. */
  lemma SemanticMatchNamedReply(userInput: string, skills: seq<Skill>, backend: Backend,
                                w1: string, q: string, name: string, w2: string)
    requires skills != [] && IsSkillName(name)
    requires AllSpace(w1) && AllSpace(w2) && IsQuote(q)
    requires backend(MatchRequest(userInput, skills)) == Ok(w1 + q + name + q + w2)
    ensures var run := SemanticMatch(userInput, skills, backend);
      run.result == Ok(if name == "none" then None else SkillNamed(skills, name))
    ensures (exists s :: s in skills && s.metadata.name == name) && name != "none" ==>
      var run := SemanticMatch(userInput, skills, backend);
      run.result.Ok? && run.result.value.Some? && run.result.value.value.metadata.name == name
  {
    SkillNameUnquoted(name);
    NormalizeWrapped(w1, q, name, w2);
    NormalizeName(name);
    assert Normalize(w1 + q + name + q + w2) == name;
  }

  /** A reply of `none` in any letter case, possibly quoted and padded, matches nothing. */
  lemma SemanticMatchNoneReply(userInput: string, skills: seq<Skill>, backend: Backend,
                               w1: string, q: string, t: string, w2: string)
    requires AllSpace(w1) && AllSpace(w2) && IsQuote(q) && Lower(t) == "none"
    requires backend(MatchRequest(userInput, skills)) == Ok(w1 + q + t + q + w2)
    ensures SemanticMatch(userInput, skills, backend).result == Ok(None)
  {
    forall i | 0 <= i < |t| ensures !IsSpace(t[i]) && t[i] != '"' && t[i] != '\'' {
      LowerCharCases(t[i]);
      assert Lower(t)[i] in "none";
    }
    NormalizeWrapped(w1, q, t, w2);
  }

  /** The request holds exactly one message, from the user, carrying the prompt. */
  lemma MatchRequestShape(userInput: string, skills: seq<Skill>)
    ensures var r := MatchRequest(userInput, skills);
      && |r.messages| == 1 && r.messages[0]["role"] == "user"
      && r.messages[0]["content"] == MatchPrompt(userInput, skills)
      && r.systemPrompt.None? && r.tools.None?
  {
  }

  /** `SemanticSkillMatcher.match` as written: the list comprehension calls `to_llm_format()` on
      an `IMessage`, which has no such method, so every non-empty list raises before the backend
      is reached. */
  function SemanticMatchAsWritten(userInput: string, skills: seq<Skill>, backend: Backend): (run: Run<Option<Skill>>)
    ensures run.calls == []
  {
    if skills == [] then Run(Ok(None), [])
    else Run(Err(AttributeError("'IMessage' object has no attribute 'to_llm_format'")), [])
  }

  /** The code as written never consults the backend and never matches a skill, whatever the
      backend would reply; the corrected matcher does both. */
  lemma SemanticMatchAsWrittenNeverMatches(userInput: string, skills: seq<Skill>, backend: Backend)
    requires skills != []
    ensures SemanticMatchAsWritten(userInput, skills, backend).result.Err?
    ensures |SemanticMatch(userInput, skills, backend).calls| == 1
    ensures backend(MatchRequest(userInput, skills)) == Ok(skills[0].metadata.name) &&
            IsSkillName(skills[0].metadata.name) && skills[0].metadata.name != "none" ==>
      SemanticMatch(userInput, skills, backend).result.Ok? &&
      SemanticMatch(userInput, skills, backend).result.value.Some? &&
      SemanticMatch(userInput, skills, backend).result.value.value.metadata.name == skills[0].metadata.name
  {
    var name := skills[0].metadata.name;
    if backend(MatchRequest(userInput, skills)) == Ok(name) && IsSkillName(name) && name != "none" {
      var e: string := [];
      assert e + e + name + e + e == name;
      SemanticMatchNamedReply(userInput, skills, backend, e, e, name, e);
      assert skills[0] in skills;
    }
  }

  // ---------------------------------------------------------------- keyword matching

  /** How many of `words`, lower-cased, occur in `input` (duplicates count). */
  function KeywordHits(words: seq<string>, input: string): (n: nat)
    ensures n <= |words|
    decreases |words|
  {
    if words == [] then 0
    else
      KeywordHits(words[..|words| - 1], input) + (if Contains(input, Lower(words[|words| - 1])) then 1 else 0)
  }

  lemma {:induction false} KeywordHitsConcat(ws1: seq<string>, ws2: seq<string>, input: string)
    ensures KeywordHits(ws1 + ws2, input) == KeywordHits(ws1, input) + KeywordHits(ws2, input)
    decreases |ws2|
  {
    if ws2 == [] {
      assert ws1 + ws2 == ws1;
    } else {
      assert (ws1 + ws2)[..|ws1 + ws2| - 1] == ws1 + ws2[..|ws2| - 1];
      KeywordHitsConcat(ws1, ws2[..|ws2| - 1], input);
    }
  }

  /** `self.keywords.get(name, [])` */
  function KeywordsOf(keywords: map<string, seq<string>>, name: string): seq<string>
  {
    if name in keywords then keywords[name] else []
  }

  /** `_calculate_score`: 10 when the name (not lower-cased) occurs in the lower-cased input, plus
      one per keyword hit. */
  function Score(keywords: map<string, seq<string>>, input: string, skill: Skill): (score: nat)
    ensures Contains(input, skill.metadata.name) <==> score >= 10 + KeywordHits(KeywordsOf(keywords, skill.metadata.name), input)
    ensures score <= 10 + |KeywordsOf(keywords, skill.metadata.name)|
  {
    (if Contains(input, skill.metadata.name) then 10 else 0)
      + KeywordHits(KeywordsOf(keywords, skill.metadata.name), input)
  }

  /** The loop of `match`: the best score so far and the skill that first reached it. */
  function Scan(keywords: map<string, seq<string>>, input: string, skills: seq<Skill>): (best: (nat, Option<Skill>))
    decreases |skills|
  {
    if skills == [] then (0, None)
    else
      var (score, skill) := Scan(keywords, input, skills[..|skills| - 1]);
      var last := skills[|skills| - 1];
      var s := Score(keywords, input, last);
      if s > score then (s, Some(last)) else (score, skill)
  }

  /** What `ExactSkillMatcher.match` returns. */
  function KeywordMatch(keywords: map<string, seq<string>>, userInput: string, skills: seq<Skill>): Option<Skill>
  {
    var (score, skill) := Scan(keywords, Lower(userInput), skills);
    if score > 0 then skill else None
  }

  /** The scan keeps the maximum score, and the earliest skill that reaches it. */
  lemma ScanIsArgmax(keywords: map<string, seq<string>>, input: string, skills: seq<Skill>)
    ensures var (score, skill) := Scan(keywords, input, skills);
      && (forall j :: 0 <= j < |skills| ==> Score(keywords, input, skills[j]) <= score)
      && (score == 0 <==> skill.None?)
      && (score > 0 ==>
            exists i ::
              && 0 <= i < |skills| && skill == Some(skills[i])
              && Score(keywords, input, skills[i]) == score
              && forall j :: 0 <= j < i ==> Score(keywords, input, skills[j]) < score)
  {
    ScanBound(keywords, input, skills);
    ScanNone(keywords, input, skills);
    ScanFirst(keywords, input, skills);
  }

  /** No skill scores above the scan's best. */
  lemma {:induction false} ScanBound(keywords: map<string, seq<string>>, input: string, skills: seq<Skill>)
    ensures forall j :: 0 <= j < |skills| ==> Score(keywords, input, skills[j]) <= Scan(keywords, input, skills).0
    decreases |skills|
  {
    if skills != [] {
      var n := |skills| - 1;
      ScanBound(keywords, input, skills[..n]);
      assert forall j :: 0 <= j < n ==> skills[..n][j] == skills[j];
    }
  }

  /** The scan has a skill exactly when its best score is positive. */
  lemma {:induction false} ScanNone(keywords: map<string, seq<string>>, input: string, skills: seq<Skill>)
    ensures Scan(keywords, input, skills).0 == 0 <==> Scan(keywords, input, skills).1.None?
    decreases |skills|
  {
    if skills != [] {
      ScanNone(keywords, input, skills[..|skills| - 1]);
    }
  }

  /** The scan's skill is the first one that reaches the best score. */
  lemma {:induction false} ScanFirst(keywords: map<string, seq<string>>, input: string, skills: seq<Skill>)
    ensures var (score, skill) := Scan(keywords, input, skills);
      score > 0 ==>
        exists i ::
          && 0 <= i < |skills| && skill == Some(skills[i])
          && Score(keywords, input, skills[i]) == score
          && forall j :: 0 <= j < i ==> Score(keywords, input, skills[j]) < score
    decreases |skills|
  {
    if skills != [] {
      var n := |skills| - 1;
      var pre := skills[..n];
      var (score, skill) := Scan(keywords, input, pre);
      var s := Score(keywords, input, skills[n]);
      if s > score {
        ScanBound(keywords, input, pre);
        assert forall j :: 0 <= j < n ==> pre[j] == skills[j];
        assert Scan(keywords, input, skills) == (s, Some(skills[n]));
      } else if score > 0 {
        ScanFirst(keywords, input, pre);
        var i :| 0 <= i < n && skill == Some(pre[i]) && Score(keywords, input, pre[i]) == score &&
          forall j :: 0 <= j < i ==> Score(keywords, input, pre[j]) < score;
        assert forall j :: 0 <= j < i ==> pre[j] == skills[j];
        assert skill == Some(skills[i]);
      }
    }
  }

  /** Keyword matching returns a skill of maximal score, the earliest on a tie, and None exactly
      when every score is 0 (in particular for an empty list). */
  lemma KeywordMatchBest(keywords: map<string, seq<string>>, userInput: string, skills: seq<Skill>)
    ensures var input := Lower(userInput);
      var r := KeywordMatch(keywords, userInput, skills);
      && (r.None? <==> forall j :: 0 <= j < |skills| ==> Score(keywords, input, skills[j]) == 0)
      && (r.Some? ==>
            exists i ::
              && 0 <= i < |skills| && r.value == skills[i]
              && Score(keywords, input, skills[i]) > 0
              && (forall j :: 0 <= j < |skills| ==> Score(keywords, input, skills[j]) <= Score(keywords, input, skills[i]))
              && (forall j :: 0 <= j < i ==> Score(keywords, input, skills[j]) < Score(keywords, input, skills[i])))
  {
    ScanIsArgmax(keywords, Lower(userInput), skills);
  }

  /** `ExactSkillMatcher`: the keyword lists per skill name, which `add_keywords` extends. */
  class ExactSkillMatcher {
    var keywords: map<string, seq<string>>

    /** `ExactSkillMatcher(keywords)`; `keywords or {}` gives the same mapping. */
    constructor (initial: map<string, seq<string>>)
      ensures keywords == initial
    {
      keywords := initial;
    }

    /** `add_keywords(skill_name, words)` */
    method AddKeywords(skillName: string, words: seq<string>)
      modifies this
      ensures keywords == old(keywords)[skillName := KeywordsOf(old(keywords), skillName) + words]
    {
      if skillName !in keywords {
        keywords := keywords[skillName := []];
      }
      keywords := keywords[skillName := keywords[skillName] + words];
    }

    /** `_calculate_score(user_input, skill)` */
    method CalculateScore(input: string, skill: Skill) returns (score: nat)
      ensures score == Score(keywords, input, skill)
    {
      score := 0;
      if Contains(input, skill.metadata.name) {
        score := score + 10;
      }
      var words := KeywordsOf(keywords, skill.metadata.name);
      var i := 0;
      while i < |words|
        invariant 0 <= i <= |words|
        invariant score == (if Contains(input, skill.metadata.name) then 10 else 0) + KeywordHits(words[..i], input)
      {
        assert words[..i + 1][..i] == words[..i];
        if Contains(input, Lower(words[i])) {
          score := score + 1;
        }
        i := i + 1;
      }
      assert words[..|words|] == words;
    }

    /** `match(user_input, skills, backend)`: the backend is not used. */
    method Match(userInput: string, skills: seq<Skill>) returns (best: Option<Skill>)
      ensures best == KeywordMatch(keywords, userInput, skills)
    {
      var input := Lower(userInput);
      var bestSkill: Option<Skill> := None;
      var bestScore: nat := 0;
      var i := 0;
      while i < |skills|
        invariant 0 <= i <= |skills|
        invariant (bestScore, bestSkill) == Scan(keywords, input, skills[..i])
      {
        assert skills[..i + 1][..i] == skills[..i];
        var score := CalculateScore(input, skills[i]);
        if score > bestScore {
          bestScore := score;
          bestSkill := Some(skills[i]);
        }
        i := i + 1;
      }
      assert skills[..|skills|] == skills;
      best := if bestScore > 0 then bestSkill else None;
    }
  }

  /** Adding keywords for one skill raises that skill's score by the new hits and leaves every
      other skill's score as it was. */
  lemma AddKeywordsScore(keywords: map<string, seq<string>>, name: string, words: seq<string>, input: string, skill: Skill)
    ensures var updated := keywords[name := KeywordsOf(keywords, name) + words];
      Score(updated, input, skill) ==
        Score(keywords, input, skill) + (if skill.metadata.name == name then KeywordHits(words, input) else 0)
  {
    KeywordHitsConcat(KeywordsOf(keywords, name), words, input);
  }

  /** The matchers a pipeline can be configured with. */
  datatype Matcher = Semantic | Keyword(exact: ExactSkillMatcher)

  /** `matcher.match(user_input, skills, backend)` */
  function MatchWith(matcher: Matcher, userInput: string, skills: seq<Skill>, backend: Backend): (run: Run<Option<Skill>>)
    reads if matcher.Keyword? then {matcher.exact} else {}
    ensures matcher.Keyword? ==> run == Run(Ok(KeywordMatch(matcher.exact.keywords, userInput, skills)), [])
    ensures matcher.Semantic? ==> run == SemanticMatch(userInput, skills, backend)
  {
    match matcher
    case Semantic => SemanticMatch(userInput, skills, backend)
    case Keyword(exact) => Run(Ok(KeywordMatch(exact.keywords, userInput, skills)), [])
  }
}
