/** The frontmatter pattern of the skill loader, `^---\s*\n(.*?)\n---\s*\n(.*)$` matched with
    DOTALL from the start of SKILL.md (skill_manager/core/services/skill_loader.py), including
    the order in which Python's regex engine tries the alternatives. */
module Frontmatter {
  import opened Wrappers
  import opened Text

  /** The end of the run of white space that starts at `i`. */
  function RunEnd(s: string, i: nat): (e: nat)
    requires i <= |s|
    ensures i <= e <= |s|
    decreases |s| - i
  {
    if i < |s| && IsSpace(s[i]) then RunEnd(s, i + 1) else i
  }

  /** `s[i..j]` is white space. */
  predicate SpaceBetween(s: string, i: nat, j: nat)
    requires i <= j <= |s|
  {
    forall k :: i <= k < j ==> IsSpace(s[k])
  }

  lemma {:induction false} RunEndSpec(s: string, i: nat)
    requires i <= |s|
    ensures SpaceBetween(s, i, RunEnd(s, i))
    ensures RunEnd(s, i) < |s| ==> !IsSpace(s[RunEnd(s, i)])
    decreases |s| - i
  {
    if i < |s| && IsSpace(s[i]) {
      RunEndSpec(s, i + 1);
    }
  }

  /** The last newline in `s[lo..hi]`. */
  function LastNewline(s: string, lo: nat, hi: nat): (c: Option<nat>)
    requires lo <= hi <= |s|
    ensures c.Some? ==> lo <= c.value < hi && s[c.value] == '\n'
    decreases hi - lo
  {
    if hi == lo then None
    else if s[hi - 1] == '\n' then Some(hi - 1)
    else LastNewline(s, lo, hi - 1)
  }

  lemma {:induction false} LastNewlineFinds(s: string, lo: nat, hi: nat, j: nat)
    requires lo <= j < hi <= |s| && s[j] == '\n'
    ensures LastNewline(s, lo, hi).Some?
    decreases hi - lo
  {
    if s[hi - 1] != '\n' {
      LastNewlineFinds(s, lo, hi - 1, j);
    }
  }

  /** Where a greedy `\s*\n` starting at `i` ends: the last newline of the white-space run. */
  function CloseNewline(s: string, i: nat): Option<nat>
    requires i <= |s|
  {
    LastNewline(s, i, RunEnd(s, i))
  }

  /** `\n---\s*\n` matches at `q`. */
  predicate CloseAt(s: string, q: nat)
  {
    q + 4 <= |s| && s[q..q + 4] == "\n---" && CloseNewline(s, q + 4).Some?
  }

  /** The lazy `(.*?)`: the first position from `from` on where the closing fence matches. */
  function FindClose(s: string, from: nat): (q: Option<nat>)
    requires from <= |s|
    ensures q.Some? ==> from <= q.value && CloseAt(s, q.value)
    decreases |s| - from
  {
    if from + 4 > |s| then None
    else if CloseAt(s, from) then Some(from)
    else FindClose(s, from + 1)
  }

  lemma {:induction false} FindCloseFirst(s: string, from: nat, j: nat)
    requires from <= |s| && from <= j && CloseAt(s, j)
    ensures FindClose(s, from).Some? && FindClose(s, from).value <= j
    decreases |s| - from
  {
    if !CloseAt(s, from) {
      FindCloseFirst(s, from + 1, j);
    }
  }

  /** An opening newline at `p` from which some closing fence can be reached. */
  predicate CanOpen(s: string, p: nat)
    requires p < |s|
  {
    s[p] == '\n' && FindClose(s, p + 1).Some?
  }

  /** The greedy `\s*\n` after the opening `---` backtracks: candidate opening newlines are
      tried from position `p` down to position 3. */
  function TryOpen(s: string, p: nat): (r: Option<nat>)
    requires 2 <= p < |s|
    ensures r.Some? ==> 3 <= r.value <= p && CanOpen(s, r.value)
    ensures r.Some? ==> forall o :: r.value < o <= p ==> !CanOpen(s, o)
    ensures r.None? ==> forall o :: 3 <= o <= p ==> !CanOpen(s, o)
    decreases p
  {
    if p < 3 then None
    else if CanOpen(s, p) then Some(p)
    else TryOpen(s, p - 1)
  }

  /** A successful match: the opening newline, the closing fence, group 1 and group 2. */
  datatype Match = Match(open: nat, close: nat, block: string, rest: string)

  /** The match that opens at the newline `p`: the first closing fence after it, then the
      greedy `\s*\n` after that fence. */
  function MatchAt(s: string, p: nat): (m: Match)
    requires 3 <= p < |s| && CanOpen(s, p)
    ensures m.open == p && Some(m.close) == FindClose(s, p + 1) && m.block == s[p + 1..m.close]
  {
    var q := FindClose(s, p + 1).value;
    var c := CloseNewline(s, q + 4).value;
    Match(p, q, s[p + 1..q], s[c + 1..])
  }

  /** The opening newline of the match, if the pattern matches: `---` at the start, then the
      latest newline of the white-space run from which a closing fence can be reached. */
  function Opening(s: string): (r: Option<nat>)
    ensures r.Some? ==> 3 <= r.value < |s| && CanOpen(s, r.value)
  {
    if |s| < 3 || s[..3] != "---" then None else TryOpen(s, RunEnd(s, 3) - 1)
  }

  /** `FRONTMATTER_PATTERN.match(content)` */
  function MatchFrontmatter(s: string): Option<Match>
  {
    match Opening(s)
    case None => None
    case Some(p) => Some(MatchAt(s, p))
  }

  /** The strings the pattern matches: `---`, white space ending in a newline at `p`, a block,
      and a closing fence at `q`. */
  ghost predicate Shape(s: string, p: nat, q: nat)
  {
    && 3 <= p < q <= |s|
    && s[..3] == "---"
    && SpaceBetween(s, 3, p)
    && s[p] == '\n'
    && CloseAt(s, q)
  }

  lemma {:induction false} FindCloseExact(s: string, from: nat, q: nat)
    requires from <= q && CloseAt(s, q)
    requires forall j :: from <= j < q ==> !CloseAt(s, j)
    ensures FindClose(s, from) == Some(q)
    decreases q - from
  {
    if from < q {
      FindCloseExact(s, from + 1, q);
    }
  }

  lemma ShapeOpens(s: string, p: nat, q: nat)
    requires Shape(s, p, q)
    ensures CanOpen(s, p)
  {
    FindCloseFirst(s, p + 1, q);
  }

  /** The pattern matches exactly the strings of that shape. Of those decompositions the engine
      picks the latest opening newline, and for it the first closing fence. */
  lemma MatchIsShape(s: string)
    ensures MatchFrontmatter(s).Some? <==> exists p: nat, q: nat :: Shape(s, p, q)
    ensures MatchFrontmatter(s).Some? ==>
      var m := MatchFrontmatter(s).value;
      && Shape(s, m.open, m.close)
      && m.block == s[m.open + 1..m.close]
      && (forall q: nat :: m.open < q < m.close ==> !CloseAt(s, q))
      && (forall p: nat, q: nat :: Shape(s, p, q) ==> p <= m.open)
  {
    if MatchFrontmatter(s).Some? {
      MatchShape(s);
      MatchLatest(s);
    } else {
      NoMatchNoShape(s);
    }
  }

  /** A match has the shape, with the first closing fence after its opening newline. */
  lemma MatchShape(s: string)
    requires MatchFrontmatter(s).Some?
    ensures var m := MatchFrontmatter(s).value;
      && Shape(s, m.open, m.close)
      && m.block == s[m.open + 1..m.close]
      && (forall q: nat :: m.open < q < m.close ==> !CloseAt(s, q))
  {
    var p := Opening(s).value;
    OpeningFound(s, p);
    var q := FindClose(s, p + 1).value;
    MatchParts(s, p);
    assert MatchAt(s, p).close == q;
    FirstCloseAfter(s, p, q);
  }

  /** No decomposition of the shape opens later than the match. */
  lemma MatchLatest(s: string)
    requires MatchFrontmatter(s).Some?
    ensures forall p: nat, q: nat :: Shape(s, p, q) ==> p <= MatchFrontmatter(s).value.open
  {
    var p := Opening(s).value;
    OpeningFound(s, p);
    OpeningsBeforeRunEnd(s);
    MatchParts(s, p);
  }

  /** When the pattern does not match, no decomposition has the shape. */
  lemma NoMatchNoShape(s: string)
    requires MatchFrontmatter(s).None?
    ensures forall p: nat, q: nat :: !Shape(s, p, q)
  {
    if |s| >= 3 && s[..3] == "---" {
      assert Opening(s) == TryOpen(s, RunEnd(s, 3) - 1);
      OpeningsBeforeRunEnd(s);
    }
  }

  /** The newline `Opening` finds follows `---` and white space, and no later newline of the
      white-space run can open. */
  lemma OpeningFound(s: string, p: nat)
    requires Opening(s) == Some(p)
    ensures |s| >= 3 && s[..3] == "---" && p < RunEnd(s, 3) && SpaceBetween(s, 3, p)
    ensures forall o :: p < o < RunEnd(s, 3) ==> !CanOpen(s, o)
  {
    OpeningHeader(s, p);
    var e := RunEnd(s, 3);
    RunEndSpec(s, 3);
    assert TryOpen(s, e - 1) == Some(p);
  }

  lemma OpeningHeader(s: string, p: nat)
    requires Opening(s) == Some(p)
    ensures |s| >= 3 && s[..3] == "---"
  {
  }

  /** A match is the one that opens at the newline `Opening` finds. */
  lemma MatchParts(s: string, p: nat)
    requires Opening(s) == Some(p)
    ensures MatchFrontmatter(s) == Some(MatchAt(s, p))
  {
  }

  /** The closing fence the lazy group stops at is the first one after the opening newline. */
  lemma FirstCloseAfter(s: string, p: nat, q: nat)
    requires p < |s| && FindClose(s, p + 1) == Some(q)
    ensures forall q': nat :: p < q' < q ==> !CloseAt(s, q')
  {
    forall q': nat | p < q' < q ensures !CloseAt(s, q') {
      if CloseAt(s, q') {
        FindCloseFirst(s, p + 1, q');
      }
    }
  }

  lemma OpeningsBeforeRunEnd(s: string)
    requires |s| >= 3
    ensures forall p: nat, q: nat :: Shape(s, p, q) ==> p < RunEnd(s, 3) && CanOpen(s, p)
  {
    var e := RunEnd(s, 3);
    RunEndSpec(s, 3);
    forall p: nat, q: nat | Shape(s, p, q) ensures p < e && CanOpen(s, p) {
      ShapeOpens(s, p, q);
      if p >= e {
        assert IsSpace(s[p]);
      }
    }
  }

  /** Group 2 is the text after the closing fence, less white space that `strip()` removes. */
  lemma RestIsTailAfterFence(s: string)
    requires MatchFrontmatter(s).Some?
    ensures var m := MatchFrontmatter(s).value;
      m.close + 4 <= |s| && Strip(m.rest) == Strip(s[m.close + 4..])
  {
    var m := MatchFrontmatter(s).value;
    var i := m.close + 4;
    var e := RunEnd(s, i);
    var c := CloseNewline(s, i).value;
    assert s[i..] == s[i..c + 1] + m.rest;
    assert AllSpace(s[i..c + 1]) by {
      RunEndSpec(s, i);
      var w := s[i..c + 1];
      forall k | 0 <= k < |w| ensures IsSpace(w[k]) {
        assert w[k] == s[i + k];
      }
    }
    StripSpaceAround(s[i..c + 1], m.rest, []);
    assert s[i..c + 1] + m.rest + [] == s[i..];
  }

  lemma {:induction false} WrittenCloses(s: string, y: string, tail: string)
    requires s == "---\n" + y + "\n---" + tail
    requires forall i :: 0 <= i < |y| && y[i] == '\n' ==> i + 1 < |y| && y[i + 1] != '-'
    requires tail != [] && tail[0] == '\n'
    ensures FindClose(s, 4) == Some(4 + |y|)
  {
    var q := 4 + |y|;
    assert forall i :: 0 <= i < |y| ==> s[4 + i] == y[i];
    assert s[q..q + 4] == "\n---";
    assert CloseAt(s, q) by {
      var e := RunEnd(s, q + 4);
      assert s[q + 4] == tail[0] == '\n';
      assert e > q + 4;
      LastNewlineFinds(s, q + 4, e, q + 4);
    }
    forall j | 4 <= j < q ensures !CloseAt(s, j) {
      assert s[j..j + 4][0] == s[j] == y[j - 4];
      if y[j - 4] == '\n' {
        assert s[j..j + 4][1] == s[j + 1] == y[j - 3];
      }
    }
    FindCloseExact(s, 4, q);
  }

  /** A block that opens with a non-space character and has no newline followed by `-`
      is read back as it was written, and the body is the text after the fence. */
  lemma MatchWritten(y: string, tail: string)
    requires y != [] && !IsSpace(y[0])
    requires forall i :: 0 <= i < |y| && y[i] == '\n' ==> i + 1 < |y| && y[i + 1] != '-'
    requires tail != [] && tail[0] == '\n'
    ensures var s := "---\n" + y + "\n---" + tail;
      && MatchFrontmatter(s).Some?
      && MatchFrontmatter(s).value.block == y
      && Strip(MatchFrontmatter(s).value.rest) == Strip(tail)
  {
    var s := "---\n" + y + "\n---" + tail;
    var q := 4 + |y|;
    WrittenCloses(s, y, tail);
    assert s[..3] == "---";
    assert RunEnd(s, 3) == 4 by {
      assert s[3] == '\n' && s[4] == y[0];
    }
    assert TryOpen(s, 3) == Some(3);
    assert Opening(s) == Some(3);
    assert s[4..q] == y;
    assert s[q + 4..] == tail;
    RestIsTailAfterFence(s);
  }
}
