/** The Python `str` operations the pipeline relies on, on `seq<char>`. */
module Text {

  /** `c.isspace()`: also the set the regex class `\s` matches and `strip()` removes. */
  predicate IsSpace(c: char)
  {
    || c == ' '
    || ('\t' <= c <= '\r')
    || ('\U{1C}' <= c <= '\U{1F}')
    || c == '\U{85}' || c == '\U{A0}' || c == '\U{1680}'
    || ('\U{2000}' <= c <= '\U{200A}')
    || c == '\U{2028}' || c == '\U{2029}' || c == '\U{202F}' || c == '\U{205F}' || c == '\U{3000}'
  }

  predicate AllSpace(s: string)
  {
    forall i :: 0 <= i < |s| ==> IsSpace(s[i])
  }

  /** One step of `lstrip()`: a leading space joins the stripped prefix. */
  lemma TrimStartStep(s: string, r: string)
    requires s != [] && IsSpace(s[0]) && |r| <= |s| - 1
    requires r == s[1..][|s| - 1 - |r|..] && AllSpace(s[1..][..|s| - 1 - |r|])
    ensures r == s[|s| - |r|..] && AllSpace(s[..|s| - |r|])
  {
    assert s[1..][|s| - 1 - |r|..] == s[|s| - |r|..];
    assert s[..|s| - |r|] == [s[0]] + s[1..][..|s| - 1 - |r|];
  }

  /** `s.lstrip()` */
  function TrimStart(s: string): (r: string)
    ensures |r| <= |s| && r == s[|s| - |r|..]
    ensures AllSpace(s[..|s| - |r|])
    ensures r != [] ==> !IsSpace(r[0])
  {
    if s != [] && IsSpace(s[0]) then
      var r := TrimStart(s[1..]);
      TrimStartStep(s, r);
      r
    else s
  }

  /** `s.rstrip()` */
  function TrimEnd(s: string): (r: string)
    ensures |r| <= |s| && r == s[..|r|]
    ensures AllSpace(s[|r|..])
    ensures r != [] ==> !IsSpace(r[|r| - 1])
  {
    if s != [] && IsSpace(s[|s| - 1]) then
      var r := TrimEnd(s[..|s| - 1]);
      assert s[|r|..] == s[..|s| - 1][|r|..] + [s[|s| - 1]];
      r
    else s
  }

  /** `s.strip()` */
  function Strip(s: string): string
  {
    TrimEnd(TrimStart(s))
  }

  lemma {:induction false} TrimStartSpacePrefix(w: string, t: string)
    requires AllSpace(w)
    ensures TrimStart(w + t) == TrimStart(t)
    decreases |w|
  {
    if w != [] {
      assert (w + t)[1..] == w[1..] + t;
      TrimStartSpacePrefix(w[1..], t);
    } else {
      assert w + t == t;
    }
  }

  lemma {:induction false} TrimEndSpaceSuffix(t: string, w: string)
    requires AllSpace(w)
    ensures TrimEnd(t + w) == TrimEnd(t)
    decreases |w|
  {
    if w != [] {
      assert (t + w)[..|t + w| - 1] == t + w[..|w| - 1];
      TrimEndSpaceSuffix(t, w[..|w| - 1]);
    } else {
      assert t + w == t;
    }
  }

  lemma {:induction false} TrimStartSpaceSuffix(t: string, w: string)
    requires AllSpace(w)
    ensures TrimStart(t + w) == TrimStart(t) + w || (TrimStart(t) == [] && AllSpace(TrimStart(t + w)))
    decreases |t|
  {
    if t == [] {
      assert t + w == w;
      var r := TrimStart(w);
      assert r == w[|w| - |r|..];
      assert AllSpace(r);
    } else {
      assert (t + w)[0] == t[0];
      if IsSpace(t[0]) {
        assert (t + w)[1..] == t[1..] + w;
        assert TrimStart(t + w) == TrimStart(t[1..] + w);
        assert TrimStart(t) == TrimStart(t[1..]);
        TrimStartSpaceSuffix(t[1..], w);
      } else {
        assert TrimStart(t + w) == t + w;
        assert TrimStart(t) == t;
      }
    }
  }

  /** Leading and trailing white space never changes what `strip()` returns. */
  lemma StripSpaceAround(w1: string, t: string, w2: string)
    requires AllSpace(w1) && AllSpace(w2)
    ensures Strip(w1 + t + w2) == Strip(t)
  {
    assert w1 + t + w2 == w1 + (t + w2);
    TrimStartSpacePrefix(w1, t + w2);
    TrimStartSpaceSuffix(t, w2);
    if TrimStart(t + w2) == TrimStart(t) + w2 {
      TrimEndSpaceSuffix(TrimStart(t), w2);
    } else {
      var r := TrimStart(t + w2);
      assert AllSpace(r);
      TrimEndSpaceSuffix([], r);
      assert [] + r == r;
    }
  }

  /** `c.lower()` on ASCII letters; every other character is left as it is. */
  function LowerChar(c: char): char
  {
    if 'A' <= c <= 'Z' then (c as int + 32) as char else c
  }

  /** `s.lower()` */
  function Lower(s: string): (r: string)
    ensures |r| == |s| && forall i :: 0 <= i < |s| ==> r[i] == LowerChar(s[i])
  {
    seq(|s|, i requires 0 <= i < |s| => LowerChar(s[i]))
  }

  /** Nothing upper-case (ASCII) is left after `lower()`. */
  lemma LowerNoUpper(s: string)
    ensures forall c :: c in Lower(s) ==> !('A' <= c <= 'Z')
  {
    var r := Lower(s);
    forall c | c in r ensures !('A' <= c <= 'Z') {
      var i :| 0 <= i < |r| && r[i] == c;
      assert r[i] == LowerChar(s[i]);
    }
  }

  /** `lower()` changes only upper-case ASCII letters, and into lower-case ones. */
  lemma LowerCharCases(c: char)
    ensures LowerChar(c) == c || ('A' <= c <= 'Z' && 'a' <= LowerChar(c) <= 'z')
  {
  }

  /** `lower()` is idempotent, distributes over concatenation, and leaves a string without
      upper-case letters unchanged. */
  lemma LowerProperties(s: string, t: string)
    ensures Lower(Lower(s)) == Lower(s)
    ensures Lower(s + t) == Lower(s) + Lower(t)
    ensures (forall c :: c in s ==> !('A' <= c <= 'Z')) ==> Lower(s) == s
  {
    if forall c :: c in s ==> !('A' <= c <= 'Z') {
      forall i | 0 <= i < |s| ensures Lower(s)[i] == s[i] {
        assert s[i] in s;
      }
    }
  }

  predicate IsPrefix(p: string, s: string)
  {
    |p| <= |s| && s[..|p|] == p
  }

  predicate EndsWith(s: string, suffix: string)
  {
    |suffix| <= |s| && s[|s| - |suffix|..] == suffix
  }

  /** `needle in hay` */
  predicate Contains(hay: string, needle: string)
    decreases |hay|
  {
    IsPrefix(needle, hay) || (hay != [] && Contains(hay[1..], needle))
  }

  lemma {:induction false} ContainsAt(hay: string, needle: string, i: nat)
    requires i + |needle| <= |hay| && hay[i..i + |needle|] == needle
    ensures Contains(hay, needle)
    decreases i
  {
    if i > 0 {
      assert hay[1..][i - 1..i - 1 + |needle|] == needle;
      ContainsAt(hay[1..], needle, i - 1);
    }
  }

  /** `s.replace(c, "")` */
  function RemoveChar(s: string, c: char): (r: string)
    ensures c !in r
    ensures forall x :: x in r ==> x in s
    ensures c !in s ==> r == s
    ensures |r| <= |s|
  {
    if s == [] then []
    else (if s[0] == c then [] else [s[0]]) + RemoveChar(s[1..], c)
  }

  /** Removal works piece by piece: it keeps the other characters in their order. */
  lemma {:induction false} RemoveCharConcat(a: string, b: string, c: char)
    ensures RemoveChar(a + b, c) == RemoveChar(a, c) + RemoveChar(b, c)
    decreases |a|
  {
    if a == [] {
      assert a + b == b;
    } else {
      var h, t := a[0], a[1..];
      assert a == [h] + t && a + b == [h] + (t + b);
      RemoveCharCons(h, t + b, c);
      RemoveCharConcat(t, b, c);
      RemoveCharCons(h, t, c);
      ConcatAssoc(if h == c then [] else [h], RemoveChar(t, c), RemoveChar(b, c));
    }
  }

  lemma RemoveCharCons(h: char, t: string, c: char)
    ensures RemoveChar([h] + t, c) == (if h == c then [] else [h]) + RemoveChar(t, c)
  {
    assert ([h] + t)[1..] == t;
  }

  lemma ConcatAssoc<T>(x: seq<T>, y: seq<T>, z: seq<T>)
    ensures x + (y + z) == (x + y) + z
  {
  }

  /** `s.replace(a, b)` for single characters */
  function ReplaceChar(s: string, a: char, b: char): (r: string)
    ensures |r| == |s|
    ensures forall i :: 0 <= i < |s| ==> r[i] == if s[i] == a then b else s[i]
  {
    seq(|s|, i requires 0 <= i < |s| => if s[i] == a then b else s[i])
  }

  /** After `replace(a, b)` no `a` is left, a string without `a` is unchanged, and when `b` did
      not occur before, replacing back restores the original. */
  lemma ReplaceCharProperties(s: string, a: char, b: char)
    ensures a != b ==> a !in ReplaceChar(s, a, b)
    ensures a !in s ==> ReplaceChar(s, a, b) == s
    ensures b !in s ==> ReplaceChar(ReplaceChar(s, a, b), b, a) == s
  {
    var r := ReplaceChar(s, a, b);
    if b !in s {
      forall i | 0 <= i < |s| ensures ReplaceChar(r, b, a)[i] == s[i] {
        assert s[i] != b;
      }
    }
  }

  /** `sep.join(parts)` */
  function Join(sep: string, parts: seq<string>): string
  {
    if parts == [] then ""
    else if |parts| == 1 then parts[0]
    else Join(sep, parts[..|parts| - 1]) + sep + parts[|parts| - 1]
  }

  lemma {:induction false} JoinConcat(sep: string, xs: seq<string>, ys: seq<string>)
    requires xs != [] && ys != []
    ensures Join(sep, xs + ys) == Join(sep, xs) + sep + Join(sep, ys)
    decreases |ys|
  {
    if |ys| == 1 {
      assert (xs + ys)[..|xs + ys| - 1] == xs;
    } else {
      var ys' := ys[..|ys| - 1];
      assert (xs + ys)[..|xs + ys| - 1] == xs + ys';
      JoinConcat(sep, xs, ys');
    }
  }

  /** Every part of a join occurs in it. */
  lemma {:induction false} JoinContainsPart(sep: string, parts: seq<string>, k: nat)
    requires k < |parts|
    ensures Contains(Join(sep, parts), parts[k])
    decreases |parts|
  {
    var j := Join(sep, parts);
    if |parts| == 1 {
      ContainsAt(j, parts[k], 0);
    } else if k == |parts| - 1 {
      var pre := Join(sep, parts[..|parts| - 1]) + sep;
      assert j == pre + parts[k];
      assert j[|pre|..|pre| + |parts[k]|] == parts[k];
      ContainsAt(j, parts[k], |pre|);
    } else {
      var init := parts[..|parts| - 1];
      JoinContainsPart(sep, init, k);
      ContainsPrefixExtend(Join(sep, init), sep + parts[|parts| - 1], parts[k]);
      assert j == Join(sep, init) + (sep + parts[|parts| - 1]);
    }
  }

  lemma {:induction false} ContainsPrefixExtend(a: string, b: string, needle: string)
    requires Contains(a, needle)
    ensures Contains(a + b, needle)
    decreases |a|
  {
    if IsPrefix(needle, a) {
      assert (a + b)[..|needle|] == a[..|needle|];
    } else {
      assert (a + b)[1..] == a[1..] + b;
      ContainsPrefixExtend(a[1..], b, needle);
    }
  }

  lemma {:induction false} ContainsSuffixExtend(a: string, b: string, needle: string)
    requires Contains(b, needle)
    ensures Contains(a + b, needle)
    decreases |a|
  {
    if a == [] {
      assert a + b == b;
    } else {
      assert (a + b)[1..] == a[1..] + b;
      ContainsSuffixExtend(a[1..], b, needle);
    }
  }

  /** Every character `strip()` keeps was in the input. */
  lemma StripKeepsChars(s: string)
    ensures forall x :: x in Strip(s) ==> x in s
  {
    var t := TrimStart(s);
    var r := TrimEnd(t);
    assert r == t[..|r|];
    assert t == s[|s| - |t|..];
    forall x | x in r ensures x in s {
      var i :| 0 <= i < |r| && r[i] == x;
      assert r[i] == t[i];
      assert t[i] == s[|s| - |t| + i];
    }
  }

  /** A string that neither starts nor ends with white space is its own `strip()`. */
  lemma StripUnpadded(s: string)
    requires s != [] ==> !IsSpace(s[0]) && !IsSpace(s[|s| - 1])
    ensures Strip(s) == s
  {
  }

  /** `strip()` leaves no white space at either end. */
  lemma StripEnds(s: string)
    ensures Strip(s) != [] ==> !IsSpace(Strip(s)[0]) && !IsSpace(Strip(s)[|Strip(s)| - 1])
  {
    var t := TrimStart(s);
    var r := Strip(s);
    if r != [] {
      assert r[0] == t[0];
    }
  }
}
