/** The string operations of Python that the core relies on: `str.lower`,
    `str.upper`, the `in` substring test, `str.strip()` and `str.replace`. */
module Text {

  /** The characters for which Python's `str.isspace()` holds. */
  predicate IsSpace(c: char) {
    || c == ' '
    || '\t' <= c <= '\r'
    || '\U{1C}' <= c <= '\U{1F}'
    || c == '\U{85}' || c == '\U{A0}' || c == '\U{1680}'
    || '\U{2000}' <= c <= '\U{200A}'
    || c == '\U{2028}' || c == '\U{2029}' || c == '\U{202F}' || c == '\U{205F}' || c == '\U{3000}'
  }

  predicate AllSpace(s: string) {
    forall i :: 0 <= i < |s| ==> IsSpace(s[i])
  }

  function LowerChar(c: char): char {
    if 'A' <= c <= 'Z' then (c as int + 32) as char else c
  }

  function UpperChar(c: char): char {
    if 'a' <= c <= 'z' then (c as int - 32) as char else c
  }

  /** `s.lower()` on the ASCII letters. */
  function ToLower(s: string): (r: string)
    ensures |r| == |s|
    ensures forall i :: 0 <= i < |s| ==> r[i] == LowerChar(s[i])
    ensures forall i :: 0 <= i < |r| ==> !('A' <= r[i] <= 'Z')
  {
    seq(|s|, i requires 0 <= i < |s| => LowerChar(s[i]))
  }

  /** `s.upper()` on the ASCII letters. */
  function ToUpper(s: string): (r: string)
    ensures |r| == |s|
    ensures forall i :: 0 <= i < |s| ==> r[i] == UpperChar(s[i])
  {
    seq(|s|, i requires 0 <= i < |s| => UpperChar(s[i]))
  }

  /** Lower-casing forgets the case a string was written in: the upper-case
      and the lower-case spelling of a string lower to the same text. */
  lemma LowerIgnoresCase(s: string)
    ensures ToLower(ToUpper(s)) == ToLower(s)
    ensures ToLower(ToLower(s)) == ToLower(s)
  {
    var a, b := ToLower(ToUpper(s)), ToLower(s);
    assert |a| == |b|;
    forall i | 0 <= i < |s| ensures a[i] == b[i] {
      var c := s[i];
      if 'a' <= c <= 'z' {
        assert UpperChar(c) as int == c as int - 32;
      }
    }
  }

  /** `sub` occurs in `s` starting at index `i`. */
  predicate OccursAt(s: string, sub: string, i: int) {
    0 <= i <= |s| - |sub| && s[i..i + |sub|] == sub
  }

  /** Python's `sub in s`. */
  predicate Contains(s: string, sub: string) {
    exists i :: 0 <= i <= |s| - |sub| && OccursAt(s, sub, i)
  }

  /** A text that lacks a character of `sub` cannot contain `sub`. */
  lemma MissingCharRulesOut(s: string, sub: string, c: char)
    requires c in sub && c !in s
    ensures !Contains(s, sub)
  {
  }

  /** An occurrence in the tail of `s` is an occurrence in `s`. */
  lemma ContainsTail(s: string, sub: string)
    requires |s| > 0 && Contains(s[1..], sub)
    ensures Contains(s, sub)
  {
    var i :| 0 <= i <= |s[1..]| - |sub| && OccursAt(s[1..], sub, i);
    assert s[i + 1..i + 1 + |sub|] == s[1..][i..i + |sub|];
    assert OccursAt(s, sub, i + 1);
  }

  /** A prefix of `s` is contained in it. */
  lemma PrefixContained(s: string, sub: string)
    requires |sub| <= |s| && s[..|sub|] == sub
    ensures Contains(s, sub)
  {
    assert OccursAt(s, sub, 0);
  }

  /** `s.replace(pat, rep)`: every occurrence of `pat`, found left to right
      and without overlap, is replaced by `rep`. */
  function ReplaceAll(s: string, pat: string, rep: string): (r: string)
    requires |pat| > 0
    ensures rep == "" ==> |r| <= |s|
    ensures !Contains(s, pat) ==> r == s
    decreases |s|
  {
    if |s| < |pat| then s
    else if s[..|pat|] == pat then
      PrefixContained(s, pat);
      rep + ReplaceAll(s[|pat|..], pat, rep)
    else
      assert !Contains(s, pat) ==> !Contains(s[1..], pat) by {
        if Contains(s[1..], pat) { ContainsTail(s, pat); }
      }
      [s[0]] + ReplaceAll(s[1..], pat, rep)
  }

  /** At the first occurrence of `pat`, found at index `i`, `s.replace`
      keeps the text before it, puts `rep` in its place, and goes on after
      it; together with the clause for a text without `pat`, this fixes the
      result. */
  lemma ReplaceAtFirst(s: string, pat: string, rep: string, i: nat)
    requires |pat| > 0 && OccursAt(s, pat, i)
    requires forall j :: 0 <= j < i ==> !OccursAt(s, pat, j)
    ensures ReplaceAll(s, pat, rep) == s[..i] + rep + ReplaceAll(s[i + |pat|..], pat, rep)
  {
    ReplaceFrom(s, pat, rep, 0, i);
    assert s[0..] == s;
    assert s[0..i] == s[..i];
  }

  /** `ReplaceAtFirst` for the suffix `s[k..]`, by induction on `i - k`. */
  lemma {:induction false} ReplaceFrom(s: string, pat: string, rep: string, k: nat, i: nat)
    requires |pat| > 0 && k <= i && OccursAt(s, pat, i)
    requires forall j :: k <= j < i ==> !OccursAt(s, pat, j)
    ensures ReplaceAll(s[k..], pat, rep) == s[k..i] + rep + ReplaceAll(s[i + |pat|..], pat, rep)
    decreases i - k
  {
    if k == i {
      ReplaceHereAt(s, pat, rep, i);
      assert s[k..i] == [];
    } else {
      ReplacePastAt(s, pat, rep, k);
      ReplaceFrom(s, pat, rep, k + 1, i);
      ConsSlice(s, k, i);
      Regroup(ReplaceAll(s[k..], pat, rep), ReplaceAll(s[k + 1..], pat, rep), [s[k]], s[k + 1..i], rep,
              ReplaceAll(s[i + |pat|..], pat, rep), s[k..i]);
    }
  }

  /** `s.replace` on `s[i..]` when `pat` occurs at `i`. */
  lemma ReplaceHereAt(s: string, pat: string, rep: string, i: nat)
    requires |pat| > 0 && OccursAt(s, pat, i)
    ensures ReplaceAll(s[i..], pat, rep) == rep + ReplaceAll(s[i + |pat|..], pat, rep)
  {
    assert s[i..][..|pat|] == s[i..i + |pat|];
    ReplaceHere(s[i..], pat, rep);
    assert s[i..][|pat|..] == s[i + |pat|..];
  }

  /** `s.replace` on `s[k..]` when `pat` does not occur at `k` but fits. */
  lemma ReplacePastAt(s: string, pat: string, rep: string, k: nat)
    requires |pat| > 0 && k + |pat| <= |s| && !OccursAt(s, pat, k)
    ensures ReplaceAll(s[k..], pat, rep) == [s[k]] + ReplaceAll(s[k + 1..], pat, rep)
  {
    assert s[k..][..|pat|] == s[k..k + |pat|];
    ReplacePast(s[k..], pat, rep);
    assert s[k..][1..] == s[k + 1..];
  }

  /** A slice is its first element followed by the rest. */
  lemma ConsSlice<T>(s: seq<T>, k: int, i: int)
    requires 0 <= k < i <= |s|
    ensures [s[k]] + s[k + 1..i] == s[k..i]
  {
  }

  /** Regrouping `head + (middle + rep + after)` as `prefix + rep + after`. */
  lemma Regroup<T>(x: seq<T>, y: seq<T>, head: seq<T>, middle: seq<T>, rep: seq<T>, after: seq<T>, prefix: seq<T>)
    requires x == head + y && y == middle + rep + after && head + middle == prefix
    ensures x == prefix + rep + after
  {
  }

  /** `s.replace` at a text that starts with `pat`. */
  lemma ReplaceHere(s: string, pat: string, rep: string)
    requires |pat| > 0 && OccursAt(s, pat, 0)
    ensures ReplaceAll(s, pat, rep) == rep + ReplaceAll(s[|pat|..], pat, rep)
  {
    assert s[..|pat|] == pat;
  }

  /** `s.replace` at a text of at least `|pat|` characters that does not
      start with `pat`. */
  lemma ReplacePast(s: string, pat: string, rep: string)
    requires |pat| > 0 && |pat| <= |s| && !OccursAt(s, pat, 0)
    ensures ReplaceAll(s, pat, rep) == [s[0]] + ReplaceAll(s[1..], pat, rep)
  {
    assert s[..|pat|] != pat;
  }

  /** `s.lstrip()`: the leading whitespace removed. */
  function TrimLeft(s: string): (r: string)
    ensures |r| <= |s| && r == s[|s| - |r|..]
    ensures AllSpace(s[..|s| - |r|])
    ensures |r| > 0 ==> !IsSpace(r[0])
  {
    if |s| > 0 && IsSpace(s[0]) then TrimLeft(s[1..]) else s
  }

  /** `s.rstrip()`: the trailing whitespace removed. */
  function TrimRight(s: string): (r: string)
    ensures |r| <= |s| && r == s[..|r|]
    ensures AllSpace(s[|r|..])
    ensures |r| > 0 ==> !IsSpace(r[|r| - 1])
  {
    if |s| > 0 && IsSpace(s[|s| - 1]) then TrimRight(s[..|s| - 1]) else s
  }

  /** `r` is `s[k..]` with only whitespace cut from either side. */
  predicate StripsTo(s: string, r: string, k: int) {
    0 <= k <= |s| - |r| && s[k..k + |r|] == r && AllSpace(s[..k]) && AllSpace(s[k + |r|..])
  }

  /** Cutting whitespace from the front of `s`, giving `left`, and then from
      the back of `left`, giving `r`, cuts only whitespace from `s`. */
  lemma SuffixThenPrefix(s: string, left: string, r: string)
    requires |left| <= |s| && left == s[|s| - |left|..] && AllSpace(s[..|s| - |left|])
    requires |r| <= |left| && r == left[..|r|] && AllSpace(left[|r|..])
    ensures StripsTo(s, r, |s| - |left|)
  {
    var k := |s| - |left|;
    assert s[k..k + |r|] == left[..|r|];
    assert s[k + |r|..] == left[|r|..];
  }

  /** `s.strip()`: the result sits in `s` with only whitespace around it,
      and neither starts nor ends with whitespace. */
  function Strip(s: string): (r: string)
    ensures exists k :: StripsTo(s, r, k)
    ensures |r| > 0 ==> !IsSpace(r[0]) && !IsSpace(r[|r| - 1])
  {
    var left := TrimLeft(s);
    SuffixThenPrefix(s, left, TrimRight(left));
    TrimRight(left)
  }

  /** The Markdown code-fence marker. */
  const Fence: string := "```"

  /** A character other than a backtick leads the text that removing the
      fences leaves behind. */
  lemma LeadKeptByFenceRemoval(u: string)
    requires |u| > 0 && u[0] != '`'
    ensures |ReplaceAll(u, Fence, "")| > 0 && ReplaceAll(u, Fence, "")[0] == u[0]
  {
    if |u| >= |Fence| {
      assert u[..|Fence|] != Fence by { assert u[..|Fence|][0] != Fence[0]; }
    }
  }

  /** Putting one character before a fence-free text creates a fence only
      at the front. */
  lemma ConsKeepsFenceFree(c: char, rt: string)
    requires !Contains(rt, Fence)
    requires |[c] + rt| < 3 || ([c] + rt)[..3] != Fence
    ensures !Contains([c] + rt, Fence)
  {
    var r := [c] + rt;
    forall i | 0 <= i <= |r| - |Fence| ensures !OccursAt(r, Fence, i) {
      if i > 0 {
        assert r[i..i + |Fence|] == rt[i - 1..i - 1 + |Fence|];
        assert !OccursAt(rt, Fence, i - 1);
      } else {
        assert r[i..i + |Fence|] == r[..3];
      }
    }
  }

  /** A text whose first three characters are not all backticks does not
      start with a fence. */
  lemma NotFenceAt(r: string, j: nat)
    requires j < 3 <= |r| && r[j] != '`'
    ensures r[..3] != Fence
  {
    assert r[..3][j] != Fence[j];
  }

  /** Removing fences from a text that does not start with one keeps its
      first character. */
  lemma FenceRemovalStep(s: string)
    requires |s| >= |Fence| && s[..|Fence|] != Fence
    ensures ReplaceAll(s, Fence, "") == [s[0]] + ReplaceAll(s[1..], Fence, "")
  {
  }

  /** When `s` does not start with a fence, removing the fences from it does
      not leave one at the front. */
  lemma NoLeadingFence(s: string)
    requires |s| >= |Fence| && s[..|Fence|] != Fence
    ensures ReplaceAll(s, Fence, "") == [s[0]] + ReplaceAll(s[1..], Fence, "")
    ensures var r := ReplaceAll(s, Fence, ""); |r| < 3 || r[..3] != Fence
  {
    FenceRemovalStep(s);
    var t := s[1..];
    var rt := ReplaceAll(t, Fence, "");
    var r := [s[0]] + rt;
    if |r| >= 3 {
      if s[0] != '`' {
        NotFenceAt(r, 0);
      } else if s[1] != '`' {
        LeadKeptByFenceRemoval(t);
        NotFenceAt(r, 1);
      } else {
        assert s[2] != '`' by { assert s[..3] == [s[0], s[1], s[2]]; }
        if |t| < |Fence| {
          assert rt == t;
          NotFenceAt(r, 2);
        } else {
          NotFenceAt(t, 1);
          FenceRemovalStep(t);
          LeadKeptByFenceRemoval(t[1..]);
          assert r[2] == s[2];
          NotFenceAt(r, 2);
        }
      }
    }
  }

  /** After `s.replace("```", "")` no fence is left: fences are removed
      from the left of each run of backticks, so a run of `n` backticks keeps
      `n % 3` and runs never join. */
  lemma {:induction false} NoFenceAfterRemoval(s: string)
    ensures !Contains(ReplaceAll(s, Fence, ""), Fence)
    decreases |s|
  {
    var r := ReplaceAll(s, Fence, "");
    if |s| < |Fence| {
      assert r == s;
    } else if s[..|Fence|] == Fence {
      NoFenceAfterRemoval(s[|Fence|..]);
      assert r == ReplaceAll(s[|Fence|..], Fence, "");
    } else {
      NoFenceAfterRemoval(s[1..]);
      NoLeadingFence(s);
      ConsKeepsFenceFree(s[0], ReplaceAll(s[1..], Fence, ""));
    }
  }
}
