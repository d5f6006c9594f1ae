/**
  The Python string primitives the manifest patcher is built from:
  `s.find(w, start)`, `w in s`, the splice `s[:at] + block + s[at:]`,
  `''.join(parts)` and `path.split('/')[-1]`, together with the facts about
  them that the patcher's properties rest on.
*/
module Text {

  /** `w` occurs in `s` starting at index `i`. */
  predicate OccursAt(s: string, w: string, i: int) {
    0 <= i && i + |w| <= |s| && s[i..i + |w|] == w
  }

  /** Python's `w in s` on strings: substring containment. */
  predicate Contains(s: string, w: string) {
    exists i | 0 <= i <= |s| - |w| :: OccursAt(s, w, i)
  }

  /** Python's `s.find(w, start)`: the least index at or after `start` where
      `w` occurs, or -1 when there is none. */
  function Find(s: string, w: string, start: nat): (r: int)
    ensures r == -1 || (start <= r && OccursAt(s, w, r))
    ensures r == -1 <==> forall i | start <= i :: !OccursAt(s, w, i)
    ensures forall i | start <= i < r :: !OccursAt(s, w, i)
    decreases |s| - start
  {
    if |s| < start + |w| then -1
    else if s[start..start + |w|] == w then start
    else Find(s, w, start + 1)
  }

  /** `w in s` and `s.find(w) != -1` agree. */
  lemma FindFromStart(s: string, w: string)
    ensures Find(s, w, 0) == -1 <==> !Contains(s, w)
  {
    if Find(s, w, 0) != -1 {
      assert OccursAt(s, w, Find(s, w, 0));
    }
  }

  /** `s[:at] + block + s[at:]`, the splice every insertion pass performs. */
  function Splice(s: string, at: nat, block: string): (r: string)
    requires at <= |s|
    ensures |r| == |s| + |block|
    ensures r[at..at + |block|] == block
    ensures r[..at] + r[at + |block|..] == s
  {
    assert (s[..at] + block + s[at..])[..at] == s[..at];
    assert (s[..at] + block + s[at..])[at + |block|..] == s[at..];
    s[..at] + block + s[at..]
  }

  /** Splicing at the very start of the text prepends the block. */
  lemma SpliceAtStart(s: string, block: string)
    ensures Splice(s, 0, block) == block + s
  {
    assert s[..0] == [] && s[0..] == s;
  }

  /** `''.join(parts)`. */
  function Join(parts: seq<string>): string {
    if parts == [] then "" else Join(parts[..|parts| - 1]) + parts[|parts| - 1]
  }

  /** Every part of a join occurs in the joined text. */
  lemma {:induction false} JoinContainsPart(parts: seq<string>, k: nat)
    requires k < |parts|
    ensures Contains(Join(parts), parts[k])
  {
    var init, last := parts[..|parts| - 1], parts[|parts| - 1];
    assert Join(parts) == Join(init) + last;
    if k == |parts| - 1 {
      assert OccursAt(last, last, 0);
      ContainsInConcat(Join(init), last, last);
    } else {
      assert parts[k] == init[k];
      JoinContainsPart(init, k);
      ContainsInConcat(Join(init), last, parts[k]);
    }
  }

  /** `w` occurs in `a + w + b` right after `a`. */
  lemma OccursBetween(a: string, w: string, b: string)
    ensures OccursAt(a + w + b, w, |a|)
    ensures Contains(a + w + b, w)
  {
    var s := a + w + b;
    assert s[|a|..|a| + |w|] == w;
    assert OccursAt(s, w, |a|);
  }

  /** An occurrence in either half of a concatenation is one in the whole. */
  lemma ContainsInConcat(a: string, b: string, w: string)
    requires Contains(a, w) || Contains(b, w)
    ensures Contains(a + b, w)
  {
    if Contains(a, w) {
      var i :| 0 <= i <= |a| - |w| && OccursAt(a, w, i);
      assert (a + b)[i..i + |w|] == a[i..i + |w|];
      assert OccursAt(a + b, w, i);
    } else {
      var i :| 0 <= i <= |b| - |w| && OccursAt(b, w, i);
      assert (a + b)[|a| + i..|a| + i + |w|] == b[i..i + |w|];
      assert OccursAt(a + b, w, |a| + i);
    }
  }

  /** Containment is transitive. */
  lemma ContainsTransitive(s: string, m: string, w: string)
    requires Contains(s, m) && Contains(m, w)
    ensures Contains(s, w)
  {
    var i :| 0 <= i <= |s| - |m| && OccursAt(s, m, i);
    var j :| 0 <= j <= |m| - |w| && OccursAt(m, w, j);
    assert s[i..i + |m|] == m;
    forall k | 0 <= k < |w| ensures s[i + j..i + j + |w|][k] == w[k] {
      assert s[i + j + k] == s[i..i + |m|][j + k] == m[j..j + |w|][k];
    }
    assert s[i + j..i + j + |w|] == w;
    assert OccursAt(s, w, i + j);
  }

  /** `p.split('/')[-1]`: the text after the last '/', or all of `p` when it has none. */
  function LastComponent(p: string): string {
    if p == [] then ""
    else if p[|p| - 1] == '/' then ""
    else LastComponent(p[..|p| - 1]) + [p[|p| - 1]]
  }

  /** `LastComponent(p)` is the longest suffix of `p` without a '/': it holds
      no '/', and it is either all of `p` or preceded by a '/'. */
  lemma {:induction false} LastComponentIsLastSegment(p: string)
    ensures '/' !in LastComponent(p)
    ensures |LastComponent(p)| <= |p|
    ensures LastComponent(p) == p[|p| - |LastComponent(p)|..]
    ensures |LastComponent(p)| < |p| ==> p[|p| - |LastComponent(p)| - 1] == '/'
  {
    if p != [] && p[|p| - 1] != '/' {
      var init, c := p[..|p| - 1], p[|p| - 1];
      assert p == init + [c];
      LastComponentIsLastSegment(init);
      var r0 := LastComponent(init);
      var k := |init| - |r0|;
      assert LastComponent(p) == r0 + [c];
      assert r0 == init[k..];
      assert p[k..] == init[k..] + [c];
      assert k > 0 ==> p[k - 1] == init[k - 1];
    }
  }

  /** A path without newlines has a last component without newlines. */
  lemma LastComponentHasNoNewline(p: string)
    requires '\n' !in p
    ensures '\n' !in LastComponent(p)
  {
    LastComponentIsLastSegment(p);
    var r := LastComponent(p);
    assert forall c | c in r :: c in p;
  }

  /** A line of text: no newline except possibly as its last character. */
  predicate NoInnerNewline(w: string) {
    |w| == 0 || '\n' !in w[..|w| - 1]
  }

  /** `at` is the start of a line of `s`: the start of the text, or just after a newline. */
  predicate AtLineStart(s: string, at: int) {
    0 <= at <= |s| && (at == 0 || s[at - 1] == '\n')
  }

  /** Every line-shaped word of `s` still occurs in `t`. */
  ghost predicate KeepsLines(s: string, t: string) {
    forall w :: NoInnerNewline(w) && Contains(s, w) ==> Contains(t, w)
  }

  /** Splicing at the start of a line never splits an occurrence of a word that
      has no newline before its last character. */
  lemma SpliceKeepsLine(s: string, at: nat, block: string, w: string)
    requires AtLineStart(s, at) && NoInnerNewline(w) && Contains(s, w)
    ensures Contains(Splice(s, at, block), w)
  {
    var i :| 0 <= i <= |s| - |w| && OccursAt(s, w, i);
    var r := Splice(s, at, block);
    assert r == s[..at] + block + s[at..];
    if i + |w| <= at {
      assert r[i..i + |w|] == s[i..i + |w|];
      assert OccursAt(r, w, i);
    } else {
      // an occurrence straddling `at` would hold the newline at `at - 1` before its end
      assert at <= i;
      assert r[i + |block|..i + |block| + |w|] == s[i..i + |w|];
      assert OccursAt(r, w, i + |block|);
    }
  }

  /** The same, for every line-shaped word at once. */
  lemma SpliceKeepsLines(s: string, at: nat, block: string)
    requires AtLineStart(s, at)
    ensures KeepsLines(s, Splice(s, at, block))
  {
    forall w | NoInnerNewline(w) && Contains(s, w)
      ensures Contains(Splice(s, at, block), w)
    {
      SpliceKeepsLine(s, at, block, w);
    }
  }

  /** A text "ends a line": it is empty or its last character is a newline. */
  predicate EndsLine(b: string) {
    |b| == 0 || b[|b| - 1] == '\n'
  }

  /** Splicing a block that ends a line in at the start of a line creates no
      new occurrence of a newline-free word: an occurrence in the result lies
      in the text before, in the block or in the text after, since one that
      crossed either seam would hold a newline. */
  lemma SpliceCreatesNoWord(s: string, at: nat, block: string, w: string)
    requires AtLineStart(s, at) && EndsLine(block) && '\n' !in w
    requires !Contains(s, w) && !Contains(block, w)
    ensures !Contains(Splice(s, at, block), w)
  {
    var r := Splice(s, at, block);
    assert r == s[..at] + block + s[at..];
    forall j | 0 <= j <= |r| - |w| ensures !OccursAt(r, w, j) {
      if j + |w| <= at {
        assert r[j..j + |w|] == s[j..j + |w|];
        assert !OccursAt(s, w, j);
      } else if at + |block| <= j {
        assert r[j..j + |w|] == s[j - |block|..j - |block| + |w|];
        assert !OccursAt(s, w, j - |block|);
      } else if j < at {
        assert r[j..j + |w|][at - 1 - j] == s[at - 1] == '\n';
        assert w[at - 1 - j] in w;
      } else if j + |w| <= at + |block| {
        assert r[j..j + |w|] == block[j - at..j - at + |w|];
        assert !OccursAt(block, w, j - at);
      } else {
        assert r[j..j + |w|][at + |block| - 1 - j] == block[|block| - 1] == '\n';
        assert w[at + |block| - 1 - j] in w;
      }
    }
  }

  lemma KeepsLinesTransitive(s: string, m: string, t: string)
    requires KeepsLines(s, m) && KeepsLines(m, t)
    ensures KeepsLines(s, t)
  {
  }

  /** A newline-free text followed by a line is a line. */
  lemma LineAfterNewlineFree(x: string, tail: string)
    requires '\n' !in x && NoInnerNewline(tail) && |tail| > 0
    ensures NoInnerNewline(x + tail)
  {
    assert (x + tail)[..|x + tail| - 1] == x + tail[..|tail| - 1];
  }

  /** A text with no newline at all is a line, and so is one followed by a newline. */
  lemma LineOfNewlineFree(x: string)
    requires '\n' !in x
    ensures NoInnerNewline(x) && NoInnerNewline(x + "\n")
  {
    assert (x + "\n")[..|x + "\n"| - 1] == x;
    if |x| > 0 {
      assert forall c | c in x[..|x| - 1] :: c in x;
    }
  }
}
