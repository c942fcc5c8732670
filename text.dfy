/** The few Python string operations the tool's decisions rest on:
    `str.strip()`, `str.splitlines()`, `str.lower()`, substring `in`,
    and the "blank line" test `not line.strip()`. */
module Text {

  /** Python's `str.isspace()` for a single character. */
  predicate IsSpace(c: char) {
    || c == ' '
    || ('\t' <= c <= '\r')                 // \t \n \v \f \r
    || ('\U{1C}' <= c <= '\U{1F}')         // file, group, record and unit separators
    || c == '\U{85}' || c == '\U{A0}' || c == '\U{1680}'
    || ('\U{2000}' <= c <= '\U{200A}')
    || c == '\U{2028}' || c == '\U{2029}' || c == '\U{202F}' || c == '\U{205F}' || c == '\U{3000}'
  }

  /** The line boundaries of Python's `str.splitlines()` ("\r\n" is handled by SplitLines). */
  predicate IsLineBreak(c: char) {
    || c == '\n' || c == '\r' || c == '\U{0B}' || c == '\U{0C}'
    || c == '\U{1C}' || c == '\U{1D}' || c == '\U{1E}'
    || c == '\U{85}' || c == '\U{2028}' || c == '\U{2029}'
  }

  lemma LineBreakIsSpace(c: char)
    ensures IsLineBreak(c) ==> IsSpace(c)
  {
  }

  predicate AllSpace(s: string) {
    forall k :: 0 <= k < |s| ==> IsSpace(s[k])
  }

  /** Number of leading whitespace characters. */
  function LeadingSpaces(s: string): (n: nat)
    ensures n <= |s|
    ensures forall k :: 0 <= k < n ==> IsSpace(s[k])
    ensures n < |s| ==> !IsSpace(s[n])
  {
    if s == [] || !IsSpace(s[0]) then 0 else 1 + LeadingSpaces(s[1..])
  }

  /** Number of trailing whitespace characters. */
  function TrailingSpaces(s: string): (n: nat)
    ensures n <= |s|
    ensures forall k :: |s| - n <= k < |s| ==> IsSpace(s[k])
    ensures n < |s| ==> !IsSpace(s[|s| - n - 1])
  {
    if s == [] || !IsSpace(s[|s| - 1]) then 0 else 1 + TrailingSpaces(s[..|s| - 1])
  }

  /** Python's `s.strip()`: `s` without its leading and trailing whitespace. */
  function Strip(s: string): (r: string)
    ensures r != [] ==> !IsSpace(r[0]) && !IsSpace(r[|r| - 1])
    ensures r == [] <==> AllSpace(s)
  {
    var lo := LeadingSpaces(s);
    var t := s[lo..];
    assert AllSpace(s) ==> lo == |s|;
    t[..|t| - TrailingSpaces(t)]
  }

  /** What `Strip` removes is whitespace only, from both ends: the result is
      the slice `s[lo..hi]` with nothing but whitespace around it. */
  lemma StripCutsOnlySpace(s: string) returns (lo: nat, hi: nat)
    ensures lo <= hi <= |s| && Strip(s) == s[lo..hi]
    ensures AllSpace(s[..lo]) && AllSpace(s[hi..])
  {
    lo := LeadingSpaces(s);
    var t := s[lo..];
    hi := lo + |t| - TrailingSpaces(t);
    assert s[lo..hi] == t[..|t| - TrailingSpaces(t)];
    assert AllSpace(s[hi..]) by {
      forall k | 0 <= k < |s| - hi ensures IsSpace(s[hi..][k]) {
        assert s[hi..][k] == t[|t| - TrailingSpaces(t) + k];
      }
    }
  }

  /** Python's `not s.strip()`. */
  predicate IsBlank(s: string) {
    Strip(s) == []
  }

  /** Stripping twice is stripping once: what `git()` hands back is already
      trimmed, so a second `.strip()` of it changes nothing. */
  lemma {:induction false} StripIdempotent(s: string)
    ensures Strip(Strip(s)) == Strip(s)
  {
    var r := Strip(s);
    if r != [] {
      assert LeadingSpaces(r) == 0;
      assert TrailingSpaces(r) == 0;
    }
  }

  /** Index of the first line boundary in `s`, or `|s|` if there is none. */
  function BreakAt(s: string): (k: nat)
    ensures k <= |s|
    ensures forall j :: 0 <= j < k ==> !IsLineBreak(s[j])
    ensures k < |s| ==> IsLineBreak(s[k])
  {
    if s == [] || IsLineBreak(s[0]) then 0 else 1 + BreakAt(s[1..])
  }

  /** Python's `s.splitlines()`: the lines of `s` without their boundaries,
      "\r\n" counting as one boundary and no empty line after a final one. */
  function SplitLines(s: string): (lines: seq<string>)
    ensures lines == [] <==> s == []
    ensures forall i, k :: 0 <= i < |lines| && 0 <= k < |lines[i]| ==> !IsLineBreak(lines[i][k])
    decreases |s|
  {
    if s == [] then []
    else
      var k := BreakAt(s);
      if k == |s| then [s]
      else
        var next := if s[k] == '\r' && k + 1 < |s| && s[k + 1] == '\n' then k + 2 else k + 1;
        [s[..k]] + SplitLines(s[next..])
  }

  /** `len([l for l in lines if l.strip()])`. */
  function CountNonBlank(lines: seq<string>): nat {
    if lines == [] then 0
    else (if IsBlank(lines[0]) then 0 else 1) + CountNonBlank(lines[1..])
  }

  /** Where the first line of a non-empty text ends and the rest begins. */
  function NextLine(s: string): (next: nat)
    requires s != [] && BreakAt(s) < |s|
    ensures BreakAt(s) < next <= |s|
  {
    var k := BreakAt(s);
    if s[k] == '\r' && k + 1 < |s| && s[k + 1] == '\n' then k + 2 else k + 1
  }

  lemma SplitLinesUnfold(s: string)
    requires s != [] && BreakAt(s) < |s|
    ensures SplitLines(s) == [s[..BreakAt(s)]] + SplitLines(s[NextLine(s)..])
    ensures CountNonBlank(SplitLines(s)) ==
      (if IsBlank(s[..BreakAt(s)]) then 0 else 1) + CountNonBlank(SplitLines(s[NextLine(s)..]))
  {
    var lines := SplitLines(s);
    assert lines[1..] == SplitLines(s[NextLine(s)..]);
  }

  /** A text whose first line and rest are all whitespace is all whitespace, and back. */
  lemma AllSpaceSplit(s: string)
    requires s != [] && BreakAt(s) < |s|
    ensures AllSpace(s) <==> AllSpace(s[..BreakAt(s)]) && AllSpace(s[NextLine(s)..])
  {
    FirstBoundaryOf(s);
    AllSpaceAround(s, BreakAt(s), NextLine(s));
  }

  /** The same, for any first boundary: the boundary itself is whitespace. */
  lemma AllSpaceAround(s: string, k: nat, next: nat)
    requires FirstBoundary(s, k, next)
    ensures AllSpace(s) <==> AllSpace(s[..k]) && AllSpace(s[next..])
  {
    var head, rest := s[..k], s[next..];
    if AllSpace(s) {
      forall j | 0 <= j < |head| ensures IsSpace(head[j]) { assert head[j] == s[j]; }
      forall j | 0 <= j < |rest| ensures IsSpace(rest[j]) { assert rest[j] == s[next + j]; }
    }
    if AllSpace(head) && AllSpace(rest) {
      forall j | 0 <= j < |s| ensures IsSpace(s[j]) {
        if j < k {
          assert s[j] == head[j];
        } else if j < next {
          assert IsLineBreak(s[j]);
          LineBreakIsSpace(s[j]);
        } else {
          assert s[j] == rest[j - next];
        }
      }
    }
  }

  /** A text has a non-blank line exactly when it is not blank itself. */
  lemma {:induction false} NonBlankLines(s: string)
    ensures CountNonBlank(SplitLines(s)) == 0 <==> AllSpace(s)
    decreases |s|
  {
    if s != [] {
      var k := BreakAt(s);
      if k == |s| {
        assert SplitLines(s) == [s];
        assert CountNonBlank(SplitLines(s)) == (if IsBlank(s) then 0 else 1) + CountNonBlank([]);
      } else {
        NonBlankLines(s[NextLine(s)..]);
        SplitLinesUnfold(s);
        AllSpaceSplit(s);
      }
    }
  }

  /** `p` occurs in `s` at `i` as a whole line: at the start of `s` or right
      after a line boundary, and followed by a boundary or the end of `s`. */
  predicate LineAt(s: string, p: string, i: nat) {
    && i + |p| <= |s|
    && (forall m :: 0 <= m < |p| ==> s[i + m] == p[m])
    && (i == 0 || IsLineBreak(s[i - 1]))
    && (i + |p| == |s| || IsLineBreak(s[i + |p|]))
  }

  predicate NoLineBreak(p: string) {
    forall k :: 0 <= k < |p| ==> !IsLineBreak(p[k])
  }

  /** The first line of `s` ends at `k` and the rest starts at `next`. */
  predicate FirstBoundary(s: string, k: nat, next: nat) {
    && k < next <= |s|
    && IsLineBreak(s[k])
    && (forall j :: 0 <= j < k ==> !IsLineBreak(s[j]))
    && (next == k + 1 || (next == k + 2 && s[k] == '\r' && s[k + 1] == '\n'))
  }

  lemma FirstBoundaryOf(s: string)
    requires s != [] && BreakAt(s) < |s|
    ensures FirstBoundary(s, BreakAt(s), NextLine(s))
  {
  }

  /** Inside the first boundary, a position right after a boundary is
      itself a boundary (the "\n" of "\r\n"). */
  lemma InsideBoundary(s: string, k: nat, next: nat, i: nat)
    requires FirstBoundary(s, k, next) && i < next
    ensures 0 < i && IsLineBreak(s[i - 1]) ==> IsLineBreak(s[i])
  {
    if 0 < i && IsLineBreak(s[i - 1]) {
      assert k <= i - 1;
      assert i == k + 1 && s[i] == '\n';
    }
  }

  /** A whole line that starts before the rest of the text is the first line. */
  lemma LineAtFirst(s: string, k: nat, next: nat, p: string, i: nat)
    requires FirstBoundary(s, k, next) && i < next
    requires p != [] && NoLineBreak(p) && LineAt(s, p, i)
    ensures i == 0 && p == s[..k]
  {
    assert s[i] == p[0];
    InsideBoundary(s, k, next, i);
    forall m | 0 <= m < |p| ensures !IsLineBreak(s[m]) {
      assert s[m] == p[m];
    }
    assert |p| == k;
    assert p == s[..k];
  }

  /** Cutting the text right after a line boundary keeps its whole lines. */
  lemma LineAtAfterBreak(s: string, p: string, cut: nat, i: nat)
    requires 0 < cut <= |s| && IsLineBreak(s[cut - 1]) && cut <= i
    ensures LineAt(s, p, i) <==> LineAt(s[cut..], p, i - cut)
  {
    var rest := s[cut..];
    var j := i - cut;
    if i + |p| <= |s| {
      if j > 0 {
        assert s[i - 1] == rest[j - 1];
      }
      if i + |p| < |s| {
        assert s[i + |p|] == rest[j + |p|];
      }
    }
  }

  /** A text without line boundaries has itself as its one whole line. */
  lemma MembershipOneLine(s: string, p: string)
    requires forall j :: 0 <= j < |s| ==> !IsLineBreak(s[j])
    requires p != []
    ensures p in [s] <==> exists i :: LineAt(s, p, i)
  {
    if p == s {
      assert LineAt(s, p, 0);
    }
    forall i: nat | LineAt(s, p, i) ensures p == s {
      assert i == 0 && |p| == |s|;
    }
  }

  /** The lines of a text are its first line and the lines of the rest,
      so its whole lines are the first line and the rest's whole lines. */
  lemma MembershipStep(s: string, k: nat, next: nat, p: string, restLines: seq<string>)
    requires FirstBoundary(s, k, next)
    requires p != [] && NoLineBreak(p)
    requires p in restLines <==> exists j :: LineAt(s[next..], p, j)
    ensures p in [s[..k]] + restLines <==> exists i :: LineAt(s, p, i)
  {
    if p == s[..k] {
      assert LineAt(s, p, 0);
    } else if p in restLines {
      var j :| LineAt(s[next..], p, j);
      LineAtAfterBreak(s, p, next, next + j);
    }
    forall i: nat | LineAt(s, p, i) ensures p in [s[..k]] + restLines {
      if i < next {
        LineAtFirst(s, k, next, p, i);
      } else {
        LineAtAfterBreak(s, p, next, i);
      }
    }
  }

  /** `p in s.splitlines()`, for a non-empty `p` without line boundaries,
      holds exactly when `p` is a whole line of `s`. */
  lemma {:induction false} SplitLinesMembership(s: string, p: string)
    requires p != [] && NoLineBreak(p)
    ensures p in SplitLines(s) <==> exists i :: LineAt(s, p, i)
    decreases |s|
  {
    if s == [] {
      assert forall i :: !LineAt(s, p, i);
    } else if BreakAt(s) == |s| {
      assert SplitLines(s) == [s];
      MembershipOneLine(s, p);
    } else {
      SplitLinesUnfold(s);
      SplitLinesMembership(s[NextLine(s)..], p);
      FirstBoundaryOf(s);
      MembershipStep(s, BreakAt(s), NextLine(s), p, SplitLines(s[NextLine(s)..]));
    }
  }

  /** What `splitlines()` drops after each line: its boundary ("\r\n" or a
      single boundary character), or nothing after a last line that has none. */
  function LineEnds(s: string): seq<string>
    decreases |s|
  {
    if s == [] then []
    else
      var k := BreakAt(s);
      if k == |s| then [[]]
      else [s[k..NextLine(s)]] + LineEnds(s[NextLine(s)..])
  }

  /** One line boundary as `splitlines()` recognises it. */
  predicate IsLineEnd(b: string) {
    || (|b| == 2 && b[0] == '\r' && b[1] == '\n')
    || (|b| == 1 && IsLineBreak(b[0]))
  }

  /** A "\r" taken as a boundary on its own. */
  predicate IsLoneCR(b: string) {
    |b| == 1 && b[0] == '\r'
  }

  /** `lines` and `ends` cut `s` the way `splitlines()` does: `s` is the
      first line, its boundary and a cut of the rest; no line holds a
      boundary; a "\r" is never taken alone right before a "\n"; and only a
      last, non-empty line may go without a boundary. */
  predicate SplitOf(s: string, lines: seq<string>, ends: seq<string>)
    decreases |lines|
  {
    && |lines| == |ends|
    && if lines == [] then s == []
       else
         var n := |lines[0]| + |ends[0]|;
         && NoLineBreak(lines[0])
         && n <= |s| && s[..n] == lines[0] + ends[0]
         && if ends[0] == [] then |lines| == 1 && lines[0] != [] && n == |s|
            else
              && IsLineEnd(ends[0])
              && (IsLoneCR(ends[0]) ==> n == |s| || s[n] != '\n')
              && SplitOf(s[n..], lines[1..], ends[1..])
  }

  /** The first line and boundary `SplitLines` takes form a valid head of a cut. */
  lemma FirstLineEnd(s: string)
    requires s != [] && BreakAt(s) < |s|
    ensures var k, next := BreakAt(s), NextLine(s);
      && s[..next] == s[..k] + s[k..next]
      && NoLineBreak(s[..k])
      && IsLineEnd(s[k..next])
      && (IsLoneCR(s[k..next]) ==> next == |s| || s[next] != '\n')
  {
    FirstBoundaryOf(s);
    LineEndAt(s, BreakAt(s), NextLine(s));
  }

  lemma LineEndAt(s: string, k: nat, next: nat)
    requires FirstBoundary(s, k, next)
    requires s[k] == '\r' && next == k + 1 ==> next == |s| || s[next] != '\n'
    ensures s[..next] == s[..k] + s[k..next]
    ensures NoLineBreak(s[..k])
    ensures IsLineEnd(s[k..next])
    ensures IsLoneCR(s[k..next]) ==> next == |s| || s[next] != '\n'
  {
    assert forall j :: 0 <= j < k ==> s[..k][j] == s[j];
    if next == k + 2 {
      assert s[k..next] == [s[k], s[k + 1]];
    } else {
      assert s[k..next] == [s[k]];
    }
  }

  /** `SplitLines` with `LineEnds` is a cut of `s`. */
  lemma {:induction false} SplitLinesJoin(s: string)
    ensures SplitOf(s, SplitLines(s), LineEnds(s))
    decreases |s|
  {
    if s == [] {
    } else if BreakAt(s) == |s| {
      assert SplitLines(s) == [s] && LineEnds(s) == [[]];
      assert NoLineBreak(s);
    } else {
      var next := NextLine(s);
      SplitLinesUnfold(s);
      SplitLinesJoin(s[next..]);
      FirstLineEnd(s);
      var lines, ends := SplitLines(s), LineEnds(s);
      assert lines[1..] == SplitLines(s[next..]);
      assert ends[1..] == LineEnds(s[next..]);
    }
  }

  /** A valid head `line + end` of a cut is the first line and boundary
      `SplitLines` takes: `end` starts at `BreakAt(s)` and ends at `NextLine(s)`. */
  lemma HeadChars(s: string, line: string, end: string)
    requires |line| + |end| <= |s| && s[..|line| + |end|] == line + end
    ensures s[..|line|] == line && s[|line|..|line| + |end|] == end
  {
    var n := |line| + |end|;
    assert s[..|line|] == s[..n][..|line|];
    assert s[|line|..n] == s[..n][|line|..];
  }

  lemma HeadBreak(s: string, line: string, end: string)
    requires NoLineBreak(line) && IsLineEnd(end) && |line| + |end| <= |s|
    requires s[..|line|] == line && s[|line|..|line| + |end|] == end
    ensures s != [] && BreakAt(s) == |line|
  {
    if |end| == 2 {
      assert end[0] == '\r';
    }
    assert s[|line|] == end[0];
    forall j | 0 <= j < |line| ensures !IsLineBreak(s[j]) {
      assert s[j] == line[j];
    }
  }

  lemma HeadNext(s: string, k: nat, end: string)
    requires s != [] && BreakAt(s) == k && IsLineEnd(end) && k + |end| <= |s|
    requires s[k] == end[0] && (|end| == 2 ==> s[k + 1] == end[1])
    requires IsLoneCR(end) ==> k + |end| == |s| || s[k + |end|] != '\n'
    ensures BreakAt(s) < |s| && NextLine(s) == k + |end|
  {
  }

  lemma HeadIsFirstLine(s: string, line: string, end: string)
    requires NoLineBreak(line) && IsLineEnd(end)
    requires |line| + |end| <= |s| && s[..|line| + |end|] == line + end
    requires IsLoneCR(end) ==> |line| + |end| == |s| || s[|line| + |end|] != '\n'
    ensures s != [] && BreakAt(s) == |line| < |s| && NextLine(s) == |line| + |end|
    ensures s[..|line|] == line && s[|line|..|line| + |end|] == end
  {
    var k := |line|;
    HeadChars(s, line, end);
    HeadBreak(s, line, end);
    assert s[k] == s[k..k + |end|][0];
    if |end| == 2 {
      assert s[k + 1] == s[k..k + |end|][1];
    }
    HeadNext(s, k, end);
  }

  /** ... and a text has exactly one cut: the one `SplitLines` and `LineEnds` make. */
  lemma {:induction false} SplitOfUnique(s: string, lines: seq<string>, ends: seq<string>)
    requires SplitOf(s, lines, ends)
    ensures lines == SplitLines(s) && ends == LineEnds(s)
    decreases |lines|
  {
    if lines != [] {
      var n := |lines[0]| + |ends[0]|;
      if ends[0] == [] {
        LastLineUnique(s, lines, ends);
      } else {
        SplitOfHead(s, lines, ends);
        SplitOfUnique(s[n..], lines[1..], ends[1..]);
        HeadIsFirstLine(s, lines[0], ends[0]);
        StepUnique(s, |lines[0]|, n, lines, ends);
      }
    }
  }

  lemma LastLineUnique(s: string, lines: seq<string>, ends: seq<string>)
    requires |lines| == |ends| == 1 && ends[0] == []
    requires NoLineBreak(lines[0]) && lines[0] != []
    requires |lines[0]| == |s| && s[..|s|] == lines[0] + ends[0]
    ensures lines == SplitLines(s) && ends == LineEnds(s)
  {
    assert s == lines[0] by {
      assert s == s[..|s|];
    }
    assert NoLineBreak(s);
    assert lines == [s];
  }

  lemma SplitOfHead(s: string, lines: seq<string>, ends: seq<string>)
    requires SplitOf(s, lines, ends) && lines != [] && ends[0] != []
    ensures |lines[0]| + |ends[0]| <= |s|
    ensures var n := |lines[0]| + |ends[0]|;
      && NoLineBreak(lines[0]) && IsLineEnd(ends[0])
      && s[..n] == lines[0] + ends[0]
      && (IsLoneCR(ends[0]) ==> n == |s| || s[n] != '\n')
      && SplitOf(s[n..], lines[1..], ends[1..])
  {
  }

  lemma StepUnique(s: string, k: nat, n: nat, lines: seq<string>, ends: seq<string>)
    requires |lines| == |ends| > 0
    requires s != [] && BreakAt(s) == k < |s| && NextLine(s) == n
    requires s[..k] == lines[0] && s[k..n] == ends[0]
    requires lines[1..] == SplitLines(s[n..]) && ends[1..] == LineEnds(s[n..])
    ensures lines == SplitLines(s) && ends == LineEnds(s)
  {
    SplitLinesUnfold(s);
    LineEndsUnfold(s);
    HeadAndTail(lines);
    HeadAndTail(ends);
  }

  lemma LineEndsUnfold(s: string)
    requires s != [] && BreakAt(s) < |s|
    ensures LineEnds(s) == [s[BreakAt(s)..NextLine(s)]] + LineEnds(s[NextLine(s)..])
  {
  }

  lemma HeadAndTail<T>(x: seq<T>)
    requires x != []
    ensures x == [x[0]] + x[1..]
  {
  }

  /** Python's `s.lower()` restricted to ASCII letters. */
  function Lower(s: string): (r: string)
    ensures |r| == |s|
    ensures forall k :: 0 <= k < |s| ==> r[k] == LowerChar(s[k])
  {
    if s == [] then [] else [LowerChar(s[0])] + Lower(s[1..])
  }

  function LowerChar(c: char): char {
    if 'A' <= c <= 'Z' then (c as int + 32) as char else c
  }

  /** Lower-casing works character by character, so it distributes over `+`. */
  lemma LowerConcat(a: string, b: string)
    ensures Lower(a + b) == Lower(a) + Lower(b)
  {
  }

  predicate IsPrefix(p: string, s: string) {
    |p| <= |s| && s[..|p|] == p
  }

  /** Python's `needle in hay` on strings. */
  predicate Contains(hay: string, needle: string)
    decreases |hay|
  {
    IsPrefix(needle, hay) || (hay != [] && Contains(hay[1..], needle))
  }

  /** An occurrence at a given position is found. */
  lemma {:induction false} ContainsAt(hay: string, needle: string, i: nat)
    requires i + |needle| <= |hay| && hay[i..i + |needle|] == needle
    ensures Contains(hay, needle)
    decreases i
  {
    if i == 0 {
      assert IsPrefix(needle, hay);
    } else {
      assert hay[1..][i - 1..i - 1 + |needle|] == needle;
      ContainsAt(hay[1..], needle, i - 1);
    }
  }

  /** A found occurrence has a position. */
  lemma {:induction false} ContainsWitness(hay: string, needle: string) returns (i: nat)
    requires Contains(hay, needle)
    ensures i + |needle| <= |hay| && hay[i..i + |needle|] == needle
    decreases |hay|
  {
    if IsPrefix(needle, hay) {
      i := 0;
    } else {
      var j := ContainsWitness(hay[1..], needle);
      i := j + 1;
      assert hay[i..i + |needle|] == hay[1..][j..j + |needle|];
    }
  }

  /** Substring search survives lower-casing both sides, so
      `"nothing to commit" in s.lower()` holds whatever the case of `s`. */
  lemma ContainsLower(hay: string, needle: string)
    requires Contains(hay, needle)
    ensures Contains(Lower(hay), Lower(needle))
  {
    var i := ContainsWitness(hay, needle);
    assert Lower(hay)[i..i + |needle|] == Lower(needle);
    ContainsAt(Lower(hay), Lower(needle), i);
  }

  /** An occurrence in either part is an occurrence in the concatenation. */
  lemma ContainsConcat(a: string, b: string, needle: string)
    requires Contains(a, needle) || Contains(b, needle)
    ensures Contains(a + b, needle)
  {
    if Contains(a, needle) {
      var i := ContainsWitness(a, needle);
      assert (a + b)[i..i + |needle|] == a[i..i + |needle|];
      ContainsAt(a + b, needle, i);
    } else {
      var i := ContainsWitness(b, needle);
      assert (a + b)[|a| + i..|a| + i + |needle|] == b[i..i + |needle|];
      ContainsAt(a + b, needle, |a| + i);
    }
  }

  predicate IsDigits(s: string) {
    forall k :: 0 <= k < |s| ==> '0' <= s[k] <= '9'
  }

  /** The number a string of decimal digits spells. */
  function DecimalValue(s: string): nat
    requires IsDigits(s)
  {
    if s == [] then 0 else 10 * DecimalValue(s[..|s| - 1]) + (s[|s| - 1] as int - '0' as int)
  }

  /** Decimal rendering of a natural number, as Python's `str(n)`: the
      digits spell `n`, with no leading zero. */
  function NatToString(n: nat): (r: string)
    ensures r != [] && IsDigits(r)
    ensures DecimalValue(r) == n
    ensures r[0] == '0' <==> n == 0
    ensures n == 0 ==> r == "0"
  {
    if n < 10 then [DigitChar(n)]
    else
      var r := NatToString(n / 10) + [DigitChar(n % 10)];
      assert r[..|r| - 1] == NatToString(n / 10);
      r
  }

  function DigitChar(d: nat): (c: char)
    requires d < 10
    ensures '0' <= c <= '9' && c as int - '0' as int == d
  {
    ('0' as int + d) as char
  }
}
