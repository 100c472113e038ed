/**
 Whitespace handling: `" ".join(s.split())`, `s.strip()` and `s.rstrip()` as the
 planner, the action proposals and the conversation titles use them.
 */
module Text {

  const MAX_NOTES_LENGTH := 2000
  const MAX_TITLE_LENGTH := 120

  /** The characters `str.split()` and `str.strip()` treat as whitespace. */
  predicate IsSpace(c: char) {
    || c == ' ' || '\t' <= c <= '\r' || '\U{1c}' <= c <= '\U{1f}' || c == '\U{85}' || c == '\U{a0}'
    || c == '\U{1680}' || '\U{2000}' <= c <= '\U{200a}' || c == '\U{2028}' || c == '\U{2029}'
    || c == '\U{202f}' || c == '\U{205f}' || c == '\U{3000}'
  }

  predicate IsWord(w: string) {
    w != "" && forall i :: 0 <= i < |w| ==> !IsSpace(w[i])
  }

  predicate AreWords(ws: seq<string>) {
    forall i :: 0 <= i < |ws| ==> IsWord(ws[i])
  }

  /** The number of characters before the first whitespace. */
  function WordLength(s: string): (n: nat)
    ensures n <= |s|
    ensures forall i :: 0 <= i < n ==> !IsSpace(s[i])
    ensures n < |s| ==> IsSpace(s[n])
  {
    if s == "" || IsSpace(s[0]) then 0 else 1 + WordLength(s[1..])
  }

  function Split(s: string): (ws: seq<string>)
    ensures AreWords(ws)
    decreases |s|
  {
    if s == "" then []
    else if IsSpace(s[0]) then Split(s[1..])
    else
      var n := WordLength(s);
      [s[..n]] + Split(s[n..])
  }

  function Join(ws: seq<string>): string {
    if ws == [] then "" else if |ws| == 1 then ws[0] else ws[0] + " " + Join(ws[1..])
  }

  function Normalize(s: string): string {
    Join(Split(s))
  }

  function LStrip(s: string): string {
    if s != "" && IsSpace(s[0]) then LStrip(s[1..]) else s
  }

  function RStrip(s: string): string {
    if s != "" && IsSpace(s[|s| - 1]) then RStrip(s[..|s| - 1]) else s
  }

  function Strip(s: string): string {
    RStrip(LStrip(s))
  }

  /** An independent description of normalized text: only single inner blanks. */
  predicate IsNormal(s: string) {
    && (s != "" ==> !IsSpace(s[0]) && !IsSpace(s[|s| - 1]))
    && (forall i :: 0 <= i < |s| && IsSpace(s[i]) ==> s[i] == ' ')
    && (forall i :: 0 <= i < |s| - 1 && IsSpace(s[i]) ==> !IsSpace(s[i + 1]))
  }

  function BuildTitle(question: string): string {
    var normalized := Normalize(question);
    if |normalized| <= MAX_TITLE_LENGTH then normalized
    else RStrip(normalized[..MAX_TITLE_LENGTH - 1]) + "…"
  }

  /** Splitting inverts joining on non-empty, whitespace-free words. */
  lemma {:induction false} SplitInvertsJoin(ws: seq<string>)
    requires AreWords(ws)
    ensures Split(Join(ws)) == ws
  {
    if |ws| == 1 {
      WordThenSplit(ws[0], "");
      assert ws[0] + "" == ws[0];
      assert ws == [ws[0]];
    } else if |ws| > 1 {
      assert IsWord(ws[0]);
      assert AreWords(ws[1..]);
      SplitInvertsJoin(ws[1..]);
      var rest := " " + Join(ws[1..]);
      assert Join(ws) == ws[0] + rest;
      assert rest[1..] == Join(ws[1..]);
      WordThenSplit(ws[0], rest);
    }
  }

  lemma {:induction false} WordThenSplit(w: string, rest: string)
    requires IsWord(w)
    requires rest != "" ==> IsSpace(rest[0])
    ensures Split(w + rest) == [w] + Split(rest)
  {
    var s := w + rest;
    var n := WordLength(s);
    assert forall i :: 0 <= i < |w| ==> s[i] == w[i];
    assert rest != "" ==> s[|w|] == rest[0];
    assert !IsSpace(s[0]) && n == |w|;
    assert s[..n] == w;
    assert s[n..] == rest;
  }

  lemma {:induction false} JoinIsNormal(ws: seq<string>)
    requires AreWords(ws)
    ensures IsNormal(Join(ws))
    ensures ws != [] ==> Join(ws) != ""
  {
    if |ws| > 1 {
      assert IsWord(ws[0]) && AreWords(ws[1..]);
      JoinIsNormal(ws[1..]);
      var w, tail := ws[0], Join(ws[1..]);
      var s := w + " " + tail;
      assert s[|s| - 1] == tail[|tail| - 1];
      assert forall i :: 0 <= i < |w| ==> s[i] == w[i];
      forall i | 0 <= i < |s| && IsSpace(s[i])
        ensures s[i] == ' ' && (i < |s| - 1 ==> !IsSpace(s[i + 1]))
      {
        assert |w| <= i;
        if i == |w| {
          assert s[i + 1] == tail[0];
        } else {
          assert s[i] == tail[i - |w| - 1];
          if i < |s| - 1 {
            assert s[i + 1] == tail[i - |w|];
          }
        }
      }
    }
  }

  /** The rest of a normal text after a blank is normal. */
  lemma TailIsNormal(s: string, n: nat)
    requires IsNormal(s) && n < |s| && IsSpace(s[n])
    ensures n + 1 < |s| && s[n] == ' ' && !IsSpace(s[n + 1]) && IsNormal(s[n + 1..])
  {
    var rest := s[n + 1..];
    assert rest[0] == s[n + 1] && rest[|rest| - 1] == s[|s| - 1];
    forall i | 0 <= i < |rest| && IsSpace(rest[i])
      ensures rest[i] == ' ' && (i < |rest| - 1 ==> !IsSpace(rest[i + 1]))
    {
      assert rest[i] == s[n + 1 + i];
      if i < |rest| - 1 {
        assert rest[i + 1] == s[n + 2 + i];
      }
    }
  }

  lemma SplitAtBlank(s: string, n: nat)
    requires 0 < n == WordLength(s) && n + 1 < |s| && !IsSpace(s[n + 1])
    ensures Split(s) == [s[..n]] + Split(s[n + 1..]) && Split(s[n + 1..]) != []
  {
    assert s[n..][1..] == s[n + 1..];
    assert Split(s[n..]) == Split(s[n + 1..]);
  }

  lemma OneWordIsFixed(s: string)
    requires s != "" && WordLength(s) == |s|
    ensures Normalize(s) == s
  {
    assert !IsSpace(s[0]);
    assert s[|s|..] == "" && s[..|s|] == s;
    assert Split(s) == [s];
  }

  lemma JoinFirst(w: string, ws: seq<string>)
    requires ws != []
    ensures Join([w] + ws) == w + " " + Join(ws)
  {
    assert ([w] + ws)[1..] == ws;
  }

  lemma NormalizeFirst(s: string, n: nat)
    requires 0 < n == WordLength(s) && n + 1 < |s| && !IsSpace(s[n + 1])
    ensures Normalize(s) == s[..n] + " " + Normalize(s[n + 1..])
  {
    SplitAtBlank(s, n);
    JoinFirst(s[..n], Split(s[n + 1..]));
  }

  lemma CutAtBlank(s: string, n: nat)
    requires n < |s| && s[n] == ' '
    ensures s == s[..n] + " " + s[n + 1..]
  {
  }

  lemma {:induction false} NormalIsFixed(s: string)
    requires IsNormal(s)
    ensures Normalize(s) == s
    decreases |s|
  {
    if s != "" {
      var n := WordLength(s);
      if n == |s| {
        OneWordIsFixed(s);
      } else {
        TailIsNormal(s, n);
        NormalizeFirst(s, n);
        NormalIsFixed(s[n + 1..]);
        CutAtBlank(s, n);
      }
    }
  }

  /** Normalization lands exactly on the normal strings and leaves those unchanged. */
  lemma NormalizeFixpoints(s: string)
    ensures IsNormal(Normalize(s))
    ensures Normalize(Normalize(s)) == Normalize(s)
    ensures Normalize(s) == s <==> IsNormal(s)
  {
    JoinIsNormal(Split(s));
    NormalIsFixed(Normalize(s));
    if IsNormal(s) {
      NormalIsFixed(s);
    }
  }

  lemma StripKeepsNormal(s: string)
    requires IsNormal(s)
    ensures Strip(s) == s
  {
    assert LStrip(s) == s;
    assert RStrip(s) == s;
  }

  /** Stripping a second time removes nothing. */
  lemma StrippingIsFinal(s: string)
    ensures Strip(Strip(s)) == Strip(s)
  {
    var left := LStrip(s);
    LStripStops(s);
    RStripKeepsHead(left);
    LStripFixed(RStrip(left));
    RStripStops(left);
    RStripFixed(RStrip(left));
  }

  lemma LStripStops(s: string)
    ensures LStrip(s) != "" ==> !IsSpace(LStrip(s)[0])
  {
  }

  lemma RStripStops(s: string)
    ensures RStrip(s) != "" ==> !IsSpace(RStrip(s)[|RStrip(s)| - 1])
  {
  }

  lemma RStripKeepsHead(s: string)
    requires s != "" ==> !IsSpace(s[0])
    ensures RStrip(s) != "" ==> !IsSpace(RStrip(s)[0])
  {
  }

  lemma LStripFixed(s: string)
    requires s != "" ==> !IsSpace(s[0])
    ensures LStrip(s) == s
  {
  }

  lemma RStripFixed(s: string)
    requires s != "" ==> !IsSpace(s[|s| - 1])
    ensures RStrip(s) == s
  {
  }

  lemma {:induction false} RStripOfNormalPrefix(s: string, n: nat)
    requires IsNormal(s) && n <= |s|
    ensures IsNormal(RStrip(s[..n])) && |RStrip(s[..n])| <= n
    decreases n
  {
    var p := s[..n];
    assert forall i :: 0 <= i < n ==> p[i] == s[i];
    if n > 0 && IsSpace(p[n - 1]) {
      assert p[..n - 1] == s[..n - 1];
      RStripOfNormalPrefix(s, n - 1);
    } else {
      assert RStrip(p) == p;
      assert IsNormal(p) by {
        forall i | 0 <= i < |p| - 1 && IsSpace(p[i]) ensures !IsSpace(p[i + 1]) {
          assert p[i + 1] == s[i + 1];
        }
      }
    }
  }

  /** A title fits its column, is already normalized, and re-titling it changes nothing. */
  lemma TitleFits(question: string)
    ensures |BuildTitle(question)| <= MAX_TITLE_LENGTH
    ensures IsNormal(BuildTitle(question))
    ensures BuildTitle(BuildTitle(question)) == BuildTitle(question)
  {
    var normalized := Normalize(question);
    NormalizeFixpoints(question);
    if |normalized| > MAX_TITLE_LENGTH {
      RStripOfNormalPrefix(normalized, MAX_TITLE_LENGTH - 1);
      var p := RStrip(normalized[..MAX_TITLE_LENGTH - 1]);
      var t := p + "…";
      assert !IsSpace('…');
      forall i | 0 <= i < |t| && IsSpace(t[i])
        ensures t[i] == ' ' && (i < |t| - 1 ==> !IsSpace(t[i + 1]))
      {
        assert t[i] == p[i];
        if i < |p| - 1 {
          assert t[i + 1] == p[i + 1];
        }
      }
      assert t[0] == if p == "" then '…' else p[0];
      assert IsNormal(t);
    }
    NormalizeFixpoints(BuildTitle(question));
  }

  // ---- what splitting, normalizing, stripping and titling keep ----

  /** Splitting a word gives that word, and splitting at any whitespace character splits both sides. */
  lemma WordIsWhole(w: string)
    requires IsWord(w)
    ensures Split(w) == [w]
  {
    WordThenSplit(w, "");
    assert w + "" == w;
  }

  lemma SpaceIsSkipped(c: char, s: string)
    requires IsSpace(c)
    ensures Split([c] + s) == Split(s)
  {
    assert ([c] + s)[1..] == s;
  }

  /** With the fact above this determines the words of every text. */
  lemma {:induction false} SplitsAtEveryBlank(a: string, c: char, b: string)
    requires IsSpace(c)
    ensures Split(a + [c] + b) == Split(a) + Split(b)
    decreases |a|, 1
  {
    if a == "" {
      assert a + [c] + b == [c] + b;
      SpaceIsSkipped(c, b);
    } else if IsSpace(a[0]) {
      SplitsAtEveryBlank(a[1..], c, b);
      assert a == [a[0]] + a[1..] && a + [c] + b == [a[0]] + (a[1..] + [c] + b);
      SpaceIsSkipped(a[0], a[1..]);
      SpaceIsSkipped(a[0], a[1..] + [c] + b);
    } else {
      SplitsBehindWord(a, c, b);
    }
  }

  lemma {:induction false} SplitsBehindWord(a: string, c: char, b: string)
    requires IsSpace(c) && a != "" && !IsSpace(a[0])
    ensures Split(a + [c] + b) == Split(a) + Split(b)
    decreases |a|, 0
  {
    var w, rest := a[..WordLength(a)], a[WordLength(a)..];
    assert w[0] == a[0];
    SplitsAtEveryBlank(rest, c, b);
    assert a == w + rest && a + [c] + b == w + (rest + [c] + b);
    WordThenSplit(w, rest);
    WordThenSplit(w, rest + [c] + b);
    assert [w] + (Split(rest) + Split(b)) == ([w] + Split(rest)) + Split(b);
  }

  /** The characters of a text that are not whitespace, in order. */
  function Ink(s: string): string {
    if s == "" then "" else (if IsSpace(s[0]) then "" else [s[0]]) + Ink(s[1..])
  }

  lemma {:induction false} InkConcat(a: string, b: string)
    ensures Ink(a + b) == Ink(a) + Ink(b)
  {
    if a == "" {
      assert a + b == b;
    } else {
      assert (a + b)[1..] == a[1..] + b;
      InkConcat(a[1..], b);
    }
  }

  lemma {:induction false} WordIsInk(w: string)
    requires forall i :: 0 <= i < |w| ==> !IsSpace(w[i])
    ensures Ink(w) == w
  {
    if w != "" {
      WordIsInk(w[1..]);
    }
  }

  lemma {:induction false} JoinKeepsInk(ws: seq<string>)
    requires AreWords(ws) && ws != []
    ensures Ink(Join(ws)) == ws[0] + Ink(Join(ws[1..]))
  {
    assert IsWord(ws[0]);
    if |ws| == 1 {
      WordIsInk(ws[0]);
      assert Join(ws[1..]) == "";
    } else {
      BlankIsNoInk(ws[0], Join(ws[1..]));
    }
  }

  lemma BlankIsNoInk(w: string, s: string)
    requires forall i :: 0 <= i < |w| ==> !IsSpace(w[i])
    ensures Ink(w + " " + s) == w + Ink(s)
  {
    assert w + " " + s == w + (" " + s) && (" " + s)[1..] == s;
    InkConcat(w, " " + s);
    WordIsInk(w);
  }

  /** Normalizing changes whitespace only. */
  lemma {:induction false} NormalizeKeepsInk(s: string)
    ensures Ink(Normalize(s)) == Ink(s)
    decreases |s|
  {
    if s != "" {
      if IsSpace(s[0]) {
        NormalizeKeepsInk(s[1..]);
      } else {
        var n := WordLength(s);
        assert s == s[..n] + s[n..];
        InkConcat(s[..n], s[n..]);
        WordIsInk(s[..n]);
        NormalizeKeepsInk(s[n..]);
        JoinKeepsInk(Split(s));
        assert Split(s)[0] == s[..n] && Split(s)[1..] == Split(s[n..]);
      }
    }
  }

  predicate AllSpace(s: string) {
    forall i :: 0 <= i < |s| ==> IsSpace(s[i])
  }

  lemma {:induction false} LStripCuts(s: string) returns (i: nat)
    ensures i <= |s| && LStrip(s) == s[i..] && AllSpace(s[..i])
  {
    if s != "" && IsSpace(s[0]) {
      var k := LStripCuts(s[1..]);
      i := k + 1;
      assert s[..i] == [s[0]] + s[1..][..k];
    } else {
      i := 0;
    }
  }

  lemma {:induction false} RStripCuts(s: string) returns (j: nat)
    ensures j <= |s| && RStrip(s) == s[..j] && AllSpace(s[j..])
  {
    if s != "" && IsSpace(s[|s| - 1]) {
      j := RStripCuts(s[..|s| - 1]);
      assert s[j..] == s[..|s| - 1][j..] + [s[|s| - 1]];
    } else {
      j := |s|;
    }
  }

  /** Stripping cuts whitespace off both ends, all of it and nothing else. */
  lemma StripCuts(s: string) returns (i: nat, j: nat)
    ensures i <= j <= |s| && Strip(s) == s[i..j] && AllSpace(s[..i]) && AllSpace(s[j..])
    ensures Strip(s) != "" ==> !IsSpace(Strip(s)[0]) && !IsSpace(Strip(s)[|Strip(s)| - 1])
  {
    i := LStripCuts(s);
    var k := RStripCuts(s[i..]);
    j := i + k;
    assert s[i..][..k] == s[i..j] && s[i..][k..] == s[j..];
    LStripStops(s);
    RStripKeepsHead(LStrip(s));
    RStripStops(LStrip(s));
  }

  /**
   A question that fits titles itself, normalized. A longer one is cut behind its longest beginning of at most 119
   characters that does not end in a blank, and marked as cut.
   */
  lemma TitleKeepsBeginning(question: string) returns (k: nat)
    ensures var n := Normalize(question);
            if |n| <= MAX_TITLE_LENGTH then BuildTitle(question) == n
            else
              && MAX_TITLE_LENGTH - 2 <= k <= MAX_TITLE_LENGTH - 1 && BuildTitle(question) == n[..k] + "…"
              && !IsSpace(n[k - 1]) && (k < MAX_TITLE_LENGTH - 1 ==> IsSpace(n[k]))
  {
    var n := Normalize(question);
    NormalizeFixpoints(question);
    k := 0;
    if |n| > MAX_TITLE_LENGTH {
      var last := MAX_TITLE_LENGTH - 1;
      var p := n[..last];
      k := if IsSpace(n[last - 1]) then last - 1 else last;
      if IsSpace(n[last - 1]) {
        assert !IsSpace(n[last - 2]);
        assert p[..last - 1] == n[..last - 1];
        RStripFixed(n[..last - 1]);
      } else {
        RStripFixed(p);
      }
    }
  }

  lemma {:induction false} LeadingSpaceIsIgnored(space: string, s: string)
    requires AllSpace(space)
    ensures Split(space + s) == Split(s)
  {
    if space == "" {
      assert space + s == s;
    } else {
      assert (space + s)[1..] == space[1..] + s;
      LeadingSpaceIsIgnored(space[1..], s);
    }
  }

  lemma TrailingSpaceIsIgnored(s: string, space: string)
    requires AllSpace(space)
    ensures Split(s + space) == Split(s)
  {
    if space == "" {
      assert s + space == s;
    } else {
      assert s + space == s + [space[0]] + space[1..];
      SplitsAtEveryBlank(s, space[0], space[1..]);
      LeadingSpaceIsIgnored(space[1..], "");
      assert space[1..] + "" == space[1..];
    }
  }

  /** However much whitespace separates two texts, and whichever, it separates their words all the same. */
  lemma GapSeparates(a: string, gap: string, b: string)
    requires gap != "" && AllSpace(gap)
    ensures Split(a + gap + b) == Split(a) + Split(b)
  {
    assert a + gap + b == a + [gap[0]] + (gap[1..] + b);
    SplitsAtEveryBlank(a, gap[0], gap[1..] + b);
    LeadingSpaceIsIgnored(gap[1..], b);
  }
}
