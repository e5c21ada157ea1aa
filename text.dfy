/**
 * The Python string operations the adapters and the query sampler rely on:
 * str.lower (on ASCII letters), substring test `needle in hay`,
 * str.split() with no separator, and " ".join.
 */
module Text {

  /** Lower-cases one ASCII letter; every other character is kept. */
  function LowerChar(c: char): char
  {
    if 'A' <= c <= 'Z' then (c as int + 32) as char else c
  }

  /** str.lower on ASCII letters. */
  function Lower(s: string): (r: string)
    ensures |r| == |s|
    ensures forall i :: 0 <= i < |s| ==> r[i] == LowerChar(s[i])
  {
    seq(|s|, i requires 0 <= i < |s| => LowerChar(s[i]))
  }

  /** needle occurs in hay starting at offset i. */
  predicate OccursAt(hay: string, needle: string, i: int)
  {
    0 <= i <= |hay| - |needle| && hay[i..i + |needle|] == needle
  }

  lemma OccursShift(hay: string, needle: string)
    requires hay != []
    ensures OccursAt(hay, needle, 0) <==> needle <= hay
    ensures forall i :: 1 <= i ==> (OccursAt(hay, needle, i) <==> OccursAt(hay[1..], needle, i - 1))
  {
    forall i | 1 <= i
      ensures OccursAt(hay, needle, i) <==> OccursAt(hay[1..], needle, i - 1)
    {
      if 0 <= i - 1 <= |hay[1..]| - |needle| {
        assert hay[1..][i - 1..i - 1 + |needle|] == hay[i..i + |needle|];
      }
    }
  }

  /** `needle in hay`: needle occurs in hay at some offset. */
  function Contains(hay: string, needle: string): (b: bool)
    ensures b <==> exists i :: OccursAt(hay, needle, i)
    decreases |hay|
  {
    if needle <= hay then
      assert OccursAt(hay, needle, 0);
      true
    else if hay == [] then false
    else
      var r := Contains(hay[1..], needle);
      OccursShift(hay, needle);
      assert r ==> exists i :: OccursAt(hay, needle, i) by {
        if r {
          var i :| OccursAt(hay[1..], needle, i);
          assert OccursAt(hay, needle, i + 1);
        }
      }
      r
  }

  /** The characters str.split() separates on (the characters Python's str.isspace accepts). */
  predicate IsSpace(c: char)
  {
    var n := c as int;
    (9 <= n <= 13) || (28 <= n <= 32) || n == 0x85 || n == 0xA0 || n == 0x1680 ||
    (0x2000 <= n <= 0x200A) || n == 0x2028 || n == 0x2029 || n == 0x202F ||
    n == 0x205F || n == 0x3000
  }

  /** A word of str.split(): non-empty and free of whitespace. */
  ghost predicate IsWord(w: string)
  {
    w != [] && forall i :: 0 <= i < |w| ==> !IsSpace(w[i])
  }

  /** The longest whitespace-free prefix of s. */
  function Run(s: string): (w: string)
    ensures w <= s
    ensures forall i :: 0 <= i < |w| ==> !IsSpace(w[i])
    ensures |w| < |s| ==> IsSpace(s[|w|])
  {
    if s == [] || IsSpace(s[0]) then [] else [s[0]] + Run(s[1..])
  }

  /** str.split(): the maximal runs of non-whitespace characters, in order. */
  function Words(s: string): (ws: seq<string>)
    ensures forall i :: 0 <= i < |ws| ==> IsWord(ws[i])
    decreases |s|
  {
    if s == [] then []
    else if IsSpace(s[0]) then Words(s[1..])
    else
      var w := Run(s);
      [w] + Words(s[|w|..])
  }

  /** Only whitespace. */
  predicate Blank(g: string)
  {
    forall i :: 0 <= i < |g| ==> IsSpace(g[i])
  }

  /** gaps[0] + words[0] + gaps[1] + ... + words[n-1] + gaps[n]. */
  function Interleave(gaps: seq<string>, words: seq<string>): string
    requires |gaps| == |words| + 1
    decreases |words|
  {
    if words == [] then gaps[0] else gaps[0] + words[0] + Interleave(gaps[1..], words[1..])
  }

  /** s consists of the given words separated by whitespace: every gap is blank,
      and the gaps between two words are not empty, so each word is a maximal run. */
  ghost predicate SplitInto(s: string, gaps: seq<string>, words: seq<string>)
  {
    && |gaps| == |words| + 1
    && (forall i :: 0 <= i < |words| ==> IsWord(words[i]))
    && (forall i :: 0 <= i < |gaps| ==> Blank(gaps[i]))
    && (forall i :: 0 < i < |words| ==> gaps[i] != [])
    && s == Interleave(gaps, words)
  }

  /** The whitespace around and between the words of s. */
  function Gaps(s: string): (gaps: seq<string>)
    ensures |gaps| == |Words(s)| + 1
    decreases |s|
  {
    if s == [] then [""]
    else if IsSpace(s[0]) then
      var g := Gaps(s[1..]);
      [[s[0]] + g[0]] + g[1..]
    else
      [""] + Gaps(s[|Run(s)|..])
  }

  lemma PrefixThenRest<T>(p: seq<T>, s: seq<T>)
    requires p <= s
    ensures p + s[|p|..] == s
  {
  }

  lemma ConsAssociative<T>(x: T, a: seq<T>, b: seq<T>, c: seq<T>)
    ensures ([x] + a) + b + c == [x] + (a + b + c)
  {
  }

  lemma {:induction false} InterleavePrepend(c: char, gaps: seq<string>, words: seq<string>)
    requires |gaps| == |words| + 1
    ensures Interleave([[c] + gaps[0]] + gaps[1..], words) == [c] + Interleave(gaps, words)
  {
    var gs := [[c] + gaps[0]] + gaps[1..];
    assert gs[0] == [c] + gaps[0] && gs[1..] == gaps[1..];
    if words != [] {
      var tail := Interleave(gaps[1..], words[1..]);
      assert Interleave(gs, words) == ([c] + gaps[0]) + words[0] + tail;
      assert Interleave(gaps, words) == gaps[0] + words[0] + tail;
      ConsAssociative(c, gaps[0], words[0], tail);
    }
  }

  /** The gaps and the words of s, interleaved, give s back. */
  ghost predicate Rebuilds(s: string)
  {
    Interleave(Gaps(s), Words(s)) == s
  }

  lemma RebuildsAfterSpace(s: string)
    requires s != [] && IsSpace(s[0]) && Rebuilds(s[1..])
    ensures Rebuilds(s)
  {
    var g, ws := Gaps(s[1..]), Words(s[1..]);
    assert Gaps(s) == [[s[0]] + g[0]] + g[1..] && Words(s) == ws;
    InterleavePrepend(s[0], g, ws);
    PrefixThenRest([s[0]], s);
  }

  lemma RebuildsAfterWord(s: string)
    requires s != [] && !IsSpace(s[0]) && Rebuilds(s[|Run(s)|..])
    ensures Rebuilds(s)
  {
    var w := Run(s);
    var rest := s[|w|..];
    var gs, ws := Gaps(rest), Words(rest);
    assert Gaps(s) == [""] + gs && Words(s) == [w] + ws;
    InterleaveCons(w, gs, ws);
    PrefixThenRest(w, s);
  }

  lemma {:induction false} GapsRebuild(s: string)
    ensures Rebuilds(s)
    decreases |s|
  {
    if s == [] {
    } else if IsSpace(s[0]) {
      GapsRebuild(s[1..]);
      RebuildsAfterSpace(s);
    } else {
      GapsRebuild(s[|Run(s)|..]);
      RebuildsAfterWord(s);
    }
  }

  /** A word with no gap in front of it, then the rest. */
  lemma {:induction false} InterleaveCons(w: string, gaps: seq<string>, words: seq<string>)
    requires |gaps| == |words| + 1
    ensures Interleave([""] + gaps, [w] + words) == w + Interleave(gaps, words)
  {
    var gs, ws := [""] + gaps, [w] + words;
    assert gs[0] == "" && ws[0] == w && gs[1..] == gaps && ws[1..] == words;
    assert Interleave(gs, ws) == "" + w + Interleave(gaps, words);
    assert "" + w == w;
  }

  /** Every gap of s is whitespace only. */
  ghost predicate BlankGaps(s: string)
  {
    forall i :: 0 <= i < |Gaps(s)| ==> Blank(Gaps(s)[i])
  }

  lemma BlankGapsAfterSpace(s: string)
    requires s != [] && IsSpace(s[0]) && BlankGaps(s[1..])
    ensures BlankGaps(s)
  {
    var g := Gaps(s[1..]);
    var gaps := Gaps(s);
    assert gaps == [[s[0]] + g[0]] + g[1..];
    forall i | 0 <= i < |gaps|
      ensures Blank(gaps[i])
    {
      if i > 0 { assert gaps[i] == g[i]; }
    }
  }

  lemma BlankGapsAfterWord(s: string)
    requires s != [] && !IsSpace(s[0]) && BlankGaps(s[|Run(s)|..])
    ensures BlankGaps(s)
  {
    var rest := s[|Run(s)|..];
    var gaps := Gaps(s);
    assert gaps == [""] + Gaps(rest);
    forall i | 0 <= i < |gaps|
      ensures Blank(gaps[i])
    {
      if i > 0 { assert gaps[i] == Gaps(rest)[i - 1]; }
    }
  }

  lemma {:induction false} GapsBlank(s: string)
    ensures BlankGaps(s)
    decreases |s|
  {
    if s == [] {
    } else if IsSpace(s[0]) {
      GapsBlank(s[1..]);
      BlankGapsAfterSpace(s);
    } else {
      GapsBlank(s[|Run(s)|..]);
      BlankGapsAfterWord(s);
    }
  }

  /** Consecutive words are separated by at least one whitespace character,
      and a leading whitespace character lands in the first gap. */
  ghost predicate Separated(s: string)
  {
    && (forall i :: 0 < i < |Words(s)| ==> Gaps(s)[i] != [])
    && (s != [] && IsSpace(s[0]) ==> Gaps(s)[0] != [])
  }

  lemma SeparatedAfterSpace(s: string)
    requires s != [] && IsSpace(s[0]) && Separated(s[1..])
    ensures Separated(s)
  {
    var g := Gaps(s[1..]);
    var gaps := Gaps(s);
    assert gaps == [[s[0]] + g[0]] + g[1..];
    assert Words(s) == Words(s[1..]);
    forall i | 0 < i < |Words(s)|
      ensures gaps[i] != []
    {
      assert gaps[i] == g[i];
    }
  }

  lemma SeparatedAfterWord(s: string)
    requires s != [] && !IsSpace(s[0])
    requires Separated(s[|Run(s)|..])
    ensures Separated(s)
  {
    var w := Run(s);
    var rest := s[|w|..];
    var gaps, ws := Gaps(s), Words(s);
    assert gaps == [""] + Gaps(rest) && ws == [w] + Words(rest);
    forall i | 0 < i < |ws|
      ensures gaps[i] != []
    {
      assert gaps[i] == Gaps(rest)[i - 1];
      if i == 1 {
        assert rest != [] && IsSpace(rest[0]);
      }
    }
  }

  lemma {:induction false} GapsSeparate(s: string)
    ensures Separated(s)
    decreases |s|
  {
    if s == [] {
    } else if IsSpace(s[0]) {
      GapsSeparate(s[1..]);
      SeparatedAfterSpace(s);
    } else {
      GapsSeparate(s[|Run(s)|..]);
      SeparatedAfterWord(s);
    }
  }

  /** str.split() returns the maximal whitespace-free runs of s, in order:
      s is rebuilt from them and the blank gaps between them. */
  lemma WordsSplit(s: string)
    ensures SplitInto(s, Gaps(s), Words(s))
  {
    GapsRebuild(s);
    GapsBlank(s);
    GapsSeparate(s);
  }

  /** str.split() finds no word exactly when s is all whitespace. */
  lemma {:induction false} WordsEmptyIffBlank(s: string)
    ensures Words(s) == [] <==> Blank(s)
  {
    WordsSplit(s);
    var gaps, ws := Gaps(s), Words(s);
    if ws != [] {
      var rest := Interleave(gaps[1..], ws[1..]);
      assert s == gaps[0] + ws[0] + rest;
      assert s[|gaps[0]|] == ws[0][0];
    }
  }

  /** " ".join(words) */
  function Join(words: seq<string>): string
  {
    if words == [] then ""
    else if |words| == 1 then words[0]
    else words[0] + " " + Join(words[1..])
  }

  lemma {:induction false} RunOfWordThenRest(w: string, rest: string)
    requires forall i :: 0 <= i < |w| ==> !IsSpace(w[i])
    requires rest == [] || IsSpace(rest[0])
    ensures Run(w + rest) == w
  {
    if w != [] {
      assert (w + rest)[1..] == w[1..] + rest;
      RunOfWordThenRest(w[1..], rest);
    } else {
      assert w + rest == rest;
    }
  }

  /** Splitting the joined words gives the words back. */
  lemma {:induction false} WordsOfJoin(words: seq<string>)
    requires forall i :: 0 <= i < |words| ==> IsWord(words[i])
    ensures Words(Join(words)) == words
  {
    if words == [] {
    } else if |words| == 1 {
      var w := words[0];
      RunOfWordThenRest(w, []);
      assert w + [] == w;
      assert w[|w|..] == [];
    } else {
      var w := words[0];
      var rest := Join(words[1..]);
      var s := w + " " + rest;
      assert s == w + (" " + rest);
      RunOfWordThenRest(w, " " + rest);
      assert s[0] == w[0];
      assert s[|w|..] == " " + rest;
      assert (" " + rest)[1..] == rest;
      WordsOfJoin(words[1..]);
    }
  }

  /** Joining at least one word gives a non-empty string. */
  lemma JoinNonEmpty(words: seq<string>)
    requires words != [] && IsWord(words[0])
    ensures Join(words) != ""
  {
  }
}
