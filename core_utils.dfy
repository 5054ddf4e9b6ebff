/** core/utils.py: whitespace normalisation (`clean_text`), sentence chunking
    (`chunk_text`) and order-preserving de-duplication (`uniq_list`). */
module CoreUtils {
  import opened SeqUtils

  // ---------------------------------------------------------------------------
  // Whitespace
  // ---------------------------------------------------------------------------

  /** The characters Python's `str.isspace` (and so `\s`, `str.strip`,
      `str.split`) treats as whitespace. */
  predicate IsSpace(c: char)
  {
    var n := c as int;
    (9 <= n <= 13) || (28 <= n <= 32) || n == 0x85 || n == 0xA0 || n == 0x1680
    || (0x2000 <= n <= 0x200A) || n == 0x2028 || n == 0x2029 || n == 0x202F
    || n == 0x205F || n == 0x3000
  }

  predicate NoSpace(s: string)
  {
    forall i :: 0 <= i < |s| ==> !IsSpace(s[i])
  }

  predicate AllSpace(s: string)
  {
    forall i :: 0 <= i < |s| ==> IsSpace(s[i])
  }

  predicate IsWord(w: string)
  {
    w != [] && NoSpace(w)
  }

  predicate AllWords(ws: seq<string>)
  {
    forall i :: 0 <= i < |ws| ==> IsWord(ws[i])
  }

  /** Text in normal form: every whitespace character is a plain space that
      sits between two non-space characters, so there is no leading or
      trailing whitespace and no run of two. */
  predicate Normalized(s: string)
  {
    forall i :: 0 <= i < |s| && IsSpace(s[i]) ==>
      s[i] == ' ' && 0 < i < |s| - 1 && !IsSpace(s[i - 1]) && !IsSpace(s[i + 1])
  }

  /** Number of leading whitespace characters. */
  function LeadLen(s: string): (k: nat)
    ensures k <= |s| && (k == |s| || !IsSpace(s[k]))
    ensures forall i :: 0 <= i < k ==> IsSpace(s[i])
  {
    if s != [] && IsSpace(s[0]) then 1 + LeadLen(s[1..]) else 0
  }

  /** Length of `s` once its trailing whitespace is removed. */
  function TrimLen(s: string): (k: nat)
    ensures k <= |s| && (k == 0 || !IsSpace(s[k - 1]))
    ensures forall i :: k <= i < |s| ==> IsSpace(s[i])
  {
    if s != [] && IsSpace(s[|s| - 1]) then TrimLen(s[..|s| - 1]) else |s|
  }

  /** Length of the longest prefix of `s` without whitespace. */
  function WordLen(s: string): (k: nat)
    ensures k <= |s| && (k == |s| || IsSpace(s[k]))
    ensures forall i :: 0 <= i < k ==> !IsSpace(s[i])
  {
    if s == [] || IsSpace(s[0]) then 0 else 1 + WordLen(s[1..])
  }

  /** `s.lstrip()` */
  function DropSpaces(s: string): string
  {
    s[LeadLen(s)..]
  }

  /** `s.rstrip()` */
  function StripRight(s: string): string
  {
    s[..TrimLen(s)]
  }

  /** `s.strip()` */
  function Strip(s: string): string
  {
    StripRight(DropSpaces(s))
  }

  /** `re.sub(r"\s+", " ", s)`: every maximal whitespace run becomes one space. */
  function Collapse(s: string): (r: string)
    ensures s != [] ==> r != []
    decreases |s|
  {
    if s == [] then []
    else if IsSpace(s[0]) then " " + Collapse(DropSpaces(s))
    else [s[0]] + Collapse(s[1..])
  }

  /** `s.split()`: the maximal non-whitespace runs, in order. */
  function Words(s: string): seq<string>
    decreases |s|
  {
    var t := DropSpaces(s);
    if t == [] then [] else var k := WordLen(t); [t[..k]] + Words(t[k..])
  }

  /** `" ".join(parts)` */
  function JoinSpace(parts: seq<string>): string
  {
    if parts == [] then []
    else if |parts| == 1 then parts[0]
    else parts[0] + " " + JoinSpace(parts[1..])
  }

  /** `clean_text`: strip the ends, then collapse every whitespace run to one
      space. The result is in normal form and has exactly the words of `s`. */
  function CleanText(s: string): (r: string)
    ensures Normalized(r)
    ensures Words(r) == Words(s)
  {
    CleanTextIsJoinedWords(s);
    WordsAreWords(s);
    JoinedWordsNormalized(Words(s));
    WordsOfJoined(Words(s));
    Collapse(Strip(s))
  }

  // ---------------------------------------------------------------------------
  // The three scanning lengths are fixed by their defining properties
  // ---------------------------------------------------------------------------

  lemma LeadLenIs(s: string, k: nat)
    requires k <= |s| && (k == |s| || !IsSpace(s[k]))
    requires forall i :: 0 <= i < k ==> IsSpace(s[i])
    ensures LeadLen(s) == k
  {
  }

  /** `TrimLen` is the length up to the last non-space character. */
  lemma TrimLenIs(s: string, k: nat)
    requires k <= |s| && (k == 0 || !IsSpace(s[k - 1]))
    requires forall i :: k <= i < |s| ==> IsSpace(s[i])
    ensures TrimLen(s) == k
  {
  }

  /** `WordLen` is the length of the leading run of non-space characters. */
  lemma WordLenIs(s: string, k: nat)
    requires k <= |s| && (k == |s| || IsSpace(s[k]))
    requires forall i :: 0 <= i < k ==> !IsSpace(s[i])
    ensures WordLen(s) == k
  {
  }

  // ---------------------------------------------------------------------------
  // clean_text and " ".join(s.split()) agree
  // ---------------------------------------------------------------------------

  lemma {:induction false} WordsAreWords(s: string)
    ensures AllWords(Words(s))
    decreases |s|
  {
    var t := DropSpaces(s);
    if t != [] {
      var k := WordLen(t);
      WordsAreWords(t[k..]);
    }
  }

  /** Dropping leading spaces removes exactly a leading space run. */
  lemma DropSpacesAfterRun(sp: string, x: string)
    requires AllSpace(sp)
    requires x == [] || !IsSpace(x[0])
    ensures DropSpaces(sp + x) == x
  {
    LeadLenIs(sp + x, |sp|);
    assert (sp + x)[|sp|..] == x;
  }

  /** Dropping leading spaces twice is dropping them once. */
  lemma DropSpacesIdempotent(s: string)
    ensures DropSpaces(DropSpaces(s)) == DropSpaces(s)
  {
    LeadLenIs(DropSpaces(s), 0);
  }

  /** Leading spaces do not change the words. */
  lemma WordsSkipSpaces(s: string)
    ensures Words(s) == Words(DropSpaces(s))
  {
    DropSpacesIdempotent(s);
  }

  /** Right-stripping only touches the part after the last non-space. */
  lemma StripRightAppend(a: string, b: string)
    requires b != [] && !IsSpace(b[0])
    ensures StripRight(a + b) == a + StripRight(b)
  {
    var k := TrimLen(b);
    assert k > 0;
    TrimLenIs(a + b, |a| + k);
    assert (a + b)[..|a| + k] == a + b[..k];
  }

  /** A trailing space run is removed by right-stripping. */
  lemma StripRightTrailingRun(a: string, sp: string)
    requires AllSpace(sp)
    ensures StripRight(a + sp) == StripRight(a)
  {
    var k := TrimLen(a);
    TrimLenIs(a + sp, k);
    assert (a + sp)[..k] == a[..k];
  }

  /** A space-free prefix passes through collapsing unchanged. */
  lemma {:induction false} CollapseWordPrefix(w: string, y: string)
    requires NoSpace(w)
    ensures Collapse(w + y) == w + Collapse(y)
    decreases |w|
  {
    if w != [] {
      assert (w + y)[1..] == w[1..] + y;
      CollapseWordPrefix(w[1..], y);
      assert [w[0]] + w[1..] == w;
    } else {
      assert w + y == y;
    }
  }

  /** A leading space run collapses to one space. */
  lemma CollapseSpaceRun(sp: string, x: string)
    requires sp != [] && AllSpace(sp)
    requires x == [] || !IsSpace(x[0])
    ensures Collapse(sp + x) == " " + Collapse(x)
  {
    DropSpacesAfterRun(sp, x);
  }

  /** The words of a text that starts with a word: that word, then the words of the rest. */
  lemma WordsCons(t: string)
    requires t != [] && !IsSpace(t[0])
    ensures Words(t) == [t[..WordLen(t)]] + Words(t[WordLen(t)..])
  {
    LeadLenIs(t, 0);
    assert DropSpaces(t) == t;
  }

  /** The first word of `t`, the whitespace run after it and the rest. */
  lemma FirstWord(t: string) returns (w: string, sp: string, t': string)
    requires t != [] && !IsSpace(t[0])
    ensures t == w + sp + t' && IsWord(w) && AllSpace(sp)
    ensures t' == [] || !IsSpace(t'[0])
    ensures t' != [] ==> sp != []
    ensures Words(t) == [w] + Words(t')
  {
    w := t[..WordLen(t)];
    t' := DropSpaces(t[WordLen(t)..]);
    sp := SplitAtWord(t);
    WordsAfterFirst(t);
  }

  /** A text that starts with a word splits into the word, a space run and the rest. */
  lemma SplitAtWord(t: string) returns (sp: string)
    requires t != [] && !IsSpace(t[0])
    ensures t == t[..WordLen(t)] + sp + DropSpaces(t[WordLen(t)..])
    ensures IsWord(t[..WordLen(t)]) && AllSpace(sp)
    ensures DropSpaces(t[WordLen(t)..]) != [] ==> sp != []
  {
    var k := WordLen(t);
    var rest := t[k..];
    var m := LeadLen(rest);
    sp := rest[..m];
    assert rest == sp + rest[m..];
    assert t == t[..k] + rest;
  }

  /** The words after the first are the words of the rest with its spaces dropped. */
  lemma WordsAfterFirst(t: string)
    requires t != [] && !IsSpace(t[0])
    ensures Words(t) == [t[..WordLen(t)]] + Words(DropSpaces(t[WordLen(t)..]))
  {
    WordsCons(t);
    WordsSkipSpaces(t[WordLen(t)..]);
  }

  /** Core of the agreement: on text that does not start with whitespace,
      collapsing the right-stripped text joins its words with single spaces. */
  lemma {:induction false} CollapseStripRightJoins(t: string)
    requires t == [] || !IsSpace(t[0])
    ensures Collapse(StripRight(t)) == JoinSpace(Words(t))
    decreases |t|
  {
    if t != [] {
      var w, sp, t' := FirstWord(t);
      if t' == [] {
        LastWordJoins(w, sp);
        assert t == w + sp;
        LeadLenIs(t', 0);
      } else {
        CollapseStripRightJoins(t');
        NextWordJoins(w, sp, t');
        assert t == w + sp + t';
      }
    }
  }

  /** A last word followed by spaces cleans to the word alone. */
  lemma LastWordJoins(w: string, sp: string)
    requires IsWord(w) && AllSpace(sp)
    ensures Collapse(StripRight(w + sp)) == w
  {
    StripRightTrailingRun(w, sp);
    TrimLenIs(w, |w|);
    assert StripRight(w) == w;
    CollapseWordPrefix(w, []);
    assert w + [] == w;
  }

  /** A word, spaces and more text clean to the word, one space and the cleaned rest. */
  lemma NextWordJoins(w: string, sp: string, t': string)
    requires IsWord(w) && sp != [] && AllSpace(sp) && t' != [] && !IsSpace(t'[0])
    ensures Collapse(StripRight(w + sp + t')) == w + " " + Collapse(StripRight(t'))
  {
    StripRightAppend(w + sp, t');
    StripRightKeepsHead(t');
    CollapseWordSpaces(w, sp, StripRight(t'));
  }

  /** Right-stripping keeps a non-space first character. */
  lemma StripRightKeepsHead(t: string)
    requires t != [] && !IsSpace(t[0])
    ensures StripRight(t) != [] && StripRight(t)[0] == t[0]
  {
    assert TrimLen(t) > 0;
  }

  /** A word followed by a space run collapses to the word and one space. */
  lemma CollapseWordSpaces(w: string, sp: string, x: string)
    requires NoSpace(w) && sp != [] && AllSpace(sp)
    requires x == [] || !IsSpace(x[0])
    ensures Collapse(w + sp + x) == w + " " + Collapse(x)
  {
    assert w + sp + x == w + (sp + x);
    CollapseWordPrefix(w, sp + x);
    CollapseSpaceRun(sp, x);
  }

  /** A text that starts with a non-space character has at least one word. */
  lemma WordsNonEmpty(t: string)
    requires t != [] && !IsSpace(t[0])
    ensures Words(t) != []
  {
    LeadLenIs(t, 0);
  }

  /** Stripping and collapsing whitespace is joining the words with single spaces. */
  lemma CleanTextIsJoinedWords(s: string)
    ensures Collapse(Strip(s)) == JoinSpace(Words(s))
  {
    WordsSkipSpaces(s);
    CollapseStripRightJoins(DropSpaces(s));
  }

  /** Words joined by single spaces form normalised text, with no space at either end. */
  lemma {:induction false} JoinedWordsNormalized(ws: seq<string>)
    requires AllWords(ws)
    ensures Normalized(JoinSpace(ws))
    ensures ws != [] ==> JoinSpace(ws) != [] && !IsSpace(JoinSpace(ws)[0])
    ensures ws != [] ==> !IsSpace(JoinSpace(ws)[|JoinSpace(ws)| - 1])
  {
    if |ws| == 1 {
      assert IsWord(ws[0]);
    } else if |ws| > 1 {
      assert IsWord(ws[0]);
      AllWordsTail(ws);
      JoinedWordsNormalized(ws[1..]);
      var w, j := ws[0], JoinSpace(ws[1..]);
      var r := w + " " + j;
      assert JoinSpace(ws) == r;
      forall i | 0 <= i < |r| && IsSpace(r[i])
        ensures r[i] == ' ' && 0 < i < |r| - 1 && !IsSpace(r[i - 1]) && !IsSpace(r[i + 1])
      {
        if i > |w| {
          var k := i - |w| - 1;
          assert r[i] == j[k];
          assert IsSpace(j[k]);
          assert 0 < k < |j| - 1;
          assert r[i - 1] == j[k - 1] && r[i + 1] == j[k + 1];
        } else if i == |w| {
          assert r[i - 1] == w[|w| - 1];
          assert r[i + 1] == j[0];
        }
      }
      assert r[|r| - 1] == j[|j| - 1];
    }
  }

  /** Splitting words joined by single spaces gives the words back. */
  lemma {:induction false} WordsOfJoined(ws: seq<string>)
    requires AllWords(ws)
    ensures Words(JoinSpace(ws)) == ws
  {
    if ws == [] {
      assert Words([]) == [];
    } else if |ws| == 1 {
      assert IsWord(ws[0]);
      WordsOfWord(ws[0]);
    } else {
      assert IsWord(ws[0]);
      AllWordsTail(ws);
      JoinedWordsNormalized(ws[1..]);
      WordsOfJoined(ws[1..]);
      WordsOfWordSpace(ws[0], JoinSpace(ws[1..]));
    }
  }

  /** The tail of a list of words is a list of words. */
  lemma AllWordsTail(ws: seq<string>)
    requires ws != [] && AllWords(ws)
    ensures AllWords(ws[1..])
  {
    forall i | 0 <= i < |ws| - 1 ensures IsWord(ws[1..][i]) {
      assert ws[1..][i] == ws[i + 1];
    }
  }

  /** A single word splits into itself. */
  lemma WordsOfWord(w: string)
    requires IsWord(w)
    ensures Words(w) == [w]
  {
    WordsAfterFirst(w);
    WordLenIs(w, |w|);
    assert w[..|w|] == w;
    LeadLenIs(w[|w|..], 0);
    assert Words([]) == [];
  }

  /** A word, one space and more text split into the word and the words of the rest. */
  lemma WordsOfWordSpace(w: string, j: string)
    requires IsWord(w) && (j == [] || !IsSpace(j[0]))
    ensures Words(w + " " + j) == [w] + Words(j)
  {
    WordThenSpace(w, j);
    DropSpacesAfterRun(" ", j);
    WordsSplit(w + " " + j, w, j);
  }

  /** `Words` of text that starts with the word `w`, followed by `rest`
      after the whitespace that ends it. */
  lemma WordsSplit(r: string, w: string, rest: string)
    requires r != [] && !IsSpace(r[0]) && WordLen(r) == |w| && r[..|w|] == w
    requires DropSpaces(r[|w|..]) == rest
    ensures Words(r) == [w] + Words(rest)
  {
    WordsAfterFirst(r);
  }

  /** The shape of a word followed by one space and more text. */
  lemma WordThenSpace(w: string, j: string)
    requires IsWord(w)
    ensures var r := w + " " + j;
      r[0] == w[0] && WordLen(r) == |w| && r[..|w|] == w && r[|w|..] == " " + j
  {
    var r := w + " " + j;
    assert r == w + (" " + j);
    assert forall i :: 0 <= i < |w| ==> r[i] == w[i];
    WordLenIs(r, |w|);
  }

  /** `" ".join(s.split())` (used by llm_reasoner and the app) is `clean_text`. */
  lemma JoinSplitIsCleanText(s: string)
    ensures JoinSpace(Words(s)) == CleanText(s)
  {
    CleanTextIsJoinedWords(s);
  }

  /** Text whose only whitespace is single spaces between non-spaces is unchanged by collapsing. */
  lemma {:induction false} CollapseSingleSpaced(x: string)
    requires forall i :: 0 <= i < |x| && IsSpace(x[i]) ==> x[i] == ' ' && (i + 1 == |x| || !IsSpace(x[i + 1]))
    ensures Collapse(x) == x
    decreases |x|
  {
    if x != [] {
      if IsSpace(x[0]) {
        LeadLenIs(x, 1);
        CollapseSingleSpaced(x[1..]);
      } else {
        CollapseSingleSpaced(x[1..]);
      }
      assert [x[0]] + x[1..] == x;
    }
  }

  /** Text already in normal form is left unchanged by `clean_text`. */
  lemma CleanTextFixesNormalized(x: string)
    requires Normalized(x)
    ensures CleanText(x) == x
  {
    LeadLenIs(x, 0);
    assert DropSpaces(x) == x;
    TrimLenIs(x, |x|);
    assert Strip(x) == x;
    forall i | 0 <= i < |x| && IsSpace(x[i])
      ensures x[i] == ' ' && (i + 1 == |x| || !IsSpace(x[i + 1]))
    {
    }
    CollapseSingleSpaced(x);
  }

  /** `clean_text` is idempotent. */
  lemma CleanTextIdempotent(s: string)
    ensures CleanText(CleanText(s)) == CleanText(s)
  {
    CleanTextFixesNormalized(CleanText(s));
  }

  /** Whitespace-only text cleans to the empty string, and any other text to
      a non-empty one. */
  lemma CleanTextBlank(s: string)
    ensures CleanText(s) == [] <==> Strip(s) == []
  {
  }

  // ---------------------------------------------------------------------------
  // chunk_text
  // ---------------------------------------------------------------------------

  predicate IsTerminal(c: char)
  {
    c == '.' || c == '!' || c == '?'
  }

  /** `re.split(r"(?<=[.!?])\s+", text)`: the text is cut at every whitespace
      run that directly follows `.`, `!` or `?`, and the run is dropped. */
  function SplitSentences(text: string): (r: seq<string>)
    ensures |r| >= 1
    ensures forall i :: 0 <= i < |r| - 1 ==> r[i] != [] && IsTerminal(r[i][|r[i]| - 1])
  {
    SplitFrom(text, [])
  }

  /** Scanning state of the split: `current` is the piece read so far; the
      look-behind sees its last character. */
  function SplitFrom(rest: string, current: string): (r: seq<string>)
    ensures |r| >= 1
    ensures forall i :: 0 <= i < |r| - 1 ==> r[i] != [] && IsTerminal(r[i][|r[i]| - 1])
    decreases |rest|
  {
    if rest == [] then [current]
    else if current != [] && IsTerminal(current[|current| - 1]) && IsSpace(rest[0]) then
      [current] + SplitFrom(DropSpaces(rest), [])
    else SplitFrom(rest[1..], current + [rest[0]])
  }

  /** Summed length of the sentences of a chunk (the `length` counter). */
  function SumLen(g: seq<string>): nat
  {
    if g == [] then 0 else SumLen(g[..|g| - 1]) + |g[|g| - 1]|
  }

  /** The grouping `chunk_text` builds: every group is non-empty; a group of
      two or more sentences fits in `maxChars`; and a group ends only because
      the next sentence would have pushed it over `maxChars`. */
  ghost predicate GreedyGroups(groups: seq<seq<string>>, maxChars: int)
  {
    && (forall i :: 0 <= i < |groups| ==> groups[i] != [] && (|groups[i]| == 1 || SumLen(groups[i]) <= maxChars))
    && (forall i :: 0 <= i < |groups| - 1 ==> SumLen(groups[i]) + |groups[i + 1][0]| > maxChars)
  }

  /** The final comprehension `[clean_text(c) for c in chunks if c.strip()]`. */
  function CleanNonBlank(joined: seq<string>): (r: seq<string>)
    ensures forall c :: c in r ==> c != [] && Normalized(c)
  {
    if joined == [] then []
    else
      (if Strip(joined[0]) != [] then [CleanText(joined[0])] else []) + CleanNonBlank(joined[1..])
  }

  function JoinGroups(groups: seq<seq<string>>): (r: seq<string>)
    ensures |r| == |groups|
    ensures forall i :: 0 <= i < |r| ==> r[i] == JoinSpace(groups[i])
  {
    if groups == [] then [] else JoinGroups(groups[..|groups| - 1]) + [JoinSpace(groups[|groups| - 1])]
  }

  /** The chunks of `text`, given the grouping of its sentences. */
  function ChunksOf(groups: seq<seq<string>>): seq<string>
  {
    CleanNonBlank(JoinGroups(groups))
  }

  /** Appending a sentence to a group adds its length. */
  lemma SumLenSnoc(g: seq<string>, s: string)
    ensures SumLen(g + [s]) == SumLen(g) + |s|
  {
    assert (g + [s])[..|g|] == g;
  }

  /** Appending a group appends its joined chunk. */
  lemma JoinGroupsSnoc(groups: seq<seq<string>>, g: seq<string>)
    ensures JoinGroups(groups + [g]) == JoinGroups(groups) + [JoinSpace(g)]
  {
    assert (groups + [g])[..|groups|] == groups;
  }

  /** A single sentence is a greedy grouping on its own. */
  lemma GreedySingle(s: string, maxChars: int)
    ensures GreedyGroups([[s]], maxChars)
  {
  }

  /** Starting a new group because the next sentence does not fit. */
  lemma GreedyFlush(done: seq<seq<string>>, current: seq<string>, s: string, maxChars: int)
    requires GreedyGroups(done + [current], maxChars)
    requires SumLen(current) + |s| > maxChars
    ensures GreedyGroups(done + [current] + [[s]], maxChars)
  {
    var g := done + [current] + [[s]];
    assert g[|done|] == current && g[|done| + 1] == [s];
    forall i | 0 <= i < |g| - 1
      ensures SumLen(g[i]) + |g[i + 1][0]| > maxChars
    {
      if i < |done| {
        assert g[i] == (done + [current])[i] && g[i + 1] == (done + [current])[i + 1];
      }
    }
  }

  /** Adding a sentence that fits to the open group. */
  lemma GreedyExtend(done: seq<seq<string>>, current: seq<string>, s: string, maxChars: int)
    requires GreedyGroups(done + [current], maxChars)
    requires current != [] && SumLen(current) + |s| <= maxChars
    ensures GreedyGroups(done + [current + [s]], maxChars)
  {
    SumLenSnoc(current, s);
    var g, g' := done + [current], done + [current + [s]];
    assert (current + [s])[0] == current[0];
    forall i | 0 <= i < |g'|
      ensures g'[i] != [] && (|g'[i]| == 1 || SumLen(g'[i]) <= maxChars)
    {
      if i < |done| {
        assert g'[i] == g[i];
      }
    }
    forall i | 0 <= i < |g'| - 1
      ensures SumLen(g'[i]) + |g'[i + 1][0]| > maxChars
    {
      assert g'[i] == g[i];
      if i + 1 < |done| {
        assert g'[i + 1] == g[i + 1];
      } else {
        assert g'[i + 1][0] == g[i + 1][0];
      }
    }
  }

  /** The state of the packing loop of `chunk_text` once the sentences of
      `prefix` are placed: the closed groups `done`, their joins `joined`,
      and the open group `current` of total length `length`. */
  ghost predicate Packing(prefix: seq<string>, done: seq<seq<string>>, current: seq<string>, length: int,
                          joined: seq<string>, maxChars: int)
  {
    && Flatten(done) + current == prefix
    && length == SumLen(current)
    && (current == [] ==> done == [])
    && joined == JoinGroups(done)
    && (current != [] ==> GreedyGroups(done + [current], maxChars))
  }

  /** The next sentence does not fit: the open group is closed and the
      sentence opens the next one. */
  lemma PackFlush(prefix: seq<string>, done: seq<seq<string>>, current: seq<string>, length: int,
                  joined: seq<string>, maxChars: int, s: string)
    requires Packing(prefix, done, current, length, joined, maxChars)
    requires length + |s| > maxChars && current != []
    ensures Packing(prefix + [s], done + [current], [s], |s|, joined + [JoinSpace(current)], maxChars)
  {
    GreedyFlush(done, current, s, maxChars);
    FlattenSnoc(done, current);
    JoinGroupsSnoc(done, current);
    SumLenSnoc([], s);
  }

  /** The next sentence fits (or nothing is open yet): it joins the open group. */
  lemma PackExtend(prefix: seq<string>, done: seq<seq<string>>, current: seq<string>, length: int,
                   joined: seq<string>, maxChars: int, s: string)
    requires Packing(prefix, done, current, length, joined, maxChars)
    requires !(length + |s| > maxChars && current != [])
    ensures Packing(prefix + [s], done, current + [s], length + |s|, joined, maxChars)
  {
    if current == [] {
      GreedySingle(s, maxChars);
      assert done + [[s]] == [[s]];
    } else {
      GreedyExtend(done, current, s, maxChars);
    }
    SumLenSnoc(current, s);
    assert Flatten(done) + (current + [s]) == (Flatten(done) + current) + [s];
  }

  /** After the last sentence the open group, if any, is closed. */
  lemma PackClose(all: seq<string>, done: seq<seq<string>>, current: seq<string>, length: int,
                  joined: seq<string>, maxChars: int)
    requires Packing(all, done, current, length, joined, maxChars)
    ensures current != [] ==>
      var groups := done + [current];
      Flatten(groups) == all && GreedyGroups(groups, maxChars) && joined + [JoinSpace(current)] == JoinGroups(groups)
    ensures current == [] ==> Flatten(done) == all && GreedyGroups(done, maxChars) && joined == JoinGroups(done)
  {
    if current != [] {
      FlattenSnoc(done, current);
      JoinGroupsSnoc(done, current);
    } else {
      assert Flatten(done) + [] == Flatten(done);
    }
  }

  /** `chunk_text`: sentences are packed greedily into groups, each group is
      joined with spaces, and the non-blank joins are cleaned. The groups hold
      the sentences in their original order, each exactly once. */
  method ChunkText(text: string, maxChars: int) returns (chunks: seq<string>, ghost groups: seq<seq<string>>)
    ensures Flatten(groups) == SplitSentences(text)
    ensures GreedyGroups(groups, maxChars)
    ensures chunks == ChunksOf(groups)
    ensures forall c :: c in chunks ==> c != [] && Normalized(c)
  {
    var sentences := SplitSentences(text);
    var joined: seq<string> := [];
    ghost var done: seq<seq<string>> := [];
    var current: seq<string> := [];
    var length := 0;
    var i := 0;
    while i < |sentences|
      invariant 0 <= i <= |sentences|
      invariant Packing(sentences[..i], done, current, length, joined, maxChars)
    {
      var sentence := sentences[i];
      assert sentences[..i + 1] == sentences[..i] + [sentence];
      if length + |sentence| > maxChars && current != [] {
        PackFlush(sentences[..i], done, current, length, joined, maxChars, sentence);
        joined := joined + [JoinSpace(current)];
        done := done + [current];
        current := [sentence];
        length := |sentence|;
      } else {
        PackExtend(sentences[..i], done, current, length, joined, maxChars, sentence);
        current := current + [sentence];
        length := length + |sentence|;
      }
      i := i + 1;
    }
    assert sentences[..i] == sentences;
    PackClose(sentences, done, current, length, joined, maxChars);
    if current != [] {
      joined := joined + [JoinSpace(current)];
      done := done + [current];
    }
    groups := done;
    chunks := CleanNonBlank(joined);
  }

  // ---------------------------------------------------------------------------
  // uniq_list
  // ---------------------------------------------------------------------------

  /** The first occurrences of the items, in the order they first occur. */
  function Dedup<T(==)>(items: seq<T>): seq<T>
  {
    if items == [] then []
    else
      var d := Dedup(items[..|items| - 1]);
      if items[|items| - 1] in d then d else d + [items[|items| - 1]]
  }

  /** `uniq_list`: keep each item the first time it is seen. */
  method UniqList<T(==)>(items: seq<T>) returns (ordered: seq<T>)
    ensures ordered == Dedup(items)
  {
    var seen: set<T> := {};
    ordered := [];
    var i := 0;
    while i < |items|
      invariant 0 <= i <= |items|
      invariant ordered == Dedup(items[..i])
      invariant seen == ToSet(ordered)
    {
      var item := items[i];
      assert items[..i + 1][..i] == items[..i];
      if item !in seen {
        ordered := ordered + [item];
        seen := seen + {item};
      }
      i := i + 1;
    }
    assert items[..i] == items;
  }

  /** The output of `uniq_list` has no duplicates and exactly the input's items. */
  lemma {:induction false} DedupElements<T>(items: seq<T>)
    ensures NoDups(Dedup(items))
    ensures forall x :: x in Dedup(items) <==> x in items
  {
    if items != [] {
      var init := items[..|items| - 1];
      DedupElements(init);
      assert items == init + [items[|items| - 1]];
    }
  }

  /** Index of the first occurrence of `x`. */
  function FirstIndex<T(==)>(s: seq<T>, x: T): (k: nat)
    requires x in s
    ensures k < |s| && s[k] == x && x !in s[..k]
  {
    if s[0] == x then 0 else 1 + FirstIndex(s[1..], x)
  }

  /** Appending an item does not move the first index of an item already present. */
  lemma {:induction false} FirstIndexExtend<T>(s: seq<T>, y: T, x: T)
    requires x in s
    ensures FirstIndex(s + [y], x) == FirstIndex(s, x)
  {
    if s[0] != x {
      assert (s + [y])[1..] == s[1..] + [y];
      FirstIndexExtend(s[1..], y, x);
    }
  }

  /** `uniq_list` keeps first-occurrence order. */
  lemma {:induction false} DedupFirstOccurrenceOrder<T>(items: seq<T>)
    ensures forall x :: x in Dedup(items) ==> x in items
    ensures forall i, j :: 0 <= i < j < |Dedup(items)| ==>
      FirstIndex(items, Dedup(items)[i]) < FirstIndex(items, Dedup(items)[j])
  {
    DedupElements(items);
    if items != [] {
      var init, last := items[..|items| - 1], items[|items| - 1];
      assert items == init + [last];
      DedupFirstOccurrenceOrder(init);
      DedupElements(init);
      var d := Dedup(init);
      forall x | x in d ensures FirstIndex(items, x) == FirstIndex(init, x) {
        FirstIndexExtend(init, last, x);
      }
      if last !in d {
        assert last !in init;
        assert FirstIndex(items, last) == |init|;
      }
    }
  }

  /** `uniq_list` is the identity on a list without duplicates. */
  lemma {:induction false} DedupOfDistinct<T>(items: seq<T>)
    requires NoDups(items)
    ensures Dedup(items) == items
  {
    if items != [] {
      var init := items[..|items| - 1];
      DedupOfDistinct(init);
    }
  }

  /** Appending one item to a duplicate-free list: it is added unless present. */
  lemma {:induction false} DedupAppend<T>(items: seq<T>, x: T)
    requires NoDups(items)
    ensures Dedup(items + [x]) == if x in items then items else items + [x]
  {
    assert (items + [x])[..|items|] == items;
    DedupOfDistinct(items);
  }
}
