/** models/llm_reasoner.py: the deduction prompt built from the matched
    claims and the evidence grouped by stance, and the folding of Ollama's
    reply into a status and a text. The HTTP request is a collaborator: its
    outcome (a timeout, another exception, or the streamed lines and the
    decoded body) is a parameter, and so are `json.loads` and Python's `str`
    of a JSON value. */
module LlmReasoner {
  import opened Wrappers
  import opened SeqUtils
  import opened Schemas
  import CoreUtils
  import PyStr

  /** The `max_chars` of `_clean_snippet`. */
  const SnippetMaxChars: int := 280
  /** The `max_claims` of `_format_claims`. */
  const MaxClaimRows: int := 5
  /** The `max_per_stance` of `_format_evidence`. */
  const MaxPerStance: int := 3

  // ---------------------------------------------------------------------------
  // _clean_snippet
  // ---------------------------------------------------------------------------

  /** `_clean_snippet`: the words of the text joined by single spaces, cut to
      `maxChars` characters; it holds no line break. */
  function CleanSnippet(text: string, maxChars: int): (r: string)
    ensures 0 <= maxChars ==> |r| <= maxChars
    ensures '\n' !in r
  {
    var compact := CoreUtils.JoinSpace(CoreUtils.Words(text));
    var r := PyPrefix(compact, maxChars);
    CleanSnippetIsCleanText(text, maxChars);
    r
  }

  /** The snippet is a prefix of `clean_text(text)`, so its only whitespace
      is inner single spaces. */
  lemma CleanSnippetIsCleanText(text: string, maxChars: int)
    ensures var r := PyPrefix(CoreUtils.JoinSpace(CoreUtils.Words(text)), maxChars);
      && r == PyPrefix(CoreUtils.CleanText(text), maxChars)
      && (forall i :: 0 <= i < |r| && CoreUtils.IsSpace(r[i]) ==> r[i] == ' ' && 0 < i)
      && '\n' !in r
  {
    CoreUtils.JoinSplitIsCleanText(text);
    var compact := CoreUtils.JoinSpace(CoreUtils.Words(text));
    var r := PyPrefix(compact, maxChars);
    assert forall i :: 0 <= i < |r| ==> r[i] == compact[i];
    assert CoreUtils.IsSpace('\n');
  }

  /** The snippet, as the source defines it: `clean_text(text)` cut to
      `maxChars` characters. */
  lemma CleanSnippetPrefix(text: string, maxChars: int)
    ensures CleanSnippet(text, maxChars) == PyPrefix(CoreUtils.CleanText(text), maxChars)
    ensures forall i :: (0 <= i < |CleanSnippet(text, maxChars)| && CoreUtils.IsSpace(CleanSnippet(text, maxChars)[i])
      ==> CleanSnippet(text, maxChars)[i] == ' ' && 0 < i)
  {
    CleanSnippetIsCleanText(text, maxChars);
  }

  // ---------------------------------------------------------------------------
  // Lines: "\n".join and str.split("\n")
  // ---------------------------------------------------------------------------

  /** `"\n".join(lines)` */
  function JoinLines(lines: seq<string>): string
  {
    if lines == [] then ""
    else if |lines| == 1 then lines[0]
    else lines[0] + "\n" + JoinLines(lines[1..])
  }

  /** The position of the first line break. */
  function NewlineAt(s: string): (i: nat)
    requires '\n' in s
    ensures i < |s| && s[i] == '\n' && '\n' !in s[..i]
  {
    if s[0] == '\n' then 0
    else
      assert '\n' in s[1..] by { var k :| 0 <= k < |s| && s[k] == '\n'; assert s[1..][k - 1] == '\n'; }
      var j := NewlineAt(s[1..]);
      assert s[..j + 1] == [s[0]] + s[1..][..j];
      j + 1
  }

  /** `s.split("\n")` */
  function SplitLines(s: string): (r: seq<string>)
    ensures r != []
    decreases |s|
  {
    if '\n' !in s then [s]
    else
      var i := NewlineAt(s);
      [s[..i]] + SplitLines(s[i + 1..])
  }

  /** The first line break of `line + "\n" + rest`, when `line` has none, ends
      `line`. */
  lemma {:induction false} NewlineAfter(line: string, rest: string)
    requires '\n' !in line
    ensures '\n' in line + "\n" + rest && NewlineAt(line + "\n" + rest) == |line|
  {
    var s := line + "\n" + rest;
    assert s[|line|] == '\n';
    if line != [] {
      assert s[0] == line[0];
      assert s[1..] == line[1..] + "\n" + rest;
      NewlineAfter(line[1..], rest);
    }
  }

  /** Splitting the joined lines gives the lines back, as long as none of
      them holds a line break. */
  lemma {:induction false} SplitJoinLines(lines: seq<string>)
    requires lines != [] && forall l :: l in lines ==> '\n' !in l
    ensures SplitLines(JoinLines(lines)) == lines
  {
    if |lines| > 1 {
      var rest := JoinLines(lines[1..]);
      var s := lines[0] + "\n" + rest;
      NewlineAfter(lines[0], rest);
      assert s[..|lines[0]|] == lines[0];
      assert s[|lines[0]| + 1..] == rest;
      assert forall l :: l in lines[1..] ==> l in lines;
      SplitJoinLines(lines[1..]);
      assert lines == [lines[0]] + lines[1..];
    }
  }

  /** Joining two non-empty blocks of lines puts one line break between
      them. */
  lemma {:induction false} JoinLinesAppend(a: seq<string>, b: seq<string>)
    requires a != [] && b != []
    ensures JoinLines(a + b) == JoinLines(a) + "\n" + JoinLines(b)
  {
    if |a| > 1 {
      JoinLinesAppend(a[1..], b);
      assert (a + b)[1..] == a[1..] + b;
    } else {
      assert (a + b)[1..] == b;
    }
  }

  // ---------------------------------------------------------------------------
  // _format_claims
  // ---------------------------------------------------------------------------

  /** A line of a block: a list item, or a section title, with no line
      break. */
  predicate LineFree(s: string)
  {
    '\n' !in s
  }

  predicate IsItem(l: string)
  {
    |l| >= 2 && l[..2] == "- " && LineFree(l)
  }

  /** `"- " + body + open + field + ")"` is a list item when `field` holds no
      line break. */
  lemma ItemShape(body: string, open: string, field: string)
    requires LineFree(body) && LineFree(open) && LineFree(field)
    ensures IsItem("- " + body + open + field + ")")
  {
    var l := "- " + body + open + field + ")";
    assert l[..2] == "- ";
    assert l == "- " + (body + (open + (field + ")")));
  }

  /** A matched claim: its `claim_text` (default "") and its score as
      Python renders it. */
  datatype ClaimRow = ClaimRow(claimText: string, score: string)

  function ClaimLine(row: ClaimRow): string
  {
    "- " + CleanSnippet(row.claimText, SnippetMaxChars) + " (score=" + row.score + ")"
  }

  function ClaimLinesOf(rows: seq<ClaimRow>): (r: seq<string>)
    ensures |r| == |rows|
  {
    if rows == [] then [] else ClaimLinesOf(rows[..|rows| - 1]) + [ClaimLine(rows[|rows| - 1])]
  }

  /** The lines `_format_claims` joins: "- none" for no rows, otherwise one
      line per row among the first `maxClaims`. */
  function ClaimLines(rows: seq<ClaimRow>, maxClaims: int): (r: seq<string>)
    ensures rows == [] ==> r == ["- none"]
    ensures rows != [] ==> |r| == |PyPrefix(rows, maxClaims)|
    ensures rows != [] && 0 <= maxClaims ==> |r| <= maxClaims
  {
    if rows == [] then ["- none"] else ClaimLinesOf(PyPrefix(rows, maxClaims))
  }

  /** `_format_claims` */
  method FormatClaims(rows: seq<ClaimRow>, maxClaims: int) returns (text: string)
    ensures text == JoinLines(ClaimLines(rows, maxClaims))
  {
    if rows == [] {
      return "- none";
    }
    var shown := PyPrefix(rows, maxClaims);
    var lines: seq<string> := [];
    for i := 0 to |shown|
      invariant lines == ClaimLinesOf(shown[..i])
    {
      assert shown[..i + 1][..i] == shown[..i];
      lines := lines + [ClaimLine(shown[i])];
    }
    assert shown[..|shown|] == shown;
    text := JoinLines(lines);
  }

  /** Every claim line is a single "- " item line. */
  lemma {:induction false} ClaimLinesOfItems(rows: seq<ClaimRow>)
    requires forall r :: r in rows ==> LineFree(r.score)
    ensures forall l :: l in ClaimLinesOf(rows) ==> IsItem(l)
  {
    if rows != [] {
      var n := |rows| - 1;
      var front := ClaimLinesOf(rows[..n]);
      var last := ClaimLine(rows[n]);
      forall r | r in rows[..n] ensures LineFree(r.score) {
        assert r in rows;
      }
      ClaimLinesOfItems(rows[..n]);
      ItemShape(CleanSnippet(rows[n].claimText, SnippetMaxChars), " (score=", rows[n].score);
      assert ClaimLinesOf(rows) == front + [last];
      forall l | l in front + [last] ensures IsItem(l) {
        if l != last {
          assert l in front;
        }
      }
    }
  }


  /** The claims block reads back, line by line, as "- none" or one list
      item per shown row, when no rendered score holds a line break. */
  lemma ClaimBlockLines(rows: seq<ClaimRow>, maxClaims: int)
    requires 0 < maxClaims
    requires forall r :: r in rows ==> LineFree(r.score)
    ensures var lines := ClaimLines(rows, maxClaims);
      && SplitLines(JoinLines(lines)) == lines
      && 1 <= |lines| <= maxClaims
      && forall l :: l in lines ==> IsItem(l)
  {
    var lines := ClaimLines(rows, maxClaims);
    if rows == [] {
      ItemShape("none", "", "");
      assert "- " + "none" + "" + "" + ")" != "- none";
      assert IsItem("- none") by { assert "- none"[..2] == "- "; }
    } else {
      var shown := PyPrefix(rows, maxClaims);
      assert forall r :: r in shown ==> r in rows;
      ClaimLinesOfItems(shown);
    }
    SplitJoinLines(lines);
  }

  // ---------------------------------------------------------------------------
  // _format_evidence
  // ---------------------------------------------------------------------------

  /** An evidence hit: its `snippet_text`, its `source_id` (both default "")
      and its score. */
  datatype EvidenceRow = EvidenceRow(snippet: string, sourceId: string, score: real)

  /** The evidence grouped by stance name; a missing stance has no rows. */
  type Grouped = map<string, seq<EvidenceRow>>

  /** `x` goes before the first row that does not score higher: it came
      before all of `s`, so it stays ahead of the rows with its score. */
  function InsertByScore(x: EvidenceRow, s: seq<EvidenceRow>): seq<EvidenceRow>
  {
    if s == [] || s[0].score <= x.score then [x] + s else [s[0]] + InsertByScore(x, s[1..])
  }

  /** `sorted(rows, key=score, reverse=True)`: a stable sort, highest score
      first. */
  function SortByScore(rows: seq<EvidenceRow>): seq<EvidenceRow>
  {
    if rows == [] then [] else InsertByScore(rows[0], SortByScore(rows[1..]))
  }

  predicate Descending(s: seq<EvidenceRow>)
  {
    forall i, j :: 0 <= i < j < |s| ==> s[j].score <= s[i].score
  }

  /** The rows scoring exactly `v`, in order. */
  function WithScore(s: seq<EvidenceRow>, v: real): seq<EvidenceRow>
  {
    if s == [] then [] else (if s[0].score == v then [s[0]] else []) + WithScore(s[1..], v)
  }

  /** Inserting a row adds exactly that row. */
  lemma {:induction false} InsertPerm(x: EvidenceRow, s: seq<EvidenceRow>)
    ensures multiset(InsertByScore(x, s)) == multiset(s) + multiset{x}
  {
    if s != [] && x.score < s[0].score {
      InsertPerm(x, s[1..]);
      assert InsertByScore(x, s) == [s[0]] + InsertByScore(x, s[1..]);
      assert s == [s[0]] + s[1..];
    }
  }

  /** Inserting into a descending list keeps it descending. */
  lemma {:induction false} InsertSorted(x: EvidenceRow, s: seq<EvidenceRow>)
    requires Descending(s)
    ensures Descending(InsertByScore(x, s))
  {
    if s != [] && x.score < s[0].score {
      var t := InsertByScore(x, s[1..]);
      InsertSorted(x, s[1..]);
      InsertPerm(x, s[1..]);
      var r := [s[0]] + t;
      assert InsertByScore(x, s) == r;
      forall i, j | 0 <= i < j < |r| ensures r[j].score <= r[i].score {
        assert r[j] == t[j - 1];
        assert r[j] in multiset(t);
        if r[j] != x {
          assert r[j] in s[1..];
        }
      }
    } else {
      var r := [x] + s;
      assert InsertByScore(x, s) == r;
      forall i, j | 0 <= i < j < |r| ensures r[j].score <= r[i].score {
        assert r[j] == s[j - 1];
        if 0 < i {
          assert r[i] == s[i - 1];
        }
      }
    }
  }

  /** Inserting keeps the order among rows of equal score, the inserted row first. */
  lemma {:induction false} InsertKeepsTies(x: EvidenceRow, s: seq<EvidenceRow>, v: real)
    ensures WithScore(InsertByScore(x, s), v) == (if x.score == v then [x] else []) + WithScore(s, v)
  {
    if s != [] && x.score < s[0].score {
      var t := InsertByScore(x, s[1..]);
      InsertKeepsTies(x, s[1..], v);
      assert InsertByScore(x, s) == [s[0]] + t;
      assert ([s[0]] + t)[1..] == t;
      assert WithScore(s, v) == (if s[0].score == v then [s[0]] else []) + WithScore(s[1..], v);
    } else {
      assert InsertByScore(x, s) == [x] + s;
      assert ([x] + s)[1..] == s;
    }
  }

  /** The sort puts the rows highest score first, keeps every row, and keeps
      rows of equal score in their original order. */
  lemma {:induction false} SortByScoreFacts(rows: seq<EvidenceRow>)
    ensures Descending(SortByScore(rows))
    ensures multiset(SortByScore(rows)) == multiset(rows)
    ensures forall v :: WithScore(SortByScore(rows), v) == WithScore(rows, v)
  {
    if rows != [] {
      SortByScoreFacts(rows[1..]);
      InsertSorted(rows[0], SortByScore(rows[1..]));
      InsertPerm(rows[0], SortByScore(rows[1..]));
      assert rows == [rows[0]] + rows[1..];
      forall v ensures WithScore(SortByScore(rows), v) == WithScore(rows, v) {
        InsertKeepsTies(rows[0], SortByScore(rows[1..]), v);
      }
    }
  }

  /** `stance.title()` */
  function Title(st: Stance): string
  {
    match st
    case Support => "Support"
    case Contradict => "Contradict"
    case Mention => "Mention"
  }

  /** The order of the sections. */
  const StanceOrder: seq<Stance> := [Support, Contradict, Mention]

  function EvidenceLine(row: EvidenceRow): string
  {
    "- " + CleanSnippet(row.snippet, SnippetMaxChars) + " (source=" + row.sourceId + ")"
  }

  function EvidenceLinesOf(rows: seq<EvidenceRow>): (r: seq<string>)
    ensures |r| == |rows|
  {
    if rows == [] then [] else EvidenceLinesOf(rows[..|rows| - 1]) + [EvidenceLine(rows[|rows| - 1])]
  }

  /** The rows listed for a stance. */
  function Shown(evidence: Grouped, st: Stance, maxPer: int): seq<EvidenceRow>
  {
    PyPrefix(SortByScore(GetOr(evidence, StanceName(st), [])), maxPer)
  }

  /** One section: its title, then its rows or "- none". */
  function Section(evidence: Grouped, st: Stance, maxPer: int): seq<string>
  {
    var rows := Shown(evidence, st, maxPer);
    [Title(st) + ":"] + if rows == [] then ["- none"] else EvidenceLinesOf(rows)
  }

  /** The sections of the stances `sts`, in order. */
  function Sections(evidence: Grouped, sts: seq<Stance>, maxPer: int): seq<string>
  {
    if sts == [] then [] else Sections(evidence, sts[..|sts| - 1], maxPer) + Section(evidence, sts[|sts| - 1], maxPer)
  }

  /** The lines `_format_evidence` joins. */
  function EvidenceLines(evidence: Grouped, maxPer: int): seq<string>
  {
    Sections(evidence, StanceOrder, maxPer)
  }

  /** The inner loop of `_format_evidence`: one line per row. */
  method ItemLines(rows: seq<EvidenceRow>) returns (lines: seq<string>)
    ensures lines == EvidenceLinesOf(rows)
  {
    lines := [];
    for j := 0 to |rows|
      invariant lines == EvidenceLinesOf(rows[..j])
    {
      assert rows[..j + 1][..j] == rows[..j];
      lines := lines + [EvidenceLine(rows[j])];
    }
    assert rows[..|rows|] == rows;
  }

  /** One turn of the outer loop of `_format_evidence`. */
  method SectionLines(evidence: Grouped, st: Stance, maxPer: int) returns (lines: seq<string>)
    ensures lines == Section(evidence, st, maxPer)
  {
    var rows := PyPrefix(SortByScore(GetOr(evidence, StanceName(st), [])), maxPer);
    assert rows == Shown(evidence, st, maxPer);
    if rows == [] {
      lines := [Title(st) + ":", "- none"];
    } else {
      var items := ItemLines(rows);
      lines := [Title(st) + ":"] + items;
    }
  }

  /** `_format_evidence` */
  method FormatEvidence(evidence: Grouped, maxPer: int) returns (text: string)
    ensures text == JoinLines(EvidenceLines(evidence, maxPer))
  {
    var sections: seq<string> := [];
    for k := 0 to |StanceOrder|
      invariant sections == Sections(evidence, StanceOrder[..k], maxPer)
    {
      var lines := SectionLines(evidence, StanceOrder[k], maxPer);
      assert StanceOrder[..k + 1][..k] == StanceOrder[..k];
      sections := sections + lines;
    }
    assert StanceOrder[..3] == StanceOrder;
    text := JoinLines(sections);
  }

  /** The evidence block is the Support, Contradict and Mention sections in
      that order; each opens with its title and then has "- none" exactly
      when the stance shows no row, and otherwise one line per shown row. */
  lemma EvidenceLayout(evidence: Grouped, maxPer: int)
    ensures EvidenceLines(evidence, maxPer)
      == Section(evidence, Support, maxPer) + Section(evidence, Contradict, maxPer) + Section(evidence, Mention, maxPer)
    ensures forall st :: Section(evidence, st, maxPer)[0] == Title(st) + ":"
    ensures forall st :: Shown(evidence, st, maxPer) == [] <==> Section(evidence, st, maxPer) == [Title(st) + ":", "- none"]
    ensures forall st :: |Section(evidence, st, maxPer)| == 1 + if Shown(evidence, st, maxPer) == [] then 1 else |Shown(evidence, st, maxPer)|
  {
    var sec := (st: Stance) => Section(evidence, st, maxPer);
    assert [Support][..0] == [];
    assert Sections(evidence, [Support], maxPer) == sec(Support);
    assert [Support, Contradict][..1] == [Support];
    assert Sections(evidence, [Support, Contradict], maxPer) == sec(Support) + sec(Contradict);
    assert StanceOrder[..2] == [Support, Contradict];
    assert Sections(evidence, StanceOrder, maxPer) == sec(Support) + sec(Contradict) + sec(Mention);
    forall st | Shown(evidence, st, maxPer) != [] ensures Section(evidence, st, maxPer) != [Title(st) + ":", "- none"] {
      var shown := Shown(evidence, st, maxPer);
      if |shown| == 1 {
        assert Section(evidence, st, maxPer)[1] == EvidenceLine(shown[0]);
        assert EvidenceLine(shown[0])[|EvidenceLine(shown[0])| - 1] == ')';
      }
    }
  }

  /** A stance shows at most `maxPer` rows, highest score first, each taken
      from that stance's rows, and each scoring at least as high as every
      row of the stance left out. */
  lemma ShownAreHighest(evidence: Grouped, st: Stance, maxPer: int)
    requires 0 <= maxPer
    ensures var shown := Shown(evidence, st, maxPer);
      var all := GetOr(evidence, StanceName(st), []);
      && |shown| <= maxPer && Descending(shown) && multiset(shown) <= multiset(all)
      && forall x, y :: x in shown && y in multiset(all) - multiset(shown) ==> y.score <= x.score
  {
    var all := GetOr(evidence, StanceName(st), []);
    var sorted := SortByScore(all);
    SortByScoreFacts(all);
    var shown := Shown(evidence, st, maxPer);
    assert shown == sorted[..|shown|];
    PrefixIsHighest(sorted, |shown|);
  }

  /** A prefix of a descending sequence is descending, and none of the rows
      after it scores higher than a row in it. */
  lemma PrefixIsHighest(sorted: seq<EvidenceRow>, n: nat)
    requires Descending(sorted) && n <= |sorted|
    ensures Descending(sorted[..n]) && multiset(sorted[..n]) <= multiset(sorted)
    ensures forall x, y :: x in sorted[..n] && y in multiset(sorted) - multiset(sorted[..n]) ==> y.score <= x.score
  {
    var head, tail := sorted[..n], sorted[n..];
    assert Descending(head) by {
      forall i, j | 0 <= i < j < |head| ensures head[j].score <= head[i].score {
        assert head[i] == sorted[i] && head[j] == sorted[j];
      }
    }
    assert multiset(sorted) - multiset(head) == multiset(tail) by {
      assert sorted == head + tail;
    }
    HeadAboveTail(sorted, n);
  }

  /** In a descending sequence every row before position `n` scores at least
      as high as every row from `n` on. */
  lemma HeadAboveTail(sorted: seq<EvidenceRow>, n: nat)
    requires Descending(sorted) && n <= |sorted|
    ensures forall x, y :: x in sorted[..n] && y in sorted[n..] ==> y.score <= x.score
  {
    forall x: EvidenceRow, y: EvidenceRow | x in sorted[..n] && y in sorted[n..] ensures y.score <= x.score {
      var i :| 0 <= i < n && sorted[..n][i] == x;
      var j :| 0 <= j < |sorted| - n && sorted[n..][j] == y;
      assert sorted[i] == x && sorted[n + j] == y;
    }
  }

  /** Every evidence line is a single "- " item line. */
  lemma {:induction false} EvidenceLinesOfItems(rows: seq<EvidenceRow>)
    requires forall r :: r in rows ==> LineFree(r.sourceId)
    ensures forall l :: l in EvidenceLinesOf(rows) ==> IsItem(l)
  {
    if rows != [] {
      var n := |rows| - 1;
      var front := EvidenceLinesOf(rows[..n]);
      var last := EvidenceLine(rows[n]);
      forall r | r in rows[..n] ensures LineFree(r.sourceId) {
        assert r in rows;
      }
      EvidenceLinesOfItems(rows[..n]);
      ItemShape(CleanSnippet(rows[n].snippet, SnippetMaxChars), " (source=", rows[n].sourceId);
      assert EvidenceLinesOf(rows) == front + [last];
      forall l | l in front + [last] ensures IsItem(l) {
        if l != last {
          assert l in front;
        }
      }
    }
  }


  /** A section holds no line break when no source id of its stance does. */
  lemma SectionLinesFree(evidence: Grouped, st: Stance, maxPer: int)
    requires forall k, r :: k in evidence && r in evidence[k] ==> LineFree(r.sourceId)
    ensures forall l :: l in Section(evidence, st, maxPer) ==> LineFree(l)
  {
    var all := GetOr(evidence, StanceName(st), []);
    SortByScoreFacts(all);
    var shown := Shown(evidence, st, maxPer);
    forall r | r in shown ensures LineFree(r.sourceId) {
      assert r in multiset(SortByScore(all));
      assert r in all;
    }
    EvidenceLinesOfItems(shown);
    var title := Title(st) + ":";
    assert LineFree(title) by {
      match st
      case Support =>
      case Contradict =>
      case Mention =>
    }
    var items := if shown == [] then ["- none"] else EvidenceLinesOf(shown);
    assert forall l :: l in items ==> LineFree(l);
    assert Section(evidence, st, maxPer) == [title] + items;
  }

  /** The evidence block reads back, line by line, as its three sections,
      when no source id holds a line break. */
  lemma EvidenceBlockLines(evidence: Grouped, maxPer: int)
    requires forall k, r :: k in evidence && r in evidence[k] ==> LineFree(r.sourceId)
    ensures SplitLines(JoinLines(EvidenceLines(evidence, maxPer))) == EvidenceLines(evidence, maxPer)
  {
    EvidenceLayout(evidence, maxPer);
    SectionLinesFree(evidence, Support, maxPer);
    SectionLinesFree(evidence, Contradict, maxPer);
    SectionLinesFree(evidence, Mention, maxPer);
    SplitJoinLines(EvidenceLines(evidence, maxPer));
  }

  // ---------------------------------------------------------------------------
  // build_deduction_prompt
  // ---------------------------------------------------------------------------

  /** The instructions, up to the claim under test. */
  const PromptHead: string :=
    "You are a cautious fact-checking assistant. Use only the provided evidence.\n"
    + "Return a short deduction with one label: Supported, Contradicted, Mixed, or Inconclusive.\n"
    + "Then provide 2-4 sentences explaining why. If evidence is weak or conflicting, say so.\n\n"
    + "Claim: "
  const ClaimsHeading: string := "\n\nMatched claims:\n"
  const EvidenceHeading: string := "\n\nEvidence:\n"
  /** The requested answer format. */
  const PromptTail: string :=
    "\n\nAnswer format:\n"
    + "Label: <Supported|Contradicted|Mixed|Inconclusive>\n"
    + "Reason: <short explanation>\n"

  /** The prompt around the claims block and the evidence block. */
  function Prompt(query: string, claimsBlock: string, evidenceBlock: string): string
  {
    PromptHead + query + ClaimsHeading + claimsBlock + EvidenceHeading + evidenceBlock + PromptTail
  }

  /** `build_deduction_prompt` */
  method BuildDeductionPrompt(query: string, claimRows: seq<ClaimRow>, evidence: Grouped) returns (prompt: string)
    ensures prompt == Prompt(query, JoinLines(ClaimLines(claimRows, MaxClaimRows)),
                             JoinLines(EvidenceLines(evidence, MaxPerStance)))
  {
    var claimsBlock := FormatClaims(claimRows, MaxClaimRows);
    var evidenceBlock := FormatEvidence(evidence, MaxPerStance);
    prompt := Prompt(query, claimsBlock, evidenceBlock);
  }

  /** A text contains its own suffix. */
  lemma ContainsEnd(a: string, t: string)
    ensures PyStr.Contains(a + t, t)
  {
    assert (a + t)[|a|..|a| + |t|] == t;
    assert PyStr.OccursAt(a + t, t, |a|);
  }

  /** Appending text keeps an occurrence. */
  lemma ContainsGrow(a: string, b: string, t: string)
    requires PyStr.Contains(a, t)
    ensures PyStr.Contains(a + b, t)
  {
    var i :| 0 <= i <= |a| && PyStr.OccursAt(a, t, i);
    assert (a + b)[i..i + |t|] == a[i..i + |t|];
    assert PyStr.OccursAt(a + b, t, i);
  }

  /** What any text laid out as `head + query + ch + cb + eh + eb + tail`
      carries. */
  lemma FrameCarries(head: string, query: string, ch: string, cb: string, eh: string, eb: string, tail: string)
    ensures var p := head + query + ch + cb + eh + eb + tail;
      && p[..|head| + |query|] == head + query
      && p[|p| - |tail|..] == tail
      && PyStr.Contains(p, cb) && PyStr.Contains(p, eb)
  {
    var a1 := head + query;
    var a2 := a1 + ch;
    var a3 := a2 + cb;
    var a4 := a3 + eh;
    var a5 := a4 + eb;
    var p := a5 + tail;
    ContainsEnd(a2, cb);
    ContainsGrow(a3, eh, cb);
    ContainsGrow(a4, eb, cb);
    ContainsGrow(a5, tail, cb);
    ContainsEnd(a4, eb);
    ContainsGrow(a5, tail, eb);
    assert a5 == a1 + (ch + cb + eh + eb);
    assert p[..|a1|] == a1;
  }

  /** The prompt opens with the instructions and the claim under test, ends
      with the answer format, and carries the claims block and the evidence
      block. */
  lemma PromptCarries(query: string, claimsBlock: string, evidenceBlock: string)
    ensures var p := Prompt(query, claimsBlock, evidenceBlock);
      && p[..|PromptHead| + |query|] == PromptHead + query
      && p[|p| - |PromptTail|..] == PromptTail
      && PyStr.Contains(p, claimsBlock) && PyStr.Contains(p, evidenceBlock)
  {
    FrameCarries(PromptHead, query, ClaimsHeading, claimsBlock, EvidenceHeading, evidenceBlock, PromptTail);
  }

  // ---------------------------------------------------------------------------
  // generate_deduction
  // ---------------------------------------------------------------------------

  /** The status and text `generate_deduction` returns. */
  datatype Deduction = Deduction(status: string, text: string)

  const DisabledText: string := "Ollama disabled (USE_OLLAMA=false)."
  const EmptyReplyText: string := "No response from Ollama."
  const TimeoutText: string := "Ollama request timed out. Increase OLLAMA_TIMEOUT to allow longer generations."

  /** How the request went: it timed out, it raised another exception (its
      message), or it answered with the streamed lines and the body as
      `response.json()` decodes it (`None` when that raises). */
  datatype Reply = TimedOut | Raised(message: string) | Answered(lines: seq<string>, body: Option<Json>)

  /** Python truthiness of a JSON value. */
  predicate Truthy(j: Json)
  {
    match j
    case JNull => false
    case JBool(b) => b
    case JInt(i) => i != 0
    case JReal(r) => r != 0.0
    case JStr(s) => s != ""
    case JArr(items) => items != []
    case JObj(fields) => fields != []
  }

  /** `data.get(key, default)` on a decoded object; the last of repeated
      keys wins, as in `json.loads`. */
  function Get(fields: seq<(string, Json)>, key: string, default: Json): Json
  {
    if fields == [] then default
    else if fields[|fields| - 1].0 == key then fields[|fields| - 1].1
    else Get(fields[..|fields| - 1], key, default)
  }

  /** What the streaming loop collects: the truthy "response" values, and
      whether a line decoded to something other than an object (whose `.get`
      raises). */
  datatype Collected = Collected(chunks: seq<Json>, raised: bool)

  /** The line decodes to an object whose "done" is truthy. */
  predicate IsDone(line: string, loads: string -> Option<Json>)
  {
    line != "" && loads(line).Some? && loads(line).value.JObj? && Truthy(Get(loads(line).value.fields, "done", JNull))
  }

  /** The line is skipped: it is blank or is not JSON. */
  predicate IsSkipped(line: string, loads: string -> Option<Json>)
  {
    line == "" || loads(line) == None
  }

  /** The streaming loop over `lines`, from the front: blank and undecodable
      lines are skipped, a truthy "response" is kept, and the first line
      whose "done" is truthy ends the loop. */
  function Collect(lines: seq<string>, loads: string -> Option<Json>): (c: Collected)
    ensures forall j :: j in c.chunks ==> Truthy(j)
  {
    if lines == [] then Collected([], false)
    else if IsSkipped(lines[0], loads) then Collect(lines[1..], loads)
    else match loads(lines[0]).value
      case JObj(fields) =>
        var chunk := Get(fields, "response", JStr(""));
        var head := if Truthy(chunk) then [chunk] else [];
        if Truthy(Get(fields, "done", JNull)) then Collected(head, false)
        else
          var rest := Collect(lines[1..], loads);
          Collected(head + rest.chunks, rest.raised)
      case _ => Collected([], true)
  }

  /** A skipped line anywhere changes nothing. */
  lemma {:induction false} CollectSkips(a: seq<string>, line: string, b: seq<string>, loads: string -> Option<Json>)
    requires IsSkipped(line, loads)
    ensures Collect(a + [line] + b, loads) == Collect(a + b, loads)
  {
    if a == [] {
      assert a + [line] + b == [line] + b && a + b == b;
      assert ([line] + b)[1..] == b;
    } else {
      CollectSkips(a[1..], line, b, loads);
      assert (a + [line] + b)[1..] == a[1..] + [line] + b;
      assert (a + b)[1..] == a[1..] + b;
    }
  }

  /** Nothing after the line that says "done" is read. */
  lemma {:induction false} CollectStopsAtDone(a: seq<string>, line: string, b: seq<string>, loads: string -> Option<Json>)
    requires IsDone(line, loads)
    ensures Collect(a + [line] + b, loads) == Collect(a + [line], loads)
  {
    if a == [] {
      assert [line] + b == [line] + b;
      assert [] + [line] + b == [line] + b;
      assert [] + [line] == [line];
    } else {
      CollectStopsAtDone(a[1..], line, b, loads);
      assert (a + [line] + b)[1..] == a[1..] + [line] + b;
      assert (a + [line])[1..] == a[1..] + [line];
    }
  }

  /** `"".join(chunks)`: `None` when a chunk is not a string (the join raises). */
  function JoinChunks(chunks: seq<Json>): Option<string>
  {
    if chunks == [] then Some("")
    else if !chunks[0].JStr? then None
    else match JoinChunks(chunks[1..])
      case Some(rest) => Some(chunks[0].s + rest)
      case None => None
  }

  /** The streaming loop of `generate_deduction`. */
  method FoldStream(lines: seq<string>, loads: string -> Option<Json>) returns (chunks: seq<Json>, raised: bool)
    ensures Collected(chunks, raised) == Collect(lines, loads)
  {
    chunks := [];
    var i := 0;
    while i < |lines|
      invariant 0 <= i <= |lines|
      invariant Collect(lines, loads) == var c := Collect(lines[i..], loads); Collected(chunks + c.chunks, c.raised)
    {
      var line := lines[i];
      ghost var chunks0 := chunks;
      assert lines[i..][1..] == lines[i + 1..];
      if line == "" {
        i := i + 1;
        continue;
      }
      var data := loads(line);
      if data == None {
        i := i + 1;
        continue;
      }
      if !data.value.JObj? {
        return chunks, true;
      }
      var chunk := Get(data.value.fields, "response", JStr(""));
      ghost var head := if Truthy(chunk) then [chunk] else [];
      ghost var rest := Collect(lines[i + 1..], loads);
      if Truthy(chunk) {
        chunks := chunks + [chunk];
      }
      if Truthy(Get(data.value.fields, "done", JNull)) {
        assert Collect(lines[i..], loads) == Collected(head, false);
        return chunks, false;
      }
      assert Collect(lines[i..], loads) == Collected(head + rest.chunks, rest.raised);
      assert chunks + rest.chunks == chunks0 + (head + rest.chunks);
      i := i + 1;
    }
    return chunks, false;
  }

  /** The text of a successful reply, with the empty text replaced. */
  function OkText(text: string): Deduction
  {
    Deduction("ok", if text == "" then EmptyReplyText else text)
  }

  /** What `generate_deduction` returns. `excText` is the message of the
      exception raised when a streamed line or the body is JSON but not an
      object, when a chunk is not a string, or when the body is not JSON;
      `pyStr` is `str` of a non-string "response". */
  function DeductionOf(useOllama: bool, stream: bool, reply: Reply, loads: string -> Option<Json>,
                       pyStr: Json -> string, excText: string): (d: Deduction)
    ensures d.status == "disabled" <==> !useOllama
    ensures d.status in {"disabled", "ok", "error"}
    ensures d.status == "ok" ==> d.text != ""
  {
    if !useOllama then Deduction("disabled", DisabledText)
    else match reply
      case TimedOut => Deduction("error", TimeoutText)
      case Raised(message) => Deduction("error", message)
      case Answered(lines, body) =>
        if stream then
          var c := Collect(lines, loads);
          var joined := JoinChunks(c.chunks);
          if c.raised || joined == None then Deduction("error", excText)
          else OkText(CoreUtils.Strip(joined.value))
        else if body == None || !body.value.JObj? then Deduction("error", excText)
        else
          var r := Get(body.value.fields, "response", JStr(""));
          OkText(CoreUtils.Strip(if r.JStr? then r.s else pyStr(r)))
  }

  /** `str()` of the `AttributeError` raised by reading `settings.ollama_stream`:
      the program's `Settings` (core/config.py) defines no such attribute. */
  const MissingStreamText: string := "'Settings' object has no attribute 'ollama_stream'"

  /** `generate_deduction` as written: with Ollama on, building the request
      payload reads `settings.ollama_stream` inside the `try`, which raises,
      so the reply is never read and the generic handler returns an error. */
  function DeductionAsWritten(useOllama: bool): (d: Deduction)
    ensures d.status != "ok"
    ensures d.status == "disabled" <==> !useOllama
    ensures useOllama ==> d.text == MissingStreamText
  {
    DeductionOf(useOllama, false, Raised(MissingStreamText), s => None, j => "", "")
  }

  /** The discrepancy: a server answering `{"response": "x"}` gives an "ok"
      deduction under the intended reading, while the code as written reports
      the attribute error for it, as for every other reply. */
  lemma AttributeErrorHidesReply()
    ensures var reply := Answered([], Some(JObj([("response", JStr("x"))])));
      && DeductionOf(true, false, reply, s => None, j => "", "").status == "ok"
      && DeductionAsWritten(true) == Deduction("error", MissingStreamText)
  {
  }

  /** `generate_deduction`. With Ollama off nothing is built or sent;
      otherwise the prompt is built (it is what the request carries) and the
      reply is folded. */
  method GenerateDeduction(useOllama: bool, stream: bool, query: string, claimRows: seq<ClaimRow>, evidence: Grouped,
                           reply: Reply, loads: string -> Option<Json>, pyStr: Json -> string, excText: string)
    returns (d: Deduction, ghost prompt: Option<string>)
    ensures d == DeductionOf(useOllama, stream, reply, loads, pyStr, excText)
    ensures useOllama <==> prompt.Some?
    ensures useOllama ==> prompt.value == Prompt(query, JoinLines(ClaimLines(claimRows, MaxClaimRows)),
                                                 JoinLines(EvidenceLines(evidence, MaxPerStance)))
  {
    if !useOllama {
      return Deduction("disabled", DisabledText), None;
    }
    var p := BuildDeductionPrompt(query, claimRows, evidence);
    prompt := Some(p);
    match reply
    case TimedOut =>
      d := Deduction("error", TimeoutText);
    case Raised(message) =>
      d := Deduction("error", message);
    case Answered(lines, body) =>
      var text: string;
      if stream {
        var chunks, raised := FoldStream(lines, loads);
        var joined := JoinChunks(chunks);
        if raised || joined == None {
          return Deduction("error", excText), prompt;
        }
        text := CoreUtils.Strip(joined.value);
      } else {
        if body == None || !body.value.JObj? {
          return Deduction("error", excText), prompt;
        }
        var r := Get(body.value.fields, "response", JStr(""));
        text := CoreUtils.Strip(if r.JStr? then r.s else pyStr(r));
      }
      if text == "" {
        text := EmptyReplyText;
      }
      d := Deduction("ok", text);
  }
}
