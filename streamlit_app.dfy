/** streamlit_app.py: the pure and stateful helpers behind the analysis
    pages. The corpus verdict is a tally of the stances of the evidence
    retrieved for a claim (`_init_verdict`, `_update_verdict`,
    `_finalize_verdict`), fed by `_push_evidence`, which lists every evidence
    id once; `_normalize_ollama_word` reads one word out of an Ollama reply
    and `_truncate_text` cuts a preview. The pages, the retrieval and the
    HTTP calls are not part of this model; the stance classifier is a
    parameter. */
module StreamlitApp {
  import opened Wrappers
  import opened SeqUtils
  import opened Schemas
  import CoreUtils
  import PyStr
  import StanceClassifier

  // ---------------------------------------------------------------------------
  // _normalize_ollama_word
  // ---------------------------------------------------------------------------

  /** `s.split(" ", 1)[0]`: the text before the first space. */
  function BeforeSpace(s: string): (r: string)
    ensures |r| <= |s| && r == s[..|r|] && ' ' !in r
    ensures |r| < |s| ==> s[|r|] == ' '
  {
    if s == [] || s[0] == ' ' then []
    else
      var rest := BeforeSpace(s[1..]);
      assert ([s[0]] + rest)[1..] == rest;
      [s[0]] + rest
  }

  /** The text before the first space of a word followed by nothing or by a
      space is the word. */
  lemma {:induction false} BeforeSpaceWord(w: string, rest: string)
    requires ' ' !in w && (rest == [] || rest[0] == ' ')
    ensures BeforeSpace(w + rest) == w
  {
    if w != [] {
      assert (w + rest)[1..] == w[1..] + rest;
      BeforeSpaceWord(w[1..], rest);
      assert w == [w[0]] + w[1..];
    }
  }

  /** The first part of words joined by spaces is the first word. */
  lemma FirstOfJoined(ws: seq<string>)
    requires ws != [] && CoreUtils.AllWords(ws)
    ensures CoreUtils.JoinSpace(ws) == ws[0] + CoreUtils.JoinSpace(ws)[|ws[0]|..]
    ensures BeforeSpace(CoreUtils.JoinSpace(ws)) == ws[0]
  {
    assert CoreUtils.IsWord(ws[0]);
    assert CoreUtils.IsSpace(' ');
    assert ' ' !in ws[0] by {
      forall i | 0 <= i < |ws[0]| ensures ws[0][i] != ' ' {
        assert !CoreUtils.IsSpace(ws[0][i]);
      }
    }
    if |ws| == 1 {
      BeforeSpaceWord(ws[0], []);
      assert ws[0] + [] == ws[0];
    } else {
      var tail := " " + CoreUtils.JoinSpace(ws[1..]);
      assert CoreUtils.JoinSpace(ws) == ws[0] + tail;
      BeforeSpaceWord(ws[0], tail);
    }
  }

  /** The collapsed reply is empty exactly when it has no word, and its
      first part is its first word. */
  lemma CleanedFirstWord(text: string)
    ensures var ws := CoreUtils.Words(text);
      && CoreUtils.AllWords(ws)
      && (ws == [] <==> CoreUtils.JoinSpace(ws) == [])
      && (ws != [] ==> BeforeSpace(CoreUtils.JoinSpace(ws)) == ws[0] && ws[0] != [])
  {
    var ws := CoreUtils.Words(text);
    CoreUtils.WordsAreWords(text);
    if ws != [] {
      FirstOfJoined(ws);
      assert CoreUtils.IsWord(ws[0]);
    }
  }

  const SupportWord: string := "support"
  const ContradictWord: string := "contradict"
  const MentionWord: string := "mention"

  /** `_normalize_ollama_word`: the reply with its whitespace collapsed
      (`text.strip().split()` is `text.split()`); empty when blank; otherwise
      "support", "contradict" or "mention" when the lower-cased reply
      contains it, in that order of priority, and otherwise its first word. */
  function NormalizeOllamaWord(text: string): (r: string)
    ensures r == [] <==> CoreUtils.Words(text) == []
  {
    var ws := CoreUtils.Words(text);
    var cleaned := CoreUtils.JoinSpace(ws);
    CleanedFirstWord(text);
    if cleaned == [] then []
    else
      var lowered := PyStr.Lower(cleaned);
      if PyStr.Contains(lowered, SupportWord) then SupportWord
      else if PyStr.Contains(lowered, ContradictWord) then ContradictWord
      else if PyStr.Contains(lowered, MentionWord) then MentionWord
      else BeforeSpace(cleaned)
  }

  /** No occurrence of `t` can start where its first character is absent. */
  lemma NotContained(s: string, t: string)
    requires t != [] && |t| <= |s| && t[0] !in s[..|s| - |t| + 1]
    ensures !PyStr.Contains(s, t)
  {
    forall i | 0 <= i <= |s| ensures !PyStr.OccursAt(s, t, i) {
      if i + |t| <= |s| {
        assert s[i..i + |t|][0] == s[..|s| - |t| + 1][i];
      }
    }
  }

  /** "contradict" does not contain "support". */
  lemma ContradictLacksSupport()
    ensures !PyStr.Contains(ContradictWord, SupportWord)
  {
    assert ContradictWord[..4] == "cont";
    NotContained(ContradictWord, SupportWord);
  }

  /** "mention" contains neither "support" nor "contradict". */
  lemma MentionLacksOthers()
    ensures !PyStr.Contains(MentionWord, SupportWord) && !PyStr.Contains(MentionWord, ContradictWord)
  {
    assert MentionWord[..1] == "m";
    NotContained(MentionWord, SupportWord);
    assert forall i :: 0 <= i <= |MentionWord| ==> !PyStr.OccursAt(MentionWord, ContradictWord, i);
  }

  /** An occurrence in a prefix is an occurrence in the whole text. */
  lemma ContainsInPrefix(s: string, p: string, t: string)
    requires |p| <= |s| && s[..|p|] == p && PyStr.Contains(p, t)
    ensures PyStr.Contains(s, t)
  {
    var i :| 0 <= i <= |p| && PyStr.OccursAt(p, t, i);
    assert s[i..i + |t|] == p[i..i + |t|];
    assert PyStr.OccursAt(s, t, i);
  }

  predicate LowerLetters(w: string)
  {
    forall c :: c in w ==> 'a' <= c <= 'z'
  }

  /** Lower-case letters are a word, and lower-casing keeps them. */
  lemma LowerLettersWord(w: string)
    requires w != [] && LowerLetters(w)
    ensures CoreUtils.IsWord(w) && PyStr.Lower(w) == w
  {
    forall i | 0 <= i < |w| ensures !CoreUtils.IsSpace(w[i]) && !PyStr.IsUpperAscii(w[i]) {
      assert w[i] in w;
    }
  }

  /** A single word is its own collapsed form and its own first part. */
  lemma NormalizeWordItself(w: string)
    requires CoreUtils.IsWord(w)
    ensures var lowered := PyStr.Lower(w);
      NormalizeOllamaWord(w)
      == if PyStr.Contains(lowered, SupportWord) then SupportWord
         else if PyStr.Contains(lowered, ContradictWord) then ContradictWord
         else if PyStr.Contains(lowered, MentionWord) then MentionWord
         else w
  {
    CoreUtils.WordsOfWord(w);
    assert CoreUtils.JoinSpace([w]) == w;
    assert ' ' !in w by {
      assert CoreUtils.IsSpace(' ');
      forall i | 0 <= i < |w| ensures w[i] != ' ' {
        assert !CoreUtils.IsSpace(w[i]);
      }
    }
    BeforeSpaceWord(w, []);
    assert w + [] == w;
  }

  /** Every word contains itself. */
  lemma ContainsSelf(w: string)
    ensures PyStr.Contains(w, w)
  {
    assert PyStr.OccursAt(w, w, 0);
  }

  /** "support" normalises to itself. */
  lemma NormalizeSupportWord()
    ensures NormalizeOllamaWord(SupportWord) == SupportWord
  {
    assert LowerLetters(SupportWord);
    LowerLettersWord(SupportWord);
    NormalizeWordItself(SupportWord);
    ContainsSelf(SupportWord);
  }

  /** "contradict" normalises to itself. */
  lemma NormalizeContradictWord()
    ensures NormalizeOllamaWord(ContradictWord) == ContradictWord
  {
    assert LowerLetters(ContradictWord);
    LowerLettersWord(ContradictWord);
    NormalizeWordItself(ContradictWord);
    ContradictLacksSupport();
    ContainsSelf(ContradictWord);
  }

  /** "mention" normalises to itself. */
  lemma NormalizeMentionWord()
    ensures NormalizeOllamaWord(MentionWord) == MentionWord
  {
    assert LowerLetters(MentionWord);
    LowerLettersWord(MentionWord);
    NormalizeWordItself(MentionWord);
    MentionLacksOthers();
    ContainsSelf(MentionWord);
  }

  /** The first word of a reply that names no stance names none either,
      and so reduces to itself. */
  lemma FirstWordStable(text: string)
    requires CoreUtils.Words(text) != []
    requires var lowered := PyStr.Lower(CoreUtils.JoinSpace(CoreUtils.Words(text)));
      !PyStr.Contains(lowered, SupportWord) && !PyStr.Contains(lowered, ContradictWord)
      && !PyStr.Contains(lowered, MentionWord)
    ensures NormalizeOllamaWord(CoreUtils.Words(text)[0]) == CoreUtils.Words(text)[0]
  {
    var ws := CoreUtils.Words(text);
    CoreUtils.WordsAreWords(text);
    FirstOfJoined(ws);
    var w := ws[0];
    assert CoreUtils.IsWord(w);
    var cleaned := CoreUtils.JoinSpace(ws);
    var lowered := PyStr.Lower(cleaned);
    assert cleaned[..|w|] == w;
    assert lowered[..|w|] == PyStr.Lower(w);
    forall t | t == SupportWord || t == ContradictWord || t == MentionWord
      ensures !PyStr.Contains(PyStr.Lower(w), t)
    {
      if PyStr.Contains(PyStr.Lower(w), t) {
        ContainsInPrefix(lowered, PyStr.Lower(w), t);
      }
    }
    NormalizeWordItself(w);
  }

  /** The word `_normalize_ollama_word` returns is its own normal form. */
  lemma NormalizeOllamaWordIdempotent(text: string)
    ensures NormalizeOllamaWord(NormalizeOllamaWord(text)) == NormalizeOllamaWord(text)
  {
    var r := NormalizeOllamaWord(text);
    if r == [] {
      assert CoreUtils.Words([]) == [];
    } else if r == SupportWord {
      NormalizeSupportWord();
    } else if r == ContradictWord {
      NormalizeContradictWord();
    } else if r == MentionWord {
      NormalizeMentionWord();
    } else {
      CleanedFirstWord(text);
      FirstWordStable(text);
    }
  }

  /** A reply that names none of the three stances reduces to its first
      word; one that names a stance reduces to the first of support,
      contradict, mention that it names. */
  lemma NormalizeOllamaWordCases(text: string)
    requires CoreUtils.Words(text) != []
    ensures var lowered := PyStr.Lower(CoreUtils.CleanText(text));
      && (PyStr.Contains(lowered, SupportWord) ==> NormalizeOllamaWord(text) == SupportWord)
      && (!PyStr.Contains(lowered, SupportWord) && PyStr.Contains(lowered, ContradictWord)
          ==> NormalizeOllamaWord(text) == ContradictWord)
      && ((!PyStr.Contains(lowered, SupportWord) && !PyStr.Contains(lowered, ContradictWord)
          && PyStr.Contains(lowered, MentionWord)) ==> NormalizeOllamaWord(text) == MentionWord)
      && (!PyStr.ContainsAny(lowered, [SupportWord, ContradictWord, MentionWord])
          ==> NormalizeOllamaWord(text) == CoreUtils.Words(text)[0])
  {
    CoreUtils.JoinSplitIsCleanText(text);
    CoreUtils.WordsAreWords(text);
    FirstOfJoined(CoreUtils.Words(text));
  }

  // ---------------------------------------------------------------------------
  // _truncate_text
  // ---------------------------------------------------------------------------

  /** The default `limit` of `_truncate_text`. */
  const PreviewLimit: int := 160

  /** The cleaned text of `text or ""`. */
  function CleanedOf(text: Option<string>): string
  {
    CoreUtils.CleanText(if text.Some? then text.value else "")
  }

  /** `_truncate_text`: the cleaned text when it fits in `limit`, otherwise
      its first `limit` characters followed by "...". */
  function TruncateText(text: Option<string>, limit: int): (r: string)
  {
    var cleaned := CleanedOf(text);
    if |cleaned| <= limit then cleaned else PyPrefix(cleaned, limit) + "..."
  }

  /** A preview never runs past `limit` plus the three dots, starts with as
      much of the cleaned text as fits, and is the cleaned text itself
      when that fits. */
  lemma TruncateTextShape(text: Option<string>, limit: int)
    requires 0 <= limit
    ensures var r := TruncateText(text, limit);
      var cleaned := CleanedOf(text);
      && |r| <= limit + 3
      && (|cleaned| <= limit ==> r == cleaned)
      && (|cleaned| > limit ==> r[..limit] == cleaned[..limit] && r[limit..] == "...")
  {
    var r := TruncateText(text, limit);
    var cleaned := CleanedOf(text);
    if |cleaned| > limit {
      var p := PyPrefix(cleaned, limit);
      assert |p| == limit && p == cleaned[..limit];
      assert r == p + "...";
      assert r[..limit] == p && r[limit..] == "...";
    }
  }

  /** A preview that fits is stable: cutting it again gives it back. */
  lemma TruncateTextFitsStable(text: Option<string>, limit: int)
    requires |CleanedOf(text)| <= limit
    ensures TruncateText(Some(TruncateText(text, limit)), limit) == TruncateText(text, limit)
  {
    CoreUtils.CleanTextIdempotent(if text.Some? then text.value else "");
  }

  /** Missing text and empty text give the same, empty, preview. */
  lemma TruncateTextMissing(limit: int)
    requires 0 <= limit
    ensures TruncateText(None, limit) == TruncateText(Some(""), limit) == ""
  {
    CoreUtils.CleanTextBlank("");
    assert CoreUtils.Strip("") == [];
  }

  // ---------------------------------------------------------------------------
  // _init_verdict, _update_verdict, _finalize_verdict
  // ---------------------------------------------------------------------------

  const InconclusiveLabel: string := "Inconclusive"
  const FalseLabel: string := "False (corpus-contradicted)"
  const TrueLabel: string := "True (corpus-supported)"
  const MixedLabel: string := "Mixed"

  /** The label `_finalize_verdict` gives `s` supporting and `c`
      contradicting snippets: inconclusive under two of them, otherwise by
      the majority, and mixed on a tie. */
  function VerdictLabel(s: nat, c: nat): (name: string)
    ensures name == InconclusiveLabel <==> s + c < 2
    ensures name == FalseLabel <==> 2 <= s + c && s < c
    ensures name == TrueLabel <==> 2 <= s + c && c < s
    ensures name == MixedLabel <==> 2 <= s + c && s == c
  {
    if s + c < 2 then InconclusiveLabel
    else if c > s then FalseLabel
    else if s > c then TrueLabel
    else MixedLabel
  }

  /** Exchanging the two counts exchanges the true and false labels and
      keeps the other two. */
  lemma {:induction false} VerdictLabelMirror(s: nat, c: nat)
    ensures VerdictLabel(s, c) == TrueLabel <==> VerdictLabel(c, s) == FalseLabel
    ensures VerdictLabel(s, c) == MixedLabel <==> VerdictLabel(c, s) == MixedLabel
    ensures VerdictLabel(s, c) == InconclusiveLabel <==> VerdictLabel(c, s) == InconclusiveLabel
  {
  }

  /** One more supporting snippet never turns a true verdict false, nor a
      mixed or inconclusive one false. */
  lemma VerdictLabelSupportMonotone(s: nat, c: nat)
    requires VerdictLabel(s, c) != FalseLabel
    ensures VerdictLabel(s + 1, c) != FalseLabel
  {
  }

  /** The three stance counts of the verdict stats. */
  datatype Tally = Tally(support: nat, contradict: nat, mention: nat)
  {
    function Get(st: Stance): nat
    {
      match st
      case Support => support
      case Contradict => contradict
      case Mention => mention
    }

    /** `stats[f"{stance}_count"] += 1` */
    function Bump(st: Stance): (t: Tally)
      ensures t.Get(st) == Get(st) + 1
      ensures forall o: Stance :: o != st ==> t.Get(o) == Get(o)
    {
      match st
      case Support => this.(support := support + 1)
      case Contradict => this.(contradict := contradict + 1)
      case Mention => this.(mention := mention + 1)
    }
  }

  /** The verdict stats: a count and a summed score per stance, and the label
      once finalized. */
  class Verdict {
    var supportCount: nat
    var contradictCount: nat
    var mentionCount: nat
    var supportScore: real
    var contradictScore: real
    var mentionScore: real
    var labelText: Option<string>

    function Counts(): Tally
      reads this
    {
      Tally(supportCount, contradictCount, mentionCount)
    }

    function Score(st: Stance): real
      reads this
    {
      match st
      case Support => supportScore
      case Contradict => contradictScore
      case Mention => mentionScore
    }

    /** `_init_verdict`: every count and score at zero, no label yet. */
    constructor ()
      ensures Counts() == Tally(0, 0, 0) && forall st: Stance :: Score(st) == 0.0
      ensures labelText == None
    {
      supportCount, contradictCount, mentionCount := 0, 0, 0;
      supportScore, contradictScore, mentionScore := 0.0, 0.0, 0.0;
      labelText := None;
    }

    /** `_update_verdict`: the stance's count goes up by one, and every
      stance's score by the classifier's score for it. */
    method Update(stance: Stance, scores: StanceClassifier.Scores)
      modifies this
      ensures Counts() == old(Counts()).Bump(stance)
      ensures forall o: Stance :: Score(o) == old(Score(o)) + StanceClassifier.ScoreOf(scores, o)
      ensures labelText == old(labelText)
    {
      match stance {
        case Support => supportCount := supportCount + 1;
        case Contradict => contradictCount := contradictCount + 1;
        case Mention => mentionCount := mentionCount + 1;
      }
      supportScore := supportScore + scores.support;
      contradictScore := contradictScore + scores.contradict;
      mentionScore := mentionScore + scores.mention;
    }

    /** `_finalize_verdict`: the label from the support and contradict
      counts; nothing else changes. */
    method Finalize()
      modifies this
      ensures labelText == Some(VerdictLabel(supportCount, contradictCount))
      ensures Counts() == old(Counts()) && forall o: Stance :: Score(o) == old(Score(o))
    {
      labelText := Some(VerdictLabel(supportCount, contradictCount));
    }
  }

  // ---------------------------------------------------------------------------
  // _push_evidence
  // ---------------------------------------------------------------------------

  /** An evidence search hit: its point id, the payload keys read (each
      `None` when missing, and all of them when the payload is), and its
      score. */
  datatype EvidenceHit = EvidenceHit(id: string, evidenceId: Option<string>, snippetText: Option<string>,
                                     sourceId: Option<string>, score: real)

  /** A listed evidence row. */
  datatype ShownEvidence = ShownEvidence(evidenceId: string, snippetText: string, sourceId: string,
                                         score: real, stanceScore: real)

  /** `classify_stance_with_scores(snippet, query)` */
  type Scorer = (string, string) -> (Stance, StanceClassifier.Scores)

  /** `str(payload.get("evidence_id", ev.id))` */
  function EvidenceIdOf(ev: EvidenceHit): string
  {
    if ev.evidenceId.Some? then ev.evidenceId.value else ev.id
  }

  function SnippetOf(ev: EvidenceHit): string
  {
    if ev.snippetText.Some? then ev.snippetText.value else ""
  }

  /** The row `_push_evidence` appends. */
  function ShownRow(ev: EvidenceHit, stance: Stance, scores: StanceClassifier.Scores): ShownEvidence
  {
    ShownEvidence(EvidenceIdOf(ev), SnippetOf(ev), if ev.sourceId.Some? then ev.sourceId.value else "",
                  ev.score, StanceClassifier.ScoreOf(scores, stance))
  }

  /** The evidence ids of the rows, in order. */
  function Ids(rows: seq<ShownEvidence>): (r: seq<string>)
    ensures |r| == |rows|
  {
    if rows == [] then [] else Ids(rows[..|rows| - 1]) + [rows[|rows| - 1].evidenceId]
  }

  /** The `evidence` dict of `retrieve_by_claim_text`: one list per
      stance. */
  datatype StanceLists = StanceLists(support: seq<ShownEvidence>, contradict: seq<ShownEvidence>,
                                     mention: seq<ShownEvidence>)
  {
    function Rows(st: Stance): seq<ShownEvidence>
    {
      match st
      case Support => support
      case Contradict => contradict
      case Mention => mention
    }

    /** `evidence[stance].append(row)` */
    function Append(st: Stance, row: ShownEvidence): (r: StanceLists)
      ensures r.Rows(st) == Rows(st) + [row]
      ensures forall o: Stance :: o != st ==> r.Rows(o) == Rows(o)
    {
      match st
      case Support => this.(support := support + [row])
      case Contradict => this.(contradict := contradict + [row])
      case Mention => this.(mention := mention + [row])
    }

    /** Every listed evidence id, stance by stance. */
    function AllIds(): seq<string>
    {
      Ids(support) + Ids(contradict) + Ids(mention)
    }
  }

  const NoEvidence := StanceLists([], [], [])

  /** Appending a row to one stance adds its id once to all the ids. */
  lemma AllIdsAppend(e: StanceLists, st: Stance, row: ShownEvidence)
    ensures multiset(e.Append(st, row).AllIds()) == multiset(e.AllIds()) + multiset{row.evidenceId}
  {
    var rows := e.Rows(st);
    assert (rows + [row])[..|rows|] == rows;
    assert Ids(rows + [row]) == Ids(rows) + [row.evidenceId];
  }

  /** The listed rows agree with the counts, stance by stance, and the
      listed ids are the seen ids, each listed once. */
  predicate Consistent(evidence: StanceLists, seen: set<string>, counts: Tally)
  {
    && |evidence.support| == counts.support
    && |evidence.contradict| == counts.contradict
    && |evidence.mention| == counts.mention
    && multiset(evidence.AllIds()) == multiset(seen)
  }

  /** Listing a row with a new id under its stance, marking the id seen and
      counting the stance keeps the three consistent. */
  lemma ConsistentPush(evidence: StanceLists, seen: set<string>, counts: Tally, st: Stance, row: ShownEvidence)
    requires Consistent(evidence, seen, counts) && row.evidenceId !in seen
    ensures Consistent(evidence.Append(st, row), seen + {row.evidenceId}, counts.Bump(st))
  {
    AllIdsAppend(evidence, st, row);
    AddFresh(seen, row.evidenceId);
  }

  /** Adding a new element to a set adds it once to its multiset. */
  lemma AddFresh<T>(s: set<T>, x: T)
    requires x !in s
    ensures multiset(s + {x}) == multiset(s) + multiset{x}
  {
    forall y ensures multiset(s + {x})[y] == (multiset(s) + multiset{x})[y] {
      if y == x {
        assert y in s + {x};
      }
    }
  }

  /** A sequence whose multiset has no element twice has no duplicates. */
  lemma {:induction false} SingleCountsNoDups<T>(s: seq<T>)
    requires forall x :: multiset(s)[x] <= 1
    ensures NoDups(s)
  {
    if s != [] {
      var init := s[..|s| - 1];
      var y := s[|s| - 1];
      assert s == init + [y];
      assert multiset(s) == multiset(init) + multiset{y};
      forall x ensures multiset(init)[x] <= 1 {
        assert multiset(s)[x] == multiset(init)[x] + multiset{y}[x];
      }
      SingleCountsNoDups(init);
      assert y !in init by {
        assert multiset(s)[y] == multiset(init)[y] + 1;
      }
      forall i, j | 0 <= i < j < |s| ensures s[i] != s[j] {
        if j < |s| - 1 {
          assert s[i] == init[i] && s[j] == init[j];
        } else {
          assert s[i] in init;
        }
      }
    }
  }

  /** In a consistent state no id is listed twice, the listed ids are the
      seen ids, and the three counts add up to the number of seen ids. */
  lemma SeenListsOnce(evidence: StanceLists, seen: set<string>, counts: Tally)
    requires Consistent(evidence, seen, counts)
    ensures NoDups(evidence.AllIds())
    ensures ToSet(evidence.AllIds()) == seen
    ensures counts.support + counts.contradict + counts.mention == |seen|
  {
    var ids := evidence.AllIds();
    forall x ensures multiset(ids)[x] <= 1 {
      assert multiset(seen)[x] == if x in seen then 1 else 0;
    }
    SingleCountsNoDups(ids);
    forall x ensures x in ToSet(ids) <==> x in seen {
      assert x in ids <==> x in multiset(ids);
    }
    assert |multiset(ids)| == |ids|;
  }

  /** The state `retrieve_by_claim_text` threads through `_push_evidence`:
      the rows listed per stance, the verdict stats, and the set of evidence
      ids seen. */
  class Retrieval {
    var evidence: StanceLists
    var seen: set<string>
    const verdict: Verdict

    /** Each stance's count is its number of rows; and the listed ids are the seen ids, each listed once. */
    predicate Valid()
      reads this, verdict
    {
      Consistent(evidence, seen, verdict.Counts())
    }

    /** The empty lists, the initial verdict and the empty `seen` set. */
    constructor ()
      ensures Valid() && fresh(verdict)
      ensures evidence == NoEvidence && forall st: Stance :: verdict.Score(st) == 0.0
      ensures seen == {} && verdict.labelText == None
    {
      evidence := NoEvidence;
      seen := {};
      verdict := new Verdict();
    }

    /** `_push_evidence`: an evidence id already seen changes nothing;
      otherwise it is marked seen, the snippet is classified against the
      query, the verdict is updated with that stance and its scores, and the
      row is appended to that stance's list. */
    method PushEvidence(ev: EvidenceHit, query: string, classify: Scorer)
      requires Valid()
      modifies this, verdict
      ensures Valid()
      ensures EvidenceIdOf(ev) in old(seen) ==>
        evidence == old(evidence) && seen == old(seen) && unchanged(verdict)
      ensures EvidenceIdOf(ev) !in old(seen) ==>
        var (st, scores) := classify(SnippetOf(ev), query);
        && seen == old(seen) + {EvidenceIdOf(ev)}
        && evidence == old(evidence).Append(st, ShownRow(ev, st, scores))
        && verdict.Counts() == old(verdict.Counts()).Bump(st)
        && (forall o: Stance :: verdict.Score(o) == old(verdict.Score(o)) + StanceClassifier.ScoreOf(scores, o))
        && verdict.labelText == old(verdict.labelText)
    {
      var eid := EvidenceIdOf(ev);
      if eid in seen {
        return;
      }
      var snippet := SnippetOf(ev);
      var (stance, scores) := classify(snippet, query);
      var row := ShownRow(ev, stance, scores);
      ConsistentPush(evidence, seen, verdict.Counts(), stance, row);
      seen := seen + {eid};
      verdict.Update(stance, scores);
      evidence := evidence.Append(stance, row);
    }
  }
}
