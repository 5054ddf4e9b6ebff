/** models/stance_classifier.py: the stance of an evidence snippet towards a
    claim, from keywords, from an Ollama reply, or from NLI label scores.
    The model calls themselves are inputs: the Ollama reply, and the label
    scores the NLI pipeline produced. */
module StanceClassifier {
  import opened Wrappers
  import opened Schemas
  import opened PyStr
  import CoreUtils

  const ContradictTerms: seq<string> := ["debunk", "false", "incorrect", "misleading", "no evidence"]
  const SupportTerms: seq<string> := ["confirmed", "true", "verified", "evidence shows", "supports"]

  /** `_rule_based_stance`: a contradicting keyword anywhere in the
      lower-cased snippet wins; otherwise a supporting one gives support;
      otherwise the snippet only mentions the claim. */
  function RuleBasedStance(snippet: string, claim: string): (r: Stance)
    ensures r == Contradict <==> ContainsAny(Lower(snippet), ContradictTerms)
    ensures r == Support <==> !ContainsAny(Lower(snippet), ContradictTerms) && ContainsAny(Lower(snippet), SupportTerms)
  {
    var low := Lower(snippet);
    if ContainsAny(low, ContradictTerms) then Contradict
    else if ContainsAny(low, SupportTerms) then Support
    else Mention
  }

  /** A snippet that mentions "debunk" is contradicting, whatever else it
      says, and the claim text plays no part. */
  lemma RuleBasedDebunk(pre: string, post: string, claim: string, other: string)
    ensures RuleBasedStance(pre + "debunk" + post, claim) == Contradict
    ensures RuleBasedStance(pre + post, claim) == RuleBasedStance(pre + post, other)
  {
    var s := pre + "debunk" + post;
    ContainsMiddle(pre, "debunk", post);
    var i :| OccursAt(s, "debunk", i);
    LowerKeepsOccurrence(s, "debunk", i);
    assert "debunk" in ContradictTerms;
  }

  // ---------------------------------------------------------------------------
  // The Ollama reply
  // ---------------------------------------------------------------------------

  const OllamaContradictWords: seq<string> := ["contradict", "refute", "deny"]
  const OllamaSupportWords: seq<string> := ["support", "confirm", "verify"]

  /** The reply text the mapping looks at: the "response" field (or
      "mention" when it is missing), stripped and lower-cased. */
  function ReplyText(response: Option<string>): string
  {
    Lower(CoreUtils.Strip(if response.Some? then response.value else "mention"))
  }

  /** The word mapping of `_ollama_stance`: an exact stance word is taken as
      it is; otherwise a contradicting word is looked for before a
      supporting one; anything else is a mention. */
  function OllamaStance(response: Option<string>): (r: Stance)
    ensures ReplyText(response) == "support" ==> r == Support
    ensures ReplyText(response) == "contradict" ==> r == Contradict
    ensures ReplyText(response) == "mention" ==> r == Mention
    ensures ReplyText(response) !in {"support", "contradict", "mention"} ==>
      (r == Contradict <==> ContainsAny(ReplyText(response), OllamaContradictWords))
    ensures ReplyText(response) !in {"support", "contradict", "mention"} ==>
      (r == Support <==> !ContainsAny(ReplyText(response), OllamaContradictWords)
                         && ContainsAny(ReplyText(response), OllamaSupportWords))
  {
    var text := ReplyText(response);
    if text == "support" then Support
    else if text == "contradict" then Contradict
    else if text == "mention" then Mention
    else if ContainsAny(text, OllamaContradictWords) then Contradict
    else if ContainsAny(text, OllamaSupportWords) then Support
    else Mention
  }

  /** A missing "response" field reads as a mention. */
  lemma OllamaMissingResponse()
    ensures OllamaStance(None) == Mention
  {
    var m := "mention";
    CoreUtils.LeadLenIs(m, 0);
    assert CoreUtils.DropSpaces(m) == m;
    CoreUtils.TrimLenIs(m, |m|);
    assert CoreUtils.StripRight(m) == m;
    assert Lower(m) == m;
  }

  // ---------------------------------------------------------------------------
  // NLI scores
  // ---------------------------------------------------------------------------

  /** The three scores, one per stance. */
  datatype Scores = Scores(support: real, contradict: real, mention: real)

  function ScoreOf(s: Scores, st: Stance): real
  {
    match st
    case Support => s.support
    case Contradict => s.contradict
    case Mention => s.mention
  }

  /** 1.0 on the chosen stance, 0.0 on the other two. */
  function OneHot(st: Stance): (s: Scores)
    ensures ScoreOf(s, st) == 1.0
    ensures forall o: Stance :: o != st ==> ScoreOf(s, o) == 0.0
  {
    match st
    case Support => Scores(1.0, 0.0, 0.0)
    case Contradict => Scores(0.0, 1.0, 0.0)
    case Mention => Scores(0.0, 0.0, 1.0)
  }

  /** One item of the pipeline's output: its "label" and "score" keys, either
      of which may be missing. */
  datatype NliItem = NliItem(labelText: Option<string>, score: Option<real>)

  /** The stance an item's label stands for: "entail" is looked for first,
      then "contrad", then "neutral", in the lower-cased label. */
  function LabelStance(item: NliItem): (r: Option<Stance>)
    ensures var low := Lower(if item.labelText.Some? then item.labelText.value else "");
      && (r == Some(Support) <==> Contains(low, "entail"))
      && (r == Some(Contradict) <==> !Contains(low, "entail") && Contains(low, "contrad"))
      && (r == Some(Mention) <==> !Contains(low, "entail") && !Contains(low, "contrad") && Contains(low, "neutral"))
  {
    var low := Lower(if item.labelText.Some? then item.labelText.value else "");
    if Contains(low, "entail") then Some(Support)
    else if Contains(low, "contrad") then Some(Contradict)
    else if Contains(low, "neutral") then Some(Mention)
    else None
  }

  function ItemScore(item: NliItem): real
  {
    if item.score.Some? then item.score.value else 0.0
  }

  /** The score the last item standing for `st` carries, 0.0 when there is none. */
  function LastScore(items: seq<NliItem>, st: Stance): real
  {
    if items == [] then 0.0
    else if LabelStance(items[|items| - 1]) == Some(st) then ItemScore(items[|items| - 1])
    else LastScore(items[..|items| - 1], st)
  }

  predicate AllZero(s: Scores)
  {
    s.support == 0.0 && s.contradict == 0.0 && s.mention == 0.0
  }

  /** The scores `_normalize_nli_scores` returns. */
  function NliScores(items: seq<NliItem>): (s: Scores)
    ensures !AllZero(s)
  {
    var raw := Scores(LastScore(items, Support), LastScore(items, Contradict), LastScore(items, Mention));
    if AllZero(raw) then raw.(mention := 1.0) else raw
  }

  /** `_normalize_nli_scores`: one pass over the items, each recognised label
      overwriting its stance's score; all zeros become a plain mention. */
  method NormalizeNliScores(items: seq<NliItem>) returns (scores: Scores)
    ensures scores == NliScores(items)
  {
    scores := Scores(0.0, 0.0, 0.0);
    for i := 0 to |items|
      invariant scores == Scores(LastScore(items[..i], Support), LastScore(items[..i], Contradict),
                                 LastScore(items[..i], Mention))
    {
      assert items[..i + 1][..i] == items[..i];
      var low := Lower(if items[i].labelText.Some? then items[i].labelText.value else "");
      var score := if items[i].score.Some? then items[i].score.value else 0.0;
      if Contains(low, "entail") {
        scores := scores.(support := score);
      } else if Contains(low, "contrad") {
        scores := scores.(contradict := score);
      } else if Contains(low, "neutral") {
        scores := scores.(mention := score);
      }
    }
    assert items[..|items|] == items;
    if scores.support == 0.0 && scores.contradict == 0.0 && scores.mention == 0.0 {
      scores := scores.(mention := 1.0);
    }
  }

  /** The scores read the last recognised item per stance, and an item with
      no recognised label changes nothing. */
  lemma {:induction false} NliScoresLastWins(items: seq<NliItem>, x: NliItem)
    ensures var raw := Scores(LastScore(items + [x], Support), LastScore(items + [x], Contradict),
                              LastScore(items + [x], Mention));
      && (LabelStance(x).Some? ==> ScoreOf(raw, LabelStance(x).value) == ItemScore(x))
      && (forall st: Stance :: LabelStance(x) != Some(st) ==> LastScore(items + [x], st) == LastScore(items, st))
  {
    assert (items + [x])[..|items|] == items;
    assert (items + [x])[|items|] == x;
  }

  /** No item at all reads as a certain mention. */
  lemma NliScoresEmpty()
    ensures NliScores([]) == Scores(0.0, 0.0, 1.0)
  {
  }

  /** `max(scores, key=scores.get)`: the stance with the highest score, the
      first in the order support, contradict, mention on a tie. */
  function ArgMax(s: Scores): (r: Stance)
    ensures forall o: Stance :: ScoreOf(s, o) <= ScoreOf(s, r)
    ensures r == Support <==> s.support >= s.contradict && s.support >= s.mention
    ensures r == Contradict <==> s.contradict > s.support && s.contradict >= s.mention
  {
    if s.support >= s.contradict && s.support >= s.mention then Support
    else if s.contradict >= s.mention then Contradict
    else Mention
  }

  // ---------------------------------------------------------------------------
  // Dispatch
  // ---------------------------------------------------------------------------

  /** What the NLI pipeline produced: an exception, or its label scores. */
  datatype NliRun = NliFailed | NliRan(items: seq<NliItem>)

  predicate Blank(s: string)
  {
    CoreUtils.Strip(s) == []
  }

  /** `classify_stance_with_scores`. Blank input is a certain mention; with
      Ollama on, its reply (or, when the call fails, the keyword rule) decides
      with one-hot scores; otherwise the NLI scores decide, and when the
      pipeline fails the keyword rule does, again with one-hot scores. */
  function ClassifyStanceWithScores(snippet: string, claim: string, useOllama: bool, ollama: OllamaReply,
                                    nli: NliRun): (r: (Stance, Scores))
    ensures Blank(snippet) || Blank(claim) ==> r == (Mention, OneHot(Mention))
    ensures !(!Blank(snippet) && !Blank(claim) && !useOllama && nli.NliRan?) ==> r.1 == OneHot(r.0)
    ensures !Blank(snippet) && !Blank(claim) && !useOllama && nli.NliRan? ==>
      r.1 == NliScores(nli.items) && forall o: Stance :: ScoreOf(r.1, o) <= ScoreOf(r.1, r.0)
    ensures !Blank(snippet) && !Blank(claim) && ((useOllama && ollama.OllamaFailed?) || (!useOllama && nli.NliFailed?)) ==>
      r.0 == RuleBasedStance(snippet, claim)
    ensures !Blank(snippet) && !Blank(claim) && useOllama && ollama.OllamaReplied? ==>
      r.0 == OllamaStance(ollama.response)
  {
    if Blank(snippet) || Blank(claim) then (Mention, OneHot(Mention))
    else if useOllama then
      var st := if ollama.OllamaReplied? then OllamaStance(ollama.response) else RuleBasedStance(snippet, claim);
      (st, OneHot(st))
    else if nli.NliRan? then
      var s := NliScores(nli.items);
      (ArgMax(s), s)
    else
      var st := RuleBasedStance(snippet, claim);
      (st, OneHot(st))
  }

  /** `classify_stance`: the stance alone. */
  function ClassifyStance(snippet: string, claim: string, useOllama: bool, ollama: OllamaReply, nli: NliRun): (r: Stance)
    ensures r == ClassifyStanceWithScores(snippet, claim, useOllama, ollama, nli).0
    ensures Blank(snippet) || Blank(claim) ==> r == Mention
  {
    ClassifyStanceWithScores(snippet, claim, useOllama, ollama, nli).0
  }

  /** Whatever the path, the returned scores put their maximum on the
      returned stance, and they are never all zero. */
  lemma ScoresAgreeWithStance(snippet: string, claim: string, useOllama: bool, ollama: OllamaReply, nli: NliRun)
    ensures var r := ClassifyStanceWithScores(snippet, claim, useOllama, ollama, nli);
      (forall o: Stance :: ScoreOf(r.1, o) <= ScoreOf(r.1, r.0)) && !AllZero(r.1)
  {
  }
}
