/** models/claim_extractor.py: claim sentences picked from a text by
    keyword and punctuation rules, or read from an Ollama reply, which is an
    input here. */
module ClaimExtractor {
  import opened Wrappers
  import opened SeqUtils
  import opened Schemas
  import opened PyStr
  import opened CoreUtils

  const ClaimKeywords: seq<string> := ["claims", "says", "reports", "rumor", "hoax", "fake"]
  const MinClaimLength: int := 15
  const MaxClaims: int := 5

  /** Whether a cleaned sentence is kept: long enough, and either naming a
      claim keyword (in any case) or ending like a sentence. */
  predicate IsClaim(c: string)
  {
    && |c| >= MinClaimLength
    && (ContainsAny(Lower(c), ClaimKeywords) || EndsWith(c, ".") || EndsWith(c, "!") || EndsWith(c, "?"))
  }

  /** The kept sentences, cleaned, in their original order. */
  function Candidates(sentences: seq<string>): (r: seq<string>)
    ensures |r| <= |sentences|
    ensures forall c :: c in r ==> IsClaim(c) && Normalized(c)
  {
    if sentences == [] then []
    else
      var c := CleanText(sentences[|sentences| - 1]);
      Candidates(sentences[..|sentences| - 1]) + (if IsClaim(c) then [c] else [])
  }

  /** Filtering distributes over concatenation, so the kept sentences of an
      earlier part of the text come before those of a later part. */
  lemma {:induction false} CandidatesAppend(a: seq<string>, b: seq<string>)
    ensures Candidates(a + b) == Candidates(a) + Candidates(b)
    decreases |b|
  {
    if b == [] {
      assert a + b == a;
    } else {
      var b', x := b[..|b| - 1], b[|b| - 1];
      assert a + b == (a + b') + [x];
      assert b == b' + [x];
      CandidatesSnoc(a + b', x);
      CandidatesSnoc(b', x);
      CandidatesAppend(a, b');
    }
  }

  /** One more sentence is kept at the end exactly when it is a claim. */
  lemma CandidatesSnoc(s: seq<string>, x: string)
    ensures Candidates(s + [x]) == Candidates(s) + (if IsClaim(CleanText(x)) then [CleanText(x)] else [])
  {
    assert (s + [x])[..|s|] == s;
  }

  /** Every kept claim is the cleaned form of one of the sentences. */
  lemma {:induction false} CandidatesFromSentences(sentences: seq<string>)
    ensures forall c :: c in Candidates(sentences) ==> exists s :: s in sentences && c == CleanText(s)
  {
    if sentences != [] {
      var init := sentences[..|sentences| - 1];
      CandidatesFromSentences(init);
      forall c | c in Candidates(sentences) ensures exists s :: s in sentences && c == CleanText(s) {
        if c in Candidates(init) {
          var s :| s in init && c == CleanText(s);
          assert s in sentences;
        } else {
          assert sentences[|sentences| - 1] in sentences;
        }
      }
    }
  }

  /** `_rule_based_extract`: split into sentences, clean each, keep the
      claims, and return the first five. */
  method RuleBasedExtract(text: string) returns (claims: seq<string>)
    ensures claims == PyPrefix(Candidates(SplitSentences(text)), MaxClaims)
  {
    var sentences := SplitSentences(text);
    var kept: seq<string> := [];
    for i := 0 to |sentences|
      invariant kept == Candidates(sentences[..i])
    {
      assert sentences[..i + 1][..i] == sentences[..i];
      var sentence := CleanText(sentences[i]);
      if |sentence| < MinClaimLength {
        continue;
      }
      if ContainsAny(Lower(sentence), ClaimKeywords) {
        kept := kept + [sentence];
      } else if EndsWith(sentence, ".") || EndsWith(sentence, "!") || EndsWith(sentence, "?") {
        kept := kept + [sentence];
      }
    }
    assert sentences[..|sentences|] == sentences;
    claims := PyPrefix(kept, MaxClaims);
  }

  /** What the rule-based path promises: at most five claims, each a
      cleaned sentence of the text of at least 15 characters that names a
      keyword or ends like a sentence, in the order of the text. */
  lemma RuleBasedClaims(text: string)
    ensures var claims := PyPrefix(Candidates(SplitSentences(text)), MaxClaims);
      && |claims| <= MaxClaims
      && (forall c :: c in claims ==> IsClaim(c) && Normalized(c))
      && (forall c :: c in claims ==> exists s :: s in SplitSentences(text) && c == CleanText(s))
      && (|Candidates(SplitSentences(text))| <= MaxClaims ==> claims == Candidates(SplitSentences(text)))
  {
    var all := Candidates(SplitSentences(text));
    CandidatesFromSentences(SplitSentences(text));
    assert forall c :: c in PyPrefix(all, MaxClaims) ==> c in all;
  }

  // ---------------------------------------------------------------------------
  // The Ollama reply
  // ---------------------------------------------------------------------------

  /** Index of the first `c` in `s` at or after `from`, if any. */
  function FindFrom(s: string, c: char, from: nat): (r: Option<nat>)
    requires from <= |s|
    ensures r.Some? ==> from <= r.value < |s| && s[r.value] == c
    ensures r.Some? ==> forall k :: from <= k < r.value ==> s[k] != c
    ensures r == None ==> forall k :: from <= k < |s| ==> s[k] != c
    decreases |s| - from
  {
    if from == |s| then None
    else if s[from] == c then Some(from)
    else FindFrom(s, c, from + 1)
  }

  /** Index of the last `c` in `s`, if any. */
  function FindLast(s: string, c: char): (r: Option<nat>)
    ensures r.Some? ==> r.value < |s| && s[r.value] == c && forall k :: r.value < k < |s| ==> s[k] != c
    ensures r == None ==> forall k :: 0 <= k < |s| ==> s[k] != c
  {
    if s == [] then None
    else if s[|s| - 1] == c then Some(|s| - 1)
    else FindLast(s[..|s| - 1], c)
  }

  /** No "]" comes after any "[": the bracket pattern finds no list. */
  predicate NoBracketPair(content: string)
  {
    forall i, j :: 0 <= i < j < |content| && content[i] == '[' ==> content[j] != ']'
  }

  /** The first group of `re.findall(r"\[(.*)\]", content, re.DOTALL)`: the
      text between the first "[" and the last "]" after it, or nothing when
      no "]" follows a "[". */
  function BracketBody(content: string): (r: Option<string>)
    ensures r.Some? ==> forall x :: Count(r.value, x) <= Count(content, x)
    ensures r == None <==> NoBracketPair(content)
  {
    match FindFrom(content, '[', 0)
    case None => None
    case Some(i) =>
      match FindLast(content, ']')
      case None => None
      case Some(j) =>
        if i < j then
          assert forall x :: Count(content[i + 1..j], x) <= Count(content, x) by {
            forall x { CountSlice(content, i + 1, j, x); }
          }
          Some(content[i + 1..j])
        else None
  }

  /** `re.findall(r"\"(.*?)\"", body)`: the texts between successive pairs
      of double quotes, so at most half as many items as quotes; an unpaired
      last quote is ignored. Without DOTALL the
      dot does not match a newline, so a quote whose text up to the next quote
      holds a newline opens no match, and the search resumes at that next
      quote. */
  function Quoted(body: string): (r: seq<string>)
    ensures forall item :: item in r ==> '"' !in item && '\n' !in item
    ensures 2 * |r| <= Count(body, '"')
    decreases |body|
  {
    match FindFrom(body, '"', 0)
    case None => []
    case Some(i) =>
      match FindFrom(body, '"', i + 1)
      case None => []
      case Some(j) =>
        OneQuoteBefore(body, i);
        if '\n' in body[i + 1..j] then Quoted(body[i + 1..])
        else
          TwoQuotesBefore(body, i, j);
          [body[i + 1..j]] + Quoted(body[j + 1..])
  }

  /** When the first two quotes of `s` sit at `i` and `j`, the text after the
      second holds two quotes fewer. */
  lemma TwoQuotesBefore(s: string, i: nat, j: nat)
    requires i < j < |s| && s[i] == '"' && s[j] == '"'
    requires forall k :: 0 <= k < i ==> s[k] != '"'
    requires forall k :: i + 1 <= k < j ==> s[k] != '"'
    ensures Count(s, '"') == Count(s[j + 1..], '"') + 2
  {
    OneQuoteBefore(s, i);
    var t := s[i + 1..];
    assert s[j + 1..] == t[j - i..];
    OneQuoteBefore(t, j - i - 1);
  }

  /** When the first quote of `s` sits at `i`, the text after it holds one
      quote fewer. */
  lemma OneQuoteBefore(s: string, i: nat)
    requires i < |s| && s[i] == '"'
    requires forall k :: 0 <= k < i ==> s[k] != '"'
    ensures Count(s, '"') == Count(s[i + 1..], '"') + 1
  {
    assert s == (s[..i] + [s[i]]) + s[i + 1..];
    CountNone(s[..i], '"');
    CountSnoc(s[..i], s[i], '"');
    CountAppend(s[..i] + [s[i]], s[i + 1..], '"');
  }

  /** A list of strings written out as a JSON array body: each item between
      double quotes, the items separated by `sep` (", " for `json.dumps`). */
  function QuoteList(items: seq<string>, sep: string): string
  {
    if items == [] then ""
    else "\"" + items[0] + "\"" + (if |items| == 1 then "" else sep + QuoteList(items[1..], sep))
  }

  /** Text without a quote holds no quoted item. */
  lemma QuotedNone(s: string)
    requires '"' !in s
    ensures Quoted(s) == []
  {
  }

  /** After quote-free text, a quoted item free of newlines is read as the
      next item, and the search resumes after its closing quote. */
  lemma QuotedStep(p: string, a: string, rest: string)
    requires '"' !in p && '"' !in a && '\n' !in a
    ensures Quoted(p + "\"" + a + "\"" + rest) == [a] + Quoted(rest)
  {
    var s := p + "\"" + a + "\"" + rest;
    var i, j := |p|, |p| + 1 + |a|;
    assert s[i] == '"' && s[j] == '"';
    assert forall k :: 0 <= k < i ==> s[k] == p[k];
    assert forall k :: i + 1 <= k < j ==> s[k] == a[k - i - 1];
    assert FindFrom(s, '"', 0) == Some(i);
    assert FindFrom(s, '"', i + 1) == Some(j);
    assert s[i + 1..j] == a;
    assert s[j + 1..] == rest;
  }

  /** Read-back: the quoted items of a written-out list are the list itself,
      whatever quote-free text precedes it. */
  lemma {:induction false} QuotedReadsBackAfter(p: string, items: seq<string>, sep: string)
    requires '"' !in p && '"' !in sep
    requires forall item :: item in items ==> '"' !in item && '\n' !in item
    ensures Quoted(p + QuoteList(items, sep)) == items
    decreases |items|
  {
    if items == [] {
      assert p + QuoteList(items, sep) == p;
      QuotedNone(p);
    } else {
      var tail := if |items| == 1 then "" else sep + QuoteList(items[1..], sep);
      assert p + QuoteList(items, sep) == p + "\"" + items[0] + "\"" + tail;
      QuotedStep(p, items[0], tail);
      if |items| == 1 {
        QuotedNone(tail);
      } else {
        QuotedReadsBackAfter(sep, items[1..], sep);
        assert [items[0]] + items[1..] == items;
      }
    }
  }

  /** `re.findall` of the quote pattern reads a written-out list back. */
  lemma QuotedReadsBack(items: seq<string>, sep: string)
    requires '"' !in sep
    requires forall item :: item in items ==> '"' !in item && '\n' !in item
    ensures Quoted(QuoteList(items, sep)) == items
  {
    assert "" + QuoteList(items, sep) == QuoteList(items, sep);
    QuotedReadsBackAfter("", items, sep);
  }

  /** `[clean_text(item) for item in items if item]` */
  function CleanItems(items: seq<string>): (r: seq<string>)
    ensures |r| <= |items|
    ensures forall c :: c in r ==> Normalized(c)
    ensures forall c :: c in r ==> exists item :: item in items && item != [] && c == CleanText(item)
  {
    if items == [] then []
    else (if items[0] != [] then [CleanText(items[0])] else []) + CleanItems(items[1..])
  }

  /** `_ollama_extract` once the reply is in (`ruleBased` is
      `_rule_based_extract(text)`): with no bracketed list in the reply the
      rule-based claims; otherwise the quoted items that are non-empty before
      cleaning, cleaned, at most one per pair of quotes in the reply. A
      missing "response" field reads as "[]" and so gives no claims, not the
      rule-based ones. */
  function OllamaExtract(text: string, response: Option<string>, ruleBased: seq<string>): (r: seq<string>)
    requires ruleBased == PyPrefix(Candidates(SplitSentences(text)), MaxClaims)
    ensures forall c :: c in r ==> Normalized(c)
    ensures var content := if response.Some? then response.value else "[]";
      && (NoBracketPair(content) ==> r == ruleBased)
      && (!NoBracketPair(content) ==> 2 * |r| <= Count(content, '"'))
      && (!NoBracketPair(content) ==> forall c :: c in r ==>
            exists item :: item != [] && '"' !in item && '\n' !in item && c == CleanText(item))
    ensures response == None ==> r == []
  {
    var content := if response.Some? then response.value else "[]";
    match BracketBody(content)
    case None => ruleBased
    case Some(body) =>
      assert response == None ==> Count(content, '"') == 0 by {
        CountNone("[]", '"');
      }
      CleanItems(Quoted(body))
  }

  /** A reply holding a list of strings, with any text around it that opens
      no other bracket before it and closes none after it, yields that list:
      its non-empty items, cleaned, in order, and the items themselves when
      they are already non-empty cleaned text. */
  lemma OllamaReadsList(text: string, pre: string, items: seq<string>, sep: string, post: string,
                        ruleBased: seq<string>)
    requires ruleBased == PyPrefix(Candidates(SplitSentences(text)), MaxClaims)
    requires '[' !in pre && ']' !in post && '"' !in sep
    requires forall item :: item in items ==> '"' !in item && '\n' !in item
    ensures var r := OllamaExtract(text, Some(pre + "[" + QuoteList(items, sep) + "]" + post), ruleBased);
      && r == CleanItems(items)
      && ((forall item :: item in items ==> item != [] && Normalized(item)) ==> r == items)
  {
    BracketBodyAround(pre, QuoteList(items, sep), post);
    QuotedReadsBack(items, sep);
    if forall item :: item in items ==> item != [] && Normalized(item) {
      CleanItemsOfClean(items);
    }
  }

  /** The bracket pattern finds the text between a "[" preceded by no other
      "[" and a "]" followed by no other "]". */
  lemma BracketBodyAround(pre: string, q: string, post: string)
    requires '[' !in pre && ']' !in post
    ensures BracketBody(pre + "[" + q + "]" + post) == Some(q)
  {
    var content := pre + "[" + q + "]" + post;
    var i, j := |pre|, |pre| + 1 + |q|;
    assert content[i] == '[' && content[j] == ']';
    assert forall k :: 0 <= k < i ==> content[k] == pre[k];
    assert FindFrom(content, '[', 0) == Some(i);
    assert forall k :: j < k < |content| ==> content[k] == post[k - j - 1];
    assert FindLast(content, ']') == Some(j);
    assert content[i + 1..j] == q;
  }

  /** Cleaning non-empty cleaned items changes nothing. */
  lemma {:induction false} CleanItemsOfClean(items: seq<string>)
    requires forall item :: item in items ==> item != [] && Normalized(item)
    ensures CleanItems(items) == items
  {
    if items != [] {
      var rest := items[1..];
      assert [items[0]] + rest == items;
      assert forall item :: item in rest ==> item in items;
      CleanItemsOfClean(rest);
      assert CleanItems(items) == [CleanText(items[0])] + CleanItems(rest);
      CleanTextFixesNormalized(items[0]);
    }
  }

  /** `extract_claims`: the rule-based claims (`ruleBased`, which is
      `RuleBasedExtract(text)`) unless Ollama is on and its call succeeds. */
  function ExtractClaims(text: string, useOllama: bool, reply: OllamaReply, ruleBased: seq<string>): (r: seq<string>)
    requires ruleBased == PyPrefix(Candidates(SplitSentences(text)), MaxClaims)
    ensures !useOllama || reply.OllamaFailed? ==> r == ruleBased
    ensures useOllama && reply.OllamaReplied? ==> r == OllamaExtract(text, reply.response, ruleBased)
    ensures forall c :: c in r ==> Normalized(c)
  {
    if useOllama && reply.OllamaReplied? then OllamaExtract(text, reply.response, ruleBased) else ruleBased
  }
}
