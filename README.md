# Claim memory and evolution engine — a Dafny model

This project models the core of Concolve, a misinformation-tracking service.
Concolve keeps canonical *claims* in a vector store and keeps a ledger of
*sources*, *claim links*, *events* and *agent progress* in SQLite.

Text and memes are ingested in five steps:
1. The text is split into chunks.
2. Claims are extracted by rules, or by a local LLM with the rules as fallback.
3. Each claim is merged into its best match or created.
4. The evidence snippets are scored by a stance classifier.
5. Each snippet moves the claim's confidence by a fixed step.

A decay sweep pulls stale claims toward the neutral confidence 0.5. A claim-evolution
agent, run by an orchestrator that keeps a watermark, recomputes four values per claim:
- trend;
- contradiction ratio;
- meme-variant count;
- volatility.

From these it derives an alert level, disputes claims that are contradicted enough, and
logs five independent change events.

The Streamlit front end adds the following pieces:
- a corpus verdict over retrieved evidence;
- a prompt builder for the deduction LLM;
- the folding of the LLM's streamed reply.

**How the stores are modelled.** Both stores are objects whose fields the operations
reassign.
- `Stores.Database` holds the four SQLite tables:
  - `sources`, as a map keyed by source id;
  - `claim_links` and `events`, as sequences in insertion order;
  - `agent_state`, as a map keyed by agent name. `_init_db` does not create this table (storage/agent_state.py creates it); the model assumes it exists.
- `Stores.VectorStore` holds the three Qdrant collections (`claims`, `evidence`, `media`)
  as maps from point id to a typed payload.

**How outside inputs are modelled.** Everything the code gets from outside is a
parameter:
- The clock is `now`, an integer timestamp in seconds.
- `uuid4` is `uuid: nat -> string`, indexed by a counter.
- Vector search is a ranked list of `(id, score)`.
- The stance classifier is a function.
- The outcome of an Ollama request is a datatype.
- JSON encoding and decoding are function parameters.

Confidences, ratios and scores are `real`.

**Module layout.** One Dafny module per source file, plus four shared modules:
- `Wrappers`: Option and Result;
- `SeqUtils`: sequence helpers;
- `PyStr`: Python's `in` on strings and ASCII `lower()`;
- `Stores`: the two store classes.

## Model

| member | source | states |
|---|---|---|
| Schemas.ClaimWithDefaults | core/schemas.py:5-26 | a claim built from the required fields has empty linked-evidence, linked-media, entity and topic lists, trend/ratio/volatility 0.0, meme variants 0, alert "low", no agent timestamp and no language |
| Schemas.EvidenceWithDefaults | core/schemas.py:29-38 | an evidence snippet built from the required fields has credibility tier "C" and no url |
| Schemas.MediaWithDefaults | core/schemas.py:41-48 | a meme record carries the given phash and linked claim ids and no template cluster |
| Schemas.StanceName | models/stance_classifier.py:13 | every stance is named "support", "contradict" or "mention" |
| Stores.Database.constructor | storage/sqlite.py:17-50 | a fresh ledger has no sources, claim links, events or agent rows; the agent_state table is taken to exist (see ## Left out) |
| Stores.VectorStore.constructor | qdrant_store/collections.py:8-10 | a fresh vector store has empty claims, evidence and media collections |
| CoreUtils.CleanText | core/utils.py:15-17 | the result is normalised (no leading or trailing whitespace, every whitespace character a single space between two words) and has the same words as the input |
| CoreUtils.CleanTextIsJoinedWords | core/utils.py:15-17 | stripping then collapsing whitespace runs equals joining the whitespace-separated words with single spaces |
| CoreUtils.CleanTextIdempotent | core/utils.py:15-17 | cleaning a cleaned text changes nothing |
| CoreUtils.CleanTextFixesNormalized | core/utils.py:15-17 | a text that is already normalised is its own cleaning |
| CoreUtils.CleanTextBlank | core/utils.py:15-17 | the cleaned text is empty exactly when the text is all whitespace |
| CoreUtils.WordsOfJoined | core/utils.py:15-17 | splitting a single-space join of words gives those words back |
| CoreUtils.SplitSentences | core/utils.py:21 | the split yields at least one piece, and every piece but the last is non-empty and ends in ".", "!" or "?" |
| CoreUtils.ChunkText | core/utils.py:20-35 | the sentence groups concatenate back to the split sentences (order kept, each sentence once); a group of two or more sentences fits in max_chars, and a group is closed only when the next sentence would push it over; the chunks are the cleaned non-blank joins of the groups, so none is empty |
| CoreUtils.GreedyFlush | core/utils.py:26-29 | closing the current group because the next sentence does not fit keeps the greedy grouping property |
| CoreUtils.GreedyExtend | core/utils.py:30-32 | adding a sentence that fits to a non-empty group keeps the greedy grouping property |
| CoreUtils.PackClose | core/utils.py:33-34 | when the loop ends, flushing the last buffer gives groups that concatenate to all sentences and whose joins are the chunks collected |
| CoreUtils.UniqList | core/utils.py:38-45 | the loop with its seen set returns exactly the first-occurrence dedup of the input |
| CoreUtils.DedupElements | core/utils.py:38-45 | the output has no duplicates and holds exactly the input's elements |
| CoreUtils.DedupFirstOccurrenceOrder | core/utils.py:38-45 | output elements appear in the order of their first occurrence in the input |
| CoreUtils.DedupOfDistinct | core/utils.py:38-45 | on a duplicate-free list the dedup is the identity |
| CoreUtils.DedupAppend | core/utils.py:38-45 | appending one item to a duplicate-free list adds it only when it is new |
| AgentUtils.ParseIso | agents/utils.py:14-21 | None or the empty string parse to None |
| AgentUtils.ParseIsoDropsOneZ | agents/utils.py:17-19 | exactly one trailing "Z" is dropped before parsing; text without a trailing "Z" is parsed as is |
| AgentUtils.IsWithinDaysFacts | agents/utils.py:24-32 | a missing or empty timestamp is never within the window; a timestamp within the window is at or after now minus the window; a timestamp within the window stays within it for any earlier now |
| AgentUtils.ChunkList | agents/utils.py:35-45 | the chunks concatenate back to the input, each has 1..size items (size below 1 behaves as 1), and all but the last are full |
| AgentUtils.SafeFloat | agents/utils.py:48-52 | None, lists and objects give the default, as does a string that does not parse; numbers and booleans convert as float() does |
| AgentUtils.SafeInt | agents/utils.py:55-59 | None, lists, objects and unparsable strings give the default; floats truncate toward zero; booleans give 0 or 1 |
| AgentUtils.TruncToZero | agents/utils.py:57 | int() of a float truncates toward zero |
| AgentUtils.ContradictionRatio | agents/utils.py:62-63 | for non-negative counts the ratio lies in [0,1), and it is 0 when there is no contradicting evidence, including when there is none at all |
| AgentUtils.RatioReachesThreshold | agents/utils.py:62-63 | the ratio reaches the 0.6 threshold exactly when 2·contradict > 3·support |
| AgentUtils.VolatilityScore | agents/utils.py:66-69 | the score is in [0,1], 0 for counts ≤ 0, count/5 up to the cap and 1 from the cap of 5 on |
| AgentUtils.VolatilityAlertFromFour | agents/utils.py:66-69 | the score reaches 0.7 exactly when the count is at least 4 |
| AgentUtils.ComputeAlertLevel | agents/utils.py:72-79 | "high" exactly when ratio ≥ 0.6 and trend ≥ 3; "low" exactly when ratio < 0.6, trend < 6 and not (volatility ≥ 0.7 and trend ≥ 2); "medium" otherwise |
| AgentUtils.AlertLevelMonotone | agents/utils.py:72-79 | raising trend, ratio or volatility never lowers the alert level |
| Confidence.Upper | memory/confidence.py:8 | `upper()` maps exactly the ASCII lower-case letters to upper case |
| Confidence.TopTierIsA | memory/confidence.py:8-12 | the tier bonus applies exactly for "A" and "a" |
| Confidence.StanceDelta | memory/confidence.py:5-13 | support gives +0.05 (+0.15 with tier A), contradict gives −0.05 (−0.15 with tier A), any other stance 0 |
| Confidence.Clamp | memory/confidence.py:14 | the result is in [0,1], values inside are kept and values outside go to the nearer bound |
| Confidence.UpdateConfidence | memory/confidence.py:4-15 | the new confidence is in [0,1] for any starting value, and is the clamped sum of the current value and the returned unclamped delta |
| Confidence.NeutralStance | memory/confidence.py:5-14 | any other stance returns the clamped current value and delta 0 |
| Confidence.StanceDirection | memory/confidence.py:6-14 | from a confidence in [0,1], support never lowers it and contradict never raises it |
| Confidence.DeltaIsChangeUnlessClamped | memory/confidence.py:14-15 | the returned delta equals the real change exactly when no clamping happened |
| Confidence.DeltaAtTheBound | memory/confidence.py:14-15 | at 1.0 a support returns delta 0.05 with no change, and at 0.0 a tier "a" contradict returns −0.15 with no change |
| Decay.Decayed | memory/decay.py:20 | the new confidence minus 0.5 is 0.9 times the old one minus 0.5 |
| Decay.DecayedFacts | memory/decay.py:20 | decay moves toward 0.5 without overshooting, keeps values in [0,1] inside it, and fixes exactly 0.5 |
| Decay.DecayedNDistance | memory/decay.py:20 | n sweeps leave 0.9ⁿ of the distance to 0.5 |
| Decay.DecayedClaim | memory/decay.py:21-25 | only the confidence field of the claim changes |
| Decay.DecayOne | memory/decay.py:17-27 | a claim is stale exactly when its last-seen time is before the cutoff now − decay_days; a stale claim is decayed and gets one "decay" event, and anything else is left alone |
| Decay.ApplyDecay | memory/decay.py:9-31 | exactly the stale claims are decayed, every other claim is unchanged, one "decay" event per decayed claim is appended with delta new − current, and the return value is the number of decayed claims |
| Events.LogEvent | memory/events.py:7-24 | exactly one row (now, claim id, type, delta, reason, source id) is appended, and no earlier row changes |
| Events.AppendCounts | memory/events.py:15-24 | an append adds one to the count of its own event type only and keeps the earlier rows |
| Events.BindLogEvent | memory/events.py:7-13 | a call binds exactly when it has at most five positionals, its keywords are distinct parameters not already given positionally, and every required parameter is given; as in CPython, a keyword error is reported before too many positionals |
| Events.BindKeywords | memory/events.py:7-13 | keywords bind with no error exactly when they are distinct parameters none of which is already bound; an error names one of the keywords, as unexpected or as given twice |
| Events.KeywordErrorsFirst | memory/events.py:7-13 | the unknown `agent_name` is reported even with six positionals, and a repeated `source_id` before the unknown keyword after it |
| Events.AgentNameCallRejected | agents/claim_evolution_agent.py:93-99 | the agent's call with four positionals and `agent_name=` fails with an unexpected-keyword error |
| Events.CallWithoutAgentNameBinds | memory/events.py:7-13 | the same call without `agent_name` binds, with source id defaulting, and three positionals are too few |
| Events.LogAgentEvent | agents/claim_evolution_agent.py:93-99 | the agent's logging appends the six-column row with no source id |
| Canonicalize.MergedClaim | memory/canonicalize.py:18-30 | a merge raises mention_count by 1, stamps last_seen_ts with now, sets source_types to the dedup of old + [source_type], and leaves every other field alone |
| Canonicalize.MergedSourceTypes | memory/canonicalize.py:21 | the merged source types contain the new type and every old type, have no duplicates, and keep the old order |
| Canonicalize.CreatedClaimFacts | memory/canonicalize.py:34-54 | a created claim has the new id as canonical id, mention_count 1, source_types [source_type], confidence 0.5, status "unverified", zero counts, alert "low", and first seen = last seen = now |
| Canonicalize.CanonicalizeClaim | memory/canonicalize.py:11-57 | it merges exactly when the search result is non-empty and the top score reaches the threshold; a merge patches the top match and logs one "merge" event with delta 0 and returns (matched id, true); otherwise it upserts the created claim, logs one "create" event and returns (new id, false) |
| AgentState.EncodeExtra | storage/agent_state.py:52-54 | the extra is stored as NULL exactly when it is None; a str is stored verbatim, and any other value JSON-encoded |
| AgentState.DecodeExtra | storage/agent_state.py:30-36 | nothing or an empty string reads as None, decodable JSON as its value, and anything else as the raw string |
| AgentState.GetAgentState | storage/agent_state.py:22-42 | a name with no row gives None; otherwise the row's timestamp and cursor are returned with the extra decoded |
| AgentState.SetAgentState | storage/agent_state.py:45-68 | the upsert replaces the whole row for that name and leaves the other names' rows alone |
| AgentState.SetThenGet | storage/agent_state.py:22-68 | after a set, a get of the same name returns the timestamp and cursor that were set; None reads back as None, and a non-string value reads back as itself through a lossless codec; other names read as before |
| AgentState.TextExtraReadBack | storage/agent_state.py:30-54 | a str extra is stored verbatim and so reads back as None when empty, as its decoded value when it is JSON (the string "123" as the number 123), and raw otherwise |
| EvolutionAgent.LinkedIdsMembers | agents/claim_evolution_agent.py:154-170 | an id is in the working set exactly when some claim link selected by a full scan or by the given sources carries it; outside a full scan empty claim ids are dropped, while a full scan keeps every distinct id |
| EvolutionAgent.NoSourcesNoClaims | agents/claim_evolution_agent.py:159-160 | with no sources and no full scan the working set is empty |
| EvolutionAgent.FetchClaimIds | agents/claim_evolution_agent.py:154-170 | the batched queries return the working set without duplicates |
| EvolutionAgent.TrendCounts | agents/claim_evolution_agent.py:172-189 | each claim's count is the number of distinct sources from the last 7 days linked to it, and 0 when it has none |
| EvolutionAgent.NewLinkTrend | agents/claim_evolution_agent.py:179-183 | a new link from a fresh recent source raises a claim's trend by one; a repeated source or another claim's link does not |
| EvolutionAgent.FillStance | agents/claim_evolution_agent.py:211-215 | only a missing stance is filled (by the classifier, when the claim text is non-empty), and the stance that is counted is the same before and after |
| EvolutionAgent.FillStanceIdempotent | agents/claim_evolution_agent.py:211-215 | filling twice is filling once, and a stored stance is never overwritten |
| EvolutionAgent.FillKeepsCounts | agents/claim_evolution_agent.py:207-219 | writing the filled stances back does not change a later count |
| EvolutionAgent.ScanSnippet | agents/claim_evolution_agent.py:207-219 | one scrolled snippet yields its stance when it is in the 30-day window and nothing otherwise, and its stance is written back when missing |
| EvolutionAgent.EvidenceStanceCounts | agents/claim_evolution_agent.py:191-223 | the result is the number of in-window snippets of the claim that support and that contradict it, and the evidence store afterwards is the old one with the missing stances filled |
| EvolutionAgent.VariantKeysBounds | agents/claim_evolution_agent.py:225-239 | the meme-variant count is at most the number of linked media, at least 1 when there is any, and 1 when every linked media shares one phash |
| EvolutionAgent.MemeVariantCount | agents/claim_evolution_agent.py:225-239 | the count is the number of distinct keys, where the key is the phash, or the media id when the point or its phash is missing |
| EvolutionAgent.VolCountAppend | agents/claim_evolution_agent.py:241-251 | the confidence/decay event count over a split ledger is the sum of the parts |
| EvolutionAgent.VolCountIgnores | agents/claim_evolution_agent.py:245-247 | events of other claims or other types do not count toward volatility |
| EvolutionAgent.Derive | agents/claim_evolution_agent.py:72-80 | trend, ratio, volatility and alert are computed from the claim's counts by the pure rules |
| EvolutionAgent.EvolveWrites | agents/claim_evolution_agent.py:82-142 | the patch writes the four metrics, the alert and the agent timestamp; status is only ever set to disputed, a disputed claim stays disputed, and status is disputed afterwards exactly when it was before or 2·contradict > 3·support; nothing else changes |
| EvolutionAgent.EvolveEvents | agents/claim_evolution_agent.py:91-140 | at most five events are logged per claim, all stamped now, for that claim and of agent types |
| EvolutionAgent.EvolveChecks | agents/claim_evolution_agent.py:91-140 | reinforce fires exactly when the trend rose, with the rise as a positive delta; volatility exactly on an upward crossing of 0.7 (old < 0.7, four or more events); status update exactly when the claim becomes disputed; trend alert exactly when the alert changed to medium or high |
| EvolutionAgent.EvolveLogged | agents/claim_evolution_agent.py:91-140 | each of the five event types is logged exactly when its own check against the stored value holds, independently of the others |
| EvolutionAgent.ReinforceDelta | agents/claim_evolution_agent.py:91-99 | every reinforce event's delta is the trend increase and is positive |
| EvolutionAgent.EvolveSteady | agents/claim_evolution_agent.py:91-140 | when the stored metrics and alert already equal the new ones, no reinforce, shift, trend-alert or volatility event is logged |
| EvolutionAgent.EvolveIdempotent | agents/claim_evolution_agent.py:66-150 | re-running on the patched claim with the same counts writes the same claim and logs nothing |
| EvolutionAgent.CountClaim | agents/claim_evolution_agent.py:143-150 | a processed claim adds one to processed and updated, one to the alert counter of its level, one to disputed when it became disputed and one to the volatility flags on a crossing |
| EvolutionAgent.LogChecks | agents/claim_evolution_agent.py:91-140 | the five checks append exactly the specified events in order and return the patch and the disputed/flag outcomes (with the corrected log call, see ## Findings) |
| EvolutionAgent.ProcessClaim | agents/claim_evolution_agent.py:66-150 | a claim id with no stored payload changes nothing; otherwise the claim is patched, its missing stances are filled, its events appended and the summary tallied (with the corrected log call, see ## Findings) |
| EvolutionAgent.EventsOfAreAgentEvents | agents/claim_evolution_agent.py:91-140 | a run logs only the five agent event types |
| EvolutionAgent.FrameVolatility | agents/claim_evolution_agent.py:241-251 | the agent's own events never change a later claim's volatility count |
| EvolutionAgent.DecaySweep | agents/claim_evolution_agent.py:49-57 | the decay run decays exactly the stale claims and then logs one system event carrying their number (with the corrected log call, see ## Findings) |
| EvolutionAgent.Reconcile | agents/claim_evolution_agent.py:59-152 | every claim of the working set is processed once against the state the earlier ones left, and skipped ids leave no trace |
| EvolutionAgent.Run | agents/claim_evolution_agent.py:34-152 | after the optional decay phase, the summary, the claims, the evidence stances and the appended events are those of processing the working set; with no working set nothing but the decay changes (with the corrected log call, see ## Findings) |
| Orchestrator.EarliestExists | agents/orchestrator.py:13-17 | a non-empty set of sources has one with the earliest timestamp |
| Orchestrator.FetchSourcesSince | agents/orchestrator.py:9-18 | exactly the sources newer than the watermark (all of them without one) are returned, once each, in ascending timestamp order |
| Orchestrator.RunClaimEvolutionAgent | agents/orchestrator.py:21-37 | a full scan passes every source in timestamp order, a given list is used unchanged, and otherwise the sources after the saved watermark are passed; the agent's summary is returned and the state row becomes (now, no cursor, the summary) (with the corrected log call, see ## Findings) |
| Orchestrator.NextRunWatermark | agents/orchestrator.py:27-36 | after a run the saved watermark is now, so the next run selects only sources strictly newer than now (with the corrected log call, see ## Findings) |
| Orchestrator.WatermarkNarrows | agents/orchestrator.py:9-18 | a later watermark selects a subset of what an earlier one selects, and no watermark selects every source |
| StanceClassifier.RuleBasedStance | models/stance_classifier.py:16-22 | contradict exactly when the lower-cased snippet contains a contradict term; support exactly when it contains a support term and no contradict term; mention otherwise |
| StanceClassifier.RuleBasedDebunk | models/stance_classifier.py:16-22 | "debunk" anywhere gives contradict, and the claim text never matters |
| StanceClassifier.OllamaStance | models/stance_classifier.py:37-45 | an exact stance word is returned as is; otherwise contradict/refute/deny is checked before support/confirm/verify, and anything else is mention |
| StanceClassifier.OllamaMissingResponse | models/stance_classifier.py:38 | a reply without "response" is mention |
| StanceClassifier.OneHot | models/stance_classifier.py:97-98 | the chosen stance scores 1.0 and the others 0.0 |
| StanceClassifier.LabelStance | models/stance_classifier.py:58-64 | a label containing "entail" maps to support, else "contrad" to contradict, else "neutral" to mention, case-insensitively |
| StanceClassifier.NormalizeNliScores | models/stance_classifier.py:55-67 | the loop returns the specified scores: the last matching item of each stance wins, and mention is 1.0 when all are zero |
| StanceClassifier.NliScoresLastWins | models/stance_classifier.py:57-64 | a later item overwrites only the score of its own stance |
| StanceClassifier.NliScoresEmpty | models/stance_classifier.py:65-66 | no items give scores (0, 0, 1) |
| StanceClassifier.ArgMax | models/stance_classifier.py:87 | the chosen stance has the highest score, with ties going to the earlier key |
| StanceClassifier.ClassifyStanceWithScores | models/stance_classifier.py:91-111 | blank snippet or claim gives mention with one-hot scores; the Ollama and fallback paths give one-hot scores on their stance; a failed Ollama or NLI call falls back to the rules; the NLI path returns the normalised scores and their arg-max |
| StanceClassifier.ClassifyStance | models/stance_classifier.py:114-116 | the stance is that of the scored classification, and mention for blank input |
| StanceClassifier.ScoresAgreeWithStance | models/stance_classifier.py:91-111 | on every path the returned stance has a maximal score and the scores are not all zero |
| ClaimExtractor.Candidates | models/claim_extractor.py:12-19 | every kept sentence is cleaned, at least 15 characters long, and contains a keyword or ends in ".", "!" or "?"; no more than the sentences are kept |
| ClaimExtractor.CandidatesAppend | models/claim_extractor.py:12-19 | the filter works sentence by sentence, so order is kept |
| ClaimExtractor.CandidatesFromSentences | models/claim_extractor.py:10-13 | every claim is the cleaning of one of the split sentences |
| ClaimExtractor.RuleBasedExtract | models/claim_extractor.py:9-20 | the loop returns the first five filtered sentences |
| ClaimExtractor.RuleBasedClaims | models/claim_extractor.py:9-20 | at most five claims are returned, each a cleaned split sentence passing the filter, and all of them when there are no more than five |
| ClaimExtractor.FindLast | models/claim_extractor.py:37 | finds the last occurrence of a character (the greedy end of the bracket match) |
| ClaimExtractor.BracketBody | models/claim_extractor.py:37 | there is no bracketed list exactly when no "]" follows any "["; a list found is part of the reply, so it holds no more of any character than the reply does |
| ClaimExtractor.Quoted | models/claim_extractor.py:40 | there are at most half as many items as quotes, and an item never contains a quote or a newline, since the pattern's dot does not cross a line (that the items are the quoted texts is QuotedReadsBack) |
| ClaimExtractor.QuotedStep | models/claim_extractor.py:40 | after quote-free text, a quoted newline-free text is the next item and the search resumes after its closing quote |
| ClaimExtractor.QuotedReadsBackAfter | models/claim_extractor.py:40 | the items of a list written out as quoted strings with quote-free separators, after any quote-free text, are that list, in order |
| ClaimExtractor.QuotedReadsBack | models/claim_extractor.py:40 | the pattern reads a written-out list of quote- and newline-free strings back exactly, for any quote-free separator such as json.dumps's ", " |
| ClaimExtractor.BracketBodyAround | models/claim_extractor.py:37 | with no "[" before the list's opening bracket and no "]" after its closing one, the bracket pattern's group is exactly the text between them |
| ClaimExtractor.OllamaExtract | models/claim_extractor.py:23-41 | when no "]" follows a "[" in the reply the result is the rule-based claims; otherwise it has at most one item per pair of quotes in the reply, each the cleaning of a text that is non-empty and holds no quote or newline; every result is normalised; a missing "response" field reads as "[]" and gives no claims (which texts they are is OllamaReadsList) |
| ClaimExtractor.OllamaReadsList | models/claim_extractor.py:36-41 | a reply holding a JSON-style list of quote- and newline-free strings, with no other "[" before it and no "]" after it, yields exactly that list's non-empty items, cleaned, in order, and the list itself when its items are already non-empty cleaned text |
| ClaimExtractor.CleanItemsOfClean | models/claim_extractor.py:41 | the cleaning comprehension leaves a list of non-empty cleaned items unchanged |
| ClaimExtractor.ExtractClaims | models/claim_extractor.py:44-50 | Ollama off or failing gives the rule-based claims; otherwise the Ollama extraction; every claim is normalised text |
| IngestText.InsertOrIgnore | ingestion/ingest_text.py:25-29 | re-ingesting a known source keeps its original row; a new source gets the given row |
| IngestText.LinksFor | ingestion/ingest_text.py:38-42 | one (source, claim) link per extracted claim, in order |
| IngestText.MentionLogCounts | ingestion/ingest_text.py:36-44 | the canonicalisation phase logs one merge/create event per claim plus one "reinforce" per merged claim, all with delta 0, and only the reinforce events carry the source id |
| IngestText.LinkClaims | ingestion/ingest_text.py:33-44 | one claim id per candidate; the links, mention events, claims and uuid draws are those of canonicalising each candidate in turn |
| IngestText.LinkOne | ingestion/ingest_text.py:34-44 | one candidate appends exactly one link and its mention events, draws a uuid only when it creates, and touches only its own claim |
| IngestText.RecordSnippet | ingestion/ingest_text.py:48-90 | one (chunk, claim) pair stores one evidence snippet and, for a stored claim, applies the confidence update and logs one "confidence" event |
| IngestText.RecordAll | ingestion/ingest_text.py:46-90 | the nested loops record every (chunk, claim) pair in order, and evidence_added is chunks × claim ids |
| IngestText.RecordFrame | ingestion/ingest_text.py:72-89 | a pair scores only its own claim: confidence via update_confidence with tier "C", support/contradict counters raised by the stance; claim texts never change |
| IngestText.ScoredTally | ingestion/ingest_text.py:75-80 | support_count grows exactly on support and contradict_count exactly on contradict |
| IngestText.RecordChunksTally | ingestion/ingest_text.py:47-89 | a claim's support (contradict) count grows by its number of occurrences in the id list times the number of chunks classified support (contradict) against it |
| IngestText.RecordChunksUntouched | ingestion/ingest_text.py:47-89 | claims not extracted from this text are untouched |
| IngestText.RecordChunksWritten | ingestion/ingest_text.py:52-70 | every evidence point written carries a chunk, an extracted claim id, the classified stance, the source and tier "C" |
| IngestText.RecordChunksRows | ingestion/ingest_text.py:72-90 | one "confidence" event per pair is appended, carrying the delta returned by update_confidence |
| IngestText.ChunkAndExtract | ingestion/ingest_text.py:31-32 | the chunks are the greedy 500-character packing of the text's split sentences, and the candidates are what extract_claims returns for the text |
| IngestText.LinkAndScore | ingestion/ingest_text.py:33-90 | the first loop links one claim id per candidate and the second records every chunk × claim pair on the state it left; the sources table is untouched and evidence_added is the number of chunks times the number of claim ids |
| IngestText.IngestText | ingestion/ingest_text.py:17-92 | the source row is insert-or-ignore, the chunks and candidates are those of chunk_text and extract_claims, linking and scoring happen as above, evidence_added is chunks × claim ids and claims_created is the number of distinct claim ids |
| IngestText.IngestTextEffects | ingestion/ingest_text.py:17-92 | a text ingest appends one link per claim, raises counters per stance hit, writes only well-formed evidence, appends claims + merges + chunks × claims events, and leaves unrelated claims alone |
| IngestMeme.FindDuplicate | ingestion/ingest_meme.py:37-39 | the scan reports a duplicate exactly when some hit's payload has the same phash |
| IngestMeme.DuplicateWithinTop | ingestion/ingest_meme.py:31-39 | only the top three hits are compared |
| IngestMeme.WithMediaFacts | ingestion/ingest_meme.py:83 | the new linked_media_ids contains the media id and the old ids, has no duplicates, and nothing else in the claim changes |
| IngestMeme.WithMediaIdempotent | ingestion/ingest_meme.py:83 | linking the same media twice is linking it once |
| IngestMeme.WithMediaKeeps | ingestion/ingest_meme.py:83 | on a duplicate-free list an already linked id changes nothing and a new one is appended |
| IngestMeme.AttachMediaAll | ingestion/ingest_meme.py:77-84 | the loop links the media to exactly the extracted claims |
| IngestMeme.ExtractMemeClaims | ingestion/ingest_meme.py:47 | claims are extracted from the OCR text |
| IngestMeme.AttachMeme | ingestion/ingest_meme.py:61-84 | the media record carries the linked claim ids in extraction order and every linked claim gets the media id |
| IngestMeme.StoreMeme | ingestion/ingest_meme.py:41-84 | a non-duplicate meme inserts its source, canonicalises and links its claims, stores the media record and attaches it to the claims |
| IngestMeme.RunForSource | ingestion/ingest_meme.py:86 | the evolution agent is run on exactly [path] with no full scan, and its state row is updated |
| IngestMeme.IngestMeme | ingestion/ingest_meme.py:20-87 | a duplicate within the top three hits returns (0 ingested, 1 deduped) and writes nothing; otherwise it stores the meme, then runs the agent on [path] after all writes, and returns (1, 0) (with the corrected log call, see ## Findings) |
| IngestMeme.AttachedClaims | ingestion/ingest_meme.py:77-84 | every linked claim holds the media id without duplicates, and other claims are untouched |
| IngestMeme.LinkedAreSelected | ingestion/ingest_meme.py:55-86 | every non-empty claim linked by this meme is re-evaluated by the agent run |
| IngestMeme.MemeEffects | ingestion/ingest_meme.py:20-87 | after a stored meme the media record lists the claims, each claim lists the media, the agent sees every linked claim, and unrelated claims are unchanged before the agent runs |
| LlmReasoner.CleanSnippet | models/llm_reasoner.py:9-11 | the snippet has at most max_chars characters and no newline |
| LlmReasoner.CleanSnippetPrefix | models/llm_reasoner.py:9-11 | the snippet is the first max_chars characters of the cleaned text, so its only whitespace is single inner spaces |
| LlmReasoner.SplitJoinLines | models/llm_reasoner.py:22-41 | lines without newlines joined by "\n" split back into the same lines |
| LlmReasoner.ClaimLines | models/llm_reasoner.py:14-22 | no rows give ["- none"]; otherwise one line per row among the first max_claims |
| LlmReasoner.FormatClaims | models/llm_reasoner.py:14-22 | the loop returns the claim lines joined by newlines |
| LlmReasoner.ClaimBlockLines | models/llm_reasoner.py:14-22 | the claims block reads back as 1..max_claims lines, each a single "- " item line |
| LlmReasoner.SortByScoreFacts | models/llm_reasoner.py:28-31 | the sort is descending by score, a permutation, and stable among equal scores |
| LlmReasoner.ItemLines | models/llm_reasoner.py:37-40 | the loop emits one "- snippet (source=…)" line per row |
| LlmReasoner.SectionLines | models/llm_reasoner.py:28-40 | one stance's section is its title line and the lines of its shown rows, or "- none" |
| LlmReasoner.FormatEvidence | models/llm_reasoner.py:25-41 | the loop returns the three sections joined by newlines |
| LlmReasoner.EvidenceLayout | models/llm_reasoner.py:25-41 | the sections come in the order Support, Contradict, Mention, each opening with its title; a section shows "- none" exactly when it has no rows to show, and otherwise one line per shown row |
| LlmReasoner.ShownAreHighest | models/llm_reasoner.py:28-32 | at most max_per_stance rows are shown, highest score first, drawn from that stance's rows, and no left-out row scores above a shown one |
| LlmReasoner.EvidenceBlockLines | models/llm_reasoner.py:25-41 | the evidence block reads back line by line as the section lines |
| LlmReasoner.BuildDeductionPrompt | models/llm_reasoner.py:44-61 | the prompt is the fixed frame around the query, the claims block (at most 5 rows) and the evidence block (at most 3 per stance) |
| LlmReasoner.PromptCarries | models/llm_reasoner.py:51-61 | the prompt starts with the instructions and the query, ends with the answer format, and contains both blocks |
| LlmReasoner.Collect | models/llm_reasoner.py:89-102 | only truthy "response" values are collected |
| LlmReasoner.CollectSkips | models/llm_reasoner.py:92-97 | a blank or non-JSON line anywhere in the stream changes nothing |
| LlmReasoner.CollectStopsAtDone | models/llm_reasoner.py:101-102 | nothing after the first line with done set is read |
| LlmReasoner.FoldStream | models/llm_reasoner.py:89-103 | the streaming loop collects exactly the chunks of the reference fold |
| LlmReasoner.DeductionOf | models/llm_reasoner.py:64-119 | status is "disabled" exactly when Ollama is off, is always one of disabled/ok/error, and an ok reply is never empty (an empty text becomes "No response from Ollama."); this is the intended reading, see ## Findings |
| LlmReasoner.DeductionAsWritten | models/llm_reasoner.py:64-119 | as written, with Ollama on the status is always "error" carrying the missing-attribute message, and never "ok" |
| LlmReasoner.AttributeErrorHidesReply | models/llm_reasoner.py:73-81 | a reply the intended code reads as "ok" is reported as the attribute error by the code as written |
| LlmReasoner.GenerateDeduction | models/llm_reasoner.py:64-119 | with Ollama off no prompt is built; otherwise the built prompt is the deduction prompt and the result is the folded reply |
| PyStr.Lower | streamlit_app.py:141 | lower-casing maps exactly the ASCII capitals and keeps the length |
| PyStr.LowerIdempotent | streamlit_app.py:141 | a lowered string has no capitals and lowering it again changes nothing |
| StreamlitApp.BeforeSpace | streamlit_app.py:148 | `split(" ", 1)[0]` is the longest prefix without a space |
| StreamlitApp.NormalizeOllamaWord | streamlit_app.py:137-148 | the result is empty exactly when the text is blank |
| StreamlitApp.NormalizeOllamaWordCases | streamlit_app.py:137-148 | for non-blank text, "support" in the lowered cleaned text wins, then "contradict", then "mention", and otherwise the first word is returned |
| StreamlitApp.NormalizeSupportWord | streamlit_app.py:142-143 | "support" normalises to itself |
| StreamlitApp.NormalizeContradictWord | streamlit_app.py:144-145 | "contradict" normalises to itself |
| StreamlitApp.NormalizeMentionWord | streamlit_app.py:146-147 | "mention" normalises to itself |
| StreamlitApp.NormalizeOllamaWordIdempotent | streamlit_app.py:137-148 | normalising a normalised word changes nothing |
| StreamlitApp.TruncateTextShape | streamlit_app.py:242-246 | a cleaned text that fits is returned as is; otherwise its first limit characters plus "..." |
| StreamlitApp.TruncateTextFitsStable | streamlit_app.py:242-246 | truncating a result that fit changes nothing |
| StreamlitApp.TruncateTextMissing | streamlit_app.py:243 | a missing text and an empty one both give "" |
| StreamlitApp.VerdictLabel | streamlit_app.py:201-214 | "Inconclusive" exactly when support + contradict < 2; otherwise "False (corpus-contradicted)" exactly when contradict > support, "True (corpus-supported)" exactly when support > contradict, and "Mixed" exactly when equal |
| StreamlitApp.Tally.Bump | streamlit_app.py:196 | exactly the chosen stance's count goes up by one |
| StreamlitApp.Verdict.constructor | streamlit_app.py:184-192 | all counts and scores start at zero, with no label |
| StreamlitApp.Verdict.Update | streamlit_app.py:195-198 | the chosen stance's count goes up by one and each score grows by that stance's classifier score |
| StreamlitApp.Verdict.Finalize | streamlit_app.py:201-214 | the label is the verdict rule on the support and contradict counts, and counts and scores are kept |
| StreamlitApp.StanceLists.Append | streamlit_app.py:231-239 | a row is appended to exactly its stance's list |
| StreamlitApp.ConsistentPush | streamlit_app.py:220-239 | pushing an unseen id keeps the evidence lists, the seen set and the counts in step |
| StreamlitApp.SeenListsOnce | streamlit_app.py:220-239 | in a consistent state every evidence id is listed once, the listed ids are exactly the seen set, and the counts add up to the number seen |
| StreamlitApp.Retrieval.constructor | streamlit_app.py:273-275 | retrieval starts with empty stance lists, a fresh zero verdict and an empty seen set |
| StreamlitApp.Retrieval.PushEvidence | streamlit_app.py:220-239 | an id already seen changes nothing; a new id is added to seen, classified once, appended to its stance's list and counted in the verdict; the consistency invariant is kept |

## Left out

- Network and model calls are parameters: Ollama requests, the NLI pipeline, text and image embedders, OCR, perceptual and SHA-256 hashing. The two Streamlit health checks `_check_ollama_status` and `_test_ollama_generate` are left out entirely.
- File reading and `storage/files.py` are not modelled. The text and the OCR output are inputs.
- SQLite transactions (`with conn`, `in_transaction`) are not modelled, nor is the connection singleton or the DDL. Every write is applied at once.
- Qdrant scroll pagination is modelled as a single pass over the collection.
- Vector search is an oracle: a ranked list of (id, score) whose ids exist in the store.
- `update_payload` on a point that does not exist is not modelled. Every patched id is present.
- Timestamps are integers, not ISO strings. The code compares ISO strings lexicographically; the model compares the numbers they stand for.
- Claims are typed records that always carry every field. Every stored claim is written by canonicalisation with all of them except language, entities and topics: the create payload (memory/canonicalize.py:35-54) has no such keys, the model gives them the schema defaults None, [] and [], and nothing reads them. The code's defaults for missing keys are therefore unreachable and not modelled: confidence 0.5 in decay and in text ingest, mention_count 1 in a merge, empty lists, and an empty last_seen_ts.
- Decay.ApplyDecay: the string comparison `last_seen < cutoff` is modelled as an integer comparison with now − decay_days, so malformed timestamp strings are not modelled.
- The order of rows returned by SQL without ORDER BY, and the order of Python sets, are not modelled. EvolutionAgent.FetchClaimIds promises only the set of ids without duplicates.
- Orchestrator.FetchSourcesSince: ties in timestamp may come back in any order.
- Floating point is modelled by `real`. IEEE rounding and `round(..., 4)` are not modelled.
- StreamlitApp.Retrieval.PushEvidence: the score and the stance score are stored unrounded. Payload values are taken as strings, where the code applies `str()` only to the evidence id.
- Float-to-text rendering is not modelled. Event reasons are structured values, and the claim-row score in the prompt is a string input.
- PyStr.Lower: only ASCII letters are lower-cased. Python's full Unicode case mapping is not modelled.
- Confidence.Upper: only ASCII letters are upper-cased. Python's full Unicode case mapping is not modelled.
- AgentUtils.SafeFloat: `float()` and `int()` on strings are parsing parameters. The values are a small JSON datatype, not arbitrary Python objects.
- AgentUtils.ParseIso: `fromisoformat` is a parameter.
- The model uses JSON encode/decode functions as parameters. AgentState.SetThenGet states the read-back of a value only under the hypothesis that decoding inverts encoding.
- The Streamlit pages, `retrieve_by_claim_text` beyond its initial state, `build_trace`, and all of `app/streamlit_app.py` are UI and vector-search glue.
- `agents/scheduler.py` and `agents/base_agent.py` are not part of this model. The scheduler's decay job is the agent's decay phase (EvolutionAgent.DecaySweep).
- Stores.Database.constructor: the model assumes the agent_state table exists and starts empty. `_init_db` (storage/sqlite.py:17-50) does not create it, and `init_agent_state_table` (storage/agent_state.py:7-19) has no caller in these files. On a ledger built by `_init_db` alone, `get_agent_state` (agents/orchestrator.py:27) would raise `sqlite3.OperationalError` before the agent runs; that failure is not modelled.
- `app/streamlit_app.py` imports `reset_db` and selects `events.agent_name`; storage/sqlite.py defines neither. Both belong to the UI, which is not modelled.
- Configuration comes in as parameters: the merge threshold, decay_days, use_ollama and stream. The `stream` parameter of LlmReasoner.DeductionOf stands for `settings.ollama_stream`, which the program's `Settings` (core/config.py) does not define, and neither does it define `ollama_temperature`, `ollama_num_predict` or `ollama_timeout`. The intended behaviour with such settings is what the model proves; the code as written is in ## Findings. Temperature, num_predict and the timeout only shape the HTTP request, which is not modelled.
- StreamlitApp.TruncateTextShape: the converse of "a fitting text is returned unchanged" does not hold. A cleaned text longer than the limit whose first `limit` characters plus "..." equal itself is also returned unchanged. So only the forward direction is stated.
- LlmReasoner.PromptCarries: the prompt's full line layout is not proved to read back. Only the frame and the two blocks' presence are stated; each block's own line layout is proved separately.

## Findings

| source | as written | input that shows it | evidently intended | confidence | as-written member | corrected member |
|---|---|---|---|---|---|---|
| agents/claim_evolution_agent.py:93-99 | the agent (and the scheduler) call `log_event(..., agent_name=self.name)` at lines 51-57, 93-99, 103-109, 113-119, 123-129 and 134-140, but `log_event` (memory/events.py:7-13) has no `agent_name` parameter and the events table (storage/sqlite.py:40-47) has no such column | every call raises `TypeError`. With `run_decay` it raises after `apply_decay()` has committed, so the decay stays and its system event is never written. In the main loop the first claim that logs any event (for instance a claim whose trend rises, as any claim linked to a fresh source does) aborts `run`: that claim's `update_payload` (line 142) is never applied, while the stance backfills already written (line 215) and the earlier claims' patches remain. `run_claim_evolution_agent` (agents/orchestrator.py:35-36) then never reaches `set_agent_state`, so the watermark never advances. `ingest_meme` (ingestion/ingest_meme.py:86) raises after all of its writes for virtually any meme with claims, so its (1, 0) return is unreachable. This reach through the orchestrator assumes the agent_state table exists; without it `get_agent_state` raises first and the agent does nothing (see ## Left out), so the damage inside `run` applies to direct `run` calls | the agent's events are appended as six-column rows with the agent name dropped | not executed | Events.AgentNameCallRejected | Events.LogAgentEvent |
| models/llm_reasoner.py:73-81 | the request payload reads `settings.ollama_stream`, `settings.ollama_temperature`, `settings.ollama_num_predict` and `settings.ollama_timeout`, none of which `Settings` (core/config.py:4-22) defines | any query with `use_ollama` on: the `AttributeError` is raised inside the `try` before any request is sent, and line 118 returns status "error" with the text "'Settings' object has no attribute 'ollama_stream'" | the settings exist and the reply is folded into "ok" or "error" as modelled | not executed | LlmReasoner.DeductionAsWritten | LlmReasoner.DeductionOf |
