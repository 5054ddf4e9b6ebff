/** ingestion/ingest_text.py: a text document becomes a source row, its
    claims are canonicalized and linked to it, and every chunk of the text
    is stored as evidence against every claim, moving the claim's
    confidence and stance counters. Reading the file, the embedder and the
    vector search are collaborators: the text is a parameter, and the search
    is a function of the claims store and the claim text. */
module IngestText {
  import opened Wrappers
  import opened SeqUtils
  import opened Schemas
  import opened Stores
  import opened Events
  import opened Confidence
  import Canonicalize
  import CoreUtils
  import ClaimExtractor

  /** The `max_chars` `chunk_text` uses by default. */
  const ChunkMaxChars: int := 500

  /** The vector search over the claims collection: the ranked hits for a
      claim text, given the current store. */
  type Search = (map<string, Claim>, string) -> seq<Match>

  /** A search only returns stored claims. */
  ghost predicate SearchSound(search: Search)
  {
    forall claims: map<string, Claim>, text: string :: search(claims, text) != [] ==> search(claims, text)[0].id in claims
  }

  /** `INSERT OR IGNORE` on the sources table: a path already present keeps
      its row, timestamp included. */
  function InsertOrIgnore(sources: map<string, Source>, id: string, row: Source): (r: map<string, Source>)
    ensures id in r && r.Keys == sources.Keys + {id}
    ensures id in sources ==> r == sources
    ensures id !in sources ==> r[id] == row && forall k :: k in sources ==> r[k] == sources[k]
  {
    if id in sources then sources else sources[id := row]
  }

  // ---------------------------------------------------------------------------
  // Canonicalizing and linking the extracted claims
  // ---------------------------------------------------------------------------

  /** One `claim_links` row per claim id, in order. */
  function LinksFor(sourceId: string, ids: seq<string>): (r: seq<ClaimLink>)
    ensures |r| == |ids|
    ensures forall i :: 0 <= i < |ids| ==> r[i] == ClaimLink(sourceId, ids[i])
  {
    seq(|ids|, i requires 0 <= i < |ids| => ClaimLink(sourceId, ids[i]))
  }

  /** The ledger rows one extracted claim produces: the canonicalizer's
      "merge" or "create" row, then a "reinforce" row for a merge. */
  function MentionRows(id: string, merged: bool, now: Timestamp, sourceId: string, reason: string): seq<Event>
  {
    if merged then [Event(now, id, "merge", 0.0, Text("claim merged"), None),
                    Event(now, id, "reinforce", 0.0, Text(reason), Some(sourceId))]
    else [Event(now, id, "create", 0.0, Text("new canonical claim"), None)]
  }

  /** The ledger rows of the whole linking loop. */
  function MentionLog(ids: seq<string>, merged: seq<bool>, now: Timestamp, sourceId: string, reason: string): seq<Event>
    requires |ids| == |merged|
  {
    if ids == [] then []
    else MentionLog(ids[..|ids| - 1], merged[..|ids| - 1], now, sourceId, reason)
         + MentionRows(ids[|ids| - 1], merged[|ids| - 1], now, sourceId, reason)
  }

  /** The linking loop leaves one "reinforce" row per merged claim, and one
      "merge" or "create" row per claim. */
  lemma {:induction false} MentionLogCounts(ids: seq<string>, merged: seq<bool>, now: Timestamp, sourceId: string, reason: string)
    requires |ids| == |merged|
    ensures |MentionLog(ids, merged, now, sourceId, reason)| == |ids| + Count(merged, true)
    ensures forall e :: e in MentionLog(ids, merged, now, sourceId, reason) ==>
      e.delta == 0.0 && e.eventType in {"merge", "create", "reinforce"}
      && (e.eventType == "reinforce" <==> e.sourceId == Some(sourceId))
  {
    if ids != [] {
      var n := |ids| - 1;
      MentionLogCounts(ids[..n], merged[..n], now, sourceId, reason);
      assert merged == merged[..n] + [merged[n]];
      CountSnoc(merged[..n], merged[n], true);
    }
  }

  /** The ids of the claims the loop created, in order. */
  function Created(ids: seq<string>, merged: seq<bool>): seq<string>
    requires |ids| == |merged|
  {
    if ids == [] then []
    else Created(ids[..|ids| - 1], merged[..|ids| - 1]) + (if merged[|ids| - 1] then [] else [ids[|ids| - 1]])
  }

  /** The first `n` uuids drawn from `start` on. */
  function Drawn(uuid: nat -> string, start: nat, n: nat): (r: seq<string>)
    ensures |r| == n
  {
    seq(n, j requires 0 <= j < n => uuid(start + j))
  }

  /** The rows the linking loop has added so far: one link per claim id,
      and the canonicalizer's and the "reinforce" rows. */
  ghost predicate LinkedRows(links: seq<ClaimLink>, events: seq<Event>, links0: seq<ClaimLink>, events0: seq<Event>,
                             sourceId: string, reason: string, now: Timestamp, ids: seq<string>, merged: seq<bool>)
  {
    && |ids| == |merged|
    && links == links0 + LinksFor(sourceId, ids)
    && events == events0 + MentionLog(ids, merged, now, sourceId, reason)
  }

  /** The claims store so far: every claim id is stored, no stored claim is
      lost, and claims the loop has not named are as they were. */
  ghost predicate LinkedClaims(claims: map<string, Claim>, claims0: map<string, Claim>, ids: seq<string>)
  {
    && claims0.Keys <= claims.Keys
    && (forall id :: id in ids ==> id in claims)
    && (forall k :: k in claims0 && k !in ids ==> claims[k] == claims0[k])
  }

  /** The uuids so far: the created claims took the uuids drawn, in order. */
  ghost predicate LinkedDrawn(next: nat, next0: nat, uuid: nat -> string, ids: seq<string>, merged: seq<bool>)
  {
    && |ids| == |merged|
    && next == next0 + |Created(ids, merged)|
    && Created(ids, merged) == Drawn(uuid, next0, |Created(ids, merged)|)
  }

  /** State of the linking loop after `ids` have been handled, starting from
      the links, rows and claims `links0`, `events0` and `claims0` and the
      uuid counter `next0`. */
  ghost predicate Linked(links: seq<ClaimLink>, events: seq<Event>, claims: map<string, Claim>, next: nat,
                         links0: seq<ClaimLink>, events0: seq<Event>, claims0: map<string, Claim>, next0: nat,
                         sourceId: string, reason: string, now: Timestamp, uuid: nat -> string,
                         ids: seq<string>, merged: seq<bool>)
  {
    && LinkedRows(links, events, links0, events0, sourceId, reason, now, ids, merged)
    && LinkedClaims(claims, claims0, ids)
    && LinkedDrawn(next, next0, uuid, ids, merged)
  }

  /** The loop over the extracted claims shared by both ingestion paths:
      each claim is canonicalized (with the next uuid as the id a create
      would take), linked to the source, and reinforced when it merged. */
  method LinkClaims(db: Database, vs: VectorStore, sourceId: string, sourceType: string, candidates: seq<string>,
                    search: Search, threshold: real, now: Timestamp, uuid: nat -> string, reason: string, next0: nat)
    returns (claimIds: seq<string>, next: nat, ghost merged: seq<bool>)
    requires SearchSound(search)
    modifies db`claimLinks, db`events, vs`claims
    ensures |claimIds| == |candidates|
    ensures Linked(db.claimLinks, db.events, vs.claims, next, old(db.claimLinks), old(db.events), old(vs.claims), next0,
                   sourceId, reason, now, uuid, claimIds, merged)
  {
    claimIds := [];
    merged := [];
    next := next0;
    for i := 0 to |candidates|
      invariant |claimIds| == i
      invariant Linked(db.claimLinks, db.events, vs.claims, next, old(db.claimLinks), old(db.events), old(vs.claims), next0,
                       sourceId, reason, now, uuid, claimIds, merged)
    {
      ghost var links, events, claims, next1 := db.claimLinks, db.events, vs.claims, next;
      var id, m;
      id, m, next := LinkOne(db, vs, sourceId, sourceType, candidates[i], search, threshold, now, uuid, reason, next);
      LinkedStep(links, events, claims, next1, db.claimLinks, db.events, vs.claims, next,
                 old(db.claimLinks), old(db.events), old(vs.claims), next0, sourceId, reason, now, uuid,
                 claimIds, merged, id, m);
      claimIds := claimIds + [id];
      merged := merged + [m];
    }
  }

  /** The body of the linking loop for one extracted claim. */
  method LinkOne(db: Database, vs: VectorStore, sourceId: string, sourceType: string, candidate: string,
                 search: Search, threshold: real, now: Timestamp, uuid: nat -> string, reason: string, next: nat)
    returns (id: string, merged: bool, next': nat)
    requires SearchSound(search)
    modifies db`claimLinks, db`events, vs`claims
    ensures db.claimLinks == old(db.claimLinks) + [ClaimLink(sourceId, id)]
    ensures db.events == old(db.events) + MentionRows(id, merged, now, sourceId, reason)
    ensures next' == next + (if merged then 0 else 1)
    ensures vs.claims.Keys == old(vs.claims).Keys + {id}
    ensures forall k :: k in old(vs.claims) && k != id ==> vs.claims[k] == old(vs.claims)[k]
    ensures !merged ==> id == uuid(next)
  {
    var matches := search(vs.claims, candidate);
    id, merged := Canonicalize.CanonicalizeClaim(db, vs, candidate, sourceType, matches, threshold, now, uuid(next));
    db.claimLinks := db.claimLinks + [ClaimLink(sourceId, id)];
    next' := next;
    if merged {
      LogEvent(db, now, id, "reinforce", 0.0, Text(reason), Some(sourceId));
    } else {
      next' := next + 1;
    }
  }

  /** One turn of the linking loop keeps its state. */
  lemma LinkedStep(links: seq<ClaimLink>, events: seq<Event>, claims: map<string, Claim>, next: nat,
                   links': seq<ClaimLink>, events': seq<Event>, claims': map<string, Claim>, next': nat,
                   links0: seq<ClaimLink>, events0: seq<Event>, claims0: map<string, Claim>, next0: nat,
                   sourceId: string, reason: string, now: Timestamp, uuid: nat -> string,
                   ids: seq<string>, merged: seq<bool>, id: string, m: bool)
    requires Linked(links, events, claims, next, links0, events0, claims0, next0, sourceId, reason, now, uuid, ids, merged)
    requires links' == links + [ClaimLink(sourceId, id)]
    requires events' == events + MentionRows(id, m, now, sourceId, reason)
    requires next' == next + (if m then 0 else 1)
    requires claims'.Keys == claims.Keys + {id}
    requires forall k :: k in claims && k != id ==> claims'[k] == claims[k]
    requires !m ==> id == uuid(next)
    ensures Linked(links', events', claims', next', links0, events0, claims0, next0, sourceId, reason, now, uuid,
                   ids + [id], merged + [m])
  {
    LinkedRowsStep(links, events, links', events', links0, events0, sourceId, reason, now, ids, merged, id, m);
    LinkedClaimsStep(claims, claims', claims0, ids, id);
    LinkedDrawnStep(next, next', next0, uuid, ids, merged, id, m);
  }

  /** Linking one more candidate keeps the link and event invariant. */
  lemma LinkedRowsStep(links: seq<ClaimLink>, events: seq<Event>, links': seq<ClaimLink>, events': seq<Event>,
                       links0: seq<ClaimLink>, events0: seq<Event>, sourceId: string, reason: string, now: Timestamp,
                       ids: seq<string>, merged: seq<bool>, id: string, m: bool)
    requires LinkedRows(links, events, links0, events0, sourceId, reason, now, ids, merged)
    requires links' == links + [ClaimLink(sourceId, id)]
    requires events' == events + MentionRows(id, m, now, sourceId, reason)
    ensures LinkedRows(links', events', links0, events0, sourceId, reason, now, ids + [id], merged + [m])
  {
    LinksForSnoc(sourceId, ids, id);
    MentionLogSnoc(ids, merged, id, m, now, sourceId, reason);
  }

  /** Linking one more candidate keeps the claims invariant. */
  lemma LinkedClaimsStep(claims: map<string, Claim>, claims': map<string, Claim>, claims0: map<string, Claim>,
                         ids: seq<string>, id: string)
    requires LinkedClaims(claims, claims0, ids)
    requires claims'.Keys == claims.Keys + {id}
    requires forall k :: k in claims && k != id ==> claims'[k] == claims[k]
    ensures LinkedClaims(claims', claims0, ids + [id])
  {
    assert forall x :: x in ids + [id] ==> x in ids || x == id;
  }

  /** Linking one more candidate keeps the uuid-draw invariant. */
  lemma LinkedDrawnStep(next: nat, next': nat, next0: nat, uuid: nat -> string, ids: seq<string>, merged: seq<bool>,
                        id: string, m: bool)
    requires LinkedDrawn(next, next0, uuid, ids, merged)
    requires next' == next + (if m then 0 else 1)
    requires !m ==> id == uuid(next)
    ensures LinkedDrawn(next', next0, uuid, ids + [id], merged + [m])
  {
    var ids', merged' := ids + [id], merged + [m];
    assert Created(ids', merged') == Created(ids, merged) + (if m then [] else [id]) by {
      assert ids'[..|ids|] == ids && merged'[..|ids|] == merged;
    }
    if !m {
      var c := |Created(ids, merged)|;
      assert Drawn(uuid, next0, c + 1) == Drawn(uuid, next0, c) + [uuid(next0 + c)];
    }
  }

  /** One more claim id appends one link. */
  lemma LinksForSnoc(sourceId: string, ids: seq<string>, id: string)
    ensures LinksFor(sourceId, ids + [id]) == LinksFor(sourceId, ids) + [ClaimLink(sourceId, id)]
  {
  }

  /** One more claim id appends its mention events. */
  lemma MentionLogSnoc(ids: seq<string>, merged: seq<bool>, id: string, m: bool, now: Timestamp, sourceId: string, reason: string)
    requires |ids| == |merged|
    ensures MentionLog(ids + [id], merged + [m], now, sourceId, reason)
      == MentionLog(ids, merged, now, sourceId, reason) + MentionRows(id, m, now, sourceId, reason)
  {
    assert (ids + [id])[..|ids|] == ids && (merged + [m])[..|ids|] == merged;
  }

  // ---------------------------------------------------------------------------
  // Scoring every chunk against every claim
  // ---------------------------------------------------------------------------

  /** What the scoring loop reads and writes: the claims and evidence
      collections, the ledger rows, and the uuid counter. */
  datatype Ledger = Ledger(claims: map<string, Claim>, evidence: map<string, Evidence>, events: seq<Event>, next: nat)

  /** What the scoring loop holds fixed: the source, the clock, the uuid
      generator and the stance classifier. */
  datatype Scoring = Scoring(sourceId: string, sourceType: string, now: Timestamp, uuid: nat -> string,
                             classify: (string, string) -> Stance)

  function LedgerOf(db: Database, vs: VectorStore, next: nat): Ledger
    reads db, vs
  {
    Ledger(vs.claims, vs.evidence, db.events, next)
  }

  /** The claim patch for one classified snippet: the tier "C" confidence
      step, and one more support or contradict when that is the stance. */
  function Scored(c: Claim, st: Stance): Claim
  {
    c.(confidence := UpdateConfidence(c.confidence, StanceName(st), "C").0,
       supportCount := c.supportCount + (if st == Support then 1 else 0),
       contradictCount := c.contradictCount + (if st == Contradict then 1 else 0))
  }

  /** The "confidence" row for that patch, carrying the step
      `update_confidence` returns. */
  function ConfidenceRow(sc: Scoring, id: string, current: real, st: Stance): Event
  {
    Event(sc.now, id, "confidence", UpdateConfidence(current, StanceName(st), "C").1,
          Text("stance " + StanceName(st)), Some(sc.sourceId))
  }

  /** One snippet for one claim: the evidence record under a fresh uuid, and
      the claim patch and its row when the claim is stored. */
  function Record(l: Ledger, sc: Scoring, chunk: string, id: string): Ledger
  {
    var eid := sc.uuid(l.next);
    var text := if id in l.claims then l.claims[id].claimText else "";
    var st := sc.classify(chunk, text);
    var l' := l.(evidence := l.evidence[eid := EvidenceWithDefaults(eid, id, chunk, Some(st), sc.sourceId, sc.sourceType, Some(sc.now))],
                 next := l.next + 1);
    if id !in l.claims then l'
    else l'.(claims := l.claims[id := Scored(l.claims[id], st)],
             events := l.events + [ConfidenceRow(sc, id, l.claims[id].confidence, st)])
  }

  /** One chunk against the claims `ids`, in order. */
  function RecordIds(l: Ledger, sc: Scoring, chunk: string, ids: seq<string>): Ledger
  {
    if ids == [] then l else Record(RecordIds(l, sc, chunk, ids[..|ids| - 1]), sc, chunk, ids[|ids| - 1])
  }

  /** Every chunk, in order, against the claims `ids`. */
  function RecordChunks(l: Ledger, sc: Scoring, chunks: seq<string>, ids: seq<string>): Ledger
  {
    if chunks == [] then l else RecordIds(RecordChunks(l, sc, chunks[..|chunks| - 1], ids), sc, chunks[|chunks| - 1], ids)
  }

  /** The body of the inner loop. */
  method RecordSnippet(db: Database, vs: VectorStore, sc: Scoring, chunk: string, id: string, next: nat) returns (next': nat)
    modifies db`events, vs`claims, vs`evidence
    ensures LedgerOf(db, vs, next') == Record(old(LedgerOf(db, vs, next)), sc, chunk, id)
  {
    var present := id in vs.claims;
    var claimText := if present then vs.claims[id].claimText else "";
    var stance := sc.classify(chunk, claimText);
    var evidenceId := sc.uuid(next);
    next' := next + 1;
    vs.evidence := vs.evidence[evidenceId := Evidence(evidenceId, id, chunk, Some(stance), sc.sourceId, sc.sourceType,
                                                      Some(sc.now), None, "C")];
    if present {
      var c := vs.claims[id];
      var step := UpdateConfidence(c.confidence, StanceName(stance), "C");
      var newConf, delta := step.0, step.1;
      var supportCount := c.supportCount + (if StanceName(stance) == "support" then 1 else 0);
      var contradictCount := c.contradictCount + (if StanceName(stance) == "contradict" then 1 else 0);
      vs.claims := vs.claims[id := c.(confidence := newConf, supportCount := supportCount, contradictCount := contradictCount)];
      LogEvent(db, sc.now, id, "confidence", delta, Text("stance " + StanceName(stance)), Some(sc.sourceId));
    }
  }

  /** The inner loop: one chunk against every claim id. */
  method RecordChunk(db: Database, vs: VectorStore, sc: Scoring, chunk: string, ids: seq<string>, next: nat)
    returns (next': nat)
    modifies db`events, vs`claims, vs`evidence
    ensures LedgerOf(db, vs, next') == RecordIds(old(LedgerOf(db, vs, next)), sc, chunk, ids)
  {
    next' := next;
    for k := 0 to |ids|
      invariant LedgerOf(db, vs, next') == RecordIds(old(LedgerOf(db, vs, next)), sc, chunk, ids[..k])
    {
      assert ids[..k + 1][..k] == ids[..k];
      next' := RecordSnippet(db, vs, sc, chunk, ids[k], next');
    }
    assert ids[..|ids|] == ids;
  }

  /** The outer loop: every chunk against every claim id, counting the
      evidence records written. */
  method RecordAll(db: Database, vs: VectorStore, sc: Scoring, chunks: seq<string>, ids: seq<string>, next: nat)
    returns (next': nat, evidenceAdded: nat)
    modifies db`events, vs`claims, vs`evidence
    ensures LedgerOf(db, vs, next') == RecordChunks(old(LedgerOf(db, vs, next)), sc, chunks, ids)
    ensures evidenceAdded == |chunks| * |ids|
  {
    next' := next;
    evidenceAdded := 0;
    for j := 0 to |chunks|
      invariant LedgerOf(db, vs, next') == RecordChunks(old(LedgerOf(db, vs, next)), sc, chunks[..j], ids)
      invariant evidenceAdded == j * |ids|
    {
      assert chunks[..j + 1][..j] == chunks[..j];
      next' := RecordChunk(db, vs, sc, chunks[j], ids, next');
      evidenceAdded := evidenceAdded + |ids|;
    }
    assert chunks[..|chunks|] == chunks;
  }

  // ---------------------------------------------------------------------------
  // What the scoring loop promises
  // ---------------------------------------------------------------------------

  /** The support or contradict counter of a claim. */
  function Tally(c: Claim, st: Stance): int
  {
    if st == Support then c.supportCount else if st == Contradict then c.contradictCount else 0
  }

  /** How many of the chunks the classifier reads as `st` against `text`. */
  function Hits(classify: (string, string) -> Stance, chunks: seq<string>, text: string, st: Stance): nat
  {
    if chunks == [] then 0
    else Hits(classify, chunks[..|chunks| - 1], text, st) + (if classify(chunks[|chunks| - 1], text) == st then 1 else 0)
  }

  /** One snippet leaves the set of claims and their texts alone, patches
      only the claim it is about, and adds one evidence record. */
  lemma RecordFrame(l: Ledger, sc: Scoring, chunk: string, id: string)
    ensures var r := Record(l, sc, chunk, id);
      && r.claims.Keys == l.claims.Keys && r.next == l.next + 1
      && (forall k :: k in l.claims ==> r.claims[k].claimText == l.claims[k].claimText)
      && (forall k :: k in l.claims && k != id ==> r.claims[k] == l.claims[k])
      && (id in l.claims ==> r.claims[id] == Scored(l.claims[id], sc.classify(chunk, l.claims[id].claimText)))
  {
  }

  /** The patch raises the counter of the stance read, and only that one. */
  lemma ScoredTally(c: Claim, s: Stance, st: Stance)
    requires st != Mention
    ensures Tally(Scored(c, s), st) == Tally(c, st) + (if s == st then 1 else 0)
    ensures Scored(c, s).claimText == c.claimText
  {
  }

  /** One snippet for claim `x` raises the counter of claim `id` by one
      exactly when `x` is `id` and the snippet reads as that stance. */
  lemma RecordTally(l: Ledger, sc: Scoring, chunk: string, x: string, id: string, st: Stance)
    requires id in l.claims && st != Mention
    ensures var r := Record(l, sc, chunk, x);
      id in r.claims && r.claims[id].claimText == l.claims[id].claimText
      && Tally(r.claims[id], st) == Tally(l.claims[id], st)
           + (if x == id && sc.classify(chunk, l.claims[id].claimText) == st then 1 else 0)
  {
    RecordFrame(l, sc, chunk, x);
    if x == id {
      ScoredTally(l.claims[id], sc.classify(chunk, l.claims[id].claimText), st);
    }
  }

  /** One snippet for a stored claim appends its one "confidence" row. */
  lemma RecordRow(l: Ledger, sc: Scoring, chunk: string, x: string)
    requires x in l.claims
    ensures var r := Record(l, sc, chunk, x);
      |r.events| == |l.events| + 1 && RowsAfter(l.events, r.events, sc)
  {
    var r := Record(l, sc, chunk, x);
    var row := ConfidenceRow(sc, x, l.claims[x].confidence, sc.classify(chunk, l.claims[x].claimText));
    assert r.events == l.events + [row];
    assert r.events[|l.events|..] == [row];
  }

  /** Claims keep their ids and texts over one chunk. */
  lemma {:induction false} RecordIdsKeys(l: Ledger, sc: Scoring, chunk: string, ids: seq<string>)
    ensures var r := RecordIds(l, sc, chunk, ids);
      && r.claims.Keys == l.claims.Keys
      && forall k :: k in l.claims ==> r.claims[k].claimText == l.claims[k].claimText
  {
    if ids != [] {
      var n := |ids| - 1;
      RecordIdsKeys(l, sc, chunk, ids[..n]);
      RecordFrame(RecordIds(l, sc, chunk, ids[..n]), sc, chunk, ids[n]);
    }
  }

  /** Claims keep their ids and texts over the whole loop. */
  lemma {:induction false} RecordChunksKeys(l: Ledger, sc: Scoring, chunks: seq<string>, ids: seq<string>)
    ensures var r := RecordChunks(l, sc, chunks, ids);
      && r.claims.Keys == l.claims.Keys
      && forall k :: k in l.claims ==> r.claims[k].claimText == l.claims[k].claimText
  {
    if chunks != [] {
      var n := |chunks| - 1;
      RecordChunksKeys(l, sc, chunks[..n], ids);
      RecordIdsKeys(RecordChunks(l, sc, chunks[..n], ids), sc, chunks[n], ids);
    }
  }

  /** Multiplying a successor adds one more factor. */
  lemma MulSucc(a: int, b: int)
    ensures (a + 1) * b == a * b + b
    ensures b * (a + 1) == b * a + b
  {
  }

  /** For one chunk, a claim's counter rises once for each time its id is
      listed, when the chunk reads as that stance against the claim's text. */
  lemma {:induction false} RecordIdsTally(l: Ledger, sc: Scoring, chunk: string, ids: seq<string>, id: string, st: Stance)
    requires id in l.claims && st != Mention
    ensures var r := RecordIds(l, sc, chunk, ids);
      id in r.claims
      && Tally(r.claims[id], st) == Tally(l.claims[id], st)
           + (if sc.classify(chunk, l.claims[id].claimText) == st then Count(ids, id) else 0)
  {
    if ids != [] {
      var n := |ids| - 1;
      RecordIdsTally(l, sc, chunk, ids[..n], id, st);
      RecordIdsKeys(l, sc, chunk, ids[..n]);
      RecordTally(RecordIds(l, sc, chunk, ids[..n]), sc, chunk, ids[n], id, st);
      assert ids == ids[..n] + [ids[n]];
      CountSnoc(ids[..n], ids[n], id);
    }
  }

  /** Over all chunks, a stored claim's support (contradict) counter rises by
      the number of times its id is listed times the number of chunks read
      as support (contradict) against its text. */
  lemma {:induction false} RecordChunksTally(l: Ledger, sc: Scoring, chunks: seq<string>, ids: seq<string>, id: string, st: Stance)
    requires id in l.claims && st != Mention
    ensures var r := RecordChunks(l, sc, chunks, ids);
      id in r.claims
      && Tally(r.claims[id], st) == Tally(l.claims[id], st) + Count(ids, id) * Hits(sc.classify, chunks, l.claims[id].claimText, st)
  {
    if chunks != [] {
      var n := |chunks| - 1;
      var text := l.claims[id].claimText;
      RecordChunksTally(l, sc, chunks[..n], ids, id, st);
      RecordChunksKeys(l, sc, chunks[..n], ids);
      var mid := RecordChunks(l, sc, chunks[..n], ids);
      RecordIdsTally(mid, sc, chunks[n], ids, id, st);
      var h := Hits(sc.classify, chunks[..n], text, st);
      if sc.classify(chunks[n], text) == st {
        assert Hits(sc.classify, chunks, text, st) == h + 1;
        MulSucc(h, Count(ids, id));
      }
    }
  }

  /** Scoring a chunk against other claims leaves a claim untouched. */
  lemma {:induction false} RecordIdsUntouched(l: Ledger, sc: Scoring, chunk: string, ids: seq<string>, k: string)
    requires k in l.claims && k !in ids
    ensures k in RecordIds(l, sc, chunk, ids).claims && RecordIds(l, sc, chunk, ids).claims[k] == l.claims[k]
  {
    if ids != [] {
      var n := |ids| - 1;
      assert k !in ids[..n] by { assert forall x :: x in ids[..n] ==> x in ids; }
      RecordIdsUntouched(l, sc, chunk, ids[..n], k);
      RecordFrame(RecordIds(l, sc, chunk, ids[..n]), sc, chunk, ids[n]);
    }
  }

  /** A claim id that is not scored keeps its record. */
  lemma {:induction false} RecordChunksUntouched(l: Ledger, sc: Scoring, chunks: seq<string>, ids: seq<string>, k: string)
    requires k in l.claims && k !in ids
    ensures k in RecordChunks(l, sc, chunks, ids).claims && RecordChunks(l, sc, chunks, ids).claims[k] == l.claims[k]
  {
    if chunks != [] {
      var n := |chunks| - 1;
      RecordChunksUntouched(l, sc, chunks[..n], ids, k);
      RecordIdsUntouched(RecordChunks(l, sc, chunks[..n], ids), sc, chunks[n], ids, k);
    }
  }

  /** The text a stored claim is classified against; "" when it is missing. */
  function TextOf(claims: map<string, Claim>, id: string): string
  {
    if id in claims then claims[id].claimText else ""
  }

  /** An evidence record the loop writes: tier "C", no url, this source and
      clock, one of the chunks and one of the claim ids, and the stance the
      classifier gives that chunk against the claim's text. */
  predicate Written(e: Evidence, sc: Scoring, chunks: seq<string>, ids: seq<string>, claims: map<string, Claim>)
  {
    && e.credibilityTier == "C" && e.url == None
    && e.sourceId == sc.sourceId && e.sourceType == sc.sourceType && e.timestamp == Some(sc.now)
    && e.snippetText in chunks && e.claimId in ids
    && e.stance == Some(sc.classify(e.snippetText, TextOf(claims, e.claimId)))
  }

  /** An evidence record that is new or replaced. */
  predicate Changed(r: map<string, Evidence>, l: map<string, Evidence>, k: string)
  {
    k in r && (k !in l || r[k] != l[k])
  }

  /** For one chunk, every evidence record written is such a record. */
  lemma {:induction false} RecordIdsWritten(l: Ledger, sc: Scoring, chunk: string, ids: seq<string>)
    ensures var r := RecordIds(l, sc, chunk, ids);
      forall k :: Changed(r.evidence, l.evidence, k) ==> Written(r.evidence[k], sc, [chunk], ids, l.claims)
  {
    if ids != [] {
      var n := |ids| - 1;
      RecordIdsWritten(l, sc, chunk, ids[..n]);
      RecordIdsKeys(l, sc, chunk, ids[..n]);
      var mid := RecordIds(l, sc, chunk, ids[..n]);
      var r := Record(mid, sc, chunk, ids[n]);
      assert TextOf(mid.claims, ids[n]) == TextOf(l.claims, ids[n]);
      assert ids[n] in ids;
      assert forall x :: x in ids[..n] ==> x in ids;
      forall k | Changed(r.evidence, l.evidence, k) ensures Written(r.evidence[k], sc, [chunk], ids, l.claims) {
        if k != sc.uuid(mid.next) {
          assert Changed(mid.evidence, l.evidence, k);
        }
      }
    }
  }

  /** Every evidence record the whole loop writes is such a record. */
  lemma {:induction false} RecordChunksWritten(l: Ledger, sc: Scoring, chunks: seq<string>, ids: seq<string>)
    ensures var r := RecordChunks(l, sc, chunks, ids);
      forall k :: Changed(r.evidence, l.evidence, k) ==> Written(r.evidence[k], sc, chunks, ids, l.claims)
  {
    if chunks != [] {
      var n := |chunks| - 1;
      RecordChunksWritten(l, sc, chunks[..n], ids);
      RecordChunksKeys(l, sc, chunks[..n], ids);
      var mid := RecordChunks(l, sc, chunks[..n], ids);
      RecordIdsWritten(mid, sc, chunks[n], ids);
      var r := RecordChunks(l, sc, chunks, ids);
      assert chunks[n] in chunks;
      assert forall x :: x in chunks[..n] ==> x in chunks;
      assert forall id :: TextOf(mid.claims, id) == TextOf(l.claims, id);
      assert r == RecordIds(mid, sc, chunks[n], ids);
      forall k | Changed(r.evidence, l.evidence, k) ensures Written(r.evidence[k], sc, chunks, ids, l.claims) {
        if Changed(r.evidence, mid.evidence, k) {
          assert Written(r.evidence[k], sc, [chunks[n]], ids, mid.claims);
        } else {
          assert Changed(mid.evidence, l.evidence, k);
          assert Written(mid.evidence[k], sc, chunks[..n], ids, l.claims);
        }
      }
    }
  }

  /** A "confidence" row of this source whose step is one `update_confidence`
      gives at tier "C". */
  predicate IsConfidenceRow(e: Event, sc: Scoring)
  {
    && e.eventType == "confidence" && e.sourceId == Some(sc.sourceId) && e.timestamp == sc.now
    && e.delta in {0.05, -0.05, 0.0}
  }

  /** `r` is `l` followed by "confidence" rows of this source. */
  ghost predicate RowsAfter(l: seq<Event>, r: seq<Event>, sc: Scoring)
  {
    l <= r && forall e :: e in r[|l|..] ==> IsConfidenceRow(e, sc)
  }

  /** Event-row growth composes. */
  lemma RowsAfterTrans(a: seq<Event>, b: seq<Event>, c: seq<Event>, sc: Scoring)
    requires RowsAfter(a, b, sc) && RowsAfter(b, c, sc)
    ensures RowsAfter(a, c, sc)
  {
    assert c[|a|..] == b[|a|..] + c[|b|..];
  }

  /** When every claim id is stored, one chunk appends one "confidence" row
      per claim id and keeps the earlier rows. */
  lemma {:induction false} RecordIdsRows(l: Ledger, sc: Scoring, chunk: string, ids: seq<string>)
    requires forall id :: id in ids ==> id in l.claims
    ensures var r := RecordIds(l, sc, chunk, ids);
      |r.events| == |l.events| + |ids| && RowsAfter(l.events, r.events, sc)
  {
    if ids != [] {
      var n := |ids| - 1;
      assert forall x :: x in ids[..n] ==> x in ids;
      RecordIdsRows(l, sc, chunk, ids[..n]);
      RecordIdsKeys(l, sc, chunk, ids[..n]);
      var mid := RecordIds(l, sc, chunk, ids[..n]);
      assert ids[n] in mid.claims;
      RecordRow(mid, sc, chunk, ids[n]);
      RowsAfterTrans(l.events, mid.events, Record(mid, sc, chunk, ids[n]).events, sc);
    }
  }

  /** When every claim id is stored, the loop appends one "confidence" row
      per (chunk, claim id) pair and keeps the earlier rows; each row
      carries the unclamped tier "C" step of its stance. */
  lemma {:induction false} RecordChunksRows(l: Ledger, sc: Scoring, chunks: seq<string>, ids: seq<string>)
    requires forall id :: id in ids ==> id in l.claims
    ensures var r := RecordChunks(l, sc, chunks, ids);
      |r.events| == |l.events| + |chunks| * |ids| && RowsAfter(l.events, r.events, sc)
  {
    if chunks == [] {
      assert l.events[|l.events|..] == [];
    } else {
      var n := |chunks| - 1;
      RecordChunksRows(l, sc, chunks[..n], ids);
      RecordChunksKeys(l, sc, chunks[..n], ids);
      var mid := RecordChunks(l, sc, chunks[..n], ids);
      RecordIdsRows(mid, sc, chunks[n], ids);
      RowsAfterTrans(l.events, mid.events, RecordIds(mid, sc, chunks[n], ids).events, sc);
      MulSucc(n, |ids|);
    }
  }

  // ---------------------------------------------------------------------------
  // ingest_text
  // ---------------------------------------------------------------------------

  /** What the two loops of `ingest_text` do, from the tables `links0`,
      `events0`, `claims0` and `evidence0` to `links`, `events`, `claims` and
      `evidence`: the linking loop leads to `mid`, from which the scoring
      loop leads to the final state. */
  ghost predicate Ingested(links0: seq<ClaimLink>, events0: seq<Event>, claims0: map<string, Claim>,
                           evidence0: map<string, Evidence>, links: seq<ClaimLink>, events: seq<Event>,
                           claims: map<string, Claim>, evidence: map<string, Evidence>, sc: Scoring,
                           chunks: seq<string>, reason: string, claimIds: seq<string>, merged: seq<bool>, mid: Ledger)
  {
    && Linked(links, mid.events, mid.claims, mid.next, links0, events0, claims0, 0, sc.sourceId, reason, sc.now, sc.uuid,
              claimIds, merged)
    && mid.evidence == evidence0
    && var r := RecordChunks(mid, sc, chunks, claimIds);
       claims == r.claims && evidence == r.evidence && events == r.events
  }

  /** The two loops of `ingest_text` for the extracted `candidates` and the
      `chunks`: link every claim (uuids 0, 1, ... of `uuid` go to the
      created claims), then score every chunk against every claim id (the
      evidence records take the uuids that follow). `mid` is the state
      between the two loops. */
  method LinkAndScore(db: Database, vs: VectorStore, sc: Scoring, candidates: seq<string>, chunks: seq<string>,
                      search: Search, threshold: real, reason: string)
    returns (claimIds: seq<string>, evidenceAdded: nat, ghost merged: seq<bool>, ghost mid: Ledger)
    requires SearchSound(search)
    modifies db`claimLinks, db`events, vs`claims, vs`evidence
    ensures |claimIds| == |candidates|
    ensures db.sources == old(db.sources)
    ensures Ingested(old(db.claimLinks), old(db.events), old(vs.claims), old(vs.evidence), db.claimLinks, db.events,
                     vs.claims, vs.evidence, sc, chunks, reason, claimIds, merged, mid)
    ensures evidenceAdded == |chunks| * |claimIds|
  {
    ghost var evidence0 := vs.evidence;
    var next;
    claimIds, next, merged := LinkClaims(db, vs, sc.sourceId, sc.sourceType, candidates, search, threshold, sc.now, sc.uuid,
                                         reason, 0);
    assert vs.evidence == evidence0;
    mid := LedgerOf(db, vs, next);
    ghost var links1 := db.claimLinks;
    next, evidenceAdded := RecordAll(db, vs, sc, chunks, claimIds, next);
    assert db.claimLinks == links1;
  }

  /** The text's chunks and extracted claims: `chunk_text(text)` with its
      default of 500 characters (through the sentence groups `groups`), and
      `extract_claims(text)`. */
  ghost predicate Prepared(text: string, useOllama: bool, reply: OllamaReply, chunks: seq<string>,
                           groups: seq<seq<string>>, candidates: seq<string>)
  {
    && Flatten(groups) == CoreUtils.SplitSentences(text) && CoreUtils.GreedyGroups(groups, ChunkMaxChars)
    && chunks == CoreUtils.ChunksOf(groups)
    && candidates == ClaimExtractor.ExtractClaims(text, useOllama, reply,
                       PyPrefix(ClaimExtractor.Candidates(CoreUtils.SplitSentences(text)), ClaimExtractor.MaxClaims))
  }

  /** The two preparation steps of `ingest_text`: `chunk_text(text)` and
      `extract_claims(text)`. */
  method ChunkAndExtract(text: string, useOllama: bool, reply: OllamaReply)
    returns (chunks: seq<string>, ghost groups: seq<seq<string>>, candidates: seq<string>)
    ensures Prepared(text, useOllama, reply, chunks, groups, candidates)
  {
    chunks, groups := CoreUtils.ChunkText(text, ChunkMaxChars);
    var ruleBased := ClaimExtractor.RuleBasedExtract(text);
    candidates := ClaimExtractor.ExtractClaims(text, useOllama, reply, ruleBased);
  }

  /** `ingest_text`. The source row is inserted unless the path is already
      known, the text is chunked, and the claims extracted from it are
      linked and scored against every chunk. */
  method IngestText(db: Database, vs: VectorStore, path: string, text: string, sourceType: string, now: Timestamp,
                    textDigest: string, useOllama: bool, reply: OllamaReply, search: Search, threshold: real,
                    uuid: nat -> string, classify: (string, string) -> Stance)
    returns (evidenceAdded: nat, claimsCreated: nat, ghost chunks: seq<string>, ghost groups: seq<seq<string>>,
             ghost candidates: seq<string>, ghost claimIds: seq<string>, ghost merged: seq<bool>, ghost mid: Ledger)
    requires SearchSound(search)
    modifies db`sources, db`claimLinks, db`events, vs`claims, vs`evidence
    ensures db.sources == InsertOrIgnore(old(db.sources), path, Source(sourceType, path, now, None, textDigest))
    ensures Prepared(text, useOllama, reply, chunks, groups, candidates) && |claimIds| == |candidates|
    ensures Ingested(old(db.claimLinks), old(db.events), old(vs.claims), old(vs.evidence), db.claimLinks, db.events,
                     vs.claims, vs.evidence, Scoring(path, sourceType, now, uuid, classify), chunks, "text mention",
                     claimIds, merged, mid)
    ensures evidenceAdded == |chunks| * |claimIds|
    ensures claimsCreated == |ToSet(claimIds)|
  {
    db.sources := InsertOrIgnore(db.sources, path, Source(sourceType, path, now, None, textDigest));
    ghost var sources := db.sources;
    var pieces, claims;
    pieces, groups, claims := ChunkAndExtract(text, useOllama, reply);
    chunks, candidates := pieces, claims;
    var sc := Scoring(path, sourceType, now, uuid, classify);
    var ids;
    ids, evidenceAdded, merged, mid := LinkAndScore(db, vs, sc, claims, pieces, search, threshold, "text mention");
    assert db.sources == sources;
    claimIds := ids;
    claimsCreated := |ToSet(ids)|;
  }

  /** What one ingestion does to the claims it names: every claim id is
      stored; its support and contradict counters rise by the number of
      times it was extracted times the number of chunks read as that stance
      against its text; every evidence record written has tier "C" and the
      classified stance; one "confidence" row is appended per (chunk, claim
      id) pair, after the rows of the linking loop; and claims it does not
      name keep their records. */
  lemma IngestTextEffects(links0: seq<ClaimLink>, events0: seq<Event>, claims0: map<string, Claim>,
                          evidence0: map<string, Evidence>, links: seq<ClaimLink>, events: seq<Event>,
                          claims: map<string, Claim>, evidence: map<string, Evidence>, sc: Scoring,
                          chunks: seq<string>, claimIds: seq<string>, merged: seq<bool>, mid: Ledger)
    requires Ingested(links0, events0, claims0, evidence0, links, events, claims, evidence, sc, chunks, "text mention",
                      claimIds, merged, mid)
    ensures && links == links0 + LinksFor(sc.sourceId, claimIds)
            && (forall id :: id in claimIds ==> id in claims)
            && (forall id, st :: id in claimIds && st != Mention ==>
                  Tally(claims[id], st) == Tally(mid.claims[id], st) + Count(claimIds, id) * Hits(sc.classify, chunks, mid.claims[id].claimText, st))
            && (forall k :: Changed(evidence, evidence0, k) ==> Written(evidence[k], sc, chunks, claimIds, mid.claims))
            && |events| == |events0| + |claimIds| + Count(merged, true) + |chunks| * |claimIds|
            && RowsAfter(mid.events, events, sc)
            && (forall k :: k in claims0 && k !in claimIds ==> k in claims && claims[k] == claims0[k])
  {
    var r := RecordChunks(mid, sc, chunks, claimIds);
    forall id, st | id in claimIds && st != Mention
      ensures id in r.claims
      ensures Tally(r.claims[id], st) == Tally(mid.claims[id], st) + Count(claimIds, id) * Hits(sc.classify, chunks, mid.claims[id].claimText, st)
    {
      RecordChunksTally(mid, sc, chunks, claimIds, id, st);
    }
    RecordChunksKeys(mid, sc, chunks, claimIds);
    RecordChunksWritten(mid, sc, chunks, claimIds);
    RecordChunksRows(mid, sc, chunks, claimIds);
    MentionLogCounts(claimIds, merged, sc.now, sc.sourceId, "text mention");
    forall k | k in claims0 && k !in claimIds ensures k in r.claims && r.claims[k] == claims0[k] {
      RecordChunksUntouched(mid, sc, chunks, claimIds, k);
    }
  }
}
