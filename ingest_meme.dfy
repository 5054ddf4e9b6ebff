/** ingestion/ingest_meme.py: a meme image is checked against the stored
    media for a near-duplicate, then becomes a source row and a media record;
    the claims read off its OCR text are canonicalized and linked to it, each
    linked claim records the media id, and the claim evolution agent is run
    on the meme's source. The image, its perceptual hash, the OCR engine,
    the embedders and the vector searches are collaborators: the hash, the
    raw OCR text and the payload hashes of the image search's hits are
    parameters. */
module IngestMeme {
  import opened Wrappers
  import opened SeqUtils
  import opened Schemas
  import opened Stores
  import CoreUtils
  import ClaimExtractor
  import EvolutionAgent
  import Orchestrator
  import IngestText

  /** The number of image-search hits looked at for a duplicate. */
  const DupLimit: int := 3

  /** The reason of the "reinforce" rows a meme writes. */
  const MemeReason: string := "meme mention"

  // ---------------------------------------------------------------------------
  // The near-duplicate check
  // ---------------------------------------------------------------------------

  /** Some hit's payload carries exactly this perceptual hash (`None` is a
      hit with no payload or no "phash" field). */
  predicate IsDuplicate(hits: seq<Option<string>>, phash: string)
  {
    exists i :: 0 <= i < |hits| && hits[i] == Some(phash)
  }

  /** The loop over the duplicates: stop at the first hit with this hash. */
  method FindDuplicate(hits: seq<Option<string>>, phash: string) returns (dup: bool)
    ensures dup <==> IsDuplicate(hits, phash)
  {
    for i := 0 to |hits|
      invariant forall j :: 0 <= j < i ==> hits[j] != Some(phash)
    {
      if hits[i] == Some(phash) {
        return true;
      }
    }
    return false;
  }

  /** Only the first three hits count: a hash match further down the ranking
      does not make the meme a duplicate, one among the first three does. */
  lemma DuplicateWithinTop(hits: seq<Option<string>>, phash: string, i: nat)
    requires i < |hits| && hits[i] == Some(phash)
    ensures IsDuplicate(PyPrefix(hits, DupLimit), phash) <==> exists j :: 0 <= j < DupLimit && j < |hits| && hits[j] == Some(phash)
  {
    var top := PyPrefix(hits, DupLimit);
    if exists j :: 0 <= j < DupLimit && j < |hits| && hits[j] == Some(phash) {
      var j :| 0 <= j < DupLimit && j < |hits| && hits[j] == Some(phash);
      assert top[j] == Some(phash);
    }
  }

  // ---------------------------------------------------------------------------
  // Linking the media id into the claims
  // ---------------------------------------------------------------------------

  /** The claim with `mediaId` added to its media ids by `uniq_list`. */
  function WithMedia(c: Claim, mediaId: string): Claim
  {
    c.(linkedMediaIds := CoreUtils.Dedup(c.linkedMediaIds + [mediaId]))
  }

  /** The claim then lists the media id, keeps every media id it listed and
      no other, lists none twice, and is otherwise unchanged. */
  lemma WithMediaFacts(c: Claim, mediaId: string)
    ensures var d := WithMedia(c, mediaId);
      && mediaId in d.linkedMediaIds
      && (forall x :: x in d.linkedMediaIds <==> x in c.linkedMediaIds || x == mediaId)
      && NoDups(d.linkedMediaIds)
      && d.(linkedMediaIds := c.linkedMediaIds) == c
  {
    CoreUtils.DedupElements(c.linkedMediaIds + [mediaId]);
  }

  /** Adding the same media id twice is adding it once. */
  lemma WithMediaIdempotent(c: Claim, mediaId: string)
    ensures WithMedia(WithMedia(c, mediaId), mediaId) == WithMedia(c, mediaId)
  {
    var l := CoreUtils.Dedup(c.linkedMediaIds + [mediaId]);
    CoreUtils.DedupElements(c.linkedMediaIds + [mediaId]);
    CoreUtils.DedupAppend(l, mediaId);
  }

  /** A duplicate-free media list stays duplicate-free and, when it already
      lists the media id, is left as it is. */
  lemma WithMediaKeeps(c: Claim, mediaId: string)
    requires NoDups(c.linkedMediaIds)
    ensures mediaId in c.linkedMediaIds ==> WithMedia(c, mediaId) == c
    ensures mediaId !in c.linkedMediaIds ==> WithMedia(c, mediaId).linkedMediaIds == c.linkedMediaIds + [mediaId]
  {
    CoreUtils.DedupAppend(c.linkedMediaIds, mediaId);
  }

  /** The loop over the linked claim ids, from the left. */
  function AttachMedia(claims: map<string, Claim>, ids: seq<string>, mediaId: string): map<string, Claim>
  {
    if ids == [] then claims
    else
      var r := AttachMedia(claims, ids[..|ids| - 1], mediaId);
      var id := ids[|ids| - 1];
      if id in r then r[id := WithMedia(r[id], mediaId)] else r
  }

  /** Every stored claim the ids name gets the media id once, however often
      it is named; the store keeps its keys and the other claims. */
  lemma {:induction false} AttachMediaIs(claims: map<string, Claim>, ids: seq<string>, mediaId: string)
    ensures var r := AttachMedia(claims, ids, mediaId);
      && r.Keys == claims.Keys
      && forall k :: k in claims ==> r[k] == if k in ids then WithMedia(claims[k], mediaId) else claims[k]
  {
    if ids != [] {
      var n := |ids| - 1;
      AttachMediaIs(claims, ids[..n], mediaId);
      var r := AttachMedia(claims, ids[..n], mediaId);
      forall k | k in claims
        ensures AttachMedia(claims, ids, mediaId)[k] == if k in ids then WithMedia(claims[k], mediaId) else claims[k]
      {
        assert k in ids <==> k in ids[..n] || k == ids[n] by {
          assert ids == ids[..n] + [ids[n]];
        }
        if k == ids[n] {
          WithMediaIdempotent(claims[k], mediaId);
        }
      }
    }
  }

  /** The media-linking loop of `ingest_meme`. Every linked id is a stored
      claim, so the lookup for the current media ids always succeeds; a
      missing id is skipped. */
  method AttachMediaAll(vs: VectorStore, ids: seq<string>, mediaId: string)
    modifies vs`claims
    ensures vs.claims == AttachMedia(old(vs.claims), ids, mediaId)
  {
    for i := 0 to |ids|
      invariant vs.claims == AttachMedia(old(vs.claims), ids[..i], mediaId)
    {
      assert ids[..i + 1][..i] == ids[..i];
      var id := ids[i];
      if id in vs.claims {
        vs.claims := vs.claims[id := WithMedia(vs.claims[id], mediaId)];
      }
    }
    assert ids[..|ids|] == ids;
  }

  // ---------------------------------------------------------------------------
  // ingest_meme
  // ---------------------------------------------------------------------------

  /** The claims `extract_claims` reads off the cleaned OCR text. */
  function MemeClaims(ocrText: string, useOllama: bool, reply: OllamaReply): seq<string>
  {
    ClaimExtractor.ExtractClaims(ocrText, useOllama, reply,
      PyPrefix(ClaimExtractor.Candidates(CoreUtils.SplitSentences(ocrText)), ClaimExtractor.MaxClaims))
  }

  /** What `ingest_meme` stores before it runs the agent, from world `w0` to
      world `pre`: the source row (its text hash is the perceptual hash),
      the linked claims (`linked` is the claims store after the linking
      loop, `next` the uuid counter after it), the media record under the
      next uuid, and that media id in every linked claim. */
  ghost predicate MemeStored(w0: EvolutionAgent.World, pre: EvolutionAgent.World, path: string, sourceType: string,
                             now: Timestamp, phash: string, ocrText: string, useOllama: bool, reply: OllamaReply,
                             uuid: nat -> string, ids: seq<string>, merged: seq<bool>,
                             linked: map<string, Claim>, next: nat)
  {
    && pre.sources == IngestText.InsertOrIgnore(w0.sources, path, Source(sourceType, path, now, None, phash))
    && |ids| == |MemeClaims(ocrText, useOllama, reply)|
    && IngestText.Linked(pre.links, pre.events, linked, next, w0.links, w0.events, w0.claims, 0,
                         path, MemeReason, now, uuid, ids, merged)
    && pre.claims == AttachMedia(linked, ids, uuid(next))
    && pre.media == w0.media[uuid(next) := MediaWithDefaults(uuid(next), path, now, phash, ocrText, ids)]
    && pre.evidence == w0.evidence
  }

  /** `extract_claims` on the cleaned OCR text. */
  method ExtractMemeClaims(ocrText: string, useOllama: bool, reply: OllamaReply) returns (candidates: seq<string>)
    ensures candidates == MemeClaims(ocrText, useOllama, reply)
  {
    var ruleBased := ClaimExtractor.RuleBasedExtract(ocrText);
    candidates := ClaimExtractor.ExtractClaims(ocrText, useOllama, reply, ruleBased);
  }

  /** The media upsert and the media-linking loop. */
  method AttachMeme(vs: VectorStore, ids: seq<string>, mediaId: string, path: string, now: Timestamp, phash: string,
                    ocrText: string)
    modifies vs`claims, vs`media
    ensures vs.media == old(vs.media)[mediaId := MediaWithDefaults(mediaId, path, now, phash, ocrText, ids)]
    ensures vs.claims == AttachMedia(old(vs.claims), ids, mediaId)
  {
    vs.media := vs.media[mediaId := MediaWithDefaults(mediaId, path, now, phash, ocrText, ids)];
    AttachMediaAll(vs, ids, mediaId);
  }

  /** Everything `ingest_meme` does before the agent runs. */
  method StoreMeme(db: Database, vs: VectorStore, path: string, sourceType: string, now: Timestamp, phash: string,
                   ocrText: string, useOllama: bool, reply: OllamaReply, search: IngestText.Search, threshold: real,
                   uuid: nat -> string)
    returns (ids: seq<string>, ghost merged: seq<bool>, ghost linked: map<string, Claim>, ghost next: nat)
    requires IngestText.SearchSound(search)
    modifies db`sources, db`claimLinks, db`events, vs`claims, vs`media
    ensures MemeStored(old(EvolutionAgent.Snap(db, vs)), EvolutionAgent.Snap(db, vs), path, sourceType, now, phash,
                       ocrText, useOllama, reply, uuid, ids, merged, linked, next)
  {
    ghost var w0 := EvolutionAgent.Snap(db, vs);
    db.sources := IngestText.InsertOrIgnore(db.sources, path, Source(sourceType, path, now, None, phash));
    var candidates := ExtractMemeClaims(ocrText, useOllama, reply);
    var n;
    ids, n, merged := IngestText.LinkClaims(db, vs, path, sourceType, candidates, search, threshold, now, uuid,
                                           MemeReason, 0);
    linked, next := vs.claims, n;
    ghost var w1 := EvolutionAgent.Snap(db, vs);
    AttachMeme(vs, ids, uuid(n), path, now, phash, ocrText);
    assert IngestText.Linked(w1.links, w1.events, linked, next, w0.links, w0.events, w0.claims, 0,
                             path, MemeReason, now, uuid, ids, merged);
    assert w1.sources == db.sources && w1.links == db.claimLinks && w1.events == db.events
        && w1.evidence == vs.evidence && w1.evidence == w0.evidence && w1.media == w0.media;
  }

  /** What the agent run of `ingest_meme` does, from world `pre` to world
      `post`: it looks at the claims linked to the meme's source (`aids`,
      each once) in the world as the meme left it, without decay. */
  ghost predicate Reevaluated(pre: EvolutionAgent.World, post: EvolutionAgent.World, path: string, now: Timestamp,
                              classify: EvolutionAgent.Classifier, aids: seq<string>, summary: Summary)
  {
    && NoDups(aids) && ToSet(aids) == EvolutionAgent.LinkedIds(pre.links, [path], false)
    && summary == EvolutionAgent.SummaryOf(pre, aids, now, classify)
    && post.claims == EvolutionAgent.ClaimsAfter(pre, ToSet(aids), now, classify)
    && post.evidence == EvolutionAgent.EvidenceAfter(pre, ToSet(aids), now, classify)
    && post.events == pre.events + EvolutionAgent.EventsOf(pre, aids, now, classify)
    && post.sources == pre.sources && post.links == pre.links && post.media == pre.media
  }

  /** `run_claim_evolution_agent([path], force_full_scan=False)`, with its
      default of no decay. */
  method RunForSource(db: Database, vs: VectorStore, path: string, now: Timestamp, decayDays: int,
                      classify: EvolutionAgent.Classifier, loads: string -> Option<Json>, dumps: Json -> string)
    returns (summary: Summary, ghost aids: seq<string>)
    modifies db`events, db`agentState, vs`claims, vs`evidence
    ensures Reevaluated(old(EvolutionAgent.Snap(db, vs)), EvolutionAgent.Snap(db, vs), path, now, classify, aids, summary)
    ensures db.agentState == old(db.agentState)[Orchestrator.AgentName := Orchestrator.RunRecord(now, summary, dumps)]
  {
    ghost var selected, mid;
    summary, selected, aids, mid := Orchestrator.RunClaimEvolutionAgent(db, vs, Some([path]), false, false, now,
                                                                        decayDays, classify, loads, dumps);
  }

  /** `ingest_meme`. A meme whose hash one of the top three image hits
      carries is counted as deduplicated and changes nothing; any other is
      stored, linked and handed to the claim evolution agent for its own
      source, and counted as ingested. */
  method IngestMeme(db: Database, vs: VectorStore, path: string, sourceType: string, now: Timestamp, phash: string,
                    ocrRaw: string, hits: seq<Option<string>>, useOllama: bool, reply: OllamaReply,
                    search: IngestText.Search, threshold: real, uuid: nat -> string, decayDays: int,
                    classify: EvolutionAgent.Classifier, loads: string -> Option<Json>, dumps: Json -> string)
    returns (memesIngested: nat, memesDeduped: nat, ghost pre: EvolutionAgent.World, ghost ids: seq<string>,
             ghost merged: seq<bool>, ghost linked: map<string, Claim>, ghost next: nat, ghost aids: seq<string>,
             ghost summary: Summary)
    requires IngestText.SearchSound(search)
    modifies db`sources, db`claimLinks, db`events, db`agentState, vs`claims, vs`evidence, vs`media
    ensures IsDuplicate(PyPrefix(hits, DupLimit), phash) ==>
      && memesIngested == 0 && memesDeduped == 1
      && EvolutionAgent.Snap(db, vs) == old(EvolutionAgent.Snap(db, vs)) && db.agentState == old(db.agentState)
    ensures !IsDuplicate(PyPrefix(hits, DupLimit), phash) ==>
      && memesIngested == 1 && memesDeduped == 0
      && MemeStored(old(EvolutionAgent.Snap(db, vs)), pre, path, sourceType, now, phash, CoreUtils.CleanText(ocrRaw),
                    useOllama, reply, uuid, ids, merged, linked, next)
      && Reevaluated(pre, EvolutionAgent.Snap(db, vs), path, now, classify, aids, summary)
      && db.agentState == old(db.agentState)[Orchestrator.AgentName := Orchestrator.RunRecord(now, summary, dumps)]
  {
    var ocrText := CoreUtils.CleanText(ocrRaw);
    var dup := FindDuplicate(PyPrefix(hits, DupLimit), phash);
    if dup {
      pre, ids, merged, linked, next, aids, summary := EvolutionAgent.Snap(db, vs), [], [], vs.claims, 0, [], ZeroSummary;
      return 0, 1, pre, ids, merged, linked, next, aids, summary;
    }
    ghost var w0 := EvolutionAgent.Snap(db, vs);
    var linkedIds;
    linkedIds, merged, linked, next := StoreMeme(db, vs, path, sourceType, now, phash, ocrText, useOllama, reply,
                                                 search, threshold, uuid);
    ids := linkedIds;
    pre := EvolutionAgent.Snap(db, vs);
    assert MemeStored(w0, pre, path, sourceType, now, phash, ocrText, useOllama, reply, uuid, ids, merged, linked, next);
    var s;
    s, aids := RunForSource(db, vs, path, now, decayDays, classify, loads, dumps);
    summary := s;
    memesIngested, memesDeduped := 1, 0;
  }

  /** The linked claims list the media id, once each, and the claims the
      meme does not name are as they were. */
  lemma AttachedClaims(linked: map<string, Claim>, claims0: map<string, Claim>, ids: seq<string>, mediaId: string)
    requires IngestText.LinkedClaims(linked, claims0, ids)
    ensures var r := AttachMedia(linked, ids, mediaId);
      && (forall id :: id in ids ==> id in r && mediaId in r[id].linkedMediaIds && NoDups(r[id].linkedMediaIds))
      && (forall k :: k in claims0 && k !in ids ==> k in r && r[k] == claims0[k])
  {
    AttachMediaIs(linked, ids, mediaId);
    forall id | id in ids {
      WithMediaFacts(linked[id], mediaId);
    }
  }

  /** Every non-empty claim id linked to the source is one the agent looks
      at when it is run for that source. */
  lemma LinkedAreSelected(links0: seq<ClaimLink>, path: string, ids: seq<string>, aids: seq<string>)
    requires ToSet(aids) == EvolutionAgent.LinkedIds(links0 + IngestText.LinksFor(path, ids), [path], false)
    ensures forall id :: id in ids && id != "" ==> id in aids
  {
    var links := links0 + IngestText.LinksFor(path, ids);
    forall id | id in ids && id != "" ensures id in aids {
      var i :| 0 <= i < |ids| && ids[i] == id;
      assert links[|links0| + i] == ClaimLink(path, id);
      EvolutionAgent.LinkedIdsMembers(links, [path], false, id);
      assert id in ToSet(aids);
    }
  }

  /** What an ingested meme leaves behind: its media record lists the
      linked claim ids in order; every linked claim is stored and lists the
      media id (once); every linked claim with a non-empty id is one the
      agent re-evaluated; and stored claims the meme does not name keep
      their records until the agent runs. */
  lemma MemeEffects(w0: EvolutionAgent.World, pre: EvolutionAgent.World, path: string, sourceType: string,
                    now: Timestamp, phash: string, ocrText: string, useOllama: bool, reply: OllamaReply,
                    uuid: nat -> string, ids: seq<string>, merged: seq<bool>, linked: map<string, Claim>, next: nat,
                    post: EvolutionAgent.World, classify: EvolutionAgent.Classifier, aids: seq<string>,
                    summary: Summary)
    requires MemeStored(w0, pre, path, sourceType, now, phash, ocrText, useOllama, reply, uuid, ids, merged, linked, next)
    requires Reevaluated(pre, post, path, now, classify, aids, summary)
    ensures uuid(next) in pre.media && pre.media[uuid(next)].linkedClaimIds == ids
    ensures forall id :: id in ids ==> id in pre.claims && uuid(next) in pre.claims[id].linkedMediaIds
                                       && NoDups(pre.claims[id].linkedMediaIds)
    ensures forall id :: id in ids && id != "" ==> id in aids
    ensures forall k :: k in w0.claims && k !in ids ==> k in pre.claims && pre.claims[k] == w0.claims[k]
  {
    AttachedClaims(linked, w0.claims, ids, uuid(next));
    LinkedAreSelected(w0.links, path, ids, aids);
  }
}
