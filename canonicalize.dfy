/** memory/canonicalize.py: merge a new claim into its best match or store
    it as a new canonical claim. */
module Canonicalize {
  import opened Wrappers
  import opened SeqUtils
  import opened Schemas
  import opened Stores
  import opened Events
  import CoreUtils

  /** The merge decision: there is a hit and the best one scores at least the
      similarity threshold. */
  predicate ShouldMerge(matches: seq<Match>, threshold: real)
  {
    |matches| > 0 && matches[0].score >= threshold
  }

  /** The merge patch: one more mention, seen now, and the new source type
      added to the source types if it is not there yet. */
  function MergedClaim(c: Claim, now: Timestamp, sourceType: string): (m: Claim)
    ensures m.mentionCount == c.mentionCount + 1 && m.lastSeenTs == now
    ensures m.sourceTypes == CoreUtils.Dedup(c.sourceTypes + [sourceType])
    ensures m.(mentionCount := c.mentionCount, lastSeenTs := c.lastSeenTs, sourceTypes := c.sourceTypes) == c
  {
    c.(mentionCount := c.mentionCount + 1, lastSeenTs := now,
       sourceTypes := CoreUtils.Dedup(c.sourceTypes + [sourceType]))
  }

  /** After a merge the source types hold the new type, have no duplicates,
      keep every old type, and when the old list was duplicate-free keep it
      as a prefix. */
  lemma MergedSourceTypes(c: Claim, now: Timestamp, sourceType: string)
    ensures var ts := MergedClaim(c, now, sourceType).sourceTypes;
      && sourceType in ts && NoDups(ts)
      && (forall t :: t in c.sourceTypes ==> t in ts)
      && (forall t :: t in ts ==> t in c.sourceTypes || t == sourceType)
      && (NoDups(c.sourceTypes) ==> ts == if sourceType in c.sourceTypes then c.sourceTypes else c.sourceTypes + [sourceType])
  {
    CoreUtils.DedupElements(c.sourceTypes + [sourceType]);
    if NoDups(c.sourceTypes) {
      CoreUtils.DedupAppend(c.sourceTypes, sourceType);
    }
  }

  /** The record a create stores. */
  function CreatedClaim(id: string, text: string, now: Timestamp, sourceType: string): (c: Claim)
    ensures c == ClaimWithDefaults(id, text, now, now, 1, [sourceType], 0, 0, 0.5, Unverified)
  {
    Claim(id, text, now, now, 1, [sourceType], 0, 0, 0.5, Unverified,
          [], [], 0.0, 0.0, 0, 0.0, Low, None, None, [], [])
  }

  /** A freshly created claim is its own canonical id, has one mention from
      the one source type, neutral confidence and no derived metrics yet. */
  lemma CreatedClaimFacts(id: string, text: string, now: Timestamp, sourceType: string)
    ensures var c := CreatedClaim(id, text, now, sourceType);
      && c.canonicalClaimId == id && c.claimText == text && c.mentionCount == 1
      && c.sourceTypes == [sourceType] && c.confidence == 0.5 && c.status == Unverified
      && c.supportCount == 0 && c.contradictCount == 0 && c.alertLevel == Low
      && c.firstSeenTs == c.lastSeenTs == now
  {
  }

  /** `canonicalize_claim`. `matches` is the ranked answer of the vector
      search (its hits are stored claims) and `newId` the fresh uuid. */
  method CanonicalizeClaim(db: Database, vs: VectorStore, claimText: string, sourceType: string,
                           matches: seq<Match>, threshold: real, now: Timestamp, newId: string)
    returns (id: string, merged: bool)
    requires matches != [] ==> matches[0].id in vs.claims
    modifies db`events, vs`claims
    ensures merged == ShouldMerge(matches, threshold)
    ensures merged ==> (id == matches[0].id
      && vs.claims == old(vs.claims)[id := MergedClaim(old(vs.claims)[id], now, sourceType)]
      && db.events == old(db.events) + [Event(now, id, "merge", 0.0, Text("claim merged"), None)])
    ensures !merged ==> (id == newId
      && vs.claims == old(vs.claims)[id := CreatedClaim(newId, claimText, now, sourceType)]
      && db.events == old(db.events) + [Event(now, id, "create", 0.0, Text("new canonical claim"), None)])
  {
    if |matches| > 0 && matches[0].score >= threshold {
      id := matches[0].id;
      var c := vs.claims[id];
      var sourceTypes := CoreUtils.UniqList(c.sourceTypes + [sourceType]);
      vs.claims := vs.claims[id := c.(mentionCount := c.mentionCount + 1, lastSeenTs := now, sourceTypes := sourceTypes)];
      LogEvent(db, now, id, "merge", 0.0, Text("claim merged"), None);
      merged := true;
    } else {
      id := newId;
      vs.claims := vs.claims[id := Claim(id, claimText, now, now, 1, [sourceType], 0, 0, 0.5, Unverified,
                                         [], [], 0.0, 0.0, 0, 0.0, Low, None, None, [], [])];
      LogEvent(db, now, id, "create", 0.0, Text("new canonical claim"), None);
      merged := false;
    }
  }
}
