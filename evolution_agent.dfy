/** agents/claim_evolution_agent.py: the claim evolution agent. For each claim
    of its working set it recomputes four derived values (trend, contradiction
    ratio, meme-variant count, volatility), derives the alert level, may move
    the status to disputed, logs up to five agent events and tallies a run
    summary. */
module EvolutionAgent {
  import opened Wrappers
  import opened SeqUtils
  import opened Schemas
  import opened Stores
  import opened Events
  import opened AgentUtils
  import Decay

  /** The stance classifier the agent calls on a snippet and a claim text. */
  type Classifier = (string, string) -> Stance

  // ---------------------------------------------------------------------------
  // _fetch_claim_ids
  // ---------------------------------------------------------------------------

  /** Whether a `claim_links` row contributes its claim id: a full scan takes
      every row, otherwise the row's source must be asked for and its claim
      id must be non-empty. */
  predicate Selects(l: ClaimLink, sourceIds: seq<string>, fullScan: bool)
  {
    fullScan || (l.sourceId in sourceIds && l.claimId != "")
  }

  /** The claim ids the selected rows name. */
  function LinkedIds(links: seq<ClaimLink>, sourceIds: seq<string>, fullScan: bool): set<string>
  {
    if links == [] then {}
    else
      var l := links[|links| - 1];
      LinkedIds(links[..|links| - 1], sourceIds, fullScan) + if Selects(l, sourceIds, fullScan) then {l.claimId} else {}
  }

  /** An id is in the working set exactly when some selected row names it. */
  lemma {:induction false} LinkedIdsMembers(links: seq<ClaimLink>, sourceIds: seq<string>, fullScan: bool, x: string)
    ensures x in LinkedIds(links, sourceIds, fullScan) <==>
      exists l :: l in links && Selects(l, sourceIds, fullScan) && l.claimId == x
  {
    if links != [] {
      var init, l := links[..|links| - 1], links[|links| - 1];
      assert links == init + [l];
      LinkedIdsMembers(init, sourceIds, fullScan, x);
    }
  }

  /** Without a full scan and without source ids there is no work. */
  lemma {:induction false} NoSourcesNoClaims(links: seq<ClaimLink>)
    ensures LinkedIds(links, [], false) == {}
  {
    if links != [] {
      NoSourcesNoClaims(links[..|links| - 1]);
    }
  }

  /** `_fetch_claim_ids`: the distinct claim ids of the selected rows, each
      once (the order of Python's set is not specified, so none is
      promised). */
  method FetchClaimIds(db: Database, sourceIds: seq<string>, fullScan: bool) returns (ids: seq<string>)
    ensures NoDups(ids) && ToSet(ids) == LinkedIds(db.claimLinks, sourceIds, fullScan)
  {
    ids := [];
    if !fullScan && sourceIds == [] {
      NoSourcesNoClaims(db.claimLinks);
      return;
    }
    var i := 0;
    while i < |db.claimLinks|
      invariant 0 <= i <= |db.claimLinks|
      invariant NoDups(ids) && ToSet(ids) == LinkedIds(db.claimLinks[..i], sourceIds, fullScan)
    {
      var l := db.claimLinks[i];
      assert db.claimLinks[..i + 1][..i] == db.claimLinks[..i];
      if Selects(l, sourceIds, fullScan) && l.claimId !in ids {
        SnocFresh(ids, l.claimId);
        ids := ids + [l.claimId];
      }
      i := i + 1;
    }
    assert db.claimLinks[..i] == db.claimLinks;
  }

  // ---------------------------------------------------------------------------
  // _fetch_trend_counts
  // ---------------------------------------------------------------------------

  /** A source stored with a timestamp inside the trend window. */
  predicate RecentSource(sources: map<string, Source>, sourceId: string, now: Timestamp)
  {
    sourceId in sources && sources[sourceId].timestamp >= now - TrendWindowDays * DAY
  }

  /** The number of distinct recent sources linked to the claim. */
  function TrendCount(sources: map<string, Source>, links: seq<ClaimLink>, id: string, now: Timestamp): nat
  {
    |set l | l in links && l.claimId == id && RecentSource(sources, l.sourceId, now) :: l.sourceId|
  }

  /** `_fetch_trend_counts`: claims with no recent source are absent, and the
      agent reads them as 0. */
  function TrendCounts(sources: map<string, Source>, links: seq<ClaimLink>, ids: seq<string>, now: Timestamp): (m: map<string, nat>)
    ensures forall id :: id in ids ==> GetOr(m, id, 0) == TrendCount(sources, links, id, now)
  {
    map id | id in ids && TrendCount(sources, links, id, now) > 0 :: TrendCount(sources, links, id, now)
  }

  /** Linking a claim to one more recent source raises its trend by one;
      linking it again to a source it already has, or linking another claim,
      leaves it unchanged (the query counts distinct sources). */
  lemma NewLinkTrend(sources: map<string, Source>, links: seq<ClaimLink>, l: ClaimLink, id: string, now: Timestamp)
    ensures l.claimId == id && RecentSource(sources, l.sourceId, now)
            && (forall k :: k in links && k.claimId == id ==> k.sourceId != l.sourceId) ==>
              TrendCount(sources, links + [l], id, now) == TrendCount(sources, links, id, now) + 1
    ensures l.claimId != id || !RecentSource(sources, l.sourceId, now) || l in links ==>
              TrendCount(sources, links + [l], id, now) == TrendCount(sources, links, id, now)
  {
    var before := set k | k in links && k.claimId == id && RecentSource(sources, k.sourceId, now) :: k.sourceId;
    var after := set k | k in links + [l] && k.claimId == id && RecentSource(sources, k.sourceId, now) :: k.sourceId;
    if l.claimId == id && RecentSource(sources, l.sourceId, now) {
      assert after == before + {l.sourceId};
      if l in links {
        assert l.sourceId in before;
        assert after == before;
      }
    } else {
      assert after == before;
    }
  }

  // ---------------------------------------------------------------------------
  // _evidence_stance_counts
  // ---------------------------------------------------------------------------

  /** The stance a snippet is counted under: its stored stance, or, when it
      has none and the claim has text, the classifier's verdict. */
  function EffectiveStance(e: Evidence, claimText: string, classify: Classifier): Option<Stance>
  {
    if e.stance.Some? then e.stance
    else if claimText != "" then Some(classify(e.snippetText, claimText))
    else None
  }

  predicate InContradictionWindow(e: Evidence, now: Timestamp)
  {
    WithinDays(e.timestamp, ContradictionWindowDays, now)
  }

  /** Whether a snippet counts towards stance `s` for the claim. */
  predicate Tallied(e: Evidence, id: string, claimText: string, now: Timestamp, classify: Classifier, s: Stance)
  {
    e.claimId == id && InContradictionWindow(e, now) && EffectiveStance(e, claimText, classify) == Some(s)
  }

  /** The number of the claim's recent snippets counted under `s`. */
  function StanceCount(ev: map<string, Evidence>, id: string, claimText: string, now: Timestamp,
                       classify: Classifier, s: Stance): nat
  {
    |set k | k in ev && Tallied(ev[k], id, claimText, now, classify, s)|
  }

  /** The stance cache: a recent snippet without a stance gets the
      classifier's verdict stored, provided the claim has text. */
  function FillStance(e: Evidence, claimText: string, now: Timestamp, classify: Classifier): (f: Evidence)
    ensures f.(stance := e.stance) == e
    ensures EffectiveStance(f, claimText, classify) == EffectiveStance(e, claimText, classify)
  {
    if InContradictionWindow(e, now) && e.stance == None && claimText != "" then
      e.(stance := Some(classify(e.snippetText, claimText)))
    else e
  }

  /** Filling is idempotent: a second pass classifies nothing. */
  lemma FillStanceIdempotent(e: Evidence, claimText: string, now: Timestamp, classify: Classifier)
    ensures FillStance(FillStance(e, claimText, now, classify), claimText, now, classify)
            == FillStance(e, claimText, now, classify)
    ensures e.stance.Some? ==> FillStance(e, claimText, now, classify) == e
  {
  }

  /** The evidence collection after the claim's snippets have been filled. */
  function FillClaimStances(ev: map<string, Evidence>, id: string, claimText: string, now: Timestamp,
                            classify: Classifier): (m: map<string, Evidence>)
    ensures m.Keys == ev.Keys
  {
    map k | k in ev :: if ev[k].claimId == id then FillStance(ev[k], claimText, now, classify) else ev[k]
  }

  /** The cache is transparent: counting again after the fill gives the
      same tallies. */
  lemma FillKeepsCounts(ev: map<string, Evidence>, id: string, claimText: string, now: Timestamp,
                        classify: Classifier, s: Stance)
    ensures StanceCount(FillClaimStances(ev, id, claimText, now, classify), id, claimText, now, classify, s)
            == StanceCount(ev, id, claimText, now, classify, s)
  {
    var ev' := FillClaimStances(ev, id, claimText, now, classify);
    assert (set k | k in ev' && Tallied(ev'[k], id, claimText, now, classify, s))
        == (set k | k in ev && Tallied(ev[k], id, claimText, now, classify, s));
  }

  /** The claim's snippets not yet visited by the scan. */
  function ClaimKeys(ev: map<string, Evidence>, id: string): set<string>
  {
    set k | k in ev && ev[k].claimId == id
  }

  ghost function PartlyFilled(ev0: map<string, Evidence>, done: set<string>, claimText: string, now: Timestamp,
                              classify: Classifier): map<string, Evidence>
  {
    map k | k in ev0 :: if k in done then FillStance(ev0[k], claimText, now, classify) else ev0[k]
  }

  ghost function TalliedIn(ev0: map<string, Evidence>, done: set<string>, id: string, claimText: string,
                           now: Timestamp, classify: Classifier, s: Stance): set<string>
  {
    set k | k in done && k in ev0 && Tallied(ev0[k], id, claimText, now, classify, s)
  }

  /** The scan's loop invariant. */
  ghost predicate StanceScan(ev: map<string, Evidence>, ev0: map<string, Evidence>, todo: set<string>, done: set<string>,
                             id: string, claimText: string, now: Timestamp, classify: Classifier,
                             support: nat, contradict: nat)
  {
    && todo !! done && todo + done == ClaimKeys(ev0, id)
    && ev == PartlyFilled(ev0, done, claimText, now, classify)
    && support == |TalliedIn(ev0, done, id, claimText, now, classify, Support)|
    && contradict == |TalliedIn(ev0, done, id, claimText, now, classify, Contradict)|
  }

  /** Scanning one more evidence point adds one to a tally exactly when that point counts for it. */
  lemma TalliedStep(ev0: map<string, Evidence>, done: set<string>, k: string, id: string, claimText: string,
                    now: Timestamp, classify: Classifier, s: Stance)
    requires k in ev0 && k !in done
    ensures |TalliedIn(ev0, done + {k}, id, claimText, now, classify, s)|
            == |TalliedIn(ev0, done, id, claimText, now, classify, s)|
               + if Tallied(ev0[k], id, claimText, now, classify, s) then 1 else 0
  {
    var a := TalliedIn(ev0, done, id, claimText, now, classify, s);
    if Tallied(ev0[k], id, claimText, now, classify, s) {
      assert TalliedIn(ev0, done + {k}, id, claimText, now, classify, s) == a + {k};
    } else {
      assert TalliedIn(ev0, done + {k}, id, claimText, now, classify, s) == a;
    }
  }

  /** Scanning one more evidence point keeps the stance-scan invariant. */
  lemma StanceScanStep(ev: map<string, Evidence>, ev0: map<string, Evidence>, todo: set<string>, done: set<string>,
                       id: string, claimText: string, now: Timestamp, classify: Classifier,
                       support: nat, contradict: nat, k: string)
    requires StanceScan(ev, ev0, todo, done, id, claimText, now, classify, support, contradict)
    requires k in todo
    ensures k in ev0 && k in ev && ev[k] == ev0[k] && ev0[k].claimId == id
    ensures StanceScan(ev[k := FillStance(ev0[k], claimText, now, classify)], ev0, todo - {k}, done + {k},
                       id, claimText, now, classify,
                       support + (if Tallied(ev0[k], id, claimText, now, classify, Support) then 1 else 0),
                       contradict + (if Tallied(ev0[k], id, claimText, now, classify, Contradict) then 1 else 0))
  {
    TalliedStep(ev0, done, k, id, claimText, now, classify, Support);
    TalliedStep(ev0, done, k, id, claimText, now, classify, Contradict);
    assert ev[k := FillStance(ev0[k], claimText, now, classify)] == PartlyFilled(ev0, done + {k}, claimText, now, classify);
  }

  /** A finished stance scan gives the backfilled store and the two counts. */
  lemma StanceScanDone(ev: map<string, Evidence>, ev0: map<string, Evidence>, done: set<string>,
                       id: string, claimText: string, now: Timestamp, classify: Classifier,
                       support: nat, contradict: nat)
    requires StanceScan(ev, ev0, {}, done, id, claimText, now, classify, support, contradict)
    ensures ev == FillClaimStances(ev0, id, claimText, now, classify)
    ensures support == StanceCount(ev0, id, claimText, now, classify, Support)
    ensures contradict == StanceCount(ev0, id, claimText, now, classify, Contradict)
  {
    assert TalliedIn(ev0, done, id, claimText, now, classify, Support)
        == set k | k in ev0 && Tallied(ev0[k], id, claimText, now, classify, Support);
    assert TalliedIn(ev0, done, id, claimText, now, classify, Contradict)
        == set k | k in ev0 && Tallied(ev0[k], id, claimText, now, classify, Contradict);
  }

  /** One scanned snippet: classify and store its stance when needed, and
      report the stance it counts under (none outside the window). */
  method ScanSnippet(vs: VectorStore, k: string, claimText: string, now: Timestamp, classify: Classifier)
    returns (stance: Option<Stance>)
    requires k in vs.evidence
    modifies vs`evidence
    ensures stance == if InContradictionWindow(old(vs.evidence)[k], now)
                      then EffectiveStance(old(vs.evidence)[k], claimText, classify) else None
    ensures vs.evidence == old(vs.evidence)[k := FillStance(old(vs.evidence)[k], claimText, now, classify)]
  {
    var e := vs.evidence[k];
    stance := None;
    if WithinDays(e.timestamp, ContradictionWindowDays, now) {
      stance := e.stance;
      if stance == None && claimText != "" {
        stance := Some(classify(e.snippetText, claimText));
        vs.evidence := vs.evidence[k := e.(stance := stance)];
      }
    }
    if vs.evidence == old(vs.evidence) {
      assert vs.evidence[k] == FillStance(old(vs.evidence)[k], claimText, now, classify);
    }
  }

  /** `_evidence_stance_counts`: the number of the claim's recent snippets
      counted as support and as contradict, filling the stance cache on the
      way. */
  method EvidenceStanceCounts(vs: VectorStore, id: string, claimText: string, now: Timestamp, classify: Classifier)
    returns (support: nat, contradict: nat)
    modifies vs`evidence
    ensures support == StanceCount(old(vs.evidence), id, claimText, now, classify, Support)
    ensures contradict == StanceCount(old(vs.evidence), id, claimText, now, classify, Contradict)
    ensures vs.evidence == FillClaimStances(old(vs.evidence), id, claimText, now, classify)
  {
    ghost var ev0 := vs.evidence;
    var todo := ClaimKeys(vs.evidence, id);
    ghost var done: set<string> := {};
    support, contradict := 0, 0;
    assert vs.evidence == PartlyFilled(ev0, done, claimText, now, classify);
    while todo != {}
      invariant StanceScan(vs.evidence, ev0, todo, done, id, claimText, now, classify, support, contradict)
      decreases |todo|
    {
      var k :| k in todo;
      StanceScanStep(vs.evidence, ev0, todo, done, id, claimText, now, classify, support, contradict, k);
      var stance := ScanSnippet(vs, k, claimText, now, classify);
      if stance == Some(Support) {
        support := support + 1;
      } else if stance == Some(Contradict) {
        contradict := contradict + 1;
      }
      todo, done := todo - {k}, done + {k};
    }
    StanceScanDone(vs.evidence, ev0, done, id, claimText, now, classify, support, contradict);
  }

  // ---------------------------------------------------------------------------
  // _meme_variant_count
  // ---------------------------------------------------------------------------

  /** The key a linked media counts under: its phash, or its own id when the
      media is not stored or has no phash. */
  function VariantKey(media: map<string, Media>, mediaId: string): string
  {
    if mediaId in media && media[mediaId].phash != "" then media[mediaId].phash else mediaId
  }

  function VariantKeys(media: map<string, Media>, mediaIds: seq<string>): set<string>
  {
    if mediaIds == [] then {}
    else VariantKeys(media, mediaIds[..|mediaIds| - 1]) + {VariantKey(media, mediaIds[|mediaIds| - 1])}
  }

  /** The count lies between one and the number of linked media (zero for
      none), and media sharing one phash count once. */
  lemma {:induction false} VariantKeysBounds(media: map<string, Media>, mediaIds: seq<string>)
    ensures |VariantKeys(media, mediaIds)| <= |mediaIds|
    ensures mediaIds != [] ==> |VariantKeys(media, mediaIds)| >= 1
    ensures forall p :: p != "" && (forall m :: m in mediaIds ==> m in media && media[m].phash == p) ==>
      VariantKeys(media, mediaIds) <= {p}
  {
    if mediaIds != [] {
      var init := mediaIds[..|mediaIds| - 1];
      VariantKeysBounds(media, init);
      assert forall m :: m in init ==> m in mediaIds;
    }
  }

  /** `_meme_variant_count` */
  method MemeVariantCount(vs: VectorStore, linkedMediaIds: seq<string>) returns (n: nat)
    ensures n == |VariantKeys(vs.media, linkedMediaIds)|
  {
    if linkedMediaIds == [] {
      return 0;
    }
    var phashes: set<string> := {};
    for i := 0 to |linkedMediaIds|
      invariant phashes == VariantKeys(vs.media, linkedMediaIds[..i])
    {
      var mediaId := linkedMediaIds[i];
      assert linkedMediaIds[..i + 1][..i] == linkedMediaIds[..i];
      if mediaId in vs.media && vs.media[mediaId].phash != "" {
        phashes := phashes + {vs.media[mediaId].phash};
      } else {
        phashes := phashes + {mediaId};
      }
    }
    assert linkedMediaIds[..|linkedMediaIds|] == linkedMediaIds;
    n := |phashes|;
  }

  // ---------------------------------------------------------------------------
  // _confidence_event_count
  // ---------------------------------------------------------------------------

  /** A ledger row that counts towards the claim's volatility: a confidence
      or decay event of the claim inside the volatility window. */
  predicate Volatile(e: Event, id: string, now: Timestamp)
  {
    e.claimId == id && (e.eventType == "confidence" || e.eventType == "decay")
    && e.timestamp >= now - VolatilityWindowDays * DAY
  }

  /** `_confidence_event_count` */
  function VolCount(events: seq<Event>, id: string, now: Timestamp): (n: nat)
    ensures n <= |events|
  {
    if events == [] then 0
    else VolCount(events[..|events| - 1], id, now) + if Volatile(events[|events| - 1], id, now) then 1 else 0
  }

  /** The count over a ledger is the sum over its parts. */
  lemma {:induction false} VolCountAppend(a: seq<Event>, b: seq<Event>, id: string, now: Timestamp)
    ensures VolCount(a + b, id, now) == VolCount(a, id, now) + VolCount(b, id, now)
  {
    if b == [] {
      assert a + b == a;
    } else {
      var init := b[..|b| - 1];
      assert (a + b)[..|a + b| - 1] == a + init;
      assert (a + b)[|a + b| - 1] == b[|b| - 1];
      VolCountAppend(a, init, id, now);
    }
  }

  /** Rows of other types, or of other claims, never count. */
  lemma {:induction false} VolCountIgnores(events: seq<Event>, id: string, now: Timestamp)
    requires forall e :: e in events ==> e.claimId != id || (e.eventType != "confidence" && e.eventType != "decay")
    ensures VolCount(events, id, now) == 0
  {
    if events != [] {
      VolCountIgnores(events[..|events| - 1], id, now);
    }
  }

  // ---------------------------------------------------------------------------
  // The per-claim rules of `run`
  // ---------------------------------------------------------------------------

  /** The four measured inputs of one claim. */
  datatype Metrics = Metrics(trend: nat, support: nat, contradict: nat, memeVariants: nat, volEvents: nat)

  /** The patched claim and the agent events logged for it, in order. */
  datatype Outcome = Outcome(claim: Claim, events: seq<Event>)

  function Abs(x: real): real
  {
    if x < 0.0 then -x else x
  }

  /** An agent event: stamped `now`, no source, the agent's name dropped. */
  function AgentEvent(now: Timestamp, id: string, eventType: string, delta: real, reason: Reason): Event
  {
    Event(now, id, eventType, delta, reason, None)
  }

  /** The values the agent derives from the measurements. */
  datatype Derived = Derived(trend: real, ratio: real, vol: real, alert: AlertLevel)

  function Derive(m: Metrics): (d: Derived)
    ensures d.trend == m.trend as real && d.ratio == ContradictionRatio(m.support, m.contradict)
    ensures d.vol == VolatilityScore(m.volEvents) && d.alert == ComputeAlertLevel(d.trend, d.ratio, d.vol)
  {
    var trend := m.trend as real;
    var ratio := ContradictionRatio(m.support, m.contradict);
    var vol := VolatilityScore(m.volEvents);
    Derived(trend, ratio, vol, ComputeAlertLevel(trend, ratio, vol))
  }

  /** Whether the claim becomes disputed on this run. */
  predicate Disputes(c: Claim, d: Derived)
  {
    d.ratio >= ContradictionThreshold && c.status != Disputed
  }

  /** Whether the volatility crosses the alert threshold upwards. */
  predicate VolatilityCrossing(c: Claim, d: Derived)
  {
    d.vol >= VolatilityAlertThreshold && c.volatilityScore < VolatilityAlertThreshold
  }

  /** The five checks, each against the stored payload `c`. */
  function ReinforceCheck(id: string, c: Claim, d: Derived, now: Timestamp): seq<Event>
  {
    if d.trend > c.trendScore then [AgentEvent(now, id, "agent_reinforce", d.trend - c.trendScore, TrendMentions(d.trend))]
    else []
  }

  function ShiftCheck(id: string, c: Claim, m: Metrics, d: Derived, now: Timestamp): seq<Event>
  {
    if Abs(d.ratio - c.contradictionRatio) >= 0.1
    then [AgentEvent(now, id, "agent_contradict_shift", d.ratio - c.contradictionRatio, StanceTally(m.support, m.contradict))]
    else []
  }

  function StatusCheck(id: string, c: Claim, d: Derived, now: Timestamp): seq<Event>
  {
    if Disputes(c, d) then [AgentEvent(now, id, "agent_status_update", 1.0, Text("status set to disputed by contradiction ratio"))]
    else []
  }

  function AlertCheck(id: string, c: Claim, d: Derived, now: Timestamp): seq<Event>
  {
    if c.alertLevel != d.alert && d.alert != Low then [AgentEvent(now, id, "agent_trend_alert", 0.0, AlertChange(d.alert, d.trend, d.ratio))]
    else []
  }

  function VolatilityCheck(id: string, c: Claim, m: Metrics, d: Derived, now: Timestamp): seq<Event>
  {
    if VolatilityCrossing(c, d) then [AgentEvent(now, id, "agent_volatility", d.vol - c.volatilityScore, ConfidenceEvents(m.volEvents))]
    else []
  }

  /** The rules of `run` for one claim with stored payload `c`: the derived
      fields are overwritten, the status only ever moves to disputed, and
      each of the five checks, made against the stored values, logs its
      event independently of the others. */
  function Evolve(id: string, c: Claim, m: Metrics, now: Timestamp): Outcome
  {
    var d := Derive(m);
    var claim := c.(trendScore := d.trend, contradictionRatio := d.ratio, memeVariantCount := m.memeVariants,
                    volatilityScore := d.vol, alertLevel := d.alert, lastAgentUpdateTs := Some(now),
                    status := if Disputes(c, d) then Disputed else c.status);
    Outcome(claim, ReinforceCheck(id, c, d, now) + ShiftCheck(id, c, m, d, now) + StatusCheck(id, c, d, now)
                   + AlertCheck(id, c, d, now) + VolatilityCheck(id, c, m, d, now))
  }

  function EventTypes(es: seq<Event>): seq<string>
  {
    seq(|es|, i requires 0 <= i < |es| => es[i].eventType)
  }

  /** Whether an event of type `t` is among `es`. */
  predicate Logged(es: seq<Event>, t: string)
  {
    exists e :: e in es && e.eventType == t
  }

  /** Only the agent's derived fields and possibly the status are written;
      the status only moves to disputed, and does so exactly when the ratio
      reaches the threshold. */
  lemma EvolveWrites(id: string, c: Claim, m: Metrics, now: Timestamp)
    ensures var o := Evolve(id, c, m, now);
      && o.claim.(trendScore := c.trendScore, contradictionRatio := c.contradictionRatio,
                  memeVariantCount := c.memeVariantCount, volatilityScore := c.volatilityScore,
                  alertLevel := c.alertLevel, lastAgentUpdateTs := c.lastAgentUpdateTs, status := c.status) == c
      && o.claim.trendScore == m.trend as real
      && o.claim.contradictionRatio == ContradictionRatio(m.support, m.contradict)
      && o.claim.memeVariantCount == m.memeVariants
      && o.claim.volatilityScore == VolatilityScore(m.volEvents)
      && o.claim.lastAgentUpdateTs == Some(now)
      && (c.status == Disputed ==> o.claim.status == Disputed)
      && (o.claim.status == Disputed <==> c.status == Disputed || 2 * m.contradict > 3 * m.support)
  {
    RatioReachesThreshold(m.support, m.contradict);
  }

  /** The five event types the agent logs. */
  const AgentEventTypes: seq<string> :=
    ["agent_reinforce", "agent_contradict_shift", "agent_status_update", "agent_trend_alert", "agent_volatility"]

  /** A row the agent logs for claim `id` at `now`. */
  predicate AgentRow(e: Event, id: string, now: Timestamp)
  {
    e.claimId == id && e.timestamp == now && e.sourceId == None && e.eventType in AgentEventTypes
  }

  /** Every agent event belongs to the claim, is stamped `now`, has no
      source and is of one of the five agent types; there are at most five. */
  lemma EvolveEvents(id: string, c: Claim, m: Metrics, now: Timestamp)
    ensures var es := Evolve(id, c, m, now).events;
      |es| <= 5 && forall e :: e in es ==> AgentRow(e, id, now)
  {
    var d := Derive(m);
    var r, sh, st := ReinforceCheck(id, c, d, now), ShiftCheck(id, c, m, d, now), StatusCheck(id, c, d, now);
    var al, vo := AlertCheck(id, c, d, now), VolatilityCheck(id, c, m, d, now);
    assert Evolve(id, c, m, now).events == r + sh + st + al + vo;
    InFive(r, sh, st, al, vo);
    assert forall e :: e in r ==> AgentRow(e, id, now);
    assert forall e :: e in sh ==> AgentRow(e, id, now);
    assert forall e :: e in st ==> AgentRow(e, id, now);
    assert forall e :: e in al ==> AgentRow(e, id, now);
    assert forall e :: e in vo ==> AgentRow(e, id, now);
  }

  /** Membership in, and length of, five concatenated event lists. */
  lemma InFive(a: seq<Event>, b: seq<Event>, c: seq<Event>, d: seq<Event>, f: seq<Event>)
    ensures forall e :: e in a + b + c + d + f <==> e in a || e in b || e in c || e in d || e in f
    ensures |a + b + c + d + f| == |a| + |b| + |c| + |d| + |f|
  {
  }

  /** An event type is in the five appended batches iff it is in one of them. */
  lemma LoggedFive(a: seq<Event>, b: seq<Event>, c: seq<Event>, d: seq<Event>, f: seq<Event>, t: string)
    ensures Logged(a + b + c + d + f, t) <==> Logged(a, t) || Logged(b, t) || Logged(c, t) || Logged(d, t) || Logged(f, t)
  {
    if Logged(a + b + c + d + f, t) {
      InFive(a, b, c, d, f);
    }
  }

  /** Each check fires on its own condition: a reinforce event exactly when
      the trend rose, carrying the increase; a volatility event exactly on
      an upward crossing of 0.7, i.e. from the fourth recent confidence
      event on; a status event exactly when the claim becomes disputed; an
      alert event exactly when the level changes to medium or high. */
  lemma EvolveChecks(id: string, c: Claim, m: Metrics, now: Timestamp)
    ensures var o := Evolve(id, c, m, now);
      && (Logged(o.events, "agent_reinforce") <==> m.trend as real > c.trendScore)
      && (forall e :: e in o.events && e.eventType == "agent_reinforce" ==>
            e.delta == m.trend as real - c.trendScore && e.delta > 0.0)
      && (Logged(o.events, "agent_volatility") <==>
            c.volatilityScore < VolatilityAlertThreshold && m.volEvents >= 4)
      && (Logged(o.events, "agent_status_update") <==>
            c.status != Disputed && o.claim.status == Disputed)
      && (Logged(o.events, "agent_trend_alert") <==>
            o.claim.alertLevel != c.alertLevel && o.claim.alertLevel != Low)
  {
    VolatilityAlertFromFour(m.volEvents);
    EvolveLogged(id, c, m, now, "agent_reinforce");
    EvolveLogged(id, c, m, now, "agent_volatility");
    EvolveLogged(id, c, m, now, "agent_status_update");
    EvolveLogged(id, c, m, now, "agent_trend_alert");
    ReinforceDelta(id, c, m, now);
  }

  /** Which event types one evolution logs, in terms of the derived values. */
  lemma EvolveLogged(id: string, c: Claim, m: Metrics, now: Timestamp, t: string)
    requires t in AgentEventTypes
    ensures var d := Derive(m);
      Logged(Evolve(id, c, m, now).events, t) <==>
        || (t == "agent_reinforce" && d.trend > c.trendScore)
        || (t == "agent_contradict_shift" && Abs(d.ratio - c.contradictionRatio) >= 0.1)
        || (t == "agent_status_update" && Disputes(c, d))
        || (t == "agent_trend_alert" && c.alertLevel != d.alert && d.alert != Low)
        || (t == "agent_volatility" && VolatilityCrossing(c, d))
  {
    var d := Derive(m);
    var r, sh, st := ReinforceCheck(id, c, d, now), ShiftCheck(id, c, m, d, now), StatusCheck(id, c, d, now);
    var al, vo := AlertCheck(id, c, d, now), VolatilityCheck(id, c, m, d, now);
    assert Evolve(id, c, m, now).events == r + sh + st + al + vo;
    LoggedFive(r, sh, st, al, vo, t);
  }

  /** The reinforce event carries the rise of the trend, which is positive. */
  lemma ReinforceDelta(id: string, c: Claim, m: Metrics, now: Timestamp)
    ensures forall e :: e in Evolve(id, c, m, now).events && e.eventType == "agent_reinforce" ==>
      e.delta == m.trend as real - c.trendScore && e.delta > 0.0
  {
    var d := Derive(m);
    var r, sh, st := ReinforceCheck(id, c, d, now), ShiftCheck(id, c, m, d, now), StatusCheck(id, c, d, now);
    var al, vo := AlertCheck(id, c, d, now), VolatilityCheck(id, c, m, d, now);
    assert Evolve(id, c, m, now).events == r + sh + st + al + vo;
    InFive(r, sh, st, al, vo);
  }

  /** When the recomputed values equal the stored ones, only the status
      change can log an event. */
  lemma EvolveSteady(id: string, c: Claim, m: Metrics, now: Timestamp)
    requires c.trendScore == m.trend as real
    requires c.contradictionRatio == ContradictionRatio(m.support, m.contradict)
    requires c.volatilityScore == VolatilityScore(m.volEvents)
    requires c.alertLevel == ComputeAlertLevel(c.trendScore, c.contradictionRatio, c.volatilityScore)
    ensures var es := Evolve(id, c, m, now).events;
      es == [] || EventTypes(es) == ["agent_status_update"]
  {
  }

  /** Running the rules again with the same measurements changes nothing and
      logs nothing. */
  lemma EvolveIdempotent(id: string, c: Claim, m: Metrics, now: Timestamp)
    ensures var o := Evolve(id, c, m, now);
      Evolve(id, o.claim, m, now) == Outcome(o.claim, [])
  {
  }

  /** The summary counters after one processed claim with final alert
      level `alert`, which became disputed when `disputed` and crossed the
      volatility threshold when `volFlag`. */
  function Tally(s: Summary, alert: AlertLevel, disputed: bool, volFlag: bool): Summary
  {
    s.(claimsProcessed := s.claimsProcessed + 1,
       claimsUpdated := s.claimsUpdated + 1,
       claimsDisputed := s.claimsDisputed + if disputed then 1 else 0,
       highAlerts := s.highAlerts + if alert == High then 1 else 0,
       mediumAlerts := s.mediumAlerts + if alert == Medium then 1 else 0,
       volatilityFlags := s.volatilityFlags + if volFlag then 1 else 0)
  }

  /** The counter updates at the end of the loop body. */
  method CountClaim(summary: Summary, alert: AlertLevel, disputed: bool, volFlag: bool) returns (next: Summary)
    ensures next == Tally(summary, alert, disputed, volFlag)
  {
    next := summary;
    if volFlag {
      next := next.(volatilityFlags := next.volatilityFlags + 1);
    }
    next := next.(claimsUpdated := next.claimsUpdated + 1);
    next := next.(claimsProcessed := next.claimsProcessed + 1);
    if alert == High {
      next := next.(highAlerts := next.highAlerts + 1);
    } else if alert == Medium {
      next := next.(mediumAlerts := next.mediumAlerts + 1);
    }
    if disputed {
      next := next.(claimsDisputed := next.claimsDisputed + 1);
    }
  }

  // ---------------------------------------------------------------------------
  // One claim of `run`
  // ---------------------------------------------------------------------------

  /** What the agent reads and writes, as one value. */
  datatype World = World(sources: map<string, Source>, links: seq<ClaimLink>, events: seq<Event>,
                         claims: map<string, Claim>, evidence: map<string, Evidence>, media: map<string, Media>)

  function Snap(db: Database, vs: VectorStore): World
    reads db, vs
  {
    World(db.sources, db.claimLinks, db.events, vs.claims, vs.evidence, vs.media)
  }

  /** The claim's measurements in world `w`. */
  function MetricsIn(w: World, id: string, now: Timestamp, classify: Classifier): Metrics
    requires id in w.claims
  {
    var c := w.claims[id];
    Metrics(TrendCount(w.sources, w.links, id, now),
            StanceCount(w.evidence, id, c.claimText, now, classify, Support),
            StanceCount(w.evidence, id, c.claimText, now, classify, Contradict),
            |VariantKeys(w.media, c.linkedMediaIds)|,
            VolCount(w.events, id, now))
  }

  function OutcomeIn(w: World, id: string, now: Timestamp, classify: Classifier): Outcome
    requires id in w.claims
  {
    Evolve(id, w.claims[id], MetricsIn(w, id, now, classify), now)
  }

  /** The summary after tallying the claim processed in world `w`. */
  function TallyIn(s: Summary, w: World, id: string, now: Timestamp, classify: Classifier): Summary
    requires id in w.claims
  {
    var c := w.claims[id];
    var d := Derive(MetricsIn(w, id, now, classify));
    Tally(s, d.alert, Disputes(c, d), VolatilityCrossing(c, d))
  }

  /** The five checks of the loop body for claim `c` with measurements `m`:
      logs their events in order and returns the patch (with the status
      moved to disputed when that check fires). */
  method LogChecks(db: Database, id: string, c: Claim, m: Metrics, now: Timestamp)
    returns (updates: Claim, disputed: bool, volFlag: bool)
    modifies db`events
    ensures updates == Evolve(id, c, m, now).claim
    ensures db.events == old(db.events) + Evolve(id, c, m, now).events
    ensures disputed == Disputes(c, Derive(m)) && volFlag == VolatilityCrossing(c, Derive(m))
  {
    var d := Derive(m);
    updates := c.(trendScore := d.trend, contradictionRatio := d.ratio, memeVariantCount := m.memeVariants,
                  volatilityScore := d.vol, alertLevel := d.alert, lastAgentUpdateTs := Some(now));
    ghost var events0 := db.events;
    LogReinforce(db, id, c, d, now);
    LogShift(db, id, c, m, d, now);
    disputed := LogStatus(db, id, c, d, now);
    if disputed {
      updates := updates.(status := Disputed);
    }
    LogAlert(db, id, c, d, now);
    volFlag := LogVolatility(db, id, c, m, d, now);
    AppendFive(events0, ReinforceCheck(id, c, d, now), ShiftCheck(id, c, m, d, now), StatusCheck(id, c, d, now),
               AlertCheck(id, c, d, now), VolatilityCheck(id, c, m, d, now));
  }

  /** Appending the five batches one after another is appending them together. */
  lemma AppendFive(e: seq<Event>, a: seq<Event>, b: seq<Event>, c: seq<Event>, d: seq<Event>, f: seq<Event>)
    ensures e + a + b + c + d + f == e + (a + b + c + d + f)
  {
  }

  /** The reinforce check: the trend rose above the stored one. */
  method LogReinforce(db: Database, id: string, c: Claim, d: Derived, now: Timestamp)
    modifies db`events
    ensures db.events == old(db.events) + ReinforceCheck(id, c, d, now)
  {
    if d.trend > c.trendScore {
      LogAgentEvent(db, now, id, "agent_reinforce", d.trend - c.trendScore, TrendMentions(d.trend));
    }
  }

  /** The shift check: the ratio moved by at least 0.1 either way. */
  method LogShift(db: Database, id: string, c: Claim, m: Metrics, d: Derived, now: Timestamp)
    modifies db`events
    ensures db.events == old(db.events) + ShiftCheck(id, c, m, d, now)
  {
    if Abs(d.ratio - c.contradictionRatio) >= 0.1 {
      LogAgentEvent(db, now, id, "agent_contradict_shift", d.ratio - c.contradictionRatio, StanceTally(m.support, m.contradict));
    }
  }

  /** The status check: the ratio reached the threshold and the claim was
      not disputed yet. */
  method LogStatus(db: Database, id: string, c: Claim, d: Derived, now: Timestamp) returns (disputed: bool)
    modifies db`events
    ensures disputed == Disputes(c, d)
    ensures db.events == old(db.events) + StatusCheck(id, c, d, now)
  {
    disputed := false;
    if d.ratio >= ContradictionThreshold && c.status != Disputed {
      disputed := true;
      LogAgentEvent(db, now, id, "agent_status_update", 1.0, Text("status set to disputed by contradiction ratio"));
    }
  }

  /** The alert check: the level changed and is medium or high. */
  method LogAlert(db: Database, id: string, c: Claim, d: Derived, now: Timestamp)
    modifies db`events
    ensures db.events == old(db.events) + AlertCheck(id, c, d, now)
  {
    if c.alertLevel != d.alert && (d.alert == Medium || d.alert == High) {
      LogAgentEvent(db, now, id, "agent_trend_alert", 0.0, AlertChange(d.alert, d.trend, d.ratio));
    }
  }

  /** The volatility check: an upward crossing of the alert threshold. */
  method LogVolatility(db: Database, id: string, c: Claim, m: Metrics, d: Derived, now: Timestamp) returns (flag: bool)
    modifies db`events
    ensures flag == VolatilityCrossing(c, d)
    ensures db.events == old(db.events) + VolatilityCheck(id, c, m, d, now)
  {
    flag := false;
    if d.vol >= VolatilityAlertThreshold && c.volatilityScore < VolatilityAlertThreshold {
      flag := true;
      LogAgentEvent(db, now, id, "agent_volatility", d.vol - c.volatilityScore, ConfidenceEvents(m.volEvents));
    }
  }

  /** The body of the loop of `run` for one claim id: skipped when the claim
      has no stored payload; otherwise measured, patched, logged and
      tallied. `trend` is the id's entry of the trend counts. */
  method ProcessClaim(db: Database, vs: VectorStore, id: string, trend: nat, summary: Summary,
                      now: Timestamp, classify: Classifier) returns (next: Summary)
    requires trend == TrendCount(db.sources, db.claimLinks, id, now)
    modifies db`events, vs`claims, vs`evidence
    ensures id !in old(vs.claims) ==>
      next == summary && vs.claims == old(vs.claims) && vs.evidence == old(vs.evidence) && db.events == old(db.events)
    ensures id in old(vs.claims) ==>
      var w := old(Snap(db, vs));
      var o := OutcomeIn(w, id, now, classify);
      && next == TallyIn(summary, w, id, now, classify)
      && vs.claims == w.claims[id := o.claim]
      && vs.evidence == FillClaimStances(w.evidence, id, w.claims[id].claimText, now, classify)
      && db.events == w.events + o.events
  {
    if id !in vs.claims {
      return summary;
    }
    ghost var w := Snap(db, vs);
    var c := vs.claims[id];
    var support, contradict := EvidenceStanceCounts(vs, id, c.claimText, now, classify);
    var memeVariants := MemeVariantCount(vs, c.linkedMediaIds);
    var volEvents := VolCount(db.events, id, now);
    var m := Metrics(trend, support, contradict, memeVariants, volEvents);
    assert m == MetricsIn(w, id, now, classify);
    var updates, disputed, volFlag := LogChecks(db, id, c, m, now);
    vs.claims := vs.claims[id := updates];
    next := CountClaim(summary, updates.alertLevel, disputed, volFlag);
  }

  // ---------------------------------------------------------------------------
  // run
  // ---------------------------------------------------------------------------

  /** The agent events logged when `ids` are processed in order, every
      measurement taken in world `w`. */
  ghost function EventsOf(w: World, ids: seq<string>, now: Timestamp, classify: Classifier): seq<Event>
  {
    if ids == [] then []
    else
      var id := ids[|ids| - 1];
      EventsOf(w, ids[..|ids| - 1], now, classify) + if id in w.claims then OutcomeIn(w, id, now, classify).events else []
  }

  /** The run summary after processing `ids` in world `w`. */
  ghost function SummaryOf(w: World, ids: seq<string>, now: Timestamp, classify: Classifier): Summary
  {
    if ids == [] then ZeroSummary
    else
      var id := ids[|ids| - 1];
      var s := SummaryOf(w, ids[..|ids| - 1], now, classify);
      if id in w.claims then TallyIn(s, w, id, now, classify) else s
  }

  /** The claims after the ids in `done` have been patched. */
  ghost function ClaimsAfter(w: World, done: set<string>, now: Timestamp, classify: Classifier): map<string, Claim>
  {
    map k | k in w.claims :: if k in done then OutcomeIn(w, k, now, classify).claim else w.claims[k]
  }

  /** The evidence after the stance caches of the claims in `done` have been
      filled. */
  ghost function EvidenceAfter(w: World, done: set<string>, now: Timestamp, classify: Classifier): map<string, Evidence>
  {
    map k | k in w.evidence ::
      var e := w.evidence[k];
      if e.claimId in done && e.claimId in w.claims then FillStance(e, w.claims[e.claimId].claimText, now, classify) else e
  }

  /** The loop invariant of `run`: world `cur` is `w` with the ids in
      `done` processed. */
  ghost predicate Reconciling(cur: World, w: World, done: seq<string>, summary: Summary, now: Timestamp, classify: Classifier)
  {
    && NoDups(done)
    && cur.sources == w.sources && cur.links == w.links && cur.media == w.media
    && cur.claims == ClaimsAfter(w, ToSet(done), now, classify)
    && cur.evidence == EvidenceAfter(w, ToSet(done), now, classify)
    && cur.events == w.events + EventsOf(w, done, now, classify)
    && summary == SummaryOf(w, done, now, classify)
  }

  /** The agent only ever logs agent events. */
  lemma {:induction false} EventsOfAreAgentEvents(w: World, ids: seq<string>, now: Timestamp, classify: Classifier)
    ensures forall e :: e in EventsOf(w, ids, now, classify) ==> e.eventType in AgentEventTypes
  {
    if ids != [] {
      var id := ids[|ids| - 1];
      EventsOfAreAgentEvents(w, ids[..|ids| - 1], now, classify);
      if id in w.claims {
        EvolveEvents(id, w.claims[id], MetricsIn(w, id, now, classify), now);
      }
    }
  }

  /** Filling other claims' stance caches does not change this claim's
      tallies. */
  lemma FrameStances(w: World, done: set<string>, id: string, claimText: string, now: Timestamp,
                     classify: Classifier, s: Stance)
    requires id !in done
    ensures StanceCount(EvidenceAfter(w, done, now, classify), id, claimText, now, classify, s)
            == StanceCount(w.evidence, id, claimText, now, classify, s)
  {
    var ev := EvidenceAfter(w, done, now, classify);
    assert (set k | k in ev && Tallied(ev[k], id, claimText, now, classify, s))
        == (set k | k in w.evidence && Tallied(w.evidence[k], id, claimText, now, classify, s));
  }

  /** The agent's own events never count as volatility. */
  lemma FrameVolatility(w: World, ids: seq<string>, id: string, now: Timestamp, classify: Classifier)
    ensures VolCount(w.events + EventsOf(w, ids, now, classify), id, now) == VolCount(w.events, id, now)
  {
    VolCountAppend(w.events, EventsOf(w, ids, now, classify), id, now);
    EventsOfAreAgentEvents(w, ids, now, classify);
    VolCountIgnores(EventsOf(w, ids, now, classify), id, now);
  }

  /** Processing earlier claims does not change what is measured for a
      later one: each claim is measured as in the world the loop began
      with. */
  lemma ReconcileFrame(cur: World, w: World, done: seq<string>, summary: Summary, id: string,
                       now: Timestamp, classify: Classifier)
    requires Reconciling(cur, w, done, summary, now, classify) && id !in done
    ensures id in cur.claims <==> id in w.claims
    ensures id in w.claims ==>
      cur.claims[id] == w.claims[id] && MetricsIn(cur, id, now, classify) == MetricsIn(w, id, now, classify)
  {
    if id in w.claims {
      var text := w.claims[id].claimText;
      FrameStances(w, ToSet(done), id, text, now, classify, Support);
      FrameStances(w, ToSet(done), id, text, now, classify, Contradict);
      FrameVolatility(w, done, id, now, classify);
    }
  }

  /** Processing one more claim id patches only that claim, and a missing id changes nothing. */
  lemma ClaimsAdvance(w: World, done: set<string>, id: string, now: Timestamp, classify: Classifier)
    ensures id in w.claims ==>
      ClaimsAfter(w, done, now, classify)[id := OutcomeIn(w, id, now, classify).claim] == ClaimsAfter(w, done + {id}, now, classify)
    ensures id !in w.claims ==> ClaimsAfter(w, done + {id}, now, classify) == ClaimsAfter(w, done, now, classify)
  {
  }

  /** Processing one more claim id backfills only that claim's evidence, and a missing id changes nothing. */
  lemma EvidenceAdvance(w: World, done: set<string>, id: string, now: Timestamp, classify: Classifier)
    requires id !in done
    ensures id in w.claims ==>
      FillClaimStances(EvidenceAfter(w, done, now, classify), id, w.claims[id].claimText, now, classify)
      == EvidenceAfter(w, done + {id}, now, classify)
    ensures id !in w.claims ==> EvidenceAfter(w, done + {id}, now, classify) == EvidenceAfter(w, done, now, classify)
  {
  }

  /** The invariant holds before the first claim. */
  lemma ReconcileStart(w: World, now: Timestamp, classify: Classifier)
    ensures Reconciling(w, w, [], ZeroSummary, now, classify)
  {
    assert ToSet<string>([]) == {};
    assert ClaimsAfter(w, {}, now, classify) == w.claims;
    assert EvidenceAfter(w, {}, now, classify) == w.evidence;
  }

  /** One loop step keeps the invariant: `cur'` and `next` are what the loop
      body makes of `cur` and `summary`. */
  lemma ReconcileAdvance(cur: World, w: World, done: seq<string>, summary: Summary, id: string,
                         now: Timestamp, classify: Classifier, cur': World, next: Summary)
    requires Reconciling(cur, w, done, summary, now, classify) && id !in done
    requires id !in cur.claims ==> cur' == cur && next == summary
    requires id in cur.claims ==>
      && cur' == cur.(claims := cur.claims[id := OutcomeIn(cur, id, now, classify).claim],
                      evidence := FillClaimStances(cur.evidence, id, cur.claims[id].claimText, now, classify),
                      events := cur.events + OutcomeIn(cur, id, now, classify).events)
      && next == TallyIn(summary, cur, id, now, classify)
    ensures Reconciling(cur', w, done + [id], next, now, classify)
  {
    ReconcileFrame(cur, w, done, summary, id, now, classify);
    SnocFresh(done, id);
    assert (done + [id])[..|done|] == done;
    if id in w.claims {
      var o := OutcomeIn(cur, id, now, classify);
      assert o == OutcomeIn(w, id, now, classify);
      assert TallyIn(summary, cur, id, now, classify) == TallyIn(summary, w, id, now, classify);
      AdvanceProcess(cur, w, done, summary, id, now, classify, o, next);
    } else {
      AdvanceSkip(cur, w, done, summary, id, now, classify);
    }
  }

  /** Skipping a missing claim keeps the reconcile invariant. */
  lemma AdvanceSkip(cur: World, w: World, done: seq<string>, summary: Summary, id: string,
                    now: Timestamp, classify: Classifier)
    requires Reconciling(cur, w, done, summary, now, classify) && id !in done && id !in w.claims
    ensures Reconciling(cur, w, done + [id], summary, now, classify)
  {
    SnocFresh(done, id);
    assert (done + [id])[..|done|] == done;
    ClaimsAdvance(w, ToSet(done), id, now, classify);
    EvidenceAdvance(w, ToSet(done), id, now, classify);
    assert EventsOf(w, done, now, classify) + [] == EventsOf(w, done, now, classify);
  }

  /** Processing a stored claim keeps the reconcile invariant. */
  lemma AdvanceProcess(cur: World, w: World, done: seq<string>, summary: Summary, id: string,
                       now: Timestamp, classify: Classifier, o: Outcome, next: Summary)
    requires Reconciling(cur, w, done, summary, now, classify) && id !in done && id in w.claims
    requires o == OutcomeIn(w, id, now, classify) && next == TallyIn(summary, w, id, now, classify)
    ensures Reconciling(cur.(claims := cur.claims[id := o.claim],
                             evidence := FillClaimStances(cur.evidence, id, w.claims[id].claimText, now, classify),
                             events := cur.events + o.events),
                        w, done + [id], next, now, classify)
  {
    SnocFresh(done, id);
    assert (done + [id])[..|done|] == done;
    ClaimsAdvance(w, ToSet(done), id, now, classify);
    EvidenceAdvance(w, ToSet(done), id, now, classify);
    assert EventsOf(w, done + [id], now, classify) == EventsOf(w, done, now, classify) + o.events;
    AppendAssoc(w.events, EventsOf(w, done, now, classify), o.events);
  }

  /** Event appends associate. */
  lemma AppendAssoc(a: seq<Event>, b: seq<Event>, c: seq<Event>)
    ensures a + b + c == a + (b + c)
  {
  }

  /** The state after the optional decay sweep of `run`: every claim moved
      as `apply_decay` moves it, its decay events logged, then one system
      event carrying the number of decayed claims. */
  ghost predicate DecayPhase(w: World, mid: World, decayed: seq<string>, now: Timestamp, decayDays: int)
  {
    && mid.sources == w.sources && mid.links == w.links && mid.evidence == w.evidence && mid.media == w.media
    && mid.claims.Keys == w.claims.Keys
    && (forall k :: k in mid.claims ==> mid.claims[k] == Decay.AfterDecay(w.claims[k], now, decayDays))
    && (forall k :: k in decayed ==> k in w.claims)
    && NoDups(decayed) && ToSet(decayed) == Decay.StaleIds(w.claims, now, decayDays)
    && mid.events == w.events + Decay.DecayEvents(decayed, w.claims, now)
                     + [AgentEvent(now, "system", "agent_decay_run", |decayed| as real, DecayApplied(|decayed|))]
  }

  /** The decay half of `ClaimEvolutionAgent.run`: `apply_decay`, then one
      system event carrying the number of decayed claims. */
  method DecaySweep(db: Database, vs: VectorStore, now: Timestamp, decayDays: int)
    returns (ghost decayed: seq<string>)
    modifies db`events, vs`claims
    ensures DecayPhase(old(Snap(db, vs)), Snap(db, vs), decayed, now, decayDays)
  {
    ghost var w := Snap(db, vs);
    var updated;
    updated, decayed := Decay.ApplyDecay(db, vs, now, decayDays);
    LogAgentEvent(db, now, "system", "agent_decay_run", updated as real, DecayApplied(updated));
    ghost var mid := Snap(db, vs);
    assert mid.sources == w.sources && mid.links == w.links && mid.evidence == w.evidence && mid.media == w.media;
    assert mid.claims == vs.claims && w.claims == old(vs.claims);
  }

  /** One pass of the loop of `run`: claim `ids[i]` is processed against
      the state the earlier claims left behind. */
  method ReconcileStep(db: Database, vs: VectorStore, ghost w: World, ids: seq<string>, i: nat,
                       trend: nat, summary: Summary, now: Timestamp, classify: Classifier)
    returns (next: Summary)
    requires NoDups(ids) && i < |ids|
    requires Reconciling(Snap(db, vs), w, ids[..i], summary, now, classify)
    requires trend == TrendCount(w.sources, w.links, ids[i], now)
    modifies db`events, vs`claims, vs`evidence
    ensures Reconciling(Snap(db, vs), w, ids[..i + 1], next, now, classify)
  {
    var id := ids[i];
    assert id !in ids[..i];
    ghost var cur := Snap(db, vs);
    next := ProcessClaim(db, vs, id, trend, summary, now, classify);
    ReconcileAdvance(cur, w, ids[..i], summary, id, now, classify, Snap(db, vs), next);
    assert ids[..i + 1] == ids[..i] + [id];
  }

  /** The reconciliation half of `ClaimEvolutionAgent.run`: every claim of
      the working set is processed once, in the order the links give. */
  method Reconcile(db: Database, vs: VectorStore, sourceIds: seq<string>, fullScan: bool,
                   now: Timestamp, classify: Classifier)
    returns (summary: Summary, ghost ids: seq<string>)
    modifies db`events, vs`claims, vs`evidence
    ensures NoDups(ids) && ToSet(ids) == LinkedIds(old(db.claimLinks), sourceIds, fullScan)
    ensures Reconciling(Snap(db, vs), old(Snap(db, vs)), ids, summary, now, classify)
  {
    ghost var w := Snap(db, vs);
    var claimIds := FetchClaimIds(db, sourceIds, fullScan);
    ids := claimIds;
    summary := ZeroSummary;
    ReconcileStart(w, now, classify);
    if claimIds == [] {
      return;
    }
    var trendCounts := TrendCounts(db.sources, db.claimLinks, claimIds, now);
    for i := 0 to |claimIds|
      invariant db.sources == w.sources && db.claimLinks == w.links
      invariant Reconciling(Snap(db, vs), w, claimIds[..i], summary, now, classify)
    {
      summary := ReconcileStep(db, vs, w, claimIds, i, GetOr(trendCounts, claimIds[i], 0), summary, now, classify);
    }
    assert claimIds[..|claimIds|] == claimIds;
  }

  /** `ClaimEvolutionAgent.run`. The stance classifier is `classify`; the
      clock is `now`. With `runDecay`, the decay sweep runs first and the
      claims are measured after it (`mid`). */
  method Run(db: Database, vs: VectorStore, sourceIds: seq<string>, fullScan: bool, runDecay: bool,
             now: Timestamp, decayDays: int, classify: Classifier)
    returns (summary: Summary, ghost ids: seq<string>, ghost mid: World, ghost decayed: seq<string>)
    modifies db`events, vs`claims, vs`evidence
    ensures NoDups(ids) && ToSet(ids) == LinkedIds(old(db.claimLinks), sourceIds, fullScan)
    ensures !runDecay ==> mid == old(Snap(db, vs))
    ensures runDecay ==> DecayPhase(old(Snap(db, vs)), mid, decayed, now, decayDays)
    ensures summary == SummaryOf(mid, ids, now, classify)
    ensures vs.claims == ClaimsAfter(mid, ToSet(ids), now, classify)
    ensures vs.evidence == EvidenceAfter(mid, ToSet(ids), now, classify)
    ensures db.events == mid.events + EventsOf(mid, ids, now, classify)
  {
    decayed := [];
    if runDecay {
      decayed := DecaySweep(db, vs, now, decayDays);
    }
    mid := Snap(db, vs);
    summary, ids := Reconcile(db, vs, sourceIds, fullScan, now, classify);
  }
}
