/** core/schemas.py: the record shapes kept in the vector store, plus the
    JSON values that travel through payloads and the agent-state table. */
module Schemas {
  import opened Wrappers

  /** Instants are whole seconds; ISO-8601 text is not modelled. */
  type Timestamp = int

  const DAY: int := 86400

  /** A decoded JSON value (`json.loads` / `json.dumps` work on these). */
  datatype Json =
    | JNull
    | JBool(b: bool)
    | JInt(i: int)
    | JReal(r: real)
    | JStr(s: string)
    | JArr(items: seq<Json>)
    | JObj(fields: seq<(string, Json)>)

  datatype Stance = Support | Contradict | Mention

  /** The wire name of a stance. */
  function StanceName(s: Stance): (name: string)
    ensures name in {"support", "contradict", "mention"}
  {
    match s
    case Support => "support"
    case Contradict => "contradict"
    case Mention => "mention"
  }

  /** The two statuses the code ever writes. */
  datatype Status = Unverified | Disputed

  datatype AlertLevel = Low | Medium | High

  datatype Claim = Claim(
    canonicalClaimId: string,
    claimText: string,
    firstSeenTs: Timestamp,
    lastSeenTs: Timestamp,
    mentionCount: int,
    sourceTypes: seq<string>,
    supportCount: int,
    contradictCount: int,
    confidence: real,
    status: Status,
    linkedEvidenceIds: seq<string>,
    linkedMediaIds: seq<string>,
    trendScore: real,
    contradictionRatio: real,
    memeVariantCount: int,
    volatilityScore: real,
    alertLevel: AlertLevel,
    lastAgentUpdateTs: Option<Timestamp>,
    language: Option<string>,
    entities: seq<string>,
    topics: seq<string>)

  /** A `Claim` built from its required fields, every optional field taking
      its declared default. */
  function ClaimWithDefaults(
    id: string, text: string, firstSeen: Timestamp, lastSeen: Timestamp, mentions: int,
    sourceTypes: seq<string>, support: int, contradict: int, confidence: real, status: Status): (c: Claim)
    ensures c.canonicalClaimId == id && c.claimText == text && c.mentionCount == mentions
    ensures c.firstSeenTs == firstSeen && c.lastSeenTs == lastSeen && c.sourceTypes == sourceTypes
    ensures c.supportCount == support && c.contradictCount == contradict
    ensures c.confidence == confidence && c.status == status
    ensures c.linkedEvidenceIds == [] && c.linkedMediaIds == [] && c.entities == [] && c.topics == []
    ensures c.trendScore == 0.0 && c.contradictionRatio == 0.0 && c.memeVariantCount == 0
    ensures c.volatilityScore == 0.0 && c.alertLevel == Low && c.lastAgentUpdateTs == None
    ensures c.language == None
  {
    Claim(id, text, firstSeen, lastSeen, mentions, sourceTypes, support, contradict, confidence, status,
          [], [], 0.0, 0.0, 0, 0.0, Low, None, None, [], [])
  }

  /** An evidence snippet. `stance` is `None` when the payload has no stance
      (or an empty one); `timestamp` is `None` when it is missing or does not
      parse. */
  datatype Evidence = Evidence(
    evidenceId: string,
    claimId: string,
    snippetText: string,
    stance: Option<Stance>,
    sourceId: string,
    sourceType: string,
    timestamp: Option<Timestamp>,
    url: Option<string>,
    credibilityTier: string)

  function EvidenceWithDefaults(
    id: string, claimId: string, text: string, stance: Option<Stance>,
    sourceId: string, sourceType: string, ts: Option<Timestamp>): (e: Evidence)
    ensures e.evidenceId == id && e.claimId == claimId && e.snippetText == text && e.stance == stance
    ensures e.sourceId == sourceId && e.sourceType == sourceType && e.timestamp == ts
    ensures e.url == None && e.credibilityTier == "C"
  {
    Evidence(id, claimId, text, stance, sourceId, sourceType, ts, None, "C")
  }

  /** A meme image; `phash` may be empty, which the agent treats as absent. */
  datatype Media = Media(
    mediaId: string,
    sourceId: string,
    timestamp: Timestamp,
    phash: string,
    ocrText: string,
    linkedClaimIds: seq<string>,
    templateClusterId: Option<string>)

  function MediaWithDefaults(
    id: string, sourceId: string, ts: Timestamp, phash: string, ocr: string, claims: seq<string>): (m: Media)
    ensures m.mediaId == id && m.sourceId == sourceId && m.timestamp == ts && m.phash == phash
    ensures m.ocrText == ocr && m.linkedClaimIds == claims && m.templateClusterId == None
  {
    Media(id, sourceId, ts, phash, ocr, claims, None)
  }

  /** The `reason` text of a ledger row, kept structured (the numbers inside
      the f-strings are rendered by Python's float formatting). */
  datatype Reason =
    | Text(text: string)
    | DecayApplied(count: int)
    | TrendMentions(trend: real)
    | StanceTally(support: int, contradict: int)
    | AlertChange(level: AlertLevel, trend: real, ratio: real)
    | ConfidenceEvents(count: int)

  /** A row of the `events` table. */
  datatype Event = Event(
    timestamp: Timestamp,
    claimId: string,
    eventType: string,
    delta: real,
    reason: Reason,
    sourceId: Option<string>)

  /** A row of the `sources` table. */
  datatype Source = Source(
    sourceType: string,
    title: string,
    timestamp: Timestamp,
    url: Option<string>,
    textHash: string)

  /** A row of the `claim_links` table. */
  datatype ClaimLink = ClaimLink(sourceId: string, claimId: string)

  /** A row of the `agent_state` table (keyed by agent name). */
  datatype AgentStateRow = AgentStateRow(lastRunTs: Option<Timestamp>, cursor: Option<string>, extraJson: Option<string>)

  /** What a call to Ollama produced: an exception (from the request, its
      status or its JSON body), or a body whose "response" field may be
      missing. */
  datatype OllamaReply = OllamaFailed | OllamaReplied(response: Option<string>)

  /** The agent's run summary. */
  datatype Summary = Summary(
    claimsProcessed: nat,
    claimsUpdated: nat,
    claimsDisputed: nat,
    highAlerts: nat,
    mediumAlerts: nat,
    volatilityFlags: nat)

  const ZeroSummary := Summary(0, 0, 0, 0, 0, 0)

  /** The summary as the JSON object the orchestrator stores. */
  function SummaryJson(s: Summary): Json
  {
    JObj([("claims_processed", JInt(s.claimsProcessed)), ("claims_updated", JInt(s.claimsUpdated)),
          ("claims_disputed", JInt(s.claimsDisputed)), ("high_alerts", JInt(s.highAlerts)),
          ("medium_alerts", JInt(s.mediumAlerts)), ("volatility_flags", JInt(s.volatilityFlags))])
  }
}
