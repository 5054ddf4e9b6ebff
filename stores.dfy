/** The two stores behind the engine: the SQLite ledger (tables `sources`,
    `claim_links`, `events` and `agent_state`, storage/sqlite.py and
    storage/agent_state.py) and the three vector-store collections (claims,
    evidence and media, keyed by point id). */
module Stores {
  import opened Schemas

  class Database {
    /** `sources`, keyed by its primary key `source_id`. */
    var sources: map<string, Source>
    /** `claim_links`, in insertion order (no key, duplicates allowed). */
    var claimLinks: seq<ClaimLink>
    /** `events`, the append-only ledger. */
    var events: seq<Event>
    /** `agent_state`, keyed by its primary key `agent_name`. */
    var agentState: map<string, AgentStateRow>

    constructor()
      ensures sources == map[] && claimLinks == [] && events == [] && agentState == map[]
    {
      sources := map[];
      claimLinks := [];
      events := [];
      agentState := map[];
    }
  }

  /** The payloads of the three collections; vectors are not modelled. */
  class VectorStore {
    var claims: map<string, Claim>
    var evidence: map<string, Evidence>
    var media: map<string, Media>

    constructor()
      ensures claims == map[] && evidence == map[] && media == map[]
    {
      claims := map[];
      evidence := map[];
      media := map[];
    }
  }

  /** A scored hit of a vector search. */
  datatype Match = Match(id: string, score: real)
}
