/** agents/orchestrator.py: picks the sources a run of the claim evolution
    agent looks at, runs it, and records the run in the agent-state table. */
module Orchestrator {
  import opened Wrappers
  import opened SeqUtils
  import opened Schemas
  import opened Stores
  import AgentState
  import EvolutionAgent

  /** The name the claim evolution agent registers its state under. */
  const AgentName: string := "claim_evolution"

  /** Whether a source is newer than the watermark; with no watermark every
      source is. */
  predicate After(s: Source, since: Option<Timestamp>)
  {
    since == None || s.timestamp > since.value
  }

  /** The ids of `sources` that `_fetch_sources_since` selects. */
  function SelectedSources(sources: map<string, Source>, since: Option<Timestamp>): set<string>
  {
    set k | k in sources && After(sources[k], since)
  }

  /** `ids` names sources in ascending timestamp order. */
  predicate ByTimestamp(sources: map<string, Source>, ids: seq<string>)
  {
    && (forall i :: 0 <= i < |ids| ==> ids[i] in sources)
    && (forall i, j :: 0 <= i < j < |ids| ==> sources[ids[i]].timestamp <= sources[ids[j]].timestamp)
  }

  /** A finite set of sources has an earliest one. */
  lemma {:induction false} EarliestExists(sources: map<string, Source>, todo: set<string>)
    requires todo != {} && todo <= sources.Keys
    ensures exists k :: k in todo && forall j :: j in todo ==> sources[k].timestamp <= sources[j].timestamp
    decreases |todo|
  {
    var x :| x in todo;
    if todo != {x} {
      EarliestExists(sources, todo - {x});
      var m :| m in todo - {x} && forall j :: j in todo - {x} ==> sources[m].timestamp <= sources[j].timestamp;
      if sources[x].timestamp < sources[m].timestamp {
        assert forall j :: j in todo ==> sources[x].timestamp <= sources[j].timestamp;
      } else {
        assert forall j :: j in todo ==> sources[m].timestamp <= sources[j].timestamp;
      }
    }
  }

  /** The state of the scan of `_fetch_sources_since` with the sources of
      `todo` still to visit: the selected ones among the others are listed,
      in timestamp order and each once, and none of them is later than a
      source still to visit. */
  ghost predicate Fetching(sources: map<string, Source>, since: Option<Timestamp>, todo: set<string>, ids: seq<string>)
  {
    && todo <= sources.Keys
    && ToSet(ids) == SelectedSources(sources, since) - todo
    && NoDups(ids) && ByTimestamp(sources, ids)
    && forall i, j :: 0 <= i < |ids| && j in todo ==> sources[ids[i]].timestamp <= sources[j].timestamp
  }

  /** Visiting the earliest remaining source keeps the scan state. */
  lemma FetchStep(sources: map<string, Source>, since: Option<Timestamp>, todo: set<string>, ids: seq<string>, k: string)
    requires Fetching(sources, since, todo, ids) && k in todo
    requires forall j :: j in todo ==> sources[k].timestamp <= sources[j].timestamp
    ensures After(sources[k], since) ==> Fetching(sources, since, todo - {k}, ids + [k])
    ensures !After(sources[k], since) ==> Fetching(sources, since, todo - {k}, ids)
  {
    assert k !in ToSet(ids);
    if After(sources[k], since) {
      SnocFresh(ids, k);
      var r := ids + [k];
      assert forall i :: 0 <= i < |ids| ==> r[i] == ids[i];
    }
  }

  /** `_fetch_sources_since`: the ids of the sources stamped after `since`
      (all of them when there is no watermark), ordered by timestamp. */
  method FetchSourcesSince(db: Database, since: Option<Timestamp>) returns (ids: seq<string>)
    ensures ToSet(ids) == SelectedSources(db.sources, since)
    ensures NoDups(ids) && ByTimestamp(db.sources, ids)
  {
    ids := [];
    var todo := db.sources.Keys;
    while todo != {}
      invariant Fetching(db.sources, since, todo, ids)
      decreases |todo|
    {
      EarliestExists(db.sources, todo);
      var k :| k in todo && forall j :: j in todo ==> db.sources[k].timestamp <= db.sources[j].timestamp;
      FetchStep(db.sources, since, todo, ids, k);
      if After(db.sources[k], since) {
        ids := ids + [k];
      }
      todo := todo - {k};
    }
  }

  /** The state row recorded after every run: the run's time, no cursor,
      and the summary under "last_summary". */
  function RunRecord(now: Timestamp, summary: Summary, dumps: Json -> string): AgentStateRow
  {
    AgentState.StateRow(Some(now), None, JObj([("last_summary", SummaryJson(summary))]), dumps)
  }

  /** `run_claim_evolution_agent`. The watermark is the `last_run_ts` of the
      agent's stored state, if any; the run itself is
      `EvolutionAgent.Run`, whose summary is returned unchanged. */
  method RunClaimEvolutionAgent(db: Database, vs: VectorStore, given: Option<seq<string>>, fullScan: bool,
                                runDecay: bool, now: Timestamp, decayDays: int,
                                classify: EvolutionAgent.Classifier, loads: string -> Option<Json>,
                                dumps: Json -> string)
    returns (summary: Summary, ghost selected: seq<string>, ghost ids: seq<string>, ghost mid: EvolutionAgent.World)
    modifies db`events, db`agentState, vs`claims, vs`evidence
    ensures var state := AgentState.GetAgentState(old(db.agentState), AgentName, loads);
      var since := if state.Some? then state.value.lastRunTs else None;
      && (fullScan ==> ToSet(selected) == SelectedSources(old(db.sources), None))
      && (!fullScan && given.Some? ==> selected == given.value)
      && (!fullScan && given == None ==> ToSet(selected) == SelectedSources(old(db.sources), since))
      && (fullScan || given == None ==> NoDups(selected) && ByTimestamp(old(db.sources), selected))
    ensures NoDups(ids) && ToSet(ids) == EvolutionAgent.LinkedIds(old(db.claimLinks), selected, fullScan)
    ensures summary == EvolutionAgent.SummaryOf(mid, ids, now, classify)
    ensures vs.claims == EvolutionAgent.ClaimsAfter(mid, ToSet(ids), now, classify)
    ensures vs.evidence == EvolutionAgent.EvidenceAfter(mid, ToSet(ids), now, classify)
    ensures db.events == mid.events + EvolutionAgent.EventsOf(mid, ids, now, classify)
    ensures !runDecay ==> mid == old(EvolutionAgent.Snap(db, vs))
    ensures db.agentState == old(db.agentState)[AgentName := RunRecord(now, summary, dumps)]
  {
    var state := AgentState.GetAgentState(db.agentState, AgentName, loads);
    var since := if state.Some? then state.value.lastRunTs else None;
    var sourceIds: seq<string>;
    if fullScan {
      sourceIds := FetchSourcesSince(db, None);
    } else if given == None {
      sourceIds := FetchSourcesSince(db, since);
    } else {
      sourceIds := given.value;
    }
    selected := sourceIds;
    ghost var decayed;
    summary, ids, mid, decayed := EvolutionAgent.Run(db, vs, sourceIds, fullScan, runDecay, now, decayDays, classify);
    AgentState.SetAgentState(db, AgentName, Some(now), None,
                             JObj([("last_summary", SummaryJson(summary))]), dumps);
  }

  /** What the next run without a list of sources looks at: the sources
      newer than the run just recorded, read back from the state table. */
  lemma NextRunWatermark(table: map<string, AgentStateRow>, now: Timestamp, summary: Summary,
                         dumps: Json -> string, loads: string -> Option<Json>, sources: map<string, Source>)
    ensures var state := AgentState.GetAgentState(table[AgentName := RunRecord(now, summary, dumps)], AgentName, loads);
      && state.Some? && state.value.lastRunTs == Some(now)
      && SelectedSources(sources, state.value.lastRunTs) == set k | k in sources && sources[k].timestamp > now
  {
    AgentState.SetThenGet(table, AgentName, AgentName, Some(now), None,
                          JObj([("last_summary", SummaryJson(summary))]), dumps, loads);
  }

  /** A watermark only ever narrows the selection, and a later one narrows
      it further. */
  lemma WatermarkNarrows(sources: map<string, Source>, t: Timestamp, t': Timestamp)
    requires t <= t'
    ensures SelectedSources(sources, Some(t')) <= SelectedSources(sources, Some(t)) <= SelectedSources(sources, None)
    ensures SelectedSources(sources, None) == sources.Keys
  {
  }
}
