/** storage/agent_state.py: one progress row per agent name, with a JSON
    "extra" column. */
module AgentState {
  import opened Wrappers
  import opened Schemas
  import opened Stores

  /** The `extra_json` entry `get_agent_state` returns: nothing, the decoded
      value, or the raw text when it is not valid JSON. */
  datatype Decoded = Nothing | Value(value: Json) | Raw(text: string)

  datatype State = State(agentName: string, lastRunTs: Option<Timestamp>, cursor: Option<string>, extra: Decoded)

  /** How `set_agent_state` stores its `extra_json` argument `e`, a
      JSON-encodable Python value with `JNull` standing for `None`: `None` as
      NULL, a `str` verbatim, anything else through `dumps` (`json.dumps`). */
  function EncodeExtra(e: Json, dumps: Json -> string): (r: Option<string>)
    ensures e.JNull? <==> r == None
    ensures e.JStr? ==> r == Some(e.s)
    ensures !e.JNull? && !e.JStr? ==> r == Some(dumps(e))
  {
    match e
    case JNull => None
    case JStr(t) => Some(t)
    case _ => Some(dumps(e))
  }

  /** How `get_agent_state` reads it back; `loads` is `json.loads`, with
      `None` for a decoding error. Empty text counts as nothing stored. */
  function DecodeExtra(stored: Option<string>, loads: string -> Option<Json>): (d: Decoded)
    ensures stored == None || stored == Some("") ==> d == Nothing
    ensures stored.Some? && stored.value != "" && loads(stored.value).Some? ==> d == Value(loads(stored.value).value)
    ensures stored.Some? && stored.value != "" && loads(stored.value) == None ==> d == Raw(stored.value)
  {
    match stored
    case None => Nothing
    case Some(t) =>
      if t == "" then Nothing
      else match loads(t)
        case Some(v) => Value(v)
        case None => Raw(t)
  }

  /** `get_agent_state` over the table. */
  function GetAgentState(table: map<string, AgentStateRow>, name: string, loads: string -> Option<Json>): (r: Option<State>)
    ensures name !in table <==> r == None
    ensures r.Some? ==> (r.value.agentName == name && r.value.lastRunTs == table[name].lastRunTs
      && r.value.cursor == table[name].cursor && r.value.extra == DecodeExtra(table[name].extraJson, loads))
  {
    if name !in table then None
    else
      var row := table[name];
      Some(State(name, row.lastRunTs, row.cursor, DecodeExtra(row.extraJson, loads)))
  }

  /** The row `set_agent_state` writes. */
  function StateRow(lastRunTs: Option<Timestamp>, cursor: Option<string>, extra: Json, dumps: Json -> string): AgentStateRow
  {
    AgentStateRow(lastRunTs, cursor, EncodeExtra(extra, dumps))
  }

  /** `set_agent_state`: insert, or overwrite all three columns of the
      existing row for `name`. */
  method SetAgentState(db: Database, name: string, lastRunTs: Option<Timestamp>, cursor: Option<string>,
                       extra: Json, dumps: Json -> string)
    modifies db`agentState
    ensures db.agentState == old(db.agentState)[name := StateRow(lastRunTs, cursor, extra, dumps)]
  {
    var payload: Option<string> := None;
    if !extra.JNull? {
      payload := if extra.JStr? then Some(extra.s) else Some(dumps(extra));
    }
    db.agentState := db.agentState[name := AgentStateRow(lastRunTs, cursor, payload)];
  }

  /** Reading back what was set: the same timestamp and cursor; `None`
      comes back as nothing; a value other than a string that `json`
      round-trips comes back as itself (strings are stored verbatim, see
      `TextExtraReadBack`); every other agent's row is untouched. */
  lemma SetThenGet(table: map<string, AgentStateRow>, name: string, other: string, lastRunTs: Option<Timestamp>,
                   cursor: Option<string>, extra: Json, dumps: Json -> string, loads: string -> Option<Json>)
    ensures var t := table[name := StateRow(lastRunTs, cursor, extra, dumps)];
      && GetAgentState(t, name, loads).Some?
      && GetAgentState(t, name, loads).value.lastRunTs == lastRunTs
      && GetAgentState(t, name, loads).value.cursor == cursor
      && (extra.JNull? ==> GetAgentState(t, name, loads).value.extra == Nothing)
      && (!extra.JNull? && !extra.JStr? && dumps(extra) != "" && loads(dumps(extra)) == Some(extra) ==>
            GetAgentState(t, name, loads).value.extra == Value(extra))
      && (other != name ==> GetAgentState(t, other, loads) == GetAgentState(table, other, loads))
  {
  }

  /** A string extra is stored verbatim but read back through `json.loads`:
      text that is not JSON comes back raw, the empty string comes back as
      nothing, and text that is JSON comes back decoded (the string "123"
      comes back as the number 123). */
  lemma TextExtraReadBack(table: map<string, AgentStateRow>, name: string, s: string,
                          dumps: Json -> string, loads: string -> Option<Json>)
    ensures var t := table[name := StateRow(None, None, JStr(s), dumps)];
      && (s == "" ==> GetAgentState(t, name, loads).value.extra == Nothing)
      && (s != "" && loads(s) == None ==> GetAgentState(t, name, loads).value.extra == Raw(s))
      && (s != "" && loads(s).Some? ==> GetAgentState(t, name, loads).value.extra == Value(loads(s).value))
  {
  }
}
