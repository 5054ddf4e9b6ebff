/** memory/events.py: the append-only event ledger. */
module Events {
  import opened Wrappers
  import opened SeqUtils
  import opened Schemas
  import opened Stores

  /** `log_event`: appends the six-column row stamped with `now` and touches
      nothing else. */
  method LogEvent(db: Database, now: Timestamp, claimId: string, eventType: string, delta: real,
                  reason: Reason, sourceId: Option<string>)
    modifies db`events
    ensures db.events == old(db.events) + [Event(now, claimId, eventType, delta, reason, sourceId)]
  {
    db.events := db.events + [Event(now, claimId, eventType, delta, reason, sourceId)];
  }

  /** Number of ledger rows of one type. */
  function CountType(events: seq<Event>, eventType: string): (n: nat)
    ensures n <= |events|
  {
    if events == [] then 0
    else CountType(events[..|events| - 1], eventType) + (if events[|events| - 1].eventType == eventType then 1 else 0)
  }

  /** Appending a row adds one to the count of its type and leaves the other
      types' counts alone; the earlier rows are untouched. */
  lemma {:induction false} AppendCounts(events: seq<Event>, e: Event, t: string)
    ensures CountType(events + [e], t) == CountType(events, t) + (if e.eventType == t then 1 else 0)
    ensures (events + [e])[..|events|] == events
  {
    assert (events + [e])[..|events|] == events;
  }

  // ---------------------------------------------------------------------------
  // Calls that pass `agent_name`
  // ---------------------------------------------------------------------------

  /** The parameters of `log_event`, in order; the first four are required. */
  const LogEventParams: seq<string> := ["claim_id", "event_type", "delta", "reason", "source_id"]
  const RequiredParams: nat := 4

  datatype CallError = TooManyPositional | UnexpectedKeyword(name: string) | MultipleValues(name: string) | MissingArgument

  /** How Python binds a call of `log_event` with `positional` positional
      arguments and the given keyword names, raising `TypeError` before the
      body runs. As CPython does it: the keywords are bound first, in call
      order, and the first that is not a parameter, or names one already
      given, is reported; only then come too many positionals, and last a
      required parameter not given at all. */
  function BindLogEvent(positional: nat, keywords: seq<string>): (r: Result<(), CallError>)
    ensures r.Success? <==>
      && positional <= |LogEventParams|
      && NoDups(keywords)
      && (forall k :: k in keywords ==> k in LogEventParams[positional..])
      && (forall i :: positional <= i < RequiredParams ==> LogEventParams[i] in keywords)
    ensures BindKeywords(keywords, PyPrefix(LogEventParams, positional)).Some? ==>
      r == Failure(BindKeywords(keywords, PyPrefix(LogEventParams, positional)).value)
  {
    var given := PyPrefix(LogEventParams, positional);
    assert forall k :: k in LogEventParams && k !in given <==> k in LogEventParams[|given|..] by {
      ParamsSplit(|given|);
    }
    match BindKeywords(keywords, given)
    case Some(e) => Failure(e)
    case None =>
      if positional > |LogEventParams| then
        assert given == LogEventParams;
        Failure(TooManyPositional)
      else if forall i :: positional <= i < RequiredParams ==> LogEventParams[i] in keywords then Success(())
      else Failure(MissingArgument)
  }

  /** The keyword arguments bound in call order on top of the parameters
      already `bound`: the error for the first keyword that is not a
      parameter or repeats a bound one, if any. */
  function BindKeywords(keywords: seq<string>, bound: seq<string>): (r: Option<CallError>)
    ensures r == None <==>
      && NoDups(keywords)
      && (forall k :: k in keywords ==> k in LogEventParams && k !in bound)
    ensures r.Some? ==>
      exists k :: k in keywords && (r.value == UnexpectedKeyword(k) || r.value == MultipleValues(k))
  {
    if keywords == [] then None
    else
      var k := keywords[0];
      if k !in LogEventParams then Some(UnexpectedKeyword(k))
      else if k in bound then Some(MultipleValues(k))
      else
        var r := BindKeywords(keywords[1..], bound + [k]);
        assert keywords == [k] + keywords[1..];
        assert forall x :: x in keywords <==> x == k || x in keywords[1..];
        assert NoDups(keywords) <==> NoDups(keywords[1..]) && k !in keywords[1..] by {
          NoDupsCons(keywords);
        }
        r
  }

  /** The parameters are distinct, so those not among the first `n` are the
      rest of the list. */
  lemma ParamsSplit(n: nat)
    requires n <= |LogEventParams|
    ensures forall k :: k in LogEventParams && k !in LogEventParams[..n] <==> k in LogEventParams[n..]
  {
    assert NoDups(LogEventParams);
  }

  /** Every agent and scheduler call site passes the four required values
      positionally plus `agent_name=`: the call raises `TypeError`, so the
      row is never written. */
  lemma AgentNameCallRejected()
    ensures BindLogEvent(4, ["agent_name"]) == Failure(UnexpectedKeyword("agent_name"))
  {
  }

  /** Keyword errors come before the positional count: the unknown
      `agent_name` is reported even with six positionals, and a repeated
      `source_id` before the unknown keyword that follows it. */
  lemma KeywordErrorsFirst()
    ensures BindLogEvent(6, ["agent_name"]) == Failure(UnexpectedKeyword("agent_name"))
    ensures BindLogEvent(5, ["source_id", "agent_name"]) == Failure(MultipleValues("source_id"))
  {
    assert PyPrefix(LogEventParams, 5) == LogEventParams;
    assert "source_id" in LogEventParams;
  }

  /** The same calls without `agent_name` bind, with `source_id` taking its
      default. */
  lemma CallWithoutAgentNameBinds()
    ensures BindLogEvent(4, []) == Success(())
    ensures BindLogEvent(5, []) == Success(())
    ensures BindLogEvent(3, []) == Failure(MissingArgument)
  {
    assert LogEventParams[3] !in [];
  }

  /** The agents' logging as evidently intended: the six-column row, with
      `source_id` None and the agent's name dropped (the table has no column
      for it). */
  method LogAgentEvent(db: Database, now: Timestamp, claimId: string, eventType: string, delta: real, reason: Reason)
    modifies db`events
    ensures db.events == old(db.events) + [Event(now, claimId, eventType, delta, reason, None)]
  {
    LogEvent(db, now, claimId, eventType, delta, reason, None);
  }
}
