/** memory/decay.py: the sweep that pulls stale claims toward neutral
    confidence. */
module Decay {
  import opened Wrappers
  import opened SeqUtils
  import opened Schemas
  import opened Stores
  import opened Events

  /** One decay step: 10% of the way toward 0.5. */
  function Decayed(current: real): (r: real)
    ensures r - 0.5 == 0.9 * (current - 0.5)
  {
    current + (0.5 - current) * 0.1
  }

  /** The step never overshoots 0.5, keeps a value in [0,1] in [0,1], and
      leaves 0.5 where it is. */
  lemma DecayedFacts(current: real)
    ensures current >= 0.5 ==> 0.5 <= Decayed(current) <= current
    ensures current <= 0.5 ==> current <= Decayed(current) <= 0.5
    ensures 0.0 <= current <= 1.0 ==> 0.0 <= Decayed(current) <= 1.0
    ensures Decayed(current) == current <==> current == 0.5
  {
  }

  /** Repeated sweeps: after `n` steps the distance to 0.5 is 0.9^n of the
      original. */
  function Pow9(n: nat): real
  {
    if n == 0 then 1.0 else 0.9 * Pow9(n - 1)
  }

  function DecayedN(current: real, n: nat): real
  {
    if n == 0 then current else Decayed(DecayedN(current, n - 1))
  }

  /** `n` decay steps leave 0.9 to the power `n` of the distance to 0.5. */
  lemma {:induction false} DecayedNDistance(current: real, n: nat)
    ensures DecayedN(current, n) - 0.5 == Pow9(n) * (current - 0.5)
  {
    if n > 0 {
      DecayedNDistance(current, n - 1);
    }
  }

  /** A claim is stale when it was last seen before the cutoff. */
  predicate IsStale(c: Claim, now: Timestamp, decayDays: int)
  {
    c.lastSeenTs < now - decayDays * DAY
  }

  /** The payload patch: only `confidence` is written. */
  function DecayedClaim(c: Claim): (d: Claim)
    ensures d.confidence == Decayed(c.confidence)
    ensures d.(confidence := c.confidence) == c
  {
    c.(confidence := Decayed(c.confidence))
  }

  /** What the sweep leaves in the store for one claim. */
  function AfterDecay(c: Claim, now: Timestamp, decayDays: int): Claim
  {
    if IsStale(c, now, decayDays) then DecayedClaim(c) else c
  }

  ghost function StaleIds(claims: map<string, Claim>, now: Timestamp, decayDays: int): set<string>
  {
    set id | id in claims && IsStale(claims[id], now, decayDays)
  }

  function DecayEvent(now: Timestamp, id: string, c: Claim): Event
  {
    Event(now, id, "decay", Decayed(c.confidence) - c.confidence, Text("decay toward neutral"), None)
  }

  /** The ledger rows of a sweep that decayed `ids` in this order. */
  function DecayEvents(ids: seq<string>, claims: map<string, Claim>, now: Timestamp): (es: seq<Event>)
    requires forall id :: id in ids ==> id in claims
    ensures |es| == |ids|
  {
    if ids == [] then []
    else DecayEvents(ids[..|ids| - 1], claims, now) + [DecayEvent(now, ids[|ids| - 1], claims[ids[|ids| - 1]])]
  }

  /** Decaying one more claim appends its decay event. */
  lemma DecayEventsSnoc(ids: seq<string>, id: string, claims: map<string, Claim>, now: Timestamp)
    requires forall x :: x in ids ==> x in claims
    requires id in claims
    ensures DecayEvents(ids + [id], claims, now) == DecayEvents(ids, claims, now) + [DecayEvent(now, id, claims[id])]
  {
    assert (ids + [id])[..|ids|] == ids;
  }

  /** Taking one id out of the to-do set adds it to the stale ids handled exactly when it is stale. */
  lemma StaleStep(claims: map<string, Claim>, now: Timestamp, decayDays: int, todo: set<string>, id: string)
    requires id in todo && id in claims
    ensures StaleIds(claims, now, decayDays) - (todo - {id}) ==
      (StaleIds(claims, now, decayDays) - todo) + (if IsStale(claims[id], now, decayDays) then {id} else {})
  {
  }

  /** The store part-way through the scan: the claims still to visit are as
      they were, the others have been swept. */
  ghost function PartlyDecayed(claims: map<string, Claim>, todo: set<string>, now: Timestamp, decayDays: int): (m: map<string, Claim>)
    ensures m.Keys == claims.Keys
  {
    map id | id in claims :: if id in todo then claims[id] else AfterDecay(claims[id], now, decayDays)
  }

  /** Decaying one more id of the to-do set moves the partly decayed map one step on. */
  lemma PartlyDecayedStep(claims: map<string, Claim>, todo: set<string>, id: string, now: Timestamp, decayDays: int)
    requires id in todo && todo <= claims.Keys
    ensures id in PartlyDecayed(claims, todo, now, decayDays)
    ensures PartlyDecayed(claims, todo, now, decayDays)[id] == claims[id]
    ensures PartlyDecayed(claims, todo, now, decayDays)[id := AfterDecay(claims[id], now, decayDays)]
         == PartlyDecayed(claims, todo - {id}, now, decayDays)
  {
  }

  /** The body of the scan loop for one claim. */
  method DecayOne(db: Database, vs: VectorStore, id: string, now: Timestamp, decayDays: int) returns (stale: bool)
    requires id in vs.claims
    modifies db`events, vs`claims
    ensures stale == IsStale(old(vs.claims)[id], now, decayDays)
    ensures vs.claims == old(vs.claims)[id := AfterDecay(old(vs.claims)[id], now, decayDays)]
    ensures db.events == old(db.events) + if stale then [DecayEvent(now, id, old(vs.claims)[id])] else []
  {
    var c := vs.claims[id];
    stale := c.lastSeenTs < now - decayDays * DAY;
    if stale {
      var newConf := c.confidence + (0.5 - c.confidence) * 0.1;
      vs.claims := vs.claims[id := c.(confidence := newConf)];
      LogEvent(db, now, id, "decay", newConf - c.confidence, Text("decay toward neutral"), None);
    } else {
      assert vs.claims == vs.claims[id := c];
    }
  }

  /** What holds part-way through the sweep, with `todo` still to visit and
      `decayed` decayed so far. */
  ghost predicate SweepState(claims: map<string, Claim>, events: seq<Event>, claims0: map<string, Claim>,
                             events0: seq<Event>, todo: set<string>, decayed: seq<string>, now: Timestamp, decayDays: int)
  {
    && todo <= claims0.Keys
    && claims == PartlyDecayed(claims0, todo, now, decayDays)
    && (forall id :: id in decayed ==> id in claims0 && id !in todo)
    && NoDups(decayed) && ToSet(decayed) == StaleIds(claims0, now, decayDays) - todo
    && events == events0 + DecayEvents(decayed, claims0, now)
  }

  /** One iteration of the decay loop keeps the sweep invariant. */
  lemma SweepStep(claims: map<string, Claim>, events: seq<Event>, claims': map<string, Claim>, events': seq<Event>,
                  claims0: map<string, Claim>, events0: seq<Event>, todo: set<string>, decayed: seq<string>,
                  id: string, stale: bool, now: Timestamp, decayDays: int)
    requires SweepState(claims, events, claims0, events0, todo, decayed, now, decayDays)
    requires id in todo && id in claims
    requires stale == IsStale(claims[id], now, decayDays)
    requires claims' == claims[id := AfterDecay(claims[id], now, decayDays)]
    requires events' == events + if stale then [DecayEvent(now, id, claims[id])] else []
    ensures SweepState(claims', events', claims0, events0, todo - {id}, if stale then decayed + [id] else decayed, now, decayDays)
  {
    PartlyDecayedStep(claims0, todo, id, now, decayDays);
    StaleStep(claims0, now, decayDays, todo, id);
    if stale {
      DecayEventsSnoc(decayed, id, claims0, now);
      SnocFresh(decayed, id);
      assert events' == events0 + (DecayEvents(decayed, claims0, now) + [DecayEvent(now, id, claims0[id])]);
    } else {
      assert events' == events;
    }
  }

  /** `apply_decay`: visits every claim once (in the store's scan order,
      `order` here), decays exactly the stale ones, logs one "decay" event per
      decayed claim and returns how many it decayed. */
  method ApplyDecay(db: Database, vs: VectorStore, now: Timestamp, decayDays: int)
    returns (updated: nat, ghost decayed: seq<string>)
    modifies db`events, vs`claims
    ensures vs.claims.Keys == old(vs.claims).Keys
    ensures forall id :: id in vs.claims ==> vs.claims[id] == AfterDecay(old(vs.claims)[id], now, decayDays)
    ensures forall id :: id in decayed ==> id in old(vs.claims)
    ensures NoDups(decayed) && ToSet(decayed) == StaleIds(old(vs.claims), now, decayDays)
    ensures updated == |decayed| == |StaleIds(old(vs.claims), now, decayDays)|
    ensures db.events == old(db.events) + DecayEvents(decayed, old(vs.claims), now)
  {
    ghost var claims0 := vs.claims;
    ghost var events0 := db.events;
    var cutoff := now - decayDays * DAY;
    var todo := vs.claims.Keys;
    updated := 0;
    decayed := [];
    while todo != {}
      invariant SweepState(vs.claims, db.events, claims0, events0, todo, decayed, now, decayDays)
      invariant updated == |decayed|
      decreases |todo|
    {
      var id :| id in todo;
      ghost var claims, events := vs.claims, db.events;
      PartlyDecayedStep(claims0, todo, id, now, decayDays);
      var stale := DecayOne(db, vs, id, now, decayDays);
      ghost var decayed' := if stale then decayed + [id] else decayed;
      SweepStep(claims, events, vs.claims, db.events, claims0, events0, todo, decayed, id, stale, now, decayDays);
      if stale {
        updated := updated + 1;
      }
      decayed := decayed';
      todo := todo - {id};
    }
    assert vs.claims == PartlyDecayed(claims0, {}, now, decayDays);
    NoDupsCard(decayed);
  }
}
