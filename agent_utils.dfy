/** agents/utils.py: windows and thresholds of the claim evolution agent,
    timestamp parsing, list batching, lenient number conversion and the
    three derived scores. */
module AgentUtils {
  import opened Wrappers
  import opened SeqUtils
  import opened Schemas

  const TrendWindowDays: int := 7
  const ContradictionWindowDays: int := 30
  const VolatilityWindowDays: int := 30
  const ContradictionThreshold: real := 0.6
  const VolatilityEventCap: int := 5
  const VolatilityAlertThreshold: real := 0.7
  const TrendAlertThreshold: real := 6.0
  /** The `eps` added to the denominator of the contradiction ratio. */
  const Eps: real := 1.0 / 1000000.0

  // ---------------------------------------------------------------------------
  // parse_iso / is_within_days
  // ---------------------------------------------------------------------------

  /** `parse_iso`: nothing for a missing or empty string; otherwise one
      trailing "Z" is dropped and the rest goes to `fromIso`
      (`datetime.fromisoformat`, which yields nothing on a `ValueError`). */
  function ParseIso(ts: Option<string>, fromIso: string -> Option<Timestamp>): (r: Option<Timestamp>)
    ensures ts == None || ts == Some("") ==> r == None
  {
    match ts
    case None => None
    case Some(t) =>
      if t == "" then None
      else fromIso(if t[|t| - 1] == 'Z' then t[..|t| - 1] else t)
  }

  /** One trailing "Z" is ignored, and only one. */
  lemma ParseIsoDropsOneZ(t: string, fromIso: string -> Option<Timestamp>)
    ensures ParseIso(Some(t + "Z"), fromIso) == fromIso(t)
    ensures t != [] && t[|t| - 1] != 'Z' ==> ParseIso(Some(t), fromIso) == fromIso(t)
    ensures ParseIso(Some(t + "ZZ"), fromIso) == fromIso(t + "Z")
  {
    assert (t + "Z")[..|t|] == t;
    assert (t + "ZZ")[..|t| + 1] == t + "Z";
  }

  /** The window check on an already parsed instant: true exactly when there
      is an instant and it is no older than `days` days before `now`. */
  predicate WithinDays(dt: Option<Timestamp>, days: int, now: Timestamp)
  {
    dt.Some? && dt.value >= now - days * DAY
  }

  /** `is_within_days` */
  predicate IsWithinDays(ts: Option<string>, days: int, now: Timestamp, fromIso: string -> Option<Timestamp>)
  {
    WithinDays(ParseIso(ts, fromIso), days, now)
  }

  /** A missing or empty timestamp is never recent; a recent one is no older
      than the window, and stays recent for an earlier `now`. */
  lemma IsWithinDaysFacts(ts: Option<string>, days: int, now: Timestamp, fromIso: string -> Option<Timestamp>)
    ensures ts == None || ts == Some("") ==> !IsWithinDays(ts, days, now, fromIso)
    ensures IsWithinDays(ts, days, now, fromIso) ==> ParseIso(ts, fromIso).value >= now - days * DAY
    ensures forall later: Timestamp :: IsWithinDays(ts, days, now, fromIso) && later <= now ==>
      IsWithinDays(ts, days, later, fromIso)
  {
  }

  // ---------------------------------------------------------------------------
  // chunk_list
  // ---------------------------------------------------------------------------

  /** The effective batch size: a size of zero or less behaves as 1, since a
      one-item buffer already reaches it. */
  function Cap(size: int): (c: int)
    ensures c >= 1 && (size >= 1 ==> c == size)
  {
    if size < 1 then 1 else size
  }

  /** `chunk_list`: consecutive batches of `Cap(size)` items, the last one
      possibly shorter. */
  method ChunkList<T>(items: seq<T>, size: int) returns (chunks: seq<seq<T>>)
    ensures Flatten(chunks) == items
    ensures forall i :: 0 <= i < |chunks| ==> 1 <= |chunks[i]| <= Cap(size)
    ensures forall i :: 0 <= i < |chunks| - 1 ==> |chunks[i]| == Cap(size)
  {
    chunks := [];
    var buffer: seq<T> := [];
    var i := 0;
    while i < |items|
      invariant 0 <= i <= |items|
      invariant Flatten(chunks) + buffer == items[..i]
      invariant |buffer| < Cap(size)
      invariant forall k :: 0 <= k < |chunks| ==> |chunks[k]| == Cap(size)
    {
      assert items[..i + 1] == items[..i] + [items[i]];
      buffer := buffer + [items[i]];
      if |buffer| >= size {
        FlattenSnoc(chunks, buffer);
        chunks := chunks + [buffer];
        buffer := [];
      }
      i := i + 1;
    }
    assert items[..i] == items;
    if buffer != [] {
      FlattenSnoc(chunks, buffer);
      chunks := chunks + [buffer];
    } else {
      assert Flatten(chunks) + [] == Flatten(chunks);
    }
  }

  // ---------------------------------------------------------------------------
  // safe_float / safe_int
  // ---------------------------------------------------------------------------

  /** `int(x)` of a float: truncation toward zero. */
  function TruncToZero(x: real): (n: int)
    ensures x >= 0.0 ==> 0.0 <= n as real <= x < n as real + 1.0
    ensures x < 0.0 ==> n as real - 1.0 < x <= n as real <= 0.0
  {
    if x >= 0.0 then x.Floor else -((-x).Floor)
  }

  /** `safe_float`: Python's `float(value)`, with `parseFloat` standing for
      the conversion of text; every value `float` refuses gives `default`. */
  function SafeFloat(v: Json, default: real, parseFloat: string -> Option<real>): (r: real)
    ensures v.JNull? || v.JArr? || v.JObj? ==> r == default
    ensures v.JStr? && parseFloat(v.s) == None ==> r == default
    ensures v.JStr? && parseFloat(v.s).Some? ==> r == parseFloat(v.s).value
    ensures v.JInt? ==> r == v.i as real
    ensures v.JReal? ==> r == v.r
    ensures v.JBool? ==> r == if v.b then 1.0 else 0.0
  {
    match v
    case JInt(i) => i as real
    case JReal(x) => x
    case JBool(b) => if b then 1.0 else 0.0
    case JStr(s) => (match parseFloat(s) case Some(x) => x case None => default)
    case _ => default
  }

  /** `safe_int`: Python's `int(value)`, with `parseInt` standing for the
      conversion of text; floats are truncated toward zero. */
  function SafeInt(v: Json, default: int, parseInt: string -> Option<int>): (r: int)
    ensures v.JNull? || v.JArr? || v.JObj? ==> r == default
    ensures v.JStr? && parseInt(v.s) == None ==> r == default
    ensures v.JStr? && parseInt(v.s).Some? ==> r == parseInt(v.s).value
    ensures v.JInt? ==> r == v.i
    ensures v.JReal? ==> r == TruncToZero(v.r)
    ensures v.JBool? ==> r == if v.b then 1 else 0
  {
    match v
    case JInt(i) => i
    case JReal(x) => TruncToZero(x)
    case JBool(b) => if b then 1 else 0
    case JStr(s) => (match parseInt(s) case Some(n) => n case None => default)
    case _ => default
  }

  // ---------------------------------------------------------------------------
  // The three scores
  // ---------------------------------------------------------------------------

  /** `contradiction_ratio`; the `eps` keeps the denominator away from zero,
      so no evidence at all gives 0. */
  function ContradictionRatio(support: int, contradict: int): (r: real)
    ensures support >= 0 && contradict >= 0 ==> 0.0 <= r < 1.0
    ensures contradict == 0 ==> r == 0.0
  {
    var d := (support + contradict) as real + Eps;
    assert d != 0.0 by {
      if support + contradict <= -1 {
        assert d <= -1.0 + Eps;
      }
    }
    contradict as real / d
  }

  /** The ratio reaches the dispute threshold exactly when contradicting
      evidence outnumbers supporting evidence by more than 3 to 2 (an exact
      3:2 split stays below, because of `eps`). */
  lemma RatioReachesThreshold(support: nat, contradict: nat)
    ensures ContradictionRatio(support, contradict) >= ContradictionThreshold <==> 2 * contradict > 3 * support
  {
    var d := (support + contradict) as real + Eps;
    QuotientAtLeast(contradict as real, d, ContradictionThreshold);
    if 2 * contradict > 3 * support {
      assert 2 * contradict >= 3 * support + 1;
      assert contradict as real >= ContradictionThreshold * d;
    } else {
      assert contradict as real < ContradictionThreshold * d;
    }
  }

  /** Dividing by a positive number keeps a lower bound in step. */
  lemma QuotientAtLeast(x: real, d: real, k: real)
    requires d > 0.0
    ensures x / d >= k <==> x >= k * d
  {
    var q := x / d;
    assert q * d == x;
    if q >= k {
      assert (q - k) * d >= 0.0;
    } else {
      assert (k - q) * d > 0.0;
    }
  }

  /** `volatility_score` */
  function VolatilityScore(eventCount: int): (r: real)
    ensures 0.0 <= r <= 1.0
    ensures eventCount <= 0 ==> r == 0.0
    ensures eventCount >= VolatilityEventCap ==> r == 1.0
    ensures 0 <= eventCount <= VolatilityEventCap ==> r == eventCount as real / 5.0
  {
    if eventCount <= 0 then 0.0
    else
      var x := eventCount as real / VolatilityEventCap as real;
      if 1.0 < x then 1.0 else x
  }

  /** The volatility alert fires from the fourth recent confidence event on. */
  lemma VolatilityAlertFromFour(n: int)
    ensures VolatilityScore(n) >= VolatilityAlertThreshold <==> n >= 4
  {
    if 0 < n < VolatilityEventCap {
      assert VolatilityScore(n) == n as real / 5.0;
    }
  }

  /** `compute_alert_level` */
  function ComputeAlertLevel(trend: real, contradiction: real, volatility: real): (r: AlertLevel)
    ensures r == High <==> contradiction >= ContradictionThreshold && trend >= 3.0
    ensures r == Low <==> contradiction < ContradictionThreshold && trend < TrendAlertThreshold
                           && !(volatility >= VolatilityAlertThreshold && trend >= 2.0)
  {
    if contradiction >= ContradictionThreshold && trend >= 3.0 then High
    else if contradiction >= ContradictionThreshold || trend >= TrendAlertThreshold then Medium
    else if volatility >= VolatilityAlertThreshold && trend >= 2.0 then Medium
    else Low
  }

  function Rank(a: AlertLevel): nat
  {
    match a
    case Low => 0
    case Medium => 1
    case High => 2
  }

  /** More mentions, more contradiction or more volatility never lower the
      alert level. */
  lemma AlertLevelMonotone(t: real, c: real, v: real, t': real, c': real, v': real)
    requires t <= t' && c <= c' && v <= v'
    ensures Rank(ComputeAlertLevel(t, c, v)) <= Rank(ComputeAlertLevel(t', c', v'))
  {
  }
}
