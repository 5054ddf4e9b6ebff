/** memory/confidence.py: the confidence step applied for one piece of
    evidence. */
module Confidence {

  /** Upper-casing of ASCII letters (Python's `str.upper` on ASCII text). */
  function Upper(s: string): (u: string)
    ensures |u| == |s|
    ensures forall i :: 0 <= i < |s| ==> u[i] == if 'a' <= s[i] <= 'z' then (s[i] as int - 32) as char else s[i]
  {
    if s == [] then []
    else [if 'a' <= s[0] <= 'z' then (s[0] as int - 32) as char else s[0]] + Upper(s[1..])
  }

  /** `credibility_tier.upper() == "A"` */
  predicate IsTopTier(tier: string)
  {
    Upper(tier) == "A"
  }

  /** The tier check is case-insensitive and accepts nothing else. */
  lemma TopTierIsA(tier: string)
    ensures IsTopTier(tier) <==> tier == "A" || tier == "a"
  {
    if IsTopTier(tier) {
      assert |tier| == 1;
      assert Upper(tier)[0] == 'A';
    }
  }

  /** The unclamped step for a stance and tier. */
  function StanceDelta(stance: string, tier: string): (delta: real)
    ensures stance == "support" ==> delta == if IsTopTier(tier) then 0.15 else 0.05
    ensures stance == "contradict" ==> delta == if IsTopTier(tier) then -0.15 else -0.05
    ensures stance != "support" && stance != "contradict" ==> delta == 0.0
  {
    if stance == "support" then 0.05 + (if IsTopTier(tier) then 0.10 else 0.0)
    else if stance == "contradict" then -0.05 - (if IsTopTier(tier) then 0.10 else 0.0)
    else 0.0
  }

  function Clamp(x: real): (r: real)
    ensures 0.0 <= r <= 1.0
    ensures 0.0 <= x <= 1.0 ==> r == x
    ensures x < 0.0 ==> r == 0.0
    ensures x > 1.0 ==> r == 1.0
  {
    if x < 0.0 then 0.0 else if x > 1.0 then 1.0 else x
  }

  /** `update_confidence`: returns the clamped new confidence and the
      unclamped step. */
  function UpdateConfidence(current: real, stance: string, tier: string): (r: (real, real))
    ensures 0.0 <= r.0 <= 1.0
    ensures r.1 == StanceDelta(stance, tier)
    ensures r.0 == Clamp(current + r.1)
  {
    var delta := StanceDelta(stance, tier);
    (Clamp(current + delta), delta)
  }

  /** Any stance other than support or contradict changes nothing but the
      clamping of the current value. */
  lemma NeutralStance(current: real, stance: string, tier: string)
    requires stance != "support" && stance != "contradict"
    ensures UpdateConfidence(current, stance, tier) == (Clamp(current), 0.0)
  {
  }

  /** From a value in range, support never lowers confidence and contradict
      never raises it. */
  lemma StanceDirection(current: real, tier: string)
    requires 0.0 <= current <= 1.0
    ensures UpdateConfidence(current, "support", tier).0 >= current
    ensures UpdateConfidence(current, "contradict", tier).0 <= current
  {
  }

  /** The returned step is the real change exactly when no clamping happened. */
  lemma DeltaIsChangeUnlessClamped(current: real, stance: string, tier: string)
    requires 0.0 <= current <= 1.0
    ensures var (c, d) := UpdateConfidence(current, stance, tier);
      c - current == d <==> 0.0 <= current + d <= 1.0
  {
  }

  /** At full confidence, supporting evidence reports a step of 0.05 while the
      value does not move. */
  lemma DeltaAtTheBound()
    ensures UpdateConfidence(1.0, "support", "C") == (1.0, 0.05)
    ensures UpdateConfidence(0.0, "contradict", "a") == (0.0, -0.15)
  {
    assert !IsTopTier("C") by { assert Upper("C")[0] == 'C'; }
    assert IsTopTier("a") by { assert Upper("a") == ['A']; }
  }
}
