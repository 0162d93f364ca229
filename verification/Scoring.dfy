/** Scores of dispatch candidates, in exact arithmetic: arriving fast against arriving right. */
module Scoring {
  import opened Results
  import opened Rows

  datatype UnitType = Ambulance | Police | FireEngine | Rescue | OtherType

  datatype Responder = Responder(id: UnitId, kind: UnitType, distance: real)

  datatype Need = Need(severity: Severity, required: Option<UnitType>)

  datatype Weights = Weights(time: real, skill: real)

  const DETOUR := 1.3
  const FALLOFF := 900.0
  const PARTIAL := 0.30

  function Speed(kind: UnitType): real {
    match kind
    case Ambulance => 13.9
    case Police => 16.7
    case FireEngine => 11.1
    case Rescue => 11.1
    case OtherType => 11.1
  }

  function WeightsFor(severity: Severity): Weights {
    match severity
    case Critical => Weights(0.85, 0.15)
    case High => Weights(0.75, 0.25)
    case Medium => Weights(0.60, 0.40)
    case Low => Weights(0.50, 0.50)
  }

  function Eta(u: Responder): real { u.distance * DETOUR / Speed(u.kind) }

  function TimeScore(u: Responder): real {
    var t := 1.0 - Eta(u) / FALLOFF;
    if t < 0.0 then 0.0 else t
  }

  predicate Matches(u: Responder, need: Need) { need.required.Some? ==> u.kind == need.required.value }

  function SkillScore(u: Responder, need: Need): real { if Matches(u, need) then 1.0 else PARTIAL }

  function Score(u: Responder, need: Need): real {
    var w := WeightsFor(need.severity);
    w.time * TimeScore(u) + w.skill * SkillScore(u, need)
  }

  /** ETAs beyond the falloff are all alike to the score. */
  function Clipped(u: Responder): real { if Eta(u) > FALLOFF then FALLOFF else Eta(u) }

  lemma EtaGrows(u: Responder, v: Responder)
    requires u.kind == v.kind && 0.0 <= u.distance <= v.distance
    ensures 0.0 <= Eta(u) <= Eta(v)
  {
  }

  lemma TimeFromClipped(u: Responder)
    requires u.distance >= 0.0
    ensures 0.0 <= TimeScore(u) <= 1.0 && FALLOFF * TimeScore(u) == FALLOFF - Clipped(u)
  {
    EtaGrows(u.(distance := 0.0), u);
  }

  lemma ScoreInRange(u: Responder, need: Need)
    requires u.distance >= 0.0
    ensures 0.0 <= Score(u, need) <= 1.0
  {
    TimeFromClipped(u);
  }

  /** Of two units of one type the nearer never scores less. */
  lemma NearerScoresNoLess(u: Responder, v: Responder, need: Need)
    requires u.kind == v.kind && 0.0 <= u.distance <= v.distance
    ensures Score(u, need) >= Score(v, need)
  {
    EtaGrows(u, v);
    TimeFromClipped(u);
    TimeFromClipped(v);
  }

  /** Arrival time by type: the road is 1.3 times the straight line, driven at the type's own speed. */
  lemma EtaByType(u: Responder)
    ensures u.kind == Ambulance ==> 13.9 * Eta(u) == 1.3 * u.distance
    ensures u.kind == Police ==> 16.7 * Eta(u) == 1.3 * u.distance
    ensures u.kind in {FireEngine, Rescue, OtherType} ==> 11.1 * Eta(u) == 1.3 * u.distance
  {
  }

  /** Unit u is not of the required type t, unit v is. */
  predicate Mismatch(u: Responder, v: Responder, need: Need, t: UnitType) {
    need.required == Some(t) && u.kind != t && v.kind == t && u.distance >= 0.0 && v.distance >= 0.0
  }

  /** A difference in time score, weighed, is the difference of the arrival times, weighed, over the falloff. */
  lemma Weighed(w: real, a: real, b: real, x: real, y: real)
    requires FALLOFF * a == FALLOFF - x && FALLOFF * b == FALLOFF - y
    ensures FALLOFF * (w * a - w * b) == w * (y - x)
  {
    assert FALLOFF * (a - b) == y - x;
    assert w * (FALLOFF * (a - b)) == FALLOFF * (w * a - w * b);
  }

  /** What sets the two scores apart: the clipped lead, weighed, against the skill. */
  lemma ScoresApart(u: Responder, v: Responder, need: Need, t: UnitType)
    requires Mismatch(u, v, need, t)
    ensures var w := WeightsFor(need.severity);
            FALLOFF * (Score(u, need) - Score(v, need)) == w.time * (Clipped(v) - Clipped(u)) - 630.0 * w.skill
  {
    TimeFromClipped(u);
    TimeFromClipped(v);
    hide TimeScore, Clipped, WeightsFor, Eta;
    var w := WeightsFor(need.severity);
    Weighed(w.time, TimeScore(u), TimeScore(v), Clipped(u), Clipped(v));
    assert SkillScore(u, need) == 0.30 && SkillScore(v, need) == 1.0;
  }

  /** Exactly when a unit of another type beats one of the required type: its clipped lead outweighs the skill. */
  lemma MismatchWinsIff(u: Responder, v: Responder, need: Need, t: UnitType)
    requires Mismatch(u, v, need, t)
    ensures var w := WeightsFor(need.severity);
            && (Score(u, need) > Score(v, need) <==> w.time * (Clipped(v) - Clipped(u)) > 630.0 * w.skill)
            && (Score(u, need) >= Score(v, need) <==> w.time * (Clipped(v) - Clipped(u)) >= 630.0 * w.skill)
  {
    ScoresApart(u, v, need, t);
    hide Score, Clipped, WeightsFor, Eta;
  }

  /** All else equal the required type always wins. */
  lemma RightTypeWinsAtEqualEta(u: Responder, v: Responder, need: Need, t: UnitType)
    requires Mismatch(u, v, need, t) && Eta(u) == Eta(v)
    ensures Score(v, need) > Score(u, need)
  {
    MismatchWinsIff(u, v, need, t);
  }

  /** With no type required the score is a matter of arrival time alone: sooner, within the falloff, scores more. */
  lemma WithoutRequirementSoonerWins(u: Responder, v: Responder, need: Need)
    requires need.required.None? && u.distance >= 0.0 && v.distance >= 0.0
    ensures Score(u, need) > Score(v, need) <==> Clipped(u) < Clipped(v)
    ensures Eta(u) == Eta(v) ==> Score(u, need) == Score(v, need)
  {
    TimeFromClipped(u);
    TimeFromClipped(v);
  }

  /** So a unit of another type must be more than 630 * skill / time seconds sooner. */
  lemma MismatchWinsOnlyIfMuchSooner(u: Responder, v: Responder, need: Need, t: UnitType)
    requires Mismatch(u, v, need, t) && Score(u, need) > Score(v, need)
    ensures var w := WeightsFor(need.severity); Eta(v) - Eta(u) > 630.0 * w.skill / w.time
  {
    MismatchWinsIff(u, v, need, t);
    var w := WeightsFor(need.severity);
    assert Clipped(v) - Clipped(u) > 0.0;
    assert Eta(v) - Eta(u) >= Clipped(v) - Clipped(u);
  }

  /** Seconds of lead the wrong type needs, by severity. */
  function LeadNeeded(severity: Severity): real {
    match severity
    case Low => 630.0
    case Medium => 420.0
    case High => 210.0
    case Critical => 1890.0 / 17.0
  }

  /** The more severe the incident, the more speed outweighs specialisation; the weights always share out one. */
  lemma SeverityFavoursSpeed(a: Severity, b: Severity)
    requires SeverityRank(a) < SeverityRank(b)
    ensures WeightsFor(a).time + WeightsFor(a).skill == 1.0 == WeightsFor(b).time + WeightsFor(b).skill
    ensures WeightsFor(a).time < WeightsFor(b).time && LeadNeeded(a) > LeadNeeded(b)
    ensures forall w: Severity :: WeightsFor(w).time * LeadNeeded(w) == 630.0 * WeightsFor(w).skill
  {
    forall w: Severity ensures WeightsFor(w).time * LeadNeeded(w) == 630.0 * WeightsFor(w).skill {
      match w
      case Low =>
      case Medium =>
      case High =>
      case Critical =>
    }
  }

  /** Among units within the falloff, the wrong type wins exactly with more than that lead. */
  lemma MismatchNeedsLead(u: Responder, v: Responder, need: Need, t: UnitType)
    requires Mismatch(u, v, need, t)
    requires Eta(u) <= FALLOFF && Eta(v) <= FALLOFF
    ensures Score(u, need) > Score(v, need) <==> Eta(v) - Eta(u) > LeadNeeded(need.severity)
  {
    MismatchWinsIff(u, v, need, t);
    match need.severity
    case Low =>
    case Medium =>
    case High =>
    case Critical =>
  }
}
