/**
  The ethical rotation gate: a scaling factor `kappa`, fixed at construction,
  and one cached scalar, the antifragile gain (Delta A) of the most recent
  accepted measurement window.  The rotation angle is the cached gain clamped
  at zero (the veto) and scaled by `kappa`.

  The natural logarithm is not modelled numerically: every operation that
  needs it takes it as a parameter `log`, and the one fact about it the
  design relies on is the predicate `LogSign`.
 */
module RotationGate {

  /** The only failure: a scaling factor outside the certified range. */
  datatype GateError = KappaOutOfRange

  datatype Result<T> = Ok(value: T) | Err(error: GateError)

  /** Lower and upper end of the certified range of `kappa`; both inclusive. */
  const KappaMin: real := 0.1
  const KappaMax: real := 0.3

  /** The scaling factor used when the caller gives none. */
  const DefaultKappa: real := 0.2

  /** The gate object: its scaling factor and the cached gain. */
  datatype Gate = Gate(kappa: real, lastDeltaA: real)

  predicate Certified(kappa: real) {
    KappaMin <= kappa <= KappaMax
  }

  /** Every gate that construction can produce has a certified `kappa`;
      no operation changes `kappa` afterwards, so this holds for the
      object's whole lifetime. */
  predicate Valid(g: Gate) {
    Certified(g.kappa)
  }

  /** The sign law of the natural logarithm on positive arguments: positive
      above 1, negative below 1. */
  ghost predicate LogSign(log: real -> real) {
    forall x: real :: x > 0.0 ==> (log(x) > 0.0 <==> x > 1.0) && (log(x) < 0.0 <==> x < 1.0)
  }

  /** Both entropy readings are strictly positive, so their ratio has a logarithm. */
  predicate Accepted(before: real, after: real) {
    before > 0.0 && after > 0.0
  }

  /** `max(0, x)`: the gain with losses vetoed to zero. */
  function PositivePart(x: real): (p: real)
    ensures p >= 0.0 && p >= x
    ensures p == x || p == 0.0
  {
    if x > 0.0 then x else 0.0
  }

  /** Construction: succeeds exactly for a certified `kappa` and starts the
      cache at zero; any other `kappa` is rejected. */
  function New(kappa: real := DefaultKappa): (r: Result<Gate>)
    ensures r.Ok? <==> KappaMin <= kappa && kappa <= KappaMax
    ensures r.Ok? ==> Valid(r.value) && r.value.kappa == kappa && r.value.lastDeltaA == 0.0
    ensures r.Err? ==> r.error == KappaOutOfRange
  {
    if Certified(kappa) then Ok(Gate(kappa, 0.0)) else Err(KappaOutOfRange)
  }

  /** What `compute_delta_a` returns, together with the gate after the call. */
  datatype Computed = Computed(gate: Gate, deltaA: real)

  /** The antifragile gain of one window.  A non-positive reading yields 0
      and returns before the cache is written; otherwise the gain is the log
      of the entropy ratio and becomes the new cached gain. */
  function ComputeDeltaA(g: Gate, log: real -> real, before: real, after: real): (r: Computed)
    ensures r.gate.kappa == g.kappa
    ensures !Accepted(before, after) ==> r.deltaA == 0.0 && r.gate == g
    ensures Accepted(before, after) ==> r.deltaA == log(before / after) && r.gate.lastDeltaA == r.deltaA
  {
    if after <= 0.0 || before <= 0.0 then
      Computed(g, 0.0)
    else
      var deltaA := log(before / after);
      Computed(g.(lastDeltaA := deltaA), deltaA)
  }

  /** The rotation angle: never negative, zero exactly when the cached gain
      is not positive (the veto), and otherwise between `KappaMin` and
      `KappaMax` times the gain. */
  function RotationAngle(g: Gate): (theta: real)
    requires Valid(g)
    ensures theta >= 0.0
    ensures theta == 0.0 <==> g.lastDeltaA <= 0.0
    ensures g.lastDeltaA > 0.0 ==> KappaMin * g.lastDeltaA <= theta <= KappaMax * g.lastDeltaA
  {
    var positiveGain := PositivePart(g.lastDeltaA);
    ScaledGainFacts(g.kappa, g.lastDeltaA);
    g.kappa * positiveGain
  }

  /** The arithmetic behind `RotationAngle`: a certified factor times the
      clamped gain is never negative, is zero exactly when the gain is not
      positive, and lies between `KappaMin` and `KappaMax` times a positive gain. */
  lemma ScaledGainFacts(kappa: real, x: real)
    requires Certified(kappa)
    ensures kappa * PositivePart(x) >= 0.0
    ensures kappa * PositivePart(x) == 0.0 <==> x <= 0.0
    ensures x > 0.0 ==> KappaMin * x <= kappa * PositivePart(x) <= KappaMax * x
  {
    var theta := kappa * PositivePart(x);
    if x > 0.0 {
      assert PositivePart(x) == x;
      PositiveScaleBounds(kappa, x);
    } else {
      assert PositivePart(x) == 0.0;
      assert theta == 0.0;
    }
  }

  /** A certified factor scales a positive gain to a positive value between
      `KappaMin` and `KappaMax` times that gain. */
  lemma PositiveScaleBounds(kappa: real, x: real)
    requires Certified(kappa) && x > 0.0
    ensures 0.0 < kappa * x
    ensures KappaMin * x <= kappa * x <= KappaMax * x
  {
    ScaleMonotone(KappaMin, kappa, x);
    ScaleMonotone(kappa, KappaMax, x);
    SignOfScaled(kappa, x);
  }

  /** Scaling commutes with the clamp: the angle is the scaled gain clamped
      at zero, an independent reading of the formula theta = kappa * max(0, Delta A). */
  lemma AngleIsClampedScaledGain(g: Gate)
    requires Valid(g)
    ensures RotationAngle(g) == PositivePart(g.kappa * g.lastDeltaA)
  {
    var x := g.lastDeltaA;
    assert RotationAngle(g) == g.kappa * PositivePart(x);
    SignOfScaled(x, g.kappa);
    if x > 0.0 {
      assert PositivePart(x) == x;
      assert g.kappa * x > 0.0;
    } else {
      assert PositivePart(x) == 0.0;
      assert g.kappa * x <= 0.0;
    }
  }

  /** A larger cached gain never gives a smaller angle. */
  lemma AngleMonotoneInGain(g: Gate, deltaA: real)
    requires Valid(g)
    requires g.lastDeltaA <= deltaA
    ensures RotationAngle(g) <= RotationAngle(g.(lastDeltaA := deltaA))
  {
    var h := g.(lastDeltaA := deltaA);
    var p, q := PositivePart(g.lastDeltaA), PositivePart(deltaA);
    assert p <= q;
    assert RotationAngle(g) == g.kappa * p;
    assert RotationAngle(h) == g.kappa * q;
    assert g.kappa * q - g.kappa * p == (q - p) * g.kappa;
    SignOfScaled(q - p, g.kappa);
  }

  /** A freshly constructed gate has nothing cached, so its angle is zero. */
  lemma FreshGateAngleIsZero(kappa: real)
    requires Certified(kappa)
    ensures New(kappa).Ok? && RotationAngle(New(kappa).value) == 0.0
  {
  }

  /** The default scaling factor and both ends of the range are accepted;
      a factor just outside is rejected. */
  lemma CertifiedRangeIsInclusive()
    ensures New().Ok? && New().value.kappa == 0.2
    ensures New(0.1).Ok? && New(0.3).Ok?
    ensures New(0.05).Err? && New(0.31).Err?
  {
  }

  /** The angle after an accepted window, in terms of the readings: the log
      of their ratio scaled by `kappa` and clamped at zero, so 0 when that log
      is not positive and otherwise between `KappaMin` and `KappaMax` times it. */
  lemma AcceptedWindowAngle(g: Gate, log: real -> real, before: real, after: real)
    requires Valid(g)
    requires Accepted(before, after)
    ensures var r := ComputeDeltaA(g, log, before, after);
      var gain := log(before / after);
      && Valid(r.gate)
      && RotationAngle(r.gate) == PositivePart(g.kappa * gain)
      && (gain <= 0.0 ==> RotationAngle(r.gate) == 0.0)
      && (gain > 0.0 ==> KappaMin * gain <= RotationAngle(r.gate) <= KappaMax * gain)
  {
    var r := ComputeDeltaA(g, log, before, after);
    assert r.gate == Gate(g.kappa, log(before / after));
    AngleIsClampedScaledGain(r.gate);
  }

  /** A rejected window returns gain 0 but keeps the earlier cached gain:
      a positive angle from an earlier window survives it. */
  lemma RejectedWindowKeepsEarlierAngle(g: Gate, log: real -> real, before: real, after: real)
    requires Valid(g)
    requires !Accepted(before, after)
    ensures var r := ComputeDeltaA(g, log, before, after);
      r.deltaA == 0.0 && Valid(r.gate) && RotationAngle(r.gate) == RotationAngle(g)
  {
  }

  /** The positive ratio x / y exceeds 1 exactly when x exceeds y, and is
      below 1 exactly when x is below y. */
  lemma RatioAboveOne(x: real, y: real)
    requires x > 0.0 && y > 0.0
    ensures x / y > 0.0
    ensures x / y > 1.0 <==> x > y
    ensures x / y < 1.0 <==> x < y
  {
    var q := x / y;
    assert (q - 1.0) * y == x - y;
    SignOfScaled(q - 1.0, y);
    SignOfScaled(q, y);
  }

  /** Multiplying by a non-negative factor keeps the order. */
  lemma ScaleMonotone(a: real, b: real, x: real)
    requires a <= b && x >= 0.0
    ensures a * x <= b * x
  {
  }

  /** Multiplying by a positive factor keeps the sign. */
  lemma SignOfScaled(a: real, y: real)
    requires y > 0.0
    ensures a * y > 0.0 <==> a > 0.0
    ensures a * y < 0.0 <==> a < 0.0
  {
  }

  /** Under the sign law of the logarithm, an accepted window gains exactly
      when entropy went down, and only then does the next angle turn positive;
      a window where entropy stayed or rose is vetoed to angle 0. */
  lemma EntropyDropIsRewarded(g: Gate, log: real -> real, before: real, after: real)
    requires Valid(g)
    requires LogSign(log)
    requires Accepted(before, after)
    ensures var r := ComputeDeltaA(g, log, before, after);
      && Valid(r.gate)
      && (r.deltaA > 0.0 <==> before > after)
      && (r.deltaA < 0.0 <==> before < after)
      && (RotationAngle(r.gate) > 0.0 <==> before > after)
      && (before <= after ==> RotationAngle(r.gate) == 0.0)
  {
    RatioAboveOne(before, after);
  }
}
