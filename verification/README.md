# Ethical rotation gate — a Dafny model

This project models `EthicalRotationGate` from `src/ethical_rotation_gate.py`. This class is
the core of the Meta-CEW + QIM antifragile governance protocol. A gate holds two values:

- a scaling factor `kappa`, which must lie in the certified range [0.1, 0.3];
- a cached scalar, the antifragile gain Delta A of the most recent accepted measurement window.

The gate has three operations:

- `compute_delta_a(before, after)` turns two alignment-entropy readings into the gain
  `log(before / after)` and caches it. When either reading is not positive, it returns 0.
- `get_rotation_angle()` turns the cached gain into the rotation angle
  `theta = kappa * max(0, Delta A)`. This clamp is the "veto": a loss never produces a positive angle.
- The constructor checks the range of `kappa` and sets the cached gain to 0.

The model has two modules:

- `RotationGate` (`gate.dfy`) covers the gate itself. It has the `Gate` datatype,
  construction returning a `Result`, and pure functions for the two operations.
- `GateHistory` (`history.dfy`) covers one gate object through a whole sequence of method calls,
  oldest first. The cache carries information from one window to the next, so the properties that
  matter are about such sequences:
  - `kappa` never changes;
  - the cache always holds the gain of the most recent accepted window;
  - angle queries change nothing;
  - an angle is positive only after a window in which entropy went down.

The natural logarithm is not computed. Every operation that needs it takes it as a parameter
`log: real -> real`. The lemmas that depend on its behaviour assume only the sign law `LogSign`:
for `x > 0`, `log(x) > 0` exactly when `x > 1`, and `log(x) < 0` exactly when `x < 1`.

Python floats are modelled as Dafny `real`.

A rejected window returns at lines 41-42, before the cache write at line 47. So it returns 0 but
keeps the earlier cached gain, and a positive angle from an earlier window survives it.
`RejectedWindowKeepsEarlierAngle` states this.

## Model

| member | source | states |
|---|---|---|
| RotationGate.New | src/ethical_rotation_gate.py:19-27 | Construction, with kappa defaulting to 0.2, succeeds exactly when 0.1 <= kappa <= 0.3 (both bounds inclusive). Otherwise it fails with the out-of-range error. A new gate keeps kappa and starts with cached gain 0. |
| RotationGate.CertifiedRangeIsInclusive | src/ethical_rotation_gate.py:19-25 | Construction without an argument succeeds with kappa 0.2. Both ends 0.1 and 0.3 are accepted. 0.05 and 0.31, just outside the range, are rejected. |
| RotationGate.PositivePart | src/ethical_rotation_gate.py:60 | `max(0, x)` is non-negative, at least x, and equal to either x or 0. |
| RotationGate.ComputeDeltaA | src/ethical_rotation_gate.py:29-49 | kappa is unchanged. If either reading is <= 0, the result is 0 and the gate is unchanged, so the cache is left alone. Otherwise the result is log(before / after) and the cache afterwards holds exactly that result. |
| RotationGate.RotationAngle | src/ethical_rotation_gate.py:51-65 | The angle is never negative. It is 0 exactly when the cached gain is <= 0 (the veto). For a positive gain it lies between 0.1 and 0.3 times the gain. |
| RotationGate.AngleIsClampedScaledGain | src/ethical_rotation_gate.py:54-63 | Clamping and then scaling gives the same angle as scaling and then clamping: theta == max(0, kappa * Delta A) for every certified kappa. |
| RotationGate.AngleMonotoneInGain | src/ethical_rotation_gate.py:59-63 | A larger cached gain never yields a smaller angle. |
| RotationGate.FreshGateAngleIsZero | src/ethical_rotation_gate.py:19-27 | A newly constructed gate has cached gain 0 (line 27), so its first angle, computed at lines 60-63, is 0. |
| RotationGate.AcceptedWindowAngle | src/ethical_rotation_gate.py:44-63 | After an accepted window, the next angle is max(0, kappa * log(before / after)). It is 0 when that log is <= 0, and otherwise lies between 0.1 and 0.3 times the log. |
| RotationGate.RejectedWindowKeepsEarlierAngle | src/ethical_rotation_gate.py:41-42 | A rejected window returns 0 but leaves the angle exactly as it was before the call. This includes a positive angle from an earlier window. |
| RotationGate.EntropyDropIsRewarded | src/ethical_rotation_gate.py:39-49 | Assume the sign law of log and two positive readings. The gain is positive exactly when before > after, and negative exactly when before < after. The next angle is positive exactly when before > after, and is 0 when before <= after. |
| GateHistory.Step | src/ethical_rotation_gate.py:29-65 | One method call keeps kappa and validity. An angle query leaves the gate unchanged and returns its non-negative angle. A gain computation with two positive readings returns log(before / after) and changes the gate only by caching that value. One with a reading <= 0 returns 0 and leaves the gate unchanged. |
| GateHistory.Run | src/ethical_rotation_gate.py:26-65 | After any sequence of calls, the gate is still valid and its kappa is the one it was constructed with. |
| GateHistory.Replies | src/ethical_rotation_gate.py:41-65 | There is one reply per call. Every angle reply is >= 0. Every gain computation with two positive readings replies log(before / after). Every gain computation with a non-positive reading replies 0. |
| GateHistory.LastAccepted | src/ethical_rotation_gate.py:41-47 | The reference definition of the most recent call that reached the cache write. If there is one, it is a gain computation with two positive readings found at some position of the history, and no later call writes the cache. If there is none, no call in the history reached the cache write. |
| GateHistory.CacheHoldsLastAcceptedGain | src/ethical_rotation_gate.py:41-47 | After any sequence of calls, the cache holds log(before / after) of the most recent accepted window. If no window was accepted, it holds the starting value. |
| GateHistory.AngleReplyFollowsLastAcceptedGain | src/ethical_rotation_gate.py:51-63 | Each angle reply equals the angle of a gate with the same kappa whose cache holds the gain of the most recent accepted window before that query. |
| GateHistory.AngleQueriesChangeNothing | src/ethical_rotation_gate.py:51-65 | Removing every angle query from a sequence of calls leaves the final gate the same, so `get_rotation_angle` mutates nothing. |
| GateHistory.VetoOverHistory | src/ethical_rotation_gate.py:59-63 | Assume the sign law of log and a freshly constructed gate. An angle reply is positive exactly when an earlier window was accepted and the most recent such window had before > after. |
| GateHistory.DemonstrationWindows | src/ethical_rotation_gate.py:73-97 | This covers the two demonstration windows with kappa 0.2, under the sign law. Readings 0.55 then 0.50 give a positive gain, and the angle is 0.2 times it and positive. Readings 0.40 then 0.45 on the same gate give a negative gain, and the angle is 0. |

## Left out

- The numeric value of `np.log` is not modelled. It is a parameter, so nothing depends on floating-point accuracy or on the four-decimal values the demonstration prints. Only the sign law is assumed, and only where a lemma says so.
- IEEE floating point is not modelled: no NaN, no infinities and no rounding. In particular, a NaN reading passes the positivity guard in Python, and a ratio can overflow or underflow before the log. The range check on kappa compares reals rather than the binary floats nearest 0.1 and 0.3.
- Applying theta to a vector or matrix is not modelled, because this file does not contain it (lines 67-68 defer it to `application_layer.py`). `application_layer.py` is not part of this model.
- The `__main__` demonstration block (lines 70-98) only prints. Its two scenarios are restated as the lemma `DemonstrationWindows`.
- Thread safety of the shared cache is not modelled. Concurrent calls on one object are out of scope, and a history is one sequential order of calls.
