/**
  A history of method calls on one gate object, oldest first.  The cached
  gain carries information from one measurement window to the next, so the
  properties that matter are about whole histories: the scaling factor never
  changes, the cache always holds the gain of the most recent accepted
  window, angle queries change nothing, and an angle is positive only after
  a window in which entropy went down.
 */
module GateHistory {
  import opened RotationGate

  datatype Option<T> = None | Some(value: T)

  /** One method call on the gate object. */
  datatype Call =
    | ComputeDeltaACall(before: real, after: real)
    | GetRotationAngleCall

  /** The gate after a call, and the value the call returned. */
  datatype Reply = Reply(gate: Gate, value: real)

  /** One call: `compute_delta_a` may rewrite the cache and returns the gain;
      `get_rotation_angle` returns the angle and leaves the gate as it was. */
  function Step(g: Gate, log: real -> real, c: Call): (r: Reply)
    requires Valid(g)
    ensures Valid(r.gate) && r.gate.kappa == g.kappa
    ensures c.GetRotationAngleCall? ==> r.gate == g && r.value == RotationAngle(g) && r.value >= 0.0
    ensures WritesCache(c) ==> r.value == log(c.before / c.after) && r.gate == g.(lastDeltaA := r.value)
    ensures c.ComputeDeltaACall? && !WritesCache(c) ==> r == Reply(g, 0.0)
  {
    match c
    case ComputeDeltaACall(before, after) =>
      var o := ComputeDeltaA(g, log, before, after);
      Reply(o.gate, o.deltaA)
    case GetRotationAngleCall =>
      Reply(g, RotationAngle(g))
  }

  /** The gate after every call of the history; its scaling factor is the
      one it started with. */
  function Run(g: Gate, log: real -> real, calls: seq<Call>): (h: Gate)
    requires Valid(g)
    ensures Valid(h) && h.kappa == g.kappa
    decreases |calls|
  {
    if calls == [] then g
    else Step(Run(g, log, calls[..|calls| - 1]), log, calls[|calls| - 1]).gate
  }

  /** What each call of the history returned: angles are never negative, an
      accepted window returns the log of its entropy ratio and a rejected
      window returns 0. */
  function Replies(g: Gate, log: real -> real, calls: seq<Call>): (rs: seq<real>)
    requires Valid(g)
    ensures |rs| == |calls|
    ensures forall i :: 0 <= i < |calls| && calls[i].GetRotationAngleCall? ==> rs[i] >= 0.0
    ensures forall i :: 0 <= i < |calls| && !WritesCache(calls[i]) && calls[i].ComputeDeltaACall? ==> rs[i] == 0.0
    ensures forall i :: 0 <= i < |calls| && WritesCache(calls[i]) ==> rs[i] == log(calls[i].before / calls[i].after)
    decreases |calls|
  {
    if calls == [] then []
    else
      var prefix := calls[..|calls| - 1];
      Replies(g, log, prefix) + [Step(Run(g, log, prefix), log, calls[|calls| - 1]).value]
  }

  /** A call that gets past the positivity guard and so writes the cache. */
  predicate WritesCache(c: Call) {
    c.ComputeDeltaACall? && Accepted(c.before, c.after)
  }

  /** No call after position `k` of the history writes the cache. */
  predicate NoCacheWriteAfter(calls: seq<Call>, k: int) {
    forall j :: 0 <= j < |calls| && k < j ==> !WritesCache(calls[j])
  }

  /** The most recent call of the history that wrote the cache, if any. */
  function LastAccepted(calls: seq<Call>): (r: Option<Call>)
    ensures r.Some? ==> WritesCache(r.value)
    ensures r.Some? ==> exists k :: 0 <= k < |calls| && calls[k] == r.value && NoCacheWriteAfter(calls, k)
    ensures r.None? ==> forall i :: 0 <= i < |calls| ==> !WritesCache(calls[i])
    decreases |calls|
  {
    if calls == [] then None
    else if WritesCache(calls[|calls| - 1]) then Some(calls[|calls| - 1])
    else LastAccepted(calls[..|calls| - 1])
  }

  /** The gain the cache should hold after the history: that of the last
      accepted window, or the starting value when no window was accepted. */
  function ExpectedGain(g: Gate, log: real -> real, calls: seq<Call>): real {
    match LastAccepted(calls)
    case None => g.lastDeltaA
    case Some(c) => log(c.before / c.after)
  }

  /** The cache holds the gain of the most recent accepted window; rejected
      windows and angle queries in between leave it alone. */
  lemma {:induction false} CacheHoldsLastAcceptedGain(g: Gate, log: real -> real, calls: seq<Call>)
    requires Valid(g)
    ensures Run(g, log, calls).lastDeltaA == ExpectedGain(g, log, calls)
    decreases |calls|
  {
    if calls != [] {
      var prefix := calls[..|calls| - 1];
      CacheHoldsLastAcceptedGain(g, log, prefix);
    }
  }

  /** The reply to a call depends only on the calls before it. */
  lemma {:induction false} ReplyOfCall(g: Gate, log: real -> real, calls: seq<Call>, i: int)
    requires Valid(g)
    requires 0 <= i < |calls|
    ensures Replies(g, log, calls)[i] == Step(Run(g, log, calls[..i]), log, calls[i]).value
    decreases |calls|
  {
    var prefix := calls[..|calls| - 1];
    if i < |calls| - 1 {
      ReplyOfCall(g, log, prefix, i);
      assert prefix[..i] == calls[..i];
    } else {
      assert prefix == calls[..i];
    }
  }

  /** Each angle reply is the angle of a gate with the same `kappa` whose
      cache holds the gain of the most recent accepted window before it. */
  lemma AngleReplyFollowsLastAcceptedGain(g: Gate, log: real -> real, calls: seq<Call>, i: int)
    requires Valid(g)
    requires 0 <= i < |calls| && calls[i].GetRotationAngleCall?
    ensures Replies(g, log, calls)[i] == RotationAngle(Gate(g.kappa, ExpectedGain(g, log, calls[..i])))
  {
    ReplyOfCall(g, log, calls, i);
    CacheHoldsLastAcceptedGain(g, log, calls[..i]);
  }

  /** The history with its angle queries removed. */
  function ComputesOnly(calls: seq<Call>): (r: seq<Call>)
    ensures |r| <= |calls|
    ensures forall i :: 0 <= i < |r| ==> r[i].ComputeDeltaACall? && r[i] in calls
    decreases |calls|
  {
    if calls == [] then []
    else
      var rest := ComputesOnly(calls[..|calls| - 1]);
      if calls[|calls| - 1].ComputeDeltaACall? then rest + [calls[|calls| - 1]] else rest
  }

  /** `get_rotation_angle` mutates nothing: removing every angle query from a
      history leaves the final gate unchanged. */
  lemma {:induction false} AngleQueriesChangeNothing(g: Gate, log: real -> real, calls: seq<Call>)
    requires Valid(g)
    ensures Run(g, log, ComputesOnly(calls)) == Run(g, log, calls)
    decreases |calls|
  {
    if calls != [] {
      var prefix := calls[..|calls| - 1];
      AngleQueriesChangeNothing(g, log, prefix);
      var rest := ComputesOnly(prefix);
      if calls[|calls| - 1].ComputeDeltaACall? {
        assert (rest + [calls[|calls| - 1]])[..|rest|] == rest;
      }
    }
  }

  /** The veto over a whole history from a freshly constructed gate, under the
      sign law of the logarithm: an angle reply is positive exactly when the
      most recent accepted window before it saw entropy go down. */
  lemma VetoOverHistory(kappa: real, log: real -> real, calls: seq<Call>, i: int)
    requires Certified(kappa) && LogSign(log)
    requires 0 <= i < |calls| && calls[i].GetRotationAngleCall?
    ensures New(kappa).Ok?
    ensures var last := LastAccepted(calls[..i]);
      (Replies(New(kappa).value, log, calls)[i] > 0.0 <==> (last.Some? && last.value.before > last.value.after))
  {
    var g := New(kappa).value;
    ReplyOfCall(g, log, calls, i);
    CacheHoldsLastAcceptedGain(g, log, calls[..i]);
    var h := Run(g, log, calls[..i]);
    assert Replies(g, log, calls)[i] == RotationAngle(h);
    var last := LastAccepted(calls[..i]);
    if last.Some? {
      RatioAboveOne(last.value.before, last.value.after);
    }
  }

  /** The two demonstration windows on a gate with `kappa` 0.2: entropy
      0.55 then 0.50 gives a positive gain and angle 0.2 times it; entropy
      0.40 then 0.45 afterwards gives a negative gain and angle 0. */
  lemma DemonstrationWindows(log: real -> real)
    requires LogSign(log)
    ensures New(0.2).Ok?
    ensures var calls := [ComputeDeltaACall(0.55, 0.50), GetRotationAngleCall,
                          ComputeDeltaACall(0.40, 0.45), GetRotationAngleCall];
      var rs := Replies(New(0.2).value, log, calls);
      && rs[0] > 0.0 && rs[1] == 0.2 * rs[0] && rs[1] > 0.0
      && rs[2] < 0.0 && rs[3] == 0.0
  {
    var g := New(0.2).value;
    var calls := [ComputeDeltaACall(0.55, 0.50), GetRotationAngleCall,
                  ComputeDeltaACall(0.40, 0.45), GetRotationAngleCall];
    var rs := Replies(g, log, calls);
    RatioAboveOne(0.55, 0.50);
    RatioAboveOne(0.40, 0.45);
    ReplyOfCall(g, log, calls, 0);
    ReplyOfCall(g, log, calls, 1);
    ReplyOfCall(g, log, calls, 2);
    ReplyOfCall(g, log, calls, 3);
    assert calls[..1] == [ComputeDeltaACall(0.55, 0.50)];
    assert calls[..2] == calls[..1] + [GetRotationAngleCall];
    assert calls[..3] == calls[..2] + [ComputeDeltaACall(0.40, 0.45)];
  }
}
