/**
 * The health evaluation inside the machine health-check controller's
 * `remediate` (pkg/controller/machinehealthcheck/machinehealthcheck_controller.go):
 * walk the configured unhealthy conditions in order, skip those the node does
 * not currently report with the configured status, stop at the first that has
 * lasted longer than its timeout (or whose timeout does not parse), and
 * otherwise collect the smallest wait until one of them will have.
 *
 * Times and durations are integers in nanoseconds; "now" is a parameter.
 */
module HealthEvaluation {
  import opened Wrappers
  import opened Api

  /** time.Second and time.Minute, in nanoseconds. */
  const Second: int := 1_000_000_000
  const Minute: int := 60 * Second

  /** isConditionsStatusesEqual: the node reports the condition with the configured status. */
  predicate IsConditionsStatusesEqual(cond: NodeCondition, unhealthy: UnhealthyCondition)
  {
    cond.status == unhealthy.status
  }

  /** unhealthyForTooLong: lastTransitionTime + timeout is strictly before now. */
  predicate UnhealthyForTooLong(cond: NodeCondition, timeout: int, now: int)
  {
    cond.lastTransitionTime + timeout < now
  }

  /**
   * The requeue delay for a condition that has not yet lasted too long:
   * the time left until its timeout, plus one second.
   */
  function UnhealthyTooLongTimeout(cond: NodeCondition, timeout: int, now: int): (d: int)
    requires !UnhealthyForTooLong(cond, timeout, now)
    ensures d >= Second
    ensures UnhealthyForTooLong(cond, timeout, now + d)
    ensures !UnhealthyForTooLong(cond, timeout, now + d - Second)
  {
    timeout - (now - cond.lastTransitionTime) + Second
  }

  /** What one configured condition contributes to the evaluation. */
  datatype Step =
    | Skip            // the node does not report this condition with this status
    | BadTimeout      // the timeout text does not parse
    | Overdue         // unhealthy for too long: remediate
    | Wait(delay: int) // unhealthy, but not yet for long enough

  /** The node currently reports the configured condition with the configured status. */
  predicate Considered(node: Node, c: UnhealthyCondition)
  {
    var nc := GetNodeCondition(node.conditions, c.name);
    nc.Some? && IsConditionsStatusesEqual(nc.value, c)
  }

  /** One iteration of the loop over the configured conditions. */
  function ConditionStep(node: Node, c: UnhealthyCondition, now: int): Step
  {
    match GetNodeCondition(node.conditions, c.name)
    case None => Skip
    case Some(nc) =>
      if !IsConditionsStatusesEqual(nc, c) then Skip
      else match c.timeout
        case None => BadTimeout
        case Some(t) =>
          if UnhealthyForTooLong(nc, t, now) then Overdue
          else Wait(UnhealthyTooLongTimeout(nc, t, now))
  }

  /** The outcome of the loop over the configured conditions. */
  datatype Verdict =
    | Healthy          // no configured condition is considered
    | Pending(delay: int) // requeue after `delay`
    | Actionable       // some condition lasted too long: remediate
    | TimeoutInvalid   // a considered condition's timeout does not parse

  predicate Quiet(s: Step) { s.Skip? || s.Wait? }

  predicate Terminal(v: Verdict) { v.Actionable? || v.TimeoutInvalid? }

  /** The verdict after one more step; a terminal verdict is final. */
  function Next(v: Verdict, s: Step): Verdict
  {
    if Terminal(v) then v
    else match s
      case Skip => v
      case BadTimeout => TimeoutInvalid
      case Overdue => Actionable
      case Wait(d) => if v.Pending? && v.delay <= d then v else Pending(d)
  }

  /** The verdict of the loop over `cs`, defined by its last step so that it follows the loop forward. */
  function Evaluate(node: Node, cs: seq<UnhealthyCondition>, now: int): Verdict
    decreases |cs|
  {
    if cs == [] then Healthy
    else Next(Evaluate(node, cs[..|cs| - 1], now), ConditionStep(node, cs[|cs| - 1], now))
  }

  /** Evaluating one more condition is one more step. */
  lemma EvaluateNext(node: Node, cs: seq<UnhealthyCondition>, i: int, now: int)
    requires 0 <= i < |cs|
    ensures Evaluate(node, cs[..i + 1], now) == Next(Evaluate(node, cs[..i], now), ConditionStep(node, cs[i], now))
  {
    assert cs[..i + 1][..i] == cs[..i];
  }

  /**
   * The loop of `remediate` over the node's unhealthy conditions, up to the
   * point where it either returns or has computed the requeue delay.
   */
  method EvaluateConditions(node: Node, cs: seq<UnhealthyCondition>, now: int) returns (v: Verdict)
    ensures v == Evaluate(node, cs, now)
  {
    var minimalConditionTimeout := 0;
    var pending := false;
    var i := 0;
    while i < |cs|
      invariant 0 <= i <= |cs|
      invariant Evaluate(node, cs[..i], now) == if pending then Pending(minimalConditionTimeout) else Healthy
      invariant pending ==> minimalConditionTimeout >= Second
      invariant !pending ==> minimalConditionTimeout == 0
    {
      EvaluateNext(node, cs, i, now);
      var c := cs[i];
      var nodeCondition := GetNodeCondition(node.conditions, c.name);
      if nodeCondition.None? || !IsConditionsStatusesEqual(nodeCondition.value, c) {
        assert ConditionStep(node, c, now) == Skip;
        i := i + 1;
        continue;
      }
      if c.timeout.None? {
        assert ConditionStep(node, c, now) == BadTimeout;
        EvaluateSticks(node, cs, i + 1, now);
        return TimeoutInvalid;
      }
      var conditionTimeout := c.timeout.value;
      if UnhealthyForTooLong(nodeCondition.value, conditionTimeout, now) {
        assert ConditionStep(node, c, now) == Overdue;
        EvaluateSticks(node, cs, i + 1, now);
        return Actionable;
      }
      var unhealthyTooLongTimeout := UnhealthyTooLongTimeout(nodeCondition.value, conditionTimeout, now);
      assert ConditionStep(node, c, now) == Wait(unhealthyTooLongTimeout);
      if minimalConditionTimeout == 0 || minimalConditionTimeout > unhealthyTooLongTimeout {
        minimalConditionTimeout := unhealthyTooLongTimeout;
      }
      pending := true;
      i := i + 1;
    }
    assert cs[..i] == cs;
    v := if pending then Pending(minimalConditionTimeout) else Healthy;
  }

  // ---------------------------------------------------------------------
  // What the verdict means
  // ---------------------------------------------------------------------

  /** Once a prefix has a terminal verdict, the later conditions do not change it. */
  lemma {:induction false} EvaluateSticks(node: Node, cs: seq<UnhealthyCondition>, k: int, now: int)
    requires 0 <= k <= |cs|
    requires Terminal(Evaluate(node, cs[..k], now))
    ensures Evaluate(node, cs, now) == Evaluate(node, cs[..k], now)
    decreases |cs| - k
  {
    if k < |cs| {
      var init := cs[..|cs| - 1];
      assert init[..k] == cs[..k];
      EvaluateSticks(node, init, k, now);
    } else {
      assert cs[..k] == cs;
    }
  }

  /** The verdict is not terminal exactly when every step is a skip or a wait. */
  lemma {:induction false} EvaluateQuiet(node: Node, cs: seq<UnhealthyCondition>, now: int)
    ensures !Terminal(Evaluate(node, cs, now)) <==> forall i :: 0 <= i < |cs| ==> Quiet(ConditionStep(node, cs[i], now))
    decreases |cs|
  {
    if cs != [] {
      var init := cs[..|cs| - 1];
      EvaluateQuiet(node, init, now);
      assert forall i :: 0 <= i < |init| ==> init[i] == cs[i];
    }
  }

  /** The node is healthy exactly when no configured condition is considered. */
  lemma {:induction false} EvaluateHealthy(node: Node, cs: seq<UnhealthyCondition>, now: int)
    ensures Evaluate(node, cs, now) == Healthy <==> forall i :: 0 <= i < |cs| ==> !Considered(node, cs[i])
    decreases |cs|
  {
    if cs != [] {
      var init := cs[..|cs| - 1];
      EvaluateHealthy(node, init, now);
      assert forall i :: 0 <= i < |init| ==> init[i] == cs[i];
    }
  }

  /** A step is a skip exactly when its condition is not considered. */
  lemma StepSkip(node: Node, c: UnhealthyCondition, now: int)
    ensures ConditionStep(node, c, now).Skip? <==> !Considered(node, c)
  {
  }

  /** A pending verdict's delay is the delay of some waiting condition, so at least one second. */
  lemma {:induction false} EvaluatePendingWitness(node: Node, cs: seq<UnhealthyCondition>, now: int)
    requires Evaluate(node, cs, now).Pending?
    ensures Evaluate(node, cs, now).delay >= Second
    ensures exists i :: 0 <= i < |cs| && ConditionStep(node, cs[i], now) == Wait(Evaluate(node, cs, now).delay)
    decreases |cs|
  {
    var n := |cs| - 1;
    var init := cs[..n];
    var last := ConditionStep(node, cs[n], now);
    var v := Evaluate(node, init, now);
    var d := Evaluate(node, cs, now).delay;
    assert Evaluate(node, cs, now) == Next(v, last);
    if last.Wait? && (v.Healthy? || last.delay < v.delay) {
      assert d == last.delay;
    } else {
      assert v.Pending? && d == v.delay;
      EvaluatePendingWitness(node, init, now);
      var k :| 0 <= k < n && ConditionStep(node, init[k], now) == Wait(d);
      assert init[k] == cs[k];
    }
  }

  /** A pending verdict's delay is no larger than the delay of any waiting condition. */
  lemma {:induction false} EvaluatePendingBound(node: Node, cs: seq<UnhealthyCondition>, now: int, i: int)
    requires Evaluate(node, cs, now).Pending?
    requires 0 <= i < |cs| && ConditionStep(node, cs[i], now).Wait?
    ensures Evaluate(node, cs, now).delay <= ConditionStep(node, cs[i], now).delay
    decreases |cs|
  {
    var n := |cs| - 1;
    var init := cs[..n];
    var last := ConditionStep(node, cs[n], now);
    var v := Evaluate(node, init, now);
    assert Evaluate(node, cs, now) == Next(v, last);
    if i < n {
      assert init[i] == cs[i];
      if v.Healthy? {
        EvaluateHealthy(node, init, now);
        StepSkip(node, cs[i], now);
        assert false;
      }
      EvaluatePendingBound(node, init, now, i);
    }
  }

  /**
   * A pending verdict carries the smallest delay of all conditions that are
   * waiting, and it is at least one second.
   */
  lemma EvaluatePendingMinimum(node: Node, cs: seq<UnhealthyCondition>, now: int)
    requires Evaluate(node, cs, now).Pending?
    ensures Evaluate(node, cs, now).delay >= Second
    ensures exists i :: 0 <= i < |cs| && ConditionStep(node, cs[i], now) == Wait(Evaluate(node, cs, now).delay)
    ensures forall i :: 0 <= i < |cs| && ConditionStep(node, cs[i], now).Wait? ==>
      Evaluate(node, cs, now).delay <= ConditionStep(node, cs[i], now).delay
  {
    EvaluatePendingWitness(node, cs, now);
    forall i | 0 <= i < |cs| && ConditionStep(node, cs[i], now).Wait?
      ensures Evaluate(node, cs, now).delay <= ConditionStep(node, cs[i], now).delay
    {
      EvaluatePendingBound(node, cs, now, i);
    }
  }

  /** The first step that is neither a skip nor a wait is at index `i`. */
  predicate DecidedAt(node: Node, cs: seq<UnhealthyCondition>, now: int, i: int)
  {
    && 0 <= i < |cs|
    && !Quiet(ConditionStep(node, cs[i], now))
    && forall j :: 0 <= j < i ==> Quiet(ConditionStep(node, cs[j], now))
  }

  /** The first loud step decides the verdict. */
  lemma EvaluateDecidedAt(node: Node, cs: seq<UnhealthyCondition>, now: int, i: int)
    requires DecidedAt(node, cs, now, i)
    ensures Evaluate(node, cs, now) == if ConditionStep(node, cs[i], now) == Overdue then Actionable else TimeoutInvalid
  {
    var prefix := cs[..i + 1];
    assert prefix[..i] == cs[..i];
    assert forall j :: 0 <= j < i ==> cs[..i][j] == cs[j];
    EvaluateQuiet(node, cs[..i], now);
    EvaluateSticks(node, cs, i + 1, now);
  }

  /** A terminal verdict has a deciding step. */
  lemma {:induction false} EvaluateTerminalDecided(node: Node, cs: seq<UnhealthyCondition>, now: int)
    requires Terminal(Evaluate(node, cs, now))
    ensures exists i :: DecidedAt(node, cs, now, i)
    decreases |cs|
  {
    var init := cs[..|cs| - 1];
    assert forall j :: 0 <= j < |init| ==> init[j] == cs[j];
    if Terminal(Evaluate(node, init, now)) {
      EvaluateTerminalDecided(node, init, now);
      var i :| DecidedAt(node, init, now, i);
      assert DecidedAt(node, cs, now, i);
    } else {
      EvaluateQuiet(node, init, now);
      assert DecidedAt(node, cs, now, |cs| - 1);
    }
  }

  /**
   * Remediation is due exactly when some considered condition has lasted too
   * long and no earlier one has an unparsable timeout.
   */
  lemma EvaluateActionable(node: Node, cs: seq<UnhealthyCondition>, now: int)
    ensures Evaluate(node, cs, now) == Actionable <==>
      exists i :: DecidedAt(node, cs, now, i) && ConditionStep(node, cs[i], now) == Overdue
  {
    if Evaluate(node, cs, now) == Actionable {
      EvaluateTerminalDecided(node, cs, now);
      var i :| DecidedAt(node, cs, now, i);
      EvaluateDecidedAt(node, cs, now, i);
    }
    if exists i :: DecidedAt(node, cs, now, i) && ConditionStep(node, cs[i], now) == Overdue {
      var i :| DecidedAt(node, cs, now, i) && ConditionStep(node, cs[i], now) == Overdue;
      EvaluateDecidedAt(node, cs, now, i);
    }
  }

  /**
   * How one step changes when it is evaluated later: StepKindTimeless and
   * OverdueStays taken together, plus the exact wait that is left.
   */
  lemma StepLater(node: Node, c: UnhealthyCondition, now: int, later: int)
    requires now <= later
    ensures var s, s' := ConditionStep(node, c, now), ConditionStep(node, c, later);
      && (s.Skip? <==> s'.Skip?)
      && (s.BadTimeout? <==> s'.BadTimeout?)
      && (s.Overdue? ==> s'.Overdue?)
      && (s.Wait? ==> s' == if later - now > s.delay - Second then Overdue else Wait(s.delay - (later - now)))
  {
    StepKindTimeless(node, c, now, later);
    if ConditionStep(node, c, now).Overdue? { OverdueStays(node, c, now, later); }
  }

  /** With no unparsable timeout and some overdue condition, remediation is due. */
  lemma NoBadTimeoutSomeOverdue(node: Node, cs: seq<UnhealthyCondition>, now: int, k: int)
    requires forall i :: 0 <= i < |cs| ==> !ConditionStep(node, cs[i], now).BadTimeout?
    requires 0 <= k < |cs| && ConditionStep(node, cs[k], now) == Overdue
    ensures Evaluate(node, cs, now) == Actionable
  {
    EvaluateQuiet(node, cs, now);
    EvaluateTerminalDecided(node, cs, now);
    var i :| DecidedAt(node, cs, now, i);
    EvaluateDecidedAt(node, cs, now, i);
  }

  /** Whether a step is a skip or a bad timeout does not depend on the time. */
  lemma StepKindTimeless(node: Node, c: UnhealthyCondition, now: int, later: int)
    ensures ConditionStep(node, c, now).Skip? <==> ConditionStep(node, c, later).Skip?
    ensures ConditionStep(node, c, now).BadTimeout? <==> ConditionStep(node, c, later).BadTimeout?
  {
  }

  /** An overdue condition stays overdue. */
  lemma OverdueStays(node: Node, c: UnhealthyCondition, now: int, later: int)
    requires now <= later && ConditionStep(node, c, now) == Overdue
    ensures ConditionStep(node, c, later) == Overdue
  {
  }

  /** A waiting condition is overdue once its delay has passed. */
  lemma WaitExpires(node: Node, c: UnhealthyCondition, now: int)
    requires ConditionStep(node, c, now).Wait?
    ensures ConditionStep(node, c, now + ConditionStep(node, c, now).delay) == Overdue
  {
  }

  /**
   * Requeueing works: a re-evaluation after the returned delay, with the
   * node's conditions unchanged, finds a condition that has lasted too long.
   */
  lemma PendingBecomesActionable(node: Node, cs: seq<UnhealthyCondition>, now: int)
    requires Evaluate(node, cs, now).Pending?
    ensures Evaluate(node, cs, now + Evaluate(node, cs, now).delay) == Actionable
  {
    var d := Evaluate(node, cs, now).delay;
    assert forall i :: 0 <= i < |cs| ==> !ConditionStep(node, cs[i], now + d).BadTimeout? by {
      EvaluateQuiet(node, cs, now);
      forall i | 0 <= i < |cs| ensures !ConditionStep(node, cs[i], now + d).BadTimeout? {
        StepKindTimeless(node, cs[i], now, now + d);
      }
    }
    assert exists k :: 0 <= k < |cs| && ConditionStep(node, cs[k], now) == Wait(d) by {
      EvaluatePendingWitness(node, cs, now);
    }
    var k :| 0 <= k < |cs| && ConditionStep(node, cs[k], now) == Wait(d);
    WaitExpires(node, cs[k], now);
    NoBadTimeoutSomeOverdue(node, cs, now + d, k);
  }

  /** A node that is due for remediation stays due as time passes. */
  lemma ActionableIsStable(node: Node, cs: seq<UnhealthyCondition>, now: int, later: int)
    requires now <= later
    requires Evaluate(node, cs, now) == Actionable
    ensures Evaluate(node, cs, later) == Actionable
  {
    assert exists i :: DecidedAt(node, cs, now, i) && ConditionStep(node, cs[i], now) == Overdue by {
      EvaluateActionable(node, cs, now);
    }
    var i :| DecidedAt(node, cs, now, i) && ConditionStep(node, cs[i], now) == Overdue;
    var prefix := cs[..i + 1];
    assert forall j :: 0 <= j < |prefix| ==> !ConditionStep(node, prefix[j], later).BadTimeout? by {
      forall j | 0 <= j < |prefix| ensures !ConditionStep(node, prefix[j], later).BadTimeout? {
        assert prefix[j] == cs[j];
        StepKindTimeless(node, cs[j], now, later);
      }
    }
    OverdueStays(node, cs[i], now, later);
    assert prefix[i] == cs[i];
    NoBadTimeoutSomeOverdue(node, prefix, later, i);
    EvaluateSticks(node, cs, i + 1, later);
  }

  /** The verdict reads nothing of the node but its conditions (labels and annotations do not matter). */
  lemma {:induction false} EvaluateReadsConditions(node: Node, other: Node, cs: seq<UnhealthyCondition>, now: int)
    requires node.conditions == other.conditions
    ensures Evaluate(node, cs, now) == Evaluate(other, cs, now)
    decreases |cs|
  {
    if cs != [] {
      EvaluateReadsConditions(node, other, cs[..|cs| - 1], now);
    }
  }
}
