/** The quality policy: from the segment counter, the buffer level, the
    previous buffer level and the throughput estimate, the rate to aim for
    and the estimate to carry into the next decision. */
module QualityPolicy {
  import opened Power

  /** The controller's tuning parameters. */
  datatype Params = Params(
    bufferTarget: int,        // segments the buffer should hold
    maxBufferDrop: int,       // largest one-step fall tolerated above target
    initialMultiplier: real,  // scales the estimate for the first segment
    decreaseAmount: real,     // per-segment factor below target or when draining
    increaseAmount: real      // per-segment factor above target
  )

  /** The values the controller is constructed with. */
  const Default: Params := Params(20, 4, 0.75, 0.95, 1.02)

  /** The parameter ranges the policy lemmas assume: a decrease factor in
      (0, 1), an increase factor above 1, a positive start-up multiplier and
      a non-negative drop threshold. */
  predicate ValidParams(p: Params)
  {
    && 0 <= p.maxBufferDrop
    && 0.0 < p.initialMultiplier
    && 0.0 < p.decreaseAmount < 1.0
    && 1.0 < p.increaseAmount
  }

  /** The constructed values lie in the ranges the policy lemmas assume. */
  lemma DefaultIsValid()
    ensures ValidParams(Default)
    ensures Default.bufferTarget == 20 && Default.maxBufferDrop == 4
  {
  }

  /** The branch of the policy that applies to one decision. */
  datatype Phase = ColdStart | RampUp | RapidDrain | BelowTarget | AtTarget | AboveTarget

  /** The buffer is at or above target but fell by more than the tolerated
      drop since the previous decision. */
  predicate Draining(p: Params, bufferSize: int, oldBuffer: int)
  {
    bufferSize >= p.bufferTarget && oldBuffer - bufferSize > p.maxBufferDrop
  }

  /** The phase, tested in the controller's fixed priority order. The three
      buffer comparisons are exhaustive, so the controller's initial
      desired rate of 0 is never used. */
  function Classify(p: Params, received: nat, bufferSize: int, oldBuffer: int): (r: Phase)
    ensures r == ColdStart <==> received == 0
    ensures r == RampUp <==> 0 < received < p.bufferTarget
    ensures r == RapidDrain <==> 0 < received && p.bufferTarget <= received && Draining(p, bufferSize, oldBuffer)
  {
    if received == 0 then ColdStart
    else if received < p.bufferTarget then RampUp
    else if Draining(p, bufferSize, oldBuffer) then RapidDrain
    else if bufferSize < p.bufferTarget then BelowTarget
    else if bufferSize == p.bufferTarget then AtTarget
    else AboveTarget
  }

  /** Each phase by its own condition, independent of the priority order:
      the branch taken is exactly the one whose condition holds. */
  lemma PhaseConditions(p: Params, received: nat, bufferSize: int, oldBuffer: int)
    ensures var ph := Classify(p, received, bufferSize, oldBuffer);
            var settled := 0 < received && p.bufferTarget <= received;
            var drain := bufferSize >= p.bufferTarget && oldBuffer - bufferSize > p.maxBufferDrop;
            && (ph == ColdStart <==> received == 0)
            && (ph == RampUp <==> 0 < received < p.bufferTarget)
            && (ph == RapidDrain <==> settled && drain)
            && (ph == BelowTarget <==> settled && bufferSize < p.bufferTarget)
            && (ph == AtTarget <==> settled && bufferSize == p.bufferTarget && oldBuffer - bufferSize <= p.maxBufferDrop)
            && (ph == AboveTarget <==> settled && bufferSize > p.bufferTarget && oldBuffer - bufferSize <= p.maxBufferDrop)
  {
  }

  /** The policy's two outputs: the rate to aim for, and the throughput
      estimate the controller keeps afterwards. */
  datatype Adjustment = Adjustment(desired: real, throughput: real)

  function Max(a: real, b: real): real
  {
    if a >= b then a else b
  }

  /** One decision of the policy. `firstLevel` is the first level of the
      quality list, the floor of the above-target branch. */
  function Adjust(p: Params, received: nat, throughput: real, bufferSize: int, oldBuffer: int,
                  firstLevel: int): (a: Adjustment)
    requires 0 <= p.maxBufferDrop
    ensures Classify(p, received, bufferSize, oldBuffer) != ColdStart ==> a.desired == a.throughput
    ensures Classify(p, received, bufferSize, oldBuffer) in {ColdStart, RampUp, AtTarget} ==>
              a.throughput == throughput
  {
    match Classify(p, received, bufferSize, oldBuffer)
    case ColdStart => Adjustment(throughput * p.initialMultiplier, throughput)
    case RampUp => Adjustment(throughput, throughput)
    case RapidDrain =>
      var t := throughput * Pow(p.decreaseAmount, (oldBuffer - bufferSize) as nat);
      Adjustment(t, t)
    case BelowTarget =>
      var t := throughput * Pow(p.decreaseAmount, (p.bufferTarget - bufferSize) as nat);
      Adjustment(t, t)
    case AtTarget => Adjustment(throughput, throughput)
    case AboveTarget =>
      var t := Max(throughput * Pow(p.increaseAmount, (bufferSize - p.bufferTarget) as nat),
                   firstLevel as real);
      Adjustment(t, t)
  }

  /** Cold start: the first segment aims at the scaled estimate whatever the
      buffer reads, and the estimate is kept. */
  lemma ColdStartIgnoresBuffer(p: Params, throughput: real, b1: int, o1: int, b2: int, o2: int,
                               firstLevel: int)
    requires 0 <= p.maxBufferDrop
    ensures Adjust(p, 0, throughput, b1, o1, firstLevel)
         == Adjust(p, 0, throughput, b2, o2, firstLevel)
         == Adjustment(throughput * p.initialMultiplier, throughput)
  {
  }

  /** Ramp-up: before a buffer-target's worth of segments has arrived, the
      policy tracks the raw estimate and leaves it unchanged. */
  lemma RampUpTracksEstimate(p: Params, received: nat, throughput: real, bufferSize: int,
                             oldBuffer: int, firstLevel: int)
    requires 0 <= p.maxBufferDrop
    requires 0 < received < p.bufferTarget
    ensures Adjust(p, received, throughput, bufferSize, oldBuffer, firstLevel)
         == Adjustment(throughput, throughput)
  {
  }

  /** Rapid drain: once settled, a buffer at or above target that fell by
      more than the tolerated drop is scaled down by the decrease factor
      once per segment lost, a positive number of times, even though the
      above-target branch would otherwise apply; a positive estimate
      strictly falls. */
  lemma DrainPrecedence(p: Params, received: nat, throughput: real, bufferSize: int,
                        oldBuffer: int, firstLevel: int)
    requires ValidParams(p)
    requires 0 < received && p.bufferTarget <= received
    requires bufferSize >= p.bufferTarget
    requires oldBuffer - bufferSize > p.maxBufferDrop
    ensures Classify(p, received, bufferSize, oldBuffer) == RapidDrain
    ensures 0 < oldBuffer - bufferSize
    ensures var a := Adjust(p, received, throughput, bufferSize, oldBuffer, firstLevel);
            && a.desired == a.throughput
               == throughput * Pow(p.decreaseAmount, (oldBuffer - bufferSize) as nat)
            && (0.0 < throughput ==> a.throughput < throughput)
  {
    var n := (oldBuffer - bufferSize) as nat;
    var f := Pow(p.decreaseAmount, n);
    assert Classify(p, received, bufferSize, oldBuffer) == RapidDrain;
    assert Adjust(p, received, throughput, bufferSize, oldBuffer, firstLevel)
        == Adjustment(throughput * f, throughput * f);
    PowBelowOne(p.decreaseAmount, n);
    if 0.0 < throughput {
      ScaleDown(f, throughput);
      assert throughput * f == f * throughput;
    }
  }

  /** Below target (no drain): the estimate is scaled down once per missing
      segment, a positive number of times, so a non-negative estimate never
      grows and never turns negative. */
  lemma BelowTargetDecreases(p: Params, received: nat, throughput: real, bufferSize: int,
                             oldBuffer: int, firstLevel: int)
    requires ValidParams(p)
    requires 0 < received && p.bufferTarget <= received
    requires bufferSize < p.bufferTarget
    ensures Classify(p, received, bufferSize, oldBuffer) == BelowTarget
    ensures 0 < p.bufferTarget - bufferSize
    ensures var a := Adjust(p, received, throughput, bufferSize, oldBuffer, firstLevel);
            && a.desired == a.throughput
               == throughput * Pow(p.decreaseAmount, (p.bufferTarget - bufferSize) as nat)
            && (0.0 <= throughput ==> 0.0 <= a.throughput <= throughput)
  {
    var n := (p.bufferTarget - bufferSize) as nat;
    var f := Pow(p.decreaseAmount, n);
    assert Classify(p, received, bufferSize, oldBuffer) == BelowTarget;
    assert Adjust(p, received, throughput, bufferSize, oldBuffer, firstLevel)
        == Adjustment(throughput * f, throughput * f);
    PowBelowOne(p.decreaseAmount, n);
    if 0.0 < throughput {
      ScaleDown(f, throughput);
      assert throughput * f == f * throughput;
    }
  }

  /** At target with no drain, the estimate is kept and is also the rate. */
  lemma AtTargetKeepsEstimate(p: Params, received: nat, throughput: real, oldBuffer: int,
                              firstLevel: int)
    requires 0 <= p.maxBufferDrop
    requires 0 < received && p.bufferTarget <= received
    requires !Draining(p, p.bufferTarget, oldBuffer)
    ensures Adjust(p, received, throughput, p.bufferTarget, oldBuffer, firstLevel)
         == Adjustment(throughput, throughput)
  {
  }

  /** Above target (no drain): the estimate is scaled up once per extra
      segment and floored at the first quality level, i.e. it becomes the
      larger of the scaled estimate and that level. */
  lemma AboveTargetFormula(p: Params, received: nat, throughput: real, bufferSize: int,
                           oldBuffer: int, firstLevel: int)
    requires 0 <= p.maxBufferDrop
    requires 0 < received && p.bufferTarget <= received
    requires bufferSize > p.bufferTarget
    requires !Draining(p, bufferSize, oldBuffer)
    ensures Classify(p, received, bufferSize, oldBuffer) == AboveTarget
    ensures var a := Adjust(p, received, throughput, bufferSize, oldBuffer, firstLevel);
            var scaled := throughput * Pow(p.increaseAmount, (bufferSize - p.bufferTarget) as nat);
            && a.desired == a.throughput
            && scaled <= a.throughput
            && firstLevel as real <= a.throughput
            && (a.throughput == scaled || a.throughput == firstLevel as real)
  {
  }

  /** Exactly one segment above target (no drain), the increase factor is
      applied once. */
  lemma OneAboveTargetScalesOnce(p: Params, received: nat, throughput: real, oldBuffer: int,
                                 firstLevel: int)
    requires 0 <= p.maxBufferDrop
    requires 0 < received && p.bufferTarget <= received
    requires !Draining(p, p.bufferTarget + 1, oldBuffer)
    ensures var a := Adjust(p, received, throughput, p.bufferTarget + 1, oldBuffer, firstLevel);
            && throughput * p.increaseAmount <= a.throughput
            && firstLevel as real <= a.throughput
            && (a.throughput == throughput * p.increaseAmount || a.throughput == firstLevel as real)
  {
    AboveTargetFormula(p, received, throughput, p.bufferTarget + 1, oldBuffer, firstLevel);
    assert Pow(p.increaseAmount, 1) == p.increaseAmount;
  }

  /** Above target (no drain): the new estimate is never below the first
      quality level, and never below the old estimate when that is
      non-negative. */
  lemma AboveTargetIncreases(p: Params, received: nat, throughput: real, bufferSize: int,
                             oldBuffer: int, firstLevel: int)
    requires ValidParams(p)
    requires 0 < received && p.bufferTarget <= received
    requires bufferSize > p.bufferTarget
    requires !Draining(p, bufferSize, oldBuffer)
    requires 0.0 <= throughput
    ensures var a := Adjust(p, received, throughput, bufferSize, oldBuffer, firstLevel);
            && firstLevel as real <= a.throughput
            && throughput <= a.throughput
  {
    var a := Adjust(p, received, throughput, bufferSize, oldBuffer, firstLevel);
    var f := Pow(p.increaseAmount, (bufferSize - p.bufferTarget) as nat);
    AboveTargetFormula(p, received, throughput, bufferSize, oldBuffer, firstLevel);
    PowAboveOne(p.increaseAmount, (bufferSize - p.bufferTarget) as nat);
    ScaleUp(f, throughput);
    calc {
      throughput;
    <=
      throughput * f;
    <=
      a.throughput;
    }
  }

  /** A factor above 1 does not shrink a non-negative amount. */
  lemma ScaleUp(f: real, t: real)
    requires 1.0 < f
    requires 0.0 <= t
    ensures t <= t * f
  {
  }

  /** Which way the estimate moves: it falls only when the buffer is below
      target or draining, rises only when it is above target, stays put in
      the other phases, and never turns negative. */
  lemma EstimateDirection(p: Params, received: nat, throughput: real, bufferSize: int,
                          oldBuffer: int, firstLevel: int)
    requires ValidParams(p)
    requires 0.0 <= throughput
    ensures var ph := Classify(p, received, bufferSize, oldBuffer);
            var a := Adjust(p, received, throughput, bufferSize, oldBuffer, firstLevel);
            && 0.0 <= a.throughput
            && 0.0 <= a.desired
            && (a.throughput < throughput ==> ph == RapidDrain || ph == BelowTarget)
            && (a.throughput > throughput ==> ph == AboveTarget)
  {
    var ph := Classify(p, received, bufferSize, oldBuffer);
    PhaseConditions(p, received, bufferSize, oldBuffer);
    match ph
    case ColdStart =>
    case RampUp =>
    case RapidDrain =>
      DrainPrecedence(p, received, throughput, bufferSize, oldBuffer, firstLevel);
      PowPositive(p.decreaseAmount, (oldBuffer - bufferSize) as nat);
    case BelowTarget =>
      BelowTargetDecreases(p, received, throughput, bufferSize, oldBuffer, firstLevel);
    case AtTarget =>
    case AboveTarget =>
      AboveTargetFormula(p, received, throughput, bufferSize, oldBuffer, firstLevel);
      AboveTargetIncreases(p, received, throughput, bufferSize, oldBuffer, firstLevel);
  }

  /** The response is graduated below target: of two buffer levels both
      below target, the lower one never aims higher. */
  lemma BelowTargetGraduated(p: Params, received: nat, throughput: real, b1: int, b2: int,
                             oldBuffer: int, firstLevel: int)
    requires ValidParams(p)
    requires 0 < received && p.bufferTarget <= received
    requires b1 <= b2 < p.bufferTarget
    requires 0.0 <= throughput
    ensures Adjust(p, received, throughput, b1, oldBuffer, firstLevel).desired
         <= Adjust(p, received, throughput, b2, oldBuffer, firstLevel).desired
  {
    var n1 := (p.bufferTarget - b1) as nat;
    var n2 := (p.bufferTarget - b2) as nat;
    BelowTargetDecreases(p, received, throughput, b1, oldBuffer, firstLevel);
    BelowTargetDecreases(p, received, throughput, b2, oldBuffer, firstLevel);
    PowAntitone(p.decreaseAmount, n2, n1);
    ScaleMonotone(throughput, Pow(p.decreaseAmount, n1), Pow(p.decreaseAmount, n2));
  }

  /** The response is graduated above target: of two buffer levels both
      above target and not draining, the higher one never aims lower. */
  lemma AboveTargetGraduated(p: Params, received: nat, throughput: real, b1: int, b2: int,
                             oldBuffer: int, firstLevel: int)
    requires ValidParams(p)
    requires 0 < received && p.bufferTarget <= received
    requires p.bufferTarget < b1 <= b2
    requires !Draining(p, b1, oldBuffer) && !Draining(p, b2, oldBuffer)
    requires 0.0 <= throughput
    ensures Adjust(p, received, throughput, b1, oldBuffer, firstLevel).desired
         <= Adjust(p, received, throughput, b2, oldBuffer, firstLevel).desired
  {
    var f1 := Pow(p.increaseAmount, (b1 - p.bufferTarget) as nat);
    var f2 := Pow(p.increaseAmount, (b2 - p.bufferTarget) as nat);
    var a1 := Adjust(p, received, throughput, b1, oldBuffer, firstLevel);
    var a2 := Adjust(p, received, throughput, b2, oldBuffer, firstLevel);
    AboveTargetFormula(p, received, throughput, b1, oldBuffer, firstLevel);
    AboveTargetFormula(p, received, throughput, b2, oldBuffer, firstLevel);
    PowMonotone(p.increaseAmount, (b1 - p.bufferTarget) as nat, (b2 - p.bufferTarget) as nat);
    ScaleMonotone(throughput, f1, f2);
    assert throughput * f2 <= a2.desired;
    assert firstLevel as real <= a2.desired;
    if a1.desired == firstLevel as real {
      assert a1.desired <= a2.desired;
    } else {
      assert a1.desired == throughput * f1;
      assert a1.desired <= throughput * f2;
    }
  }

  /** Scaling a non-negative amount by a larger factor gives more. */
  lemma ScaleMonotone(t: real, f1: real, f2: real)
    requires 0.0 <= t
    requires f1 <= f2
    ensures t * f1 <= t * f2
  {
  }
}
