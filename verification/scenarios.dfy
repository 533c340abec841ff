/** Worked decisions of the controller with its constructed parameters. */
module Scenarios {
  import opened Outcome
  import opened QualityPolicy
  import opened R2ABufferOriented

  const Levels: seq<int> := [500, 1000, 1500]

  /** First segment with an estimate of 1200: the policy aims at 900 and
      the mapper picks 500, whatever the buffer reads. */
  lemma ColdStartScenario(bufferSize: int, oldBuffer: int)
    ensures var d := Decide(Default, Controller(Levels, 0.0, 0, 1200.0, oldBuffer), bufferSize);
            d.desired == 900.0 && d.selected == 500 && d.next.throughput == 1200.0
  {
  }

  /** Settled, five segments above target, buffer rising from 22 to 25:
      the estimate 1000 grows by 1.02 five times to 1104.0808032 and the
      mapper picks 1000. */
  lemma AboveTargetScenario()
    ensures var d := Decide(Default, Controller(Levels, 0.0, 20, 1000.0, 22), 25);
            d.desired == d.next.throughput == 1104.0808032 && d.selected == 1000
  {
  }

  /** At exactly the target but five segments down since the last decision,
      the drain branch wins over the at-target branch: the estimate 1000
      falls to 1000 * 0.95^5 instead of being kept. */
  lemma AtTargetStillDrains()
    ensures var d := Decide(Default, Controller(Levels, 0.0, 20, 1000.0, 25), 20);
            d.next.throughput == 773.7809375 && d.selected == 500
  {
  }

  /** A manifest answered at the very instant it was requested fails with a
      division by zero. */
  lemma ZeroRoundTripScenario(c: Controller, bitLength: nat)
    ensures OnXmlResponse(OnXmlRequest(c, 5.0), Levels, bitLength, 5.0) == Err(DivisionByZero)
  {
  }
}
