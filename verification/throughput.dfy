/** The throughput estimator: one round trip gives one bandwidth sample,
    which replaces the running estimate outright. */
module ThroughputEstimator {
  import opened Outcome

  /** Bits per second over a round trip of `rtt` seconds. A round trip of
      exactly zero is a division by zero; nothing else is rejected, so a
      negative round trip yields a negative estimate. */
  function ThroughputSample(bitLength: nat, rtt: real): (r: Result<real>)
    ensures r.Err? <==> rtt == 0.0
    ensures r.Err? ==> r.error == DivisionByZero
    ensures r.Ok? ==> r.value * rtt == bitLength as real
  {
    if rtt == 0.0 then Err(DivisionByZero) else Ok(bitLength as real / rtt)
  }

  /** The sign of the estimate follows the sign of the round trip: a
      positive round trip never gives a negative estimate, and a negative
      one turns any non-empty payload into a negative estimate. */
  lemma SampleSign(bitLength: nat, rtt: real)
    requires rtt != 0.0
    ensures ThroughputSample(bitLength, rtt).Ok?
    ensures 0.0 < rtt ==> 0.0 <= ThroughputSample(bitLength, rtt).value
    ensures rtt < 0.0 && 0 < bitLength ==> ThroughputSample(bitLength, rtt).value < 0.0
  {
    var v := ThroughputSample(bitLength, rtt).value;
    assert v * rtt == bitLength as real;
  }
}
