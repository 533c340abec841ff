/** The buffer-oriented rate-adaptation controller: its state, the decision
    made for every segment request, and the four event hooks through which
    the streaming session drives it. */
module R2ABufferOriented {
  import opened Outcome
  import opened QualityMapper
  import opened BufferTracker
  import opened ThroughputEstimator
  import opened QualityPolicy

  /** Everything the controller remembers between events. */
  datatype Controller = Controller(
    qi: seq<int>,       // quality levels from the manifest, as listed
    requestTime: real,  // clock reading when the manifest was requested
    received: nat,      // segment responses seen so far
    throughput: real,   // running throughput estimate, bits per second
    oldBuffer: int      // buffer size read at the previous decision
  )

  /** A freshly constructed controller. */
  const Initial: Controller := Controller([], 0.0, 0, 0.0, 0)

  /** The outcome of one segment request: the rate aimed at, the quality
      level attached to the request, and the controller afterwards. */
  datatype Decision = Decision(desired: real, selected: int, next: Controller)

  /** One quality decision for a buffer of `bufferSize` segments. The level
      chosen is one of the manifest's, picked by the mapper from the rate
      the policy aims at; the buffer size read becomes the previous buffer
      size in every branch; only the estimate and that reading change. */
  function Decide(p: Params, c: Controller, bufferSize: int): (d: Decision)
    requires 0 <= p.maxBufferDrop
    requires 0 < |c.qi|
    ensures d.selected in c.qi
    ensures IsClosest(c.qi, d.desired, d.selected)
    ensures var a := Adjust(p, c.received, c.throughput, bufferSize, c.oldBuffer, c.qi[0]);
            d.desired == a.desired && d.next.throughput == a.throughput
    ensures d.next == c.(throughput := d.next.throughput, oldBuffer := bufferSize)
    ensures Classify(p, c.received, bufferSize, c.oldBuffer) != ColdStart ==>
              d.desired == d.next.throughput
  {
    var a := Adjust(p, c.received, c.throughput, bufferSize, c.oldBuffer, c.qi[0]);
    Decision(a.desired, ClosestQuality(c.qi, a.desired),
             c.(throughput := a.throughput, oldBuffer := bufferSize))
  }

  /** The manifest is requested: remember when. */
  function OnXmlRequest(c: Controller, now: real): (c': Controller)
    ensures c'.requestTime == now
    ensures c' == c.(requestTime := c'.requestTime)
  {
    c.(requestTime := now)
  }

  /** The manifest arrives at time `now` carrying `bitLength` bits and the
      quality levels `qi`: the levels are stored and the estimate becomes
      the bits over the round trip. A zero round trip fails and leaves the
      caller's controller as it was. */
  function OnXmlResponse(c: Controller, qi: seq<int>, bitLength: nat, now: real): (r: Result<Controller>)
    ensures r.Err? <==> now == c.requestTime
    ensures r.Err? ==> r.error == DivisionByZero
    ensures r.Ok? ==> r.value == c.(qi := qi, throughput := r.value.throughput)
    ensures r.Ok? ==> r.value.throughput * (now - c.requestTime) == bitLength as real
  {
    match ThroughputSample(bitLength, now - c.requestTime)
    case Err(e) => Err(e)
    case Ok(t) => Ok(c.(qi := qi, throughput := t))
  }

  /** A segment is requested while the buffer monitor reports `samples`:
      read the buffer size and decide. Without quality levels there is
      nothing to choose from and the request fails. */
  function OnSegmentRequest(p: Params, c: Controller, samples: seq<Sample>): (r: Result<Decision>)
    requires 0 <= p.maxBufferDrop
    ensures r.Err? <==> |c.qi| == 0
    ensures r.Err? ==> r.error == EmptyQualityList
    ensures r.Ok? ==> r.value == Decide(p, c, BufferSize(samples))
    ensures r.Ok? ==> r.value.selected in c.qi
    ensures r.Ok? ==> IsClosest(c.qi, r.value.desired, r.value.selected)
    ensures r.Ok? ==> r.value.next == c.(throughput := r.value.next.throughput,
                                         oldBuffer := BufferSize(samples))
  {
    if |c.qi| == 0 then Err(EmptyQualityList)
    else Ok(Decide(p, c, BufferSize(samples)))
  }

  /** A segment arrives: the counter goes up by exactly one and nothing
      else changes. */
  function OnSegmentResponse(c: Controller): (c': Controller)
    ensures c'.received == c.received + 1
    ensures c' == c.(received := c'.received)
  {
    c.(received := c.received + 1)
  }

  /** The manifest round trip: requested at `sent`, answered at `arrived`
      later, the estimate becomes a non-negative rate that, over the round
      trip, accounts for exactly the bits received. */
  lemma ManifestRoundTrip(c: Controller, qi: seq<int>, bitLength: nat, sent: real, arrived: real)
    requires sent < arrived
    ensures var r := OnXmlResponse(OnXmlRequest(c, sent), qi, bitLength, arrived);
            && r.Ok?
            && r.value.qi == qi
            && r.value.throughput * (arrived - sent) == bitLength as real
            && 0.0 <= r.value.throughput
  {
    SampleSign(bitLength, arrived - sent);
  }

  /** The events a session delivers to the controller. */
  datatype Event =
    | XmlRequest(now: real)
    | XmlResponse(levels: seq<int>, bitLength: nat, now: real)
    | SegmentRequest(samples: seq<Sample>)
    | SegmentResponse

  /** The controller after one event, or the error it stopped with. */
  function Step(p: Params, c: Controller, e: Event): Result<Controller>
    requires 0 <= p.maxBufferDrop
  {
    match e
    case XmlRequest(now) => Ok(OnXmlRequest(c, now))
    case XmlResponse(levels, bits, now) => OnXmlResponse(c, levels, bits, now)
    case SegmentRequest(samples) =>
      (match OnSegmentRequest(p, c, samples)
       case Err(err) => Err(err)
       case Ok(d) => Ok(d.next))
    case SegmentResponse => Ok(OnSegmentResponse(c))
  }

  /** The controller after a whole sequence of events; the first error ends
      the session. */
  function Run(p: Params, c: Controller, es: seq<Event>): Result<Controller>
    requires 0 <= p.maxBufferDrop
    decreases |es|
  {
    if |es| == 0 then Ok(c)
    else
      match Step(p, c, es[0])
      case Err(err) => Err(err)
      case Ok(c') => Run(p, c', es[1..])
  }

  /** How many segment responses a sequence of events holds. */
  function Responses(es: seq<Event>): nat
  {
    if |es| == 0 then 0
    else (if es[0].SegmentResponse? then 1 else 0) + Responses(es[1..])
  }

  /** The counter that drives the phases counts exactly the segment
      responses of a session. */
  lemma {:induction false} RunCountsResponses(p: Params, c: Controller, es: seq<Event>)
    requires 0 <= p.maxBufferDrop
    ensures Run(p, c, es).Ok? ==> Run(p, c, es).value.received == c.received + Responses(es)
    decreases |es|
  {
    if |es| > 0 {
      match Step(p, c, es[0])
      case Err(_) =>
      case Ok(c') =>
        RunCountsResponses(p, c', es[1..]);
    }
  }

  /** Clock readings never go backwards: every timed event reads at least
      the previous reading, starting from `t`. */
  ghost predicate ClockOrdered(t: real, es: seq<Event>)
    decreases |es|
  {
    if |es| == 0 then true
    else match es[0]
      case XmlRequest(now) => t <= now && ClockOrdered(now, es[1..])
      case XmlResponse(_, _, now) => t <= now && ClockOrdered(now, es[1..])
      case _ => ClockOrdered(t, es[1..])
  }

  /** With a clock that never goes backwards, a session never drives the
      throughput estimate negative. */
  lemma {:induction false} RunKeepsEstimateNonNegative(p: Params, c: Controller, t: real, es: seq<Event>)
    requires ValidParams(p)
    requires 0.0 <= c.throughput
    requires c.requestTime <= t
    requires ClockOrdered(t, es)
    ensures Run(p, c, es).Ok? ==> 0.0 <= Run(p, c, es).value.throughput
    decreases |es|
  {
    if |es| > 0 {
      match es[0]
      case XmlRequest(now) =>
        RunKeepsEstimateNonNegative(p, OnXmlRequest(c, now), now, es[1..]);
      case XmlResponse(levels, bits, now) =>
        if now != c.requestTime {
          SampleSign(bits, now - c.requestTime);
          RunKeepsEstimateNonNegative(p, OnXmlResponse(c, levels, bits, now).value, now, es[1..]);
        }
      case SegmentRequest(samples) =>
        if |c.qi| > 0 {
          EstimateDirection(p, c.received, c.throughput, BufferSize(samples), c.oldBuffer, c.qi[0]);
          RunKeepsEstimateNonNegative(p, Decide(p, c, BufferSize(samples)).next, t, es[1..]);
        }
      case SegmentResponse =>
        RunKeepsEstimateNonNegative(p, OnSegmentResponse(c), t, es[1..]);
    }
  }

  /** A session that starts from a freshly constructed controller and whose
      clock readings never go backwards (and start at or after 0) never
      drives the throughput estimate negative. */
  lemma SessionFromInitial(p: Params, es: seq<Event>)
    requires ValidParams(p)
    requires ClockOrdered(0.0, es)
    ensures Run(p, Initial, es).Ok? ==> 0.0 <= Run(p, Initial, es).value.throughput
  {
    RunKeepsEstimateNonNegative(p, Initial, 0.0, es);
  }
}
