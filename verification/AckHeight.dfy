/** The ack-aggregation tracker (maxAckHeightTracker) of internal/congestion/bbr/bandwidth_sampler.go. */
module AckHeights {
  import opened Common
  import opened WindowedFilters

  datatype ExtraAcked = ExtraAcked(extraAcked: int, bytesAcked: int, timeDelta: int, round: nat)

  const NO_EVENT := ExtraAcked(0, 0, 0, 0)

  const HEIGHT: ExtraAcked -> int := (e: ExtraAcked) => e.extraAcked

  datatype Tracker = Tracker(
    window: nat,
    heights: Estimates<ExtraAcked>,
    epochStart: Time,
    epochBytes: int,
    lastSentBeforeEpoch: int,
    epochs: nat,
    threshold: real,
    newEpochAfterFullRound: bool,
    reduceOnBandwidthIncrease: bool)

  function Initial(window: nat): Tracker {
    Tracker(window, Same(Entry(NO_EVENT, 0)), NO_TIME, 0, INVALID_PACKET, 0, 1.0, false, false)
  }

  /** `bytesFromBandwidthAndTimeDelta`; the product is an int64. */
  function BytesFromBandwidth(bandwidth: Bandwidth, delta: int): int { TruncDiv(Wrap64(bandwidth * delta), 8 * SECOND) }

  /** Puts a saved height back, recomputed for a new bandwidth, unless nothing of it remains. */
  function Reinserted(window: nat, heights: Estimates<ExtraAcked>, bandwidth: Bandwidth, e: ExtraAcked)
    : Estimates<ExtraAcked>
  {
    var expected := BytesFromBandwidth(bandwidth, e.timeDelta);
    if expected < e.bytesAcked
    then Updated(HEIGHT, window, heights, e.(extraAcked := e.bytesAcked - expected), e.round)
    else heights
  }

  function Reduced(window: nat, heights: Estimates<ExtraAcked>, bandwidth: Bandwidth): Estimates<ExtraAcked> {
    var h := Reinserted(window, Same(Entry(NO_EVENT, 0)), bandwidth, heights.best.sample);
    var h := Reinserted(window, h, bandwidth, heights.second.sample);
    Reinserted(window, h, bandwidth, heights.third.sample)
  }

  /** Does this ack event start a new aggregation epoch? */
  predicate StartsEpoch(t: Tracker, bandwidth: Bandwidth, lastAcked: int, ackTime: Time) {
    || t.epochStart == NO_TIME
    || (&& t.newEpochAfterFullRound && t.lastSentBeforeEpoch != INVALID_PACKET
        && lastAcked != INVALID_PACKET && lastAcked > t.lastSentBeforeEpoch)
    || t.epochBytes <= (t.threshold * BytesFromBandwidth(bandwidth, ackTime - t.epochStart) as real).Floor
  }

  /** `Update`: the tracker and the number of extra bytes reported for the event. */
  function UpdatedTracker(t: Tracker, bandwidth: Bandwidth, isNewMaxBandwidth: bool, round: nat,
                          lastSent: int, lastAcked: int, ackTime: Time, bytesAcked: int): (Tracker, int)
  {
    var t := if t.reduceOnBandwidthIncrease && isNewMaxBandwidth
             then t.(heights := Reduced(t.window, t.heights, bandwidth)) else t;
    if StartsEpoch(t, bandwidth, lastAcked, ackTime) then
      (t.(epochBytes := bytesAcked, epochStart := ackTime, lastSentBeforeEpoch := lastSent, epochs := t.epochs + 1), 0)
    else
      var delta := ackTime - t.epochStart;
      var expected := BytesFromBandwidth(bandwidth, delta);
      var bytes := t.epochBytes + bytesAcked;
      var event := ExtraAcked(expected, bytes, delta, 0);
      (t.(epochBytes := bytes, heights := Updated(HEIGHT, t.window, t.heights, event, round)), bytes - expected)
  }

  lemma MoreThanExpected(bytes: nat, expected: int, threshold: real)
    requires threshold >= 1.0 && bytes > (threshold * expected as real).Floor
    ensures bytes >= expected
  {
    if expected >= 0 {
      assert threshold * expected as real >= 1.0 * expected as real;
    }
  }

  /** An event that acks bytes reports zero extra bytes exactly when it starts a new epoch, also where the expected bytes
      have wrapped around to a negative number. */
  lemma ZeroExtraMeansNewEpoch(t: Tracker, bandwidth: Bandwidth, isNewMaxBandwidth: bool, round: nat,
                               lastSent: int, lastAcked: int, ackTime: Time, bytesAcked: int)
    requires t.threshold >= 1.0 && t.epochStart <= ackTime && t.epochBytes >= 0 && bytesAcked > 0
    ensures var (u, extra) := UpdatedTracker(t, bandwidth, isNewMaxBandwidth, round, lastSent, lastAcked, ackTime, bytesAcked);
            && extra >= 0
            && (extra == 0 <==> StartsEpoch(t, bandwidth, lastAcked, ackTime))
            && u.epochs == t.epochs + (if extra == 0 then 1 else 0)
            && (extra == 0 ==> u.epochBytes == bytesAcked && u.epochStart == ackTime)
            && u.epochStart <= ackTime && u.threshold == t.threshold && u.epochBytes >= 0
  {
    hide Updated;
    hide Reduced;
    hide BytesFromBandwidth;
    if !StartsEpoch(t, bandwidth, lastAcked, ackTime) {
      MoreThanExpected(t.epochBytes, BytesFromBandwidth(bandwidth, ackTime - t.epochStart), t.threshold);
      hide StartsEpoch;
    }
  }

  class MaxAckHeightTracker {
    const maxAckHeightFilter: WindowedFilter<ExtraAcked>
    var aggregationEpochStartTime: Time
    var aggregationEpochBytes: int
    var lastSentPacketNumberBeforeEpoch: int
    var numAckAggregationEpochs: nat
    var ackAggregationBandwidthThreshold: real
    var startNewAggregationEpochAfterFullRound: bool
    var reduceExtraAckedOnBandwidthIncrease: bool

    ghost predicate Valid()
      reads this, maxAckHeightFilter
    {
      maxAckHeightFilter.Valid() && maxAckHeightFilter.rank == HEIGHT && maxAckHeightFilter.zero == NO_EVENT
    }

    ghost function Abs(): Tracker
      requires Valid()
      reads this, maxAckHeightFilter
    {
      Tracker(maxAckHeightFilter.windowLength, maxAckHeightFilter.Abs(), aggregationEpochStartTime,
              aggregationEpochBytes, lastSentPacketNumberBeforeEpoch, numAckAggregationEpochs,
              ackAggregationBandwidthThreshold, startNewAggregationEpochAfterFullRound,
              reduceExtraAckedOnBandwidthIncrease)
    }

    constructor (windowLength: nat)
      ensures Valid() && fresh(maxAckHeightFilter) && Abs() == Initial(windowLength)
    {
      maxAckHeightFilter := new WindowedFilter<ExtraAcked>(windowLength, HEIGHT, NO_EVENT);
      aggregationEpochStartTime, aggregationEpochBytes := NO_TIME, 0;
      lastSentPacketNumberBeforeEpoch, numAckAggregationEpochs := INVALID_PACKET, 0;
      ackAggregationBandwidthThreshold := 1.0;
      startNewAggregationEpochAfterFullRound, reduceExtraAckedOnBandwidthIncrease := false, false;
    }

    function Get(): int
      requires Valid()
      reads this, maxAckHeightFilter
    {
      maxAckHeightFilter.GetBest().extraAcked
    }

    method Reinsert(bandwidthEstimate: Bandwidth, saved: ExtraAcked)
      requires Valid()
      modifies maxAckHeightFilter`estimates
      ensures Valid()
      ensures maxAckHeightFilter.Abs()
           == Reinserted(maxAckHeightFilter.windowLength, old(maxAckHeightFilter.Abs()), bandwidthEstimate, saved)
    {
      var expectedBytesAcked := BytesFromBandwidth(bandwidthEstimate, saved.timeDelta);
      if expectedBytesAcked < saved.bytesAcked {
        maxAckHeightFilter.Update(saved.(extraAcked := saved.bytesAcked - expectedBytesAcked), saved.round);
      }
    }

    method Update(bandwidthEstimate: Bandwidth, isNewMaxBandwidth: bool, roundTripCount: nat, lastSentPacketNumber: int,
                  lastAckedPacketNumber: int, ackTime: Time, bytesAcked: int)
      returns (extra: int)
      requires Valid()
      modifies this, maxAckHeightFilter
      ensures Valid()
      ensures
        var (t, x) := UpdatedTracker(old(Abs()), bandwidthEstimate, isNewMaxBandwidth, roundTripCount,
                                     lastSentPacketNumber, lastAckedPacketNumber, ackTime, bytesAcked);
        Abs() == t && extra == x
    {
      hide Updated;
      hide BytesFromBandwidth;
      var forceNewEpoch := false;
      if reduceExtraAckedOnBandwidthIncrease && isNewMaxBandwidth {
        var best := maxAckHeightFilter.estimates[0].sample;
        var secondBest := maxAckHeightFilter.estimates[1].sample;
        var thirdBest := maxAckHeightFilter.estimates[2].sample;
        maxAckHeightFilter.Clear();
        Reinsert(bandwidthEstimate, best);
        Reinsert(bandwidthEstimate, secondBest);
        Reinsert(bandwidthEstimate, thirdBest);
      }
      if startNewAggregationEpochAfterFullRound && lastSentPacketNumberBeforeEpoch != INVALID_PACKET
        && lastAckedPacketNumber != INVALID_PACKET && lastAckedPacketNumber > lastSentPacketNumberBeforeEpoch
      {
        forceNewEpoch := true;
      }
      if aggregationEpochStartTime == NO_TIME || forceNewEpoch {
        aggregationEpochBytes := bytesAcked;
        aggregationEpochStartTime := ackTime;
        lastSentPacketNumberBeforeEpoch := lastSentPacketNumber;
        numAckAggregationEpochs := numAckAggregationEpochs + 1;
        return 0;
      }
      var aggregationDelta := ackTime - aggregationEpochStartTime;
      var expectedBytesAcked := BytesFromBandwidth(bandwidthEstimate, aggregationDelta);
      if aggregationEpochBytes <= (ackAggregationBandwidthThreshold * expectedBytesAcked as real).Floor {
        aggregationEpochBytes := bytesAcked;
        aggregationEpochStartTime := ackTime;
        lastSentPacketNumberBeforeEpoch := lastSentPacketNumber;
        numAckAggregationEpochs := numAckAggregationEpochs + 1;
        return 0;
      }
      aggregationEpochBytes := aggregationEpochBytes + bytesAcked;
      extra := aggregationEpochBytes - expectedBytesAcked;
      var newEvent := ExtraAcked(expectedBytesAcked, aggregationEpochBytes, aggregationDelta, 0);
      maxAckHeightFilter.Update(newEvent, roundTripCount);
    }

    method SetAckAggregationBandwidthThreshold(threshold: real)
      requires Valid()
      modifies `ackAggregationBandwidthThreshold
      ensures Valid() && Abs() == old(Abs()).(threshold := threshold)
    {
      ackAggregationBandwidthThreshold := threshold;
    }
  }
}
