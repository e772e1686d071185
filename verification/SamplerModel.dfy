/** The bandwidth sampler of internal/congestion/bbr/bandwidth_sampler.go as functions on values. */
module SamplerModel {
  import opened Common
  import opened AckHeights

  datatype SendState = SendState(
    isValid: bool,
    isAppLimited: bool,
    totalBytesSent: nat,
    totalBytesAcked: nat,
    totalBytesLost: nat,
    bytesInFlight: nat)

  const NO_STATE := SendState(false, false, 0, 0, 0, 0)

  /** What is remembered about a sent packet (connectionStateOnSentPacket). */
  datatype Packet = Packet(
    sentTime: Time,
    size: nat,
    sentAtLastAcked: nat,
    lastAckedSentTime: Time,
    lastAckedAckTime: Time,
    state: SendState)

  const NO_PACKET := Packet(NO_TIME, 0, 0, NO_TIME, NO_TIME, NO_STATE)

  datatype AckPoint = AckPoint(time: Time, bytes: nat)

  const NO_POINT := AckPoint(NO_TIME, 0)

  /** The two most recent ack points at distinct times. */
  datatype RecentAckPoints = RecentAckPoints(older: AckPoint, newer: AckPoint) {
    function Update(time: Time, bytes: nat): RecentAckPoints {
      if time > newer.time then RecentAckPoints(newer, AckPoint(time, bytes))
      else RecentAckPoints(older, AckPoint(time, bytes))
    }

    function LessRecent(): AckPoint { if older.bytes != 0 then older else newer }
  }

  datatype Sampler = Sampler(
    totalBytesSent: nat,
    totalBytesAcked: nat,
    totalBytesLost: nat,
    totalBytesNeutered: nat,
    sentAtLastAcked: nat,
    lastAckedSentTime: Time,
    lastAckedAckTime: Time,
    lastSent: int,
    lastAcked: int,
    isAppLimited: bool,
    endOfAppLimitedPhase: int,
    packets: map<int, Packet>,
    recent: RecentAckPoints,
    candidates: seq<AckPoint>,
    tracker: Tracker,
    ackedAfterLastEvent: nat,
    overestimateAvoidance: bool,
    limitBySendRate: bool)

  function InitialSampler(window: nat): Sampler {
    Sampler(0, 0, 0, 0, 0, NO_TIME, NO_TIME, INVALID_PACKET, INVALID_PACKET, false, INVALID_PACKET, map[],
            RecentAckPoints(NO_POINT, NO_POINT), [], Initial(window), 0, false, false)
  }

  function EnableOverestimateAvoidance(s: Sampler): Sampler {
    if s.overestimateAvoidance then s
    else s.(overestimateAvoidance := true, tracker := s.tracker.(threshold := 2.0))
  }

  // ---------- Sending ----------

  /** A transmission out of quiescence restarts the measurement at the moment of sending. */
  function Restarted(s: Sampler, time: Time): Sampler {
    var s := s.(lastAckedAckTime := time, sentAtLastAcked := s.totalBytesSent, lastAckedSentTime := time);
    if s.overestimateAvoidance then
      var point := AckPoint(time, s.totalBytesAcked);
      s.(recent := RecentAckPoints(NO_POINT, NO_POINT).Update(time, s.totalBytesAcked), candidates := [point])
    else s
  }

  function Snapshot(s: Sampler, time: Time, bytes: nat, bytesInFlight: nat): Packet {
    Packet(time, bytes, s.sentAtLastAcked, s.lastAckedSentTime, s.lastAckedAckTime,
           SendState(true, s.isAppLimited, s.totalBytesSent, s.totalBytesAcked, s.totalBytesLost, bytesInFlight))
  }

  function OnPacketSent(s: Sampler, time: Time, number: int, bytes: nat, bytesInFlight: nat, isRetransmittable: bool)
    : Sampler
  {
    var s := s.(lastSent := number);
    if !isRetransmittable then s
    else
      var s := s.(totalBytesSent := s.totalBytesSent + bytes);
      var s := if bytesInFlight == 0 then Restarted(s, time) else s;
      s.(packets := s.packets[number := Snapshot(s, time, bytes, bytesInFlight + bytes)])
  }

  function OnAppLimited(s: Sampler): Sampler { s.(isAppLimited := true, endOfAppLimitedPhase := s.lastSent) }

  // ---------- Losing and forgetting ----------

  function OnPacketLost(s: Sampler, bytes: nat): Sampler { s.(totalBytesLost := s.totalBytesLost + bytes) }

  /** The send state of a tracked packet, or an invalid one. */
  function StateOf(s: Sampler, number: int): SendState {
    if number in s.packets then s.packets[number].state.(isValid := true) else NO_STATE
  }

  function OnPacketNeutered(s: Sampler, number: int): Sampler {
    if number in s.packets
    then s.(packets := s.packets - {number}, totalBytesNeutered := s.totalBytesNeutered + s.packets[number].size)
    else s
  }

  function RemoveObsolete(s: Sampler, leastUnacked: int): Sampler {
    s.(packets := map k | k in s.packets && k >= leastUnacked :: s.packets[k])
  }

  // ---------- Choosing A0 ----------

  /** The first position from i on whose candidate exceeds the target, or the length. */
  function FirstAbove(c: seq<AckPoint>, i: nat, target: nat): (k: nat)
    requires 1 <= i <= |c|
    ensures i <= k <= |c|
    ensures forall j :: i <= j < k ==> c[j].bytes <= target
    ensures k < |c| ==> c[k].bytes > target
    decreases |c| - i
  {
    if i == |c| || c[i].bytes > target then i else FirstAbove(c, i + 1, target)
  }

  function ChosenA0(c: seq<AckPoint>, target: nat): AckPoint
    requires c != []
  {
    c[FirstAbove(c, 1, target) - 1]
  }

  /** What `chooseA0Point` leaves: all from the choice on, or, if the choice is the last, only the later half. */
  function PrunedA0(c: seq<AckPoint>, target: nat): seq<AckPoint>
    requires c != []
  {
    var i := FirstAbove(c, 1, target);
    if i < |c| then c[i - 1..] else c[|c| / 2..]
  }

  // ---------- Acknowledging ----------

  datatype Sample = Sample(bandwidth: Bandwidth, rtt: int, sendRate: Bandwidth, state: SendState)

  const NO_SAMPLE := Sample(0, 0, INF_BANDWIDTH, NO_STATE)

  /** The totals and ack points after the ack of a tracked packet. */
  function Booked(s: Sampler, time: Time, p: Packet): Sampler {
    var acked := s.totalBytesAcked + p.size;
    s.(totalBytesAcked := acked, sentAtLastAcked := p.state.totalBytesSent,
       lastAckedSentTime := p.sentTime, lastAckedAckTime := time,
       recent := if s.overestimateAvoidance then s.recent.Update(time, acked) else s.recent)
  }

  /** An app-limited phase ends with the ack of a packet sent after the phase was last prolonged. */
  function PhaseLeft(s: Sampler, number: int): Sampler {
    if s.isAppLimited && (s.endOfAppLimitedPhase == INVALID_PACKET || number > s.endOfAppLimitedPhase)
    then s.(isAppLimited := false) else s
  }

  function Credited(s: Sampler, time: Time, number: int): Sampler
    requires number in s.packets
  {
    PhaseLeft(Booked(s, time, s.packets[number]), number)
  }

  predicate ChoosesA0(s: Sampler) { s.overestimateAvoidance && s.candidates != [] }

  /** The earlier point of the ack-rate slope. */
  function A0(s: Sampler, p: Packet): AckPoint {
    if ChoosesA0(s) then ChosenA0(s.candidates, p.state.totalBytesAcked)
    else AckPoint(p.lastAckedAckTime, p.state.totalBytesAcked)
  }

  function SendRate(p: Packet): Bandwidth {
    if p.sentTime > p.lastAckedSentTime
    then BandwidthFromDelta(p.state.totalBytesSent - p.sentAtLastAcked, p.sentTime - p.lastAckedSentTime)
    else INF_BANDWIDTH
  }

  /** The sample that a credited packet yields, and the pruning that choosing its A0 point causes. */
  function Sampled(s: Sampler, time: Time, p: Packet): (Sampler, Sample) {
    var a0 := A0(s, p);
    var t := if ChoosesA0(s) then s.(candidates := PrunedA0(s.candidates, p.state.totalBytesAcked)) else s;
    if time <= a0.time then (t, NO_SAMPLE)
    else
      var ackRate := BandwidthFromDelta(s.totalBytesAcked - a0.bytes, time - a0.time);
      (t, Sample(Min(SendRate(p), ackRate), time - p.sentTime, SendRate(p), p.state.(isValid := true)))
  }

  /** `onPacketAcknowledged`: the sampler and the sample for one acknowledged packet. */
  function OnPacketAcknowledged(s: Sampler, time: Time, number: int): (Sampler, Sample) {
    var s := s.(lastAcked := number);
    if number !in s.packets then (s, NO_SAMPLE)
    else
      var p := s.packets[number];
      var s := Credited(s, time, number);
      if p.lastAckedSentTime == NO_TIME then (s, NO_SAMPLE) else Sampled(s, time, p)
  }

  /** `onAckEventEnd`: feeds the tracker and, when a new epoch starts, saves an A0 candidate. */
  function OnAckEventEnd(s: Sampler, bandwidth: Bandwidth, isNewMaxBandwidth: bool, round: nat): (Sampler, int) {
    var newlyAcked := s.totalBytesAcked - s.ackedAfterLastEvent;
    if newlyAcked == 0 then (s, 0)
    else
      var (tracker, extra) := UpdatedTracker(s.tracker, bandwidth, isNewMaxBandwidth, round, s.lastSent, s.lastAcked,
                                             s.lastAckedAckTime, newlyAcked);
      var s := s.(ackedAfterLastEvent := s.totalBytesAcked, tracker := tracker);
      (if s.overestimateAvoidance && extra == 0 then s.(candidates := s.candidates + [s.recent.LessRecent()]) else s,
       extra)
  }

  // ---------- Congestion events ----------

  datatype PacketInfo = PacketInfo(number: int, bytes: nat)

  /** The sampler together with what a loop over lost packets has gathered. */
  datatype LossFold = LossFold(sampler: Sampler, last: SendState)

  function LoseAll(s: Sampler, lost: seq<PacketInfo>): LossFold {
    if lost == [] then LossFold(s, NO_STATE)
    else
      var n := |lost| - 1;
      var f := LoseAll(s, lost[..n]);
      var state := StateOf(f.sampler, lost[n].number);
      LossFold(OnPacketLost(f.sampler, lost[n].bytes), if state.isValid then state else f.last)
  }

  /** The sampler together with what the loop over acked packets has gathered. */
  datatype AckFold = AckFold(
    sampler: Sampler,
    last: SendState,
    maxSendRate: Bandwidth,
    rtt: int,
    maxBandwidth: Bandwidth,
    isAppLimited: bool,
    maxInflight: int)

  function AckOne(f: AckFold, time: Time, number: int): AckFold {
    var (s, sample) := OnPacketAcknowledged(f.sampler, time, number);
    if !sample.state.isValid then f.(sampler := s)
    else
      AckFold(s, sample.state,
              if sample.sendRate != INF_BANDWIDTH then Max(f.maxSendRate, sample.sendRate) else f.maxSendRate,
              if sample.rtt != 0 then Min(f.rtt, sample.rtt) else f.rtt,
              if sample.bandwidth > f.maxBandwidth then sample.bandwidth else f.maxBandwidth,
              if sample.bandwidth > f.maxBandwidth then sample.state.isAppLimited else f.isAppLimited,
              Max(f.maxInflight, s.totalBytesAcked - sample.state.totalBytesAcked))
  }

  function AckAll(s: Sampler, time: Time, acked: seq<PacketInfo>): AckFold {
    if acked == [] then AckFold(s, NO_STATE, 0, INF_RTT, 0, false, 0)
    else
      var n := |acked| - 1;
      AckOne(AckAll(s, time, acked[..n]), time, acked[n].number)
  }

  datatype EventSample = EventSample(
    maxBandwidth: Bandwidth,
    isAppLimited: bool,
    rtt: int,
    maxInflight: int,
    lastState: SendState,
    extraAcked: int)

  function LastState(lost: seq<PacketInfo>, acked: seq<PacketInfo>, lastLost: SendState, lastAcked: SendState): SendState
    requires acked != []
  {
    if !lastLost.isValid then lastAcked
    else if !lastAcked.isValid then lastLost
    else if lost != [] && lost[|lost| - 1].number > acked[|acked| - 1].number then lastLost
    else lastAcked
  }

  /** `OnCongestionEvent`. */
  function OnCongestionEvent(s: Sampler, time: Time, acked: seq<PacketInfo>, lost: seq<PacketInfo>,
                             maxBandwidth: Bandwidth, upperBound: Bandwidth, round: nat): (Sampler, EventSample)
  {
    var l := LoseAll(s, lost);
    if acked == [] then (l.sampler, EventSample(0, false, INF_RTT, 0, l.last, 0))
    else
      var a := AckAll(l.sampler, time, acked);
      var best := Max(maxBandwidth, a.maxBandwidth);
      var best := if a.sampler.limitBySendRate then Max(best, a.maxSendRate) else best;
      var (s, extra) := OnAckEventEnd(a.sampler, Min(upperBound, best), a.maxBandwidth > maxBandwidth, round);
      (s, EventSample(a.maxBandwidth, a.isAppLimited, a.rtt, a.maxInflight,
                      LastState(lost, acked, l.last, a.last), extra))
  }
}
