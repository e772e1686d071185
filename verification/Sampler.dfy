/** The bandwidth sampler as an object over the packet queue, the ring buffer and the tracker. */
module Samplers {
  import opened Common
  import opened RingBuffers
  import opened PacketQueues
  import opened AckHeights
  import M = SamplerModel

  class BandwidthSampler {
    var totalBytesSent: nat
    var totalBytesAcked: nat
    var totalBytesLost: nat
    var totalBytesNeutered: nat
    var totalBytesSentAtLastAckedPacket: nat
    var lastAckedPacketSentTime: Time
    var lastAckedPacketAckTime: Time
    var lastSentPacket: int
    var lastAckedPacket: int
    var isAppLimited: bool
    var endOfAppLimitedPhase: int
    const connectionStateMap: PacketQueue<M.Packet>
    var recentAckPoints: M.RecentAckPoints
    const a0Candidates: RingBuffer<M.AckPoint>
    const maxAckHeightTracker: MaxAckHeightTracker
    var totalBytesAckedAfterLastAckEvent: nat
    var overestimateAvoidance: bool
    var limitMaxAckHeightTrackerBySendRate: bool

    ghost function Repr(): set<object>
      reads connectionStateMap.entries, a0Candidates
    {
      {this, connectionStateMap, connectionStateMap.entries, connectionStateMap.entries.ring,
       a0Candidates, a0Candidates.ring, maxAckHeightTracker, maxAckHeightTracker.maxAckHeightFilter}
    }

    ghost predicate Valid()
      reads this, Repr()
    {
      && connectionStateMap.Valid() && a0Candidates.Valid() && maxAckHeightTracker.Valid()
      && connectionStateMap.Last() <= lastSentPacket && lastSentPacket >= INVALID_PACKET
    }

    ghost function Abs(): M.Sampler
      requires Valid()
      reads this, Repr()
    {
      M.Sampler(totalBytesSent, totalBytesAcked, totalBytesLost, totalBytesNeutered, totalBytesSentAtLastAckedPacket,
              lastAckedPacketSentTime, lastAckedPacketAckTime, lastSentPacket, lastAckedPacket, isAppLimited,
              endOfAppLimitedPhase, connectionStateMap.View(), recentAckPoints, a0Candidates.Contents(),
              maxAckHeightTracker.Abs(), totalBytesAckedAfterLastAckEvent, overestimateAvoidance,
              limitMaxAckHeightTrackerBySendRate)
    }

    constructor (window: nat)
      ensures Valid() && fresh(Repr()) && Abs() == M.InitialSampler(window)
    {
      hide PacketQueue.Valid;
      totalBytesSent, totalBytesAcked, totalBytesLost, totalBytesNeutered := 0, 0, 0, 0;
      totalBytesSentAtLastAckedPacket, lastAckedPacketSentTime, lastAckedPacketAckTime := 0, NO_TIME, NO_TIME;
      lastSentPacket, lastAckedPacket := INVALID_PACKET, INVALID_PACKET;
      isAppLimited, endOfAppLimitedPhase := false, INVALID_PACKET;
      connectionStateMap := new PacketQueue<M.Packet>(256, M.NO_PACKET);
      recentAckPoints := M.RecentAckPoints(M.NO_POINT, M.NO_POINT);
      a0Candidates := new RingBuffer<M.AckPoint>(256, M.NO_POINT);
      maxAckHeightTracker := new MaxAckHeightTracker(window);
      totalBytesAckedAfterLastAckEvent, overestimateAvoidance := 0, false;
      limitMaxAckHeightTrackerBySendRate := false;
    }

    function TotalBytesAcked(): (n: nat)
      requires Valid()
      reads this, Repr()
      ensures n == Abs().totalBytesAcked
    {
      totalBytesAcked
    }

    function TotalBytesLost(): (n: nat)
      requires Valid()
      reads this, Repr()
      ensures n == Abs().totalBytesLost
    {
      totalBytesLost
    }

    function MaxAckHeight(): (h: int)
      requires Valid()
      reads this, Repr()
      ensures h == Abs().tracker.heights.best.sample.extraAcked
    {
      maxAckHeightTracker.Get()
    }

    method OnAppLimited()
      requires Valid()
      modifies `isAppLimited, `endOfAppLimitedPhase
      ensures Valid() && Abs() == M.OnAppLimited(old(Abs()))
    {
      isAppLimited := true;
      endOfAppLimitedPhase := lastSentPacket;
    }

    method EnableOverestimateAvoidance()
      requires Valid()
      modifies this, maxAckHeightTracker
      ensures Valid() && Repr() == old(Repr()) && Abs() == M.EnableOverestimateAvoidance(old(Abs()))
    {
      if overestimateAvoidance {
        return;
      }
      overestimateAvoidance := true;
      maxAckHeightTracker.SetAckAggregationBandwidthThreshold(2.0);
    }

    method RestartAckPoints(sentTime: Time)
      requires Valid()
      modifies `recentAckPoints, a0Candidates, a0Candidates.ring
      ensures a0Candidates.Valid() && (a0Candidates.ring == old(a0Candidates.ring) || fresh(a0Candidates.ring))
      ensures recentAckPoints == M.RecentAckPoints(M.NO_POINT, M.NO_POINT).Update(sentTime, totalBytesAcked)
      ensures a0Candidates.Contents() == [M.AckPoint(sentTime, totalBytesAcked)]
    {
      hide RingBuffer.Valid;
      hide RingBuffer.Contents;
      recentAckPoints := M.RecentAckPoints(M.NO_POINT, M.NO_POINT);
      recentAckPoints := recentAckPoints.Update(sentTime, totalBytesAcked);
      a0Candidates.Clear();
      a0Candidates.PushBack(recentAckPoints.newer);
    }

    /** The branch of `OnPacketSent` for a connection with nothing in flight. */
    method Restart(sentTime: Time)
      requires Valid()
      modifies `lastAckedPacketAckTime, `recentAckPoints, `totalBytesSentAtLastAckedPacket, `lastAckedPacketSentTime
      modifies a0Candidates, a0Candidates.ring
      ensures Valid() && (a0Candidates.ring == old(a0Candidates.ring) || fresh(a0Candidates.ring))
      ensures Abs() == M.Restarted(old(Abs()), sentTime)
      ensures connectionStateMap.Last() == old(connectionStateMap.Last())
    {
      hide PacketQueue.View;
      hide PacketQueue.Last;
      hide RingBuffer.Valid;
      hide RingBuffer.Contents;
      hide PacketQueue.Valid;
      RestartTotals(sentTime);
      if overestimateAvoidance {
        RestartAckPoints(sentTime);
      }
    }

    method RestartTotals(sentTime: Time)
      modifies `lastAckedPacketAckTime, `totalBytesSentAtLastAckedPacket, `lastAckedPacketSentTime
      ensures lastAckedPacketAckTime == sentTime && lastAckedPacketSentTime == sentTime
      ensures totalBytesSentAtLastAckedPacket == totalBytesSent
    {
      lastAckedPacketAckTime := sentTime;
      totalBytesSentAtLastAckedPacket := totalBytesSent;
      lastAckedPacketSentTime := sentTime;
    }

    /** Records the snapshot of a packet. */
    method Track(sentTime: Time, packetNumber: nat, bytes: nat, bytesInFlight: nat)
      requires Valid() && connectionStateMap.Last() < packetNumber == lastSentPacket
      modifies connectionStateMap, connectionStateMap.entries, connectionStateMap.entries.ring
      ensures Valid()
      ensures connectionStateMap.entries.ring == old(connectionStateMap.entries.ring) || fresh(connectionStateMap.entries.ring)
      ensures var s := old(Abs());
              Abs() == s.(packets := s.packets[packetNumber := M.Snapshot(s, sentTime, bytes, bytesInFlight)])
    {
      var packet := M.Packet(sentTime, bytes, totalBytesSentAtLastAckedPacket, lastAckedPacketSentTime,
                             lastAckedPacketAckTime,
                             M.SendState(true, isAppLimited, totalBytesSent, totalBytesAcked, totalBytesLost, bytesInFlight));
      var _ := connectionStateMap.Emplace(packetNumber, Some(packet));
    }

    method RecordSent(packetNumber: nat, bytes: nat, isRetransmittable: bool)
      modifies `lastSentPacket, `totalBytesSent
      ensures lastSentPacket == packetNumber
      ensures totalBytesSent == old(totalBytesSent) + if isRetransmittable then bytes else 0
    {
      lastSentPacket := packetNumber;
      if isRetransmittable {
        totalBytesSent := totalBytesSent + bytes;
      }
    }

    method OnPacketSent(sentTime: Time, packetNumber: nat, bytes: nat, bytesInFlight: nat, isRetransmittable: bool)
      requires Valid() && packetNumber > lastSentPacket
      modifies Repr()
      ensures Valid() && fresh(Repr() - old(Repr()))
      ensures Abs() == M.OnPacketSent(old(Abs()), sentTime, packetNumber, bytes, bytesInFlight, isRetransmittable)
    {
      hide MaxAckHeightTracker.Abs;
      hide PacketQueue.View;
      hide PacketQueue.Last;
      hide RingBuffer.Valid;
      hide RingBuffer.Contents;
      hide PacketQueue.Valid;
      hide M.Restarted;
      hide M.Snapshot;
      RecordSent(packetNumber, bytes, isRetransmittable);
      if !isRetransmittable {
        return;
      }
      AddPacket(sentTime, packetNumber, bytes, bytesInFlight);
    }

    /** The rest of `OnPacketSent` for a retransmittable packet, whose bytes are already in the total. */
    method AddPacket(sentTime: Time, packetNumber: nat, bytes: nat, bytesInFlight: nat)
      requires Valid() && connectionStateMap.Last() < packetNumber == lastSentPacket
      modifies Repr()
      ensures Valid() && fresh(Repr() - old(Repr()))
      ensures var s := if bytesInFlight == 0 then M.Restarted(old(Abs()), sentTime) else old(Abs());
              Abs() == s.(packets := s.packets[packetNumber := M.Snapshot(s, sentTime, bytes, bytesInFlight + bytes)])
    {
      hide RingBuffer.Valid;
      hide RingBuffer.Contents;
      hide PacketQueue.Valid;
      hide M.Restarted;
      hide M.Snapshot;
      if bytesInFlight == 0 {
        Restart(sentTime);
      }
      Track(sentTime, packetNumber, bytes, bytesInFlight + bytes);
    }

    method OnPacketLost(packetNumber: int, bytesLost: nat) returns (state: M.SendState)
      requires Valid()
      modifies `totalBytesLost
      ensures Valid() && Abs() == M.OnPacketLost(old(Abs()), bytesLost)
      ensures state == M.StateOf(old(Abs()), packetNumber)
    {
      totalBytesLost := totalBytesLost + bytesLost;
      var entry := connectionStateMap.GetEntry(packetNumber);
      state := if entry.Some? then entry.value.state.(isValid := true) else M.NO_STATE;
    }

    method OnPacketNeutered(packetNumber: int)
      requires Valid()
      modifies `totalBytesNeutered, connectionStateMap, connectionStateMap.entries, connectionStateMap.entries.ring
      ensures Valid() && Repr() == old(Repr()) && Abs() == M.OnPacketNeutered(old(Abs()), packetNumber)
    {
      hide PacketQueue.Valid;
      ghost var s := Abs();
      var removed := connectionStateMap.Remove(packetNumber);
      if removed.Some? {
        totalBytesNeutered := totalBytesNeutered + removed.value.size;
      } else {
        assert s.packets - {packetNumber} == s.packets;
      }
    }

    method RemoveObsoletePackets(leastUnacked: int)
      requires Valid()
      modifies connectionStateMap, connectionStateMap.entries, connectionStateMap.entries.ring
      ensures Valid() && Repr() == old(Repr()) && Abs() == M.RemoveObsolete(old(Abs()), leastUnacked)
    {
      connectionStateMap.RemoveUpTo(leastUnacked);
    }

    /** Picks the earlier point of the ack slope and prunes the candidates; None if there are none. */
    method ChooseA0Point(totalBytesAcked: nat) returns (a0: Option<M.AckPoint>)
      requires a0Candidates.Valid()
      modifies a0Candidates, a0Candidates.ring
      ensures a0Candidates.Valid() && a0Candidates.ring == old(a0Candidates.ring)
      ensures old(a0Candidates.Contents()) == [] ==> a0 == None && a0Candidates.Contents() == []
      ensures old(a0Candidates.Contents()) != [] ==>
                && a0 == Some(M.ChosenA0(old(a0Candidates.Contents()), totalBytesAcked))
                && a0Candidates.Contents() == M.PrunedA0(old(a0Candidates.Contents()), totalBytesAcked)
    {
      hide RingBuffer.Valid;
      hide RingBuffer.Contents;
      ghost var c := a0Candidates.Contents();
      if a0Candidates.Empty() {
        return None;
      }
      if a0Candidates.Len() == 1 {
        var front := a0Candidates.Front();
        return Some(front);
      }
      var i := 1;
      while i < a0Candidates.Len()
        invariant a0Candidates.Valid() && a0Candidates.ring == old(a0Candidates.ring)
        invariant 1 <= i <= |c| && a0Candidates.Contents() == c
        invariant M.FirstAbove(c, 1, totalBytesAcked) == M.FirstAbove(c, i, totalBytesAcked)
      {
        var point := a0Candidates.Offset(i);
        if point.bytes > totalBytesAcked {
          var previous := a0Candidates.Offset(i - 1);
          a0 := Some(previous);
          if i > 1 {
            Drop(i - 1);
          }
          return;
        }
        i := i + 1;
      }
      var back := a0Candidates.Back();
      a0 := Some(back);
      var k := 0;
      while k < a0Candidates.Len() - 1
        invariant a0Candidates.Valid() && a0Candidates.ring == old(a0Candidates.ring)
        invariant 2 * k <= |c| && a0Candidates.Contents() == c[k..]
      {
        var _ := a0Candidates.PopFront();
        k := k + 1;
      }
    }

    method Drop(n: nat)
      requires a0Candidates.Valid() && n <= |a0Candidates.Contents()|
      modifies a0Candidates, a0Candidates.ring
      ensures a0Candidates.Valid() && a0Candidates.ring == old(a0Candidates.ring)
      ensures a0Candidates.Contents() == old(a0Candidates.Contents())[n..]
    {
      hide RingBuffer.Valid;
      hide RingBuffer.Contents;
      for j := 0 to n
        invariant a0Candidates.Valid() && a0Candidates.ring == old(a0Candidates.ring)
        invariant a0Candidates.Contents() == old(a0Candidates.Contents())[j..]
      {
        var _ := a0Candidates.PopFront();
      }
    }

    method UpdateTotals(ackTime: Time, sentPacket: M.Packet)
      modifies `totalBytesAcked, `totalBytesSentAtLastAckedPacket, `lastAckedPacketSentTime, `lastAckedPacketAckTime
      modifies `recentAckPoints
      ensures totalBytesAcked == old(totalBytesAcked) + sentPacket.size
      ensures totalBytesSentAtLastAckedPacket == sentPacket.state.totalBytesSent
      ensures lastAckedPacketSentTime == sentPacket.sentTime && lastAckedPacketAckTime == ackTime
      ensures recentAckPoints == if overestimateAvoidance then old(recentAckPoints).Update(ackTime, totalBytesAcked)
                                 else old(recentAckPoints)
    {
      totalBytesAcked := totalBytesAcked + sentPacket.size;
      totalBytesSentAtLastAckedPacket := sentPacket.state.totalBytesSent;
      lastAckedPacketSentTime, lastAckedPacketAckTime := sentPacket.sentTime, ackTime;
      if overestimateAvoidance {
        recentAckPoints := recentAckPoints.Update(ackTime, totalBytesAcked);
      }
    }

    /** The part of `onPacketAcknowledged` that updates totals and ack points. */
    method Book(ackTime: Time, sentPacket: M.Packet)
      requires Valid()
      modifies `totalBytesAcked, `totalBytesSentAtLastAckedPacket, `lastAckedPacketSentTime, `lastAckedPacketAckTime
      modifies `recentAckPoints
      ensures Valid() && Abs() == M.Booked(old(Abs()), ackTime, sentPacket)
    {
      hide PacketQueue.Valid;
      UpdateTotals(ackTime, sentPacket);
    }

    /** The part of `onPacketAcknowledged` that may end an app-limited phase. */
    method LeavePhase(packetNumber: int)
      requires Valid()
      modifies `isAppLimited
      ensures Valid() && Abs() == M.PhaseLeft(old(Abs()), packetNumber)
    {
      if isAppLimited {
        if endOfAppLimitedPhase == INVALID_PACKET || packetNumber > endOfAppLimitedPhase {
          isAppLimited := false;
        }
      }
    }

    /** The part of `onPacketAcknowledged` that computes the two slopes. */
    method TakeSample(ackTime: Time, sentPacket: M.Packet) returns (sample: M.Sample)
      requires Valid()
      modifies a0Candidates, a0Candidates.ring
      ensures Valid() && Repr() == old(Repr())
      ensures var (s, x) := M.Sampled(old(Abs()), ackTime, sentPacket); Abs() == s && sample == x
    {
      hide BandwidthFromDelta;
      hide M.ChosenA0;
      hide M.PrunedA0;
      var sendRate := INF_BANDWIDTH;
      if sentPacket.sentTime > sentPacket.lastAckedSentTime {
        sendRate := BandwidthFromDelta(sentPacket.state.totalBytesSent - sentPacket.sentAtLastAcked,
                                       sentPacket.sentTime - sentPacket.lastAckedSentTime);
      }
      assert sendRate == M.SendRate(sentPacket);
      var a0 := M.AckPoint(sentPacket.lastAckedAckTime, sentPacket.state.totalBytesAcked);
      if overestimateAvoidance {
        var chosen := ChooseA0Point(sentPacket.state.totalBytesAcked);
        if chosen.Some? {
          a0 := chosen.value;
        }
      }
      assert a0 == M.A0(old(Abs()), sentPacket);
      if ackTime <= a0.time {
        return M.NO_SAMPLE;
      }
      var ackRate := BandwidthFromDelta(totalBytesAcked - a0.bytes, ackTime - a0.time);
      sample := M.Sample(Min(sendRate, ackRate), ackTime - sentPacket.sentTime, sendRate,
                       sentPacket.state.(isValid := true));
    }

    method OnPacketAcknowledged(ackTime: Time, packetNumber: int) returns (sample: M.Sample)
      requires Valid()
      modifies this, a0Candidates, a0Candidates.ring
      ensures Valid() && Repr() == old(Repr())
      ensures var (s, x) := M.OnPacketAcknowledged(old(Abs()), ackTime, packetNumber); Abs() == s && sample == x
    {
      hide MaxAckHeightTracker.Abs;
      hide RingBuffer.Valid;
      hide RingBuffer.Contents;
      hide PacketQueue.View;
      hide PacketQueue.Last;
      hide PacketQueue.Valid;
      hide M.Booked;
      hide M.PhaseLeft;
      hide M.Sampled;
      lastAckedPacket := packetNumber;
      var entry := connectionStateMap.GetEntry(packetNumber);
      if entry.None? {
        return M.NO_SAMPLE;
      }
      var sentPacket := entry.value;
      Book(ackTime, sentPacket);
      LeavePhase(packetNumber);
      if sentPacket.lastAckedSentTime == NO_TIME {
        return M.NO_SAMPLE;
      }
      sample := TakeSample(ackTime, sentPacket);
    }

    method OnAckEventEnd(bandwidthEstimate: Bandwidth, isNewMaxBandwidth: bool, roundTripCount: nat) returns (extra: int)
      requires Valid()
      modifies this, a0Candidates, a0Candidates.ring, maxAckHeightTracker, maxAckHeightTracker.maxAckHeightFilter
      ensures Valid() && fresh(Repr() - old(Repr()))
      ensures var (s, x) := M.OnAckEventEnd(old(Abs()), bandwidthEstimate, isNewMaxBandwidth, roundTripCount);
              Abs() == s && extra == x
    {
      hide PacketQueue.Valid;
      hide UpdatedTracker;
      var newlyAckedBytes := totalBytesAcked - totalBytesAckedAfterLastAckEvent;
      if newlyAckedBytes == 0 {
        return 0;
      }
      totalBytesAckedAfterLastAckEvent := totalBytesAcked;
      extra := maxAckHeightTracker.Update(bandwidthEstimate, isNewMaxBandwidth, roundTripCount, lastSentPacket,
                                          lastAckedPacket, lastAckedPacketAckTime, newlyAckedBytes);
      if overestimateAvoidance && extra == 0 {
        a0Candidates.PushBack(recentAckPoints.LessRecent());
      }
    }

    /** The loop of `OnCongestionEvent` over the lost packets. */
    method LosePackets(lostPackets: seq<M.PacketInfo>) returns (last: M.SendState)
      requires Valid()
      modifies `totalBytesLost
      ensures Valid() && M.LossFold(Abs(), last) == M.LoseAll(old(Abs()), lostPackets)
    {
      hide BandwidthSampler.Valid;
      hide BandwidthSampler.Abs;
      last := M.NO_STATE;
      for i := 0 to |lostPackets|
        invariant Valid() && M.LossFold(Abs(), last) == M.LoseAll(old(Abs()), lostPackets[..i])
      {
        assert lostPackets[..i + 1][..i] == lostPackets[..i];
        var sendState := OnPacketLost(lostPackets[i].number, lostPackets[i].bytes);
        if sendState.isValid {
          last := sendState;
        }
      }
      assert lostPackets[..|lostPackets|] == lostPackets;
    }

    /** The loop of `OnCongestionEvent` over the acked packets. */
    method AckPackets(ackTime: Time, ackedPackets: seq<M.PacketInfo>)
      returns (last: M.SendState, maxSendRate: Bandwidth, sampleRtt: int, sampleMaxBandwidth: Bandwidth,
               sampleIsAppLimited: bool, sampleMaxInflight: int)
      requires Valid()
      modifies this, a0Candidates, a0Candidates.ring
      ensures Valid() && Repr() == old(Repr())
      ensures M.AckFold(Abs(), last, maxSendRate, sampleRtt, sampleMaxBandwidth, sampleIsAppLimited, sampleMaxInflight)
           == M.AckAll(old(Abs()), ackTime, ackedPackets)
    {
      hide PacketQueue.View;
      hide BandwidthSampler.Valid;
      hide M.OnPacketAcknowledged;
      last, maxSendRate, sampleRtt := M.NO_STATE, 0, INF_RTT;
      sampleMaxBandwidth, sampleIsAppLimited, sampleMaxInflight := 0, false, 0;
      for i := 0 to |ackedPackets|
        invariant Valid() && Repr() == old(Repr())
        invariant M.AckFold(Abs(), last, maxSendRate, sampleRtt, sampleMaxBandwidth, sampleIsAppLimited, sampleMaxInflight)
               == M.AckAll(old(Abs()), ackTime, ackedPackets[..i])
      {
        assert ackedPackets[..i + 1][..i] == ackedPackets[..i];
        var sample := OnPacketAcknowledged(ackTime, ackedPackets[i].number);
        if !sample.state.isValid {
          continue;
        }
        last := sample.state;
        if sample.rtt != 0 {
          sampleRtt := Min(sampleRtt, sample.rtt);
        }
        if sample.bandwidth > sampleMaxBandwidth {
          sampleMaxBandwidth := sample.bandwidth;
          sampleIsAppLimited := sample.state.isAppLimited;
        }
        if sample.sendRate != INF_BANDWIDTH {
          maxSendRate := Max(maxSendRate, sample.sendRate);
        }
        var inflightSample := totalBytesAcked - last.totalBytesAcked;
        if inflightSample > sampleMaxInflight {
          sampleMaxInflight := inflightSample;
        }
      }
      assert ackedPackets[..|ackedPackets|] == ackedPackets;
    }

    method OnCongestionEvent(ackTime: Time, ackedPackets: seq<M.PacketInfo>, lostPackets: seq<M.PacketInfo>,
                             maxBandwidth: Bandwidth, estBandwidthUpperBound: Bandwidth, roundTripCount: nat)
      returns (sample: M.EventSample)
      requires Valid()
      modifies Repr()
      ensures Valid() && fresh(Repr() - old(Repr()))
      ensures var (s, x) := M.OnCongestionEvent(old(Abs()), ackTime, ackedPackets, lostPackets, maxBandwidth,
                                                estBandwidthUpperBound, roundTripCount);
              Abs() == s && sample == x
    {
      hide BandwidthSampler.Valid;
      hide M.LoseAll;
      hide M.AckAll;
      hide M.OnAckEventEnd;
      var lastLost := LosePackets(lostPackets);
      if ackedPackets == [] {
        return M.EventSample(0, false, INF_RTT, 0, lastLost, 0);
      }
      var lastAcked, maxSendRate, sampleRtt, sampleMaxBandwidth, sampleIsAppLimited, sampleMaxInflight :=
        AckPackets(ackTime, ackedPackets);
      var lastState := M.LastState(lostPackets, ackedPackets, lastLost, lastAcked);
      var best := Max(maxBandwidth, sampleMaxBandwidth);
      if limitMaxAckHeightTrackerBySendRate {
        best := Max(best, maxSendRate);
      }
      var extra := OnAckEventEnd(Min(estBandwidthUpperBound, best), sampleMaxBandwidth > maxBandwidth, roundTripCount);
      sample := M.EventSample(sampleMaxBandwidth, sampleIsAppLimited, sampleRtt, sampleMaxInflight, lastState, extra);
    }
  }
}
