/** What the sampler's samples mean on a run of the BBR sender, in terms of the calls alone: round trips, and the bytes sent
    between two sends. */
module BbrSamples {
  import opened Common
  import opened SamplerModel
  import opened BbrModel
  import opened BbrProofs
  import opened BbrPath
  import opened BbrSampling
  import AckHeights
  import Pacing
  import SP = SamplerProofs

  // ---------- Tracked packets are as they were sent ----------

  /** The packet p is the snapshot that call k took when it sent it. */
  ghost predicate IsSnapshotOf(states: seq<Bbr>, events: seq<Event>, k: nat, p: Packet)
    requires |states| == |events| + 1 && k < |events| && events[k].Sent?
  {
    var e, before, after := events[k], states[k].sampler, states[k + 1].sampler;
    && p.sentTime == e.time && p.size == e.bytes
    && p.state == SendState(true, before.isAppLimited, after.totalBytesSent, before.totalBytesAcked, before.totalBytesLost,
                            e.bytesInFlight + e.bytes)
    && p.sentAtLastAcked == after.sentAtLastAcked
    && p.lastAckedSentTime == after.lastAckedSentTime && p.lastAckedAckTime == after.lastAckedAckTime
  }

  lemma StepOnPackets(b: Bbr, e: Event, number: int)
    requires Inv(b) && Allowed(b, e) && number in Step(b, e).sampler.packets
    ensures if Tracks(e, number) then IsSnapshotOf([b, Step(b, e)], [e], 0, Step(b, e).sampler.packets[number])
            else number in b.sampler.packets && Step(b, e).sampler.packets[number] == b.sampler.packets[number]
  {
    hide SP.Inv;
    if e.Congested? {
      hide OnCongestion;
      EventOnPackets(b, e.congestion);
    } else {
      hide Pacing.Sent;
    }
  }

  lemma EventOnPackets(b: Bbr, e: Congestion)
    requires Inv(b) && Allowed(b, Congested(e))
    ensures forall k :: k in OnCongestion(b, e).sampler.packets ==>
              k in b.sampler.packets && OnCongestion(b, e).sampler.packets[k] == b.sampler.packets[k]
  {
    hide SP.Inv;
    hide OnCongestion;
    hide OnCongestionEvent;
    hide FallsIdle;
    hide RoundsAfter;
    var _ := EventOnSampler(b, e);
    PreparedIsReady(b, e);
    SP.EventKeepsInv(SamplerBefore(b, e), e.time, e.acked, e.lost, b.maxBandwidth.best.sample, INF_BANDWIDTH,
                     RoundsAfter(b, e).count);
  }

  /** Every tracked packet is the snapshot that its own sending call took. */
  lemma {:induction false} TrackedIsAsSent(c: Config, datagram: nat, states: seq<Bbr>, events: seq<Event>, n: nat, number: int)
    returns (k: nat)
    requires IsRun(c, datagram, states, events) && n < |states| && number in states[n].sampler.packets
    ensures k < n && Tracks(events[k], number) && IsSnapshotOf(states, events, k, states[n].sampler.packets[number])
  {
    hide Inv;
    hide Step;
    hide Allowed;
    assert states[0] == InitialBbr(c, datagram);
    k := n - 1;
    AlwaysInv(c, datagram, states, events, k);
    assert Follows(states[k], events[k], states[k + 1]);
    StepOnPackets(states[k], events[k], number);
    if !Tracks(events[k], number) {
      k := TrackedIsAsSent(c, datagram, states, events, k, number);
    }
  }

  // ---------- Round trips ----------

  /** The k-th acked packet of event i is tracked, was sent after some other send, and its ack comes later than the ack
      before that: it yields a sample. */
  ghost predicate YieldsSample(b: Bbr, e: Congestion, k: nat)
    requires k < |e.acked|
  {
    var number, packets := e.acked[k].number, b.sampler.packets;
    && number in packets && packets[number].lastAckedSentTime != NO_TIME && e.time > packets[number].lastAckedAckTime
  }

  lemma SampleOfAck(b: Bbr, e: Congestion, k: nat)
    requires SP.Inv(b.sampler) && SP.AcksInTime(b.sampler, e.time, e.acked) && k < |e.acked|
    requires !b.sampler.overestimateAvoidance
    ensures var sample := SP.SampleAt(LoseAll(SamplerBefore(b, e), e.lost).sampler, e.time, e.acked, k);
            && (sample.state.isValid <==> YieldsSample(b, e, k))
            && (sample.state.isValid ==> sample.rtt == e.time - b.sampler.packets[e.acked[k].number].sentTime)
  {
    hide SP.Inv;
    hide AckAll;
    hide LoseAll;
    hide OnPacketAcknowledged;
    hide FallsIdle;
    SamplerAtAckIsOk(b, e, k);
    SP.SampleIsRoundTrip(SamplerAtAck(b, e, k), e.time, e.acked[k].number);
  }

  lemma EventRttIsExtremal(b: Bbr, e: Congestion) returns (m: nat)
    requires SP.Inv(b.sampler) && SP.AcksInTime(b.sampler, e.time, e.acked) && HasPackets(e)
    requires !b.sampler.overestimateAvoidance
    ensures var rtt := RttAt(b, Congested(e));
            && (forall k :: 0 <= k < |e.acked| && YieldsSample(b, e, k)
                            && e.time > b.sampler.packets[e.acked[k].number].sentTime ==>
                              rtt <= e.time - b.sampler.packets[e.acked[k].number].sentTime)
            && (rtt != INF_RTT ==>
                  && m < |e.acked| && YieldsSample(b, e, m)
                  && rtt == e.time - b.sampler.packets[e.acked[m].number].sentTime)
  {
    hide SP.Inv;
    hide SP.SampleAt;
    hide AckAll;
    hide LoseAll;
    hide FallsIdle;
    m := 0;
    var s := LoseAll(SamplerBefore(b, e), e.lost).sampler;
    SP.EventSampleIsExtremal(s, e.time, e.acked);
    RttIsFold(b, e);
    var rtt := RttAt(b, Congested(e));
    forall k | 0 <= k < |e.acked| && YieldsSample(b, e, k) && e.time > b.sampler.packets[e.acked[k].number].sentTime
      ensures rtt <= e.time - b.sampler.packets[e.acked[k].number].sentTime
    {
      SampleOfAck(b, e, k);
    }
    if rtt != INF_RTT {
      assert e.acked != [];
      m :| 0 <= m < |e.acked| && SP.HasRtt(s, e.time, e.acked, m, rtt);
      SampleOfAck(b, e, m);
    }
  }

  lemma RttIsFold(b: Bbr, e: Congestion)
    requires HasPackets(e)
    ensures RttAt(b, Congested(e))
         == if e.acked == [] then INF_RTT
            else AckAll(LoseAll(SamplerBefore(b, e), e.lost).sampler, e.time, e.acked).rtt
  {
    hide OnAckEventEnd;
    hide AckAll;
    hide LoseAll;
    hide LastState;
    hide FallsIdle;
  }

  /** On every run, an event's RTT is its time minus the time at which one of its acked packets was sent, and for no other
      acked packet that yields a sample is that time shorter. */
  lemma EventRttIsRoundTrip(c: Config, datagram: nat, states: seq<Bbr>, events: seq<Event>, i: nat) returns (m: nat, k: nat)
    requires IsRun(c, datagram, states, events) && i < |events| && HasRtt(states[i], events[i])
    ensures var e := events[i].congestion;
            && m < |e.acked| && k < i && Tracks(events[k], e.acked[m].number)
            && RttAt(states[i], events[i]) == e.time - events[k].time
    ensures forall j :: 0 <= j < i && events[j].Sent? ==>
                          IsLongerRoundTrip(states[i], events[i].congestion, events[j], RttAt(states[i], events[i]))
  {
    hide RttAt;
    hide YieldsSample;
    hide SP.Inv;
    hide Step;
    AlwaysInv(c, datagram, states, events, i);
    assert Follows(states[i], events[i], states[i + 1]);
    SamplerIsPlain(c, datagram, states, events, i);
    var b, e := states[i], events[i].congestion;
    m := EventRttIsExtremal(b, e);
    assert YieldsSample(b, e, m);
    YieldsOnlyTracked(b, e, m);
    k := TrackedIsAsSent(c, datagram, states, events, i, e.acked[m].number);
    forall j | 0 <= j < i && events[j].Sent? ensures IsLongerRoundTrip(b, e, events[j], RttAt(b, events[i])) {
      forall l | 0 <= l < |e.acked| && e.acked[l].number == events[j].number && YieldsSample(b, e, l)
        && e.time > events[j].time
        ensures RttAt(b, events[i]) <= e.time - events[j].time
      {
        YieldsOnlyTracked(b, e, l);
        var sent := TrackedIsAsSent(c, datagram, states, events, i, e.acked[l].number);
        NumbersAreNew(c, datagram, states, events, sent, j);
      }
    }
  }

  lemma YieldsOnlyTracked(b: Bbr, e: Congestion, k: nat)
    requires k < |e.acked| && YieldsSample(b, e, k)
    ensures e.acked[k].number in b.sampler.packets
  {
  }

  /** If the event acks the packet that the call sent, and the ack yields a sample, its round trip is no shorter. */
  ghost predicate IsLongerRoundTrip(b: Bbr, e: Congestion, sent: Event, rtt: int)
    requires sent.Sent?
  {
    forall l :: 0 <= l < |e.acked| && e.acked[l].number == sent.number && YieldsSample(b, e, l) && e.time > sent.time ==>
                  rtt <= e.time - sent.time
  }

  // ---------- The send slope ----------

  /** The last tracked one of some acked packets, or INVALID_PACKET. */
  ghost function LastTracked(events: seq<Event>, n: nat, acked: seq<PacketInfo>): int
    requires n <= |events|
  {
    if acked == [] then INVALID_PACKET
    else
      var number := acked[|acked| - 1].number;
      if IsTracked(events, n, number) then number else LastTracked(events, n, acked[..|acked| - 1])
  }

  /** The packet from which slopes are measured after n calls: the last tracked one that was acked, or one sent later with
      nothing in flight. */
  ghost function Reference(events: seq<Event>, n: nat): int
    requires n <= |events|
  {
    if n == 0 then INVALID_PACKET
    else
      match events[n - 1]
      case Sent(_, bytesInFlight, number, _, isRetransmittable) =>
        if isRetransmittable && bytesInFlight == 0 then number else Reference(events, n - 1)
      case Congested(e) =>
        var number := LastTracked(events, n - 1, e.acked);
        if number == INVALID_PACKET then Reference(events, n - 1) else number
      case DatagramSize(_) => Reference(events, n - 1)
  }

  /** The time of the call that made it the reference: of its ack or, with nothing in flight, of its own send. */
  ghost function ReferenceTime(events: seq<Event>, n: nat): Time
    requires n <= |events|
  {
    if n == 0 then NO_TIME
    else
      match events[n - 1]
      case Sent(time, bytesInFlight, _, _, isRetransmittable) =>
        if isRetransmittable && bytesInFlight == 0 then time else ReferenceTime(events, n - 1)
      case Congested(e) =>
        if LastTracked(events, n - 1, e.acked) == INVALID_PACKET then ReferenceTime(events, n - 1) else e.time
      case DatagramSize(_) => ReferenceTime(events, n - 1)
  }

  /** The last tracked one of some acked packets, as the sampler sees it. */
  ghost function LastIn(packets: map<int, Packet>, acked: seq<PacketInfo>): int {
    if acked == [] then INVALID_PACKET
    else
      var number := acked[|acked| - 1].number;
      if number in packets then number else LastIn(packets, acked[..|acked| - 1])
  }

  ghost predicate RefersTo(s: Sampler, p: Packet, time: Time) {
    s.lastAckedSentTime == p.sentTime && s.sentAtLastAcked == p.state.totalBytesSent && s.lastAckedAckTime == time
  }

  ghost predicate SameReference(s: Sampler, t: Sampler) {
    && s.lastAckedSentTime == t.lastAckedSentTime && s.sentAtLastAcked == t.sentAtLastAcked
    && s.lastAckedAckTime == t.lastAckedAckTime
  }

  lemma AckRefers(s: Sampler, time: Time, number: int)
    ensures var t := OnPacketAcknowledged(s, time, number).0;
            && t.packets == s.packets
            && if number in s.packets then RefersTo(t, s.packets[number], time) else SameReference(s, t)
  {
    hide PrunedA0;
    hide ChosenA0;
    hide BandwidthFromDelta;
  }

  lemma {:induction false} AcksRefer(s: Sampler, time: Time, acked: seq<PacketInfo>)
    requires forall k :: k in s.packets ==> k >= 0
    ensures var t, number := AckAll(s, time, acked).sampler, LastIn(s.packets, acked);
            && t.packets == s.packets
            && if number in s.packets then RefersTo(t, s.packets[number], time)
               else number == INVALID_PACKET && SameReference(s, t)
  {
    hide OnPacketAcknowledged;
    if acked != [] {
      var n := |acked| - 1;
      AcksRefer(s, time, acked[..n]);
      AckRefers(AckAll(s, time, acked[..n]).sampler, time, acked[n].number);
    }
  }

  lemma EventRefers(b: Bbr, e: Congestion)
    requires Inv(b) && Allowed(b, Congested(e))
    ensures var s, t, number := b.sampler, OnCongestion(b, e).sampler, LastIn(b.sampler.packets, e.acked);
            if number in s.packets then RefersTo(t, s.packets[number], e.time)
            else number == INVALID_PACKET && SameReference(s, t)
  {
    hide SP.Inv;
    hide OnCongestion;
    hide AckAll;
    hide LoseAll;
    hide OnAckEventEnd;
    hide LastState;
    hide FallsIdle;
    hide RoundsAfter;
    var _ := EventOnSampler(b, e);
    var s := SamplerBefore(b, e);
    SP.LossesOnlyAdd(s, e.lost);
    forall k | k in s.packets ensures k >= 0 {
      PacketNumbersAreNatural(b.sampler, k);
    }
    AcksRefer(LoseAll(s, e.lost).sampler, e.time, e.acked);
    EventEndRefers(AckAll(LoseAll(s, e.lost).sampler, e.time, e.acked).sampler);
  }

  lemma PacketNumbersAreNatural(s: Sampler, k: int)
    requires SP.Inv(s) && k in s.packets
    ensures k >= 0
  {
    assert SP.PacketOk(s, k);
  }

  lemma EventEndRefers(s: Sampler)
    ensures forall bandwidth: Bandwidth, isNew, round: nat :: SameReference(s, OnAckEventEnd(s, bandwidth, isNew, round).0)
  {
    hide AckHeights.UpdatedTracker;
  }

  lemma {:induction false} LastTrackedExactly(c: Config, datagram: nat, states: seq<Bbr>, events: seq<Event>, n: nat,
                                              acked: seq<PacketInfo>)
    requires IsRun(c, datagram, states, events) && n < |states|
    ensures LastIn(states[n].sampler.packets, acked) == LastTracked(events, n, acked)
  {
    hide IsTracked;
    hide Follows;
    if acked != [] {
      TrackedExactly(c, datagram, states, events, n, acked[|acked| - 1].number);
      LastTrackedExactly(c, datagram, states, events, n, acked[..|acked| - 1]);
    }
  }

  /** On every run, the sampler measures send slopes from the reference packet, from its send time and from the bytes sent up
      to and including it, and ack slopes from the reference time. */
  lemma {:induction false} ReferenceIsExact(c: Config, datagram: nat, states: seq<Bbr>, events: seq<Event>, n: nat) returns (k: nat)
    requires IsRun(c, datagram, states, events) && n < |states|
    ensures var s, number := states[n].sampler, Reference(events, n);
            && s.lastAckedAckTime == ReferenceTime(events, n)
            && if number == INVALID_PACKET then s.lastAckedSentTime == NO_TIME && s.sentAtLastAcked == 0
            else
              && k < n && Tracks(events[k], number)
              && s.lastAckedSentTime == events[k].time && s.sentAtLastAcked == states[k + 1].sampler.totalBytesSent
  {
    hide SP.Inv;
    hide OnCongestion;
    hide OnPacketSent;
    hide LastTracked;
    hide LastIn;
    k := 0;
    if n > 0 {
      var b, e := states[n - 1], events[n - 1];
      k := ReferenceIsExact(c, datagram, states, events, n - 1);
      AlwaysInv(c, datagram, states, events, n - 1);
      assert Follows(b, e, states[n - 1 + 1]);
      if e.Congested? {
        EventRefers(b, e.congestion);
        LastTrackedExactly(c, datagram, states, events, n - 1, e.congestion.acked);
        var number := LastTracked(events, n - 1, e.congestion.acked);
        if number in b.sampler.packets {
          PacketNumbersAreNatural(b.sampler, number);
          k := TrackedIsAsSent(c, datagram, states, events, n - 1, number);
        }
      } else if e.Sent? {
        SendRefers(b.sampler, e.time, e.number, e.bytes, e.bytesInFlight, e.isRetransmittable);
        if e.isRetransmittable && e.bytesInFlight == 0 {
          k := n - 1;
        }
      }
    }
  }

  lemma SendRefers(s: Sampler, time: Time, number: nat, bytes: nat, bytesInFlight: nat, isRetransmittable: bool)
    ensures var t := OnPacketSent(s, time, number, bytes, bytesInFlight, isRetransmittable);
            if isRetransmittable && bytesInFlight == 0
            then t.lastAckedSentTime == time && t.lastAckedAckTime == time && t.sentAtLastAcked == t.totalBytesSent
            else SameReference(s, t)
  {
  }

  /** The bytes of the congestion-controlled packets that the calls from l up to, but not including, n send. */
  ghost function BytesBetween(events: seq<Event>, l: nat, n: nat): nat
    requires l <= n <= |events|
  {
    if l == n then 0
    else
      var e := events[n - 1];
      BytesBetween(events, l, n - 1) + if e.Sent? && e.isRetransmittable then e.bytes else 0
  }

  lemma StepOnBytesSent(b: Bbr, e: Event)
    requires Inv(b) && Allowed(b, e)
    ensures Step(b, e).sampler.totalBytesSent
         == b.sampler.totalBytesSent + if e.Sent? && e.isRetransmittable then e.bytes else 0
  {
    hide SP.Inv;
    if e.Congested? {
      hide OnCongestion;
      hide OnCongestionEvent;
      hide FallsIdle;
      hide RoundsAfter;
      var c := e.congestion;
      var _ := EventOnSampler(b, c);
      PreparedIsReady(b, c);
      SP.EventKeepsInv(SamplerBefore(b, c), c.time, c.acked, c.lost, b.maxBandwidth.best.sample, INF_BANDWIDTH,
                       RoundsAfter(b, c).count);
    }
  }

  lemma {:induction false} BytesSentBetween(c: Config, datagram: nat, states: seq<Bbr>, events: seq<Event>, l: nat, n: nat)
    requires IsRun(c, datagram, states, events) && l <= n < |states|
    ensures states[n].sampler.totalBytesSent == states[l].sampler.totalBytesSent + BytesBetween(events, l, n)
  {
    hide Inv;
    hide Step;
    hide Allowed;
    if l < n {
      BytesSentBetween(c, datagram, states, events, l, n - 1);
      AlwaysInv(c, datagram, states, events, n - 1);
      assert Follows(states[n - 1], events[n - 1], states[n - 1 + 1]);
      StepOnBytesSent(states[n - 1], events[n - 1]);
    }
  }

  /** On every run, the send slope of a tracked packet spans exactly what was sent after its reference packet up to and
      including the packet itself, over the time between the two sends, and its ack slope starts from what was acked when it
      was sent and from the reference time. */
  lemma SendSlopeIsBetweenSends(c: Config, datagram: nat, states: seq<Bbr>, events: seq<Event>, n: nat, number: int)
    returns (l: nat, k: nat)
    requires IsRun(c, datagram, states, events) && n < |states| && number in states[n].sampler.packets
    requires states[n].sampler.packets[number].lastAckedSentTime != NO_TIME
    ensures var p := states[n].sampler.packets[number];
            && l <= k < n && Tracks(events[k], number) && Tracks(events[l], Reference(events, k + 1))
            && p.sentTime - p.lastAckedSentTime == events[k].time - events[l].time
            && p.state.totalBytesSent - p.sentAtLastAcked == BytesBetween(events, l + 1, k + 1)
            && p.state.totalBytesAcked == states[k].sampler.totalBytesAcked
            && p.lastAckedAckTime == ReferenceTime(events, k + 1)
  {
    hide Inv;
    hide Step;
    hide Allowed;
    hide Reference;
    k := TrackedIsAsSent(c, datagram, states, events, n, number);
    l := ReferenceIsExact(c, datagram, states, events, k + 1);
    BytesSentBetween(c, datagram, states, events, l + 1, k + 1);
  }
}
